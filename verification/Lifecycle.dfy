/**
  The lifecycle command queue of src/mb-daemon.c: deduplicating enqueue, one
  idle callback that processes one command at a time, and dropping a device.
 */
module Lifecycle {
  import opened Bytes
  import opened Wrappers
  import S = Session

  type DeviceId = nat

  datatype Kind = DISCOVER | CONNECT | DISCONNECT | RECHECK | MARK_DISCONNECTED | SESSION_EVENT

  /** A queued command; `ticket` is its identity, in order of creation. */
  datatype Command = Command(ticket: nat, kind: Kind, dev: DeviceId, event: S.Event)

  /** The fields under the lifecycle lock; `scheduled` when an idle source exists. */
  datatype Queue = Queue(items: seq<Command>, busy: bool, scheduled: bool, next: nat)

  const FRESH := Queue([], false, false, 0)

  predicate Pending(items: seq<Command>, dev: DeviceId, kind: Kind) {
    exists i | 0 <= i < |items| :: items[i].dev == dev && items[i].kind == kind
  }

  function Pushed(q: Queue, kind: Kind, dev: DeviceId, event: S.Event): Queue {
    q.(items := q.items + [Command(q.next, kind, dev, event)], next := q.next + 1)
  }

  /** The commands of all other devices, in their order. */
  function Without(items: seq<Command>, dev: DeviceId): (kept: seq<Command>)
    ensures |kept| <= |items|
  {
    if items == [] then []
    else
      var kept := Without(items[..|items| - 1], dev);
      var last := items[|items| - 1];
      if last.dev == dev then kept else kept + [last]
  }

  /** They are exactly the commands of other devices. */
  lemma {:induction false} WithoutHas(items: seq<Command>, dev: DeviceId)
    ensures forall c :: c in Without(items, dev) <==> c in items && c.dev != dev
  {
    if items != [] {
      var n := |items| - 1;
      WithoutHas(items[..n], dev);
      assert items == items[..n] + [items[n]];
    }
  }

  lemma {:induction false} WithoutFirst(items: seq<Command>, dev: DeviceId)
    requires items != []
    ensures Without(items, dev) == (if items[0].dev == dev then [] else [items[0]]) + Without(items[1..], dev)
  {
    var n := |items| - 1;
    if n == 0 {
      assert items[..0] == [] && items[1..] == [];
    } else {
      var first, last := if items[0].dev == dev then [] else [items[0]], if items[n].dev == dev then [] else [items[n]];
      WithoutFirst(items[..n], dev);
      assert items[..n][1..] == items[1..][..n - 1] && items[1..][n - 1] == items[n];
      Associate(first, Without(items[1..][..n - 1], dev), last);
    }
  }

  /** The idle callback starts: it takes the first command unless one is in progress. */
  function Begun(q: Queue): (Queue, Option<Command>) {
    if q.busy || q.items == [] then (q.(scheduled := false), None)
    else (q.(scheduled := false, items := q.items[1..], busy := true), Some(q.items[0]))
  }

  // ---- what the operations mean for the queue ----

  /** A command of this device and this kind. */
  predicate Is(c: Command, dev: DeviceId, kind: Kind) {
    c.dev == dev && c.kind == kind
  }

  /**
    One command of the device and kind more, at the end, exactly when none was
    queued; in any case one is queued afterwards.
   */
  ghost predicate Requested(before: seq<Command>, after: seq<Command>, dev: DeviceId, kind: Kind) {
    && (exists c :: c in after && Is(c, dev, kind))
    && if exists c :: c in before && Is(c, dev, kind) then after == before
       else |after| == |before| + 1 && after[..|before|] == before && Is(after[|before|], dev, kind)
  }

  ghost predicate EventAppended(before: seq<Command>, after: seq<Command>, dev: DeviceId, event: S.Event) {
    && |after| == |before| + 1 && after[..|before|] == before
    && Is(after[|before|], dev, SESSION_EVENT) && after[|before|].event == event
  }

  lemma PendingMeans(items: seq<Command>, dev: DeviceId, kind: Kind)
    ensures Pending(items, dev, kind) <==> exists c :: c in items && Is(c, dev, kind)
  {
    if c :| c in items && Is(c, dev, kind) {
      var i :| 0 <= i < |items| && items[i] == c;
    }
    if Pending(items, dev, kind) {
      var i :| 0 <= i < |items| && items[i].dev == dev && items[i].kind == kind;
      assert items[i] in items && Is(items[i], dev, kind);
    }
  }

  lemma AppendedIsRequested(before: seq<Command>, c: Command)
    requires !exists d :: d in before && Is(d, c.dev, c.kind)
    ensures Requested(before, before + [c], c.dev, c.kind)
  {
    assert (before + [c])[|before|] == c && c in before + [c] && Is(c, c.dev, c.kind);
    assert (before + [c])[..|before|] == before;
  }

  class LifecycleQueue {
    var items: seq<Command>
    var busy: bool
    var scheduled: bool
    var next: nat

    ghost function Value(): Queue
      reads this
    {
      Queue(items, busy, scheduled, next)
    }

    constructor ()
      ensures Value() == FRESH
    {
      items, busy, scheduled, next := [], false, false, 0;
    }

    method HasPending(dev: DeviceId, kind: Kind) returns (found: bool)
      ensures found <==> Pending(items, dev, kind)
      ensures found <==> exists c :: c in items && c.dev == dev && c.kind == kind
    {
      PendingMeans(items, dev, kind);
      var i := 0;
      while i < |items|
        invariant 0 <= i <= |items|
        invariant forall k | 0 <= k < i :: !(items[k].dev == dev && items[k].kind == kind)
      {
        if items[i].dev == dev && items[i].kind == kind {
          return true;
        }
        i := i + 1;
      }
      return false;
    }

    method Schedule()
      modifies this`scheduled
      ensures scheduled
    {
      if !scheduled {
        scheduled := true;
      }
    }

    /** One more command of the kind, unless the device already has one queued. */
    method Enqueue(dev: DeviceId, kind: Kind)
      modifies this
      ensures Value() == if Pending(old(items), dev, kind) then old(Value())
                         else Pushed(old(Value()), kind, dev, S.CmdScan).(scheduled := true)
      ensures Requested(old(items), items, dev, kind)
    {
      PendingMeans(items, dev, kind);
      var pending := HasPending(dev, kind);
      if pending {
        return;
      }
      AppendedIsRequested(items, Command(next, kind, dev, S.CmdScan));
      items := items + [Command(next, kind, dev, S.CmdScan)];
      next := next + 1;
      Schedule();
    }

    method EnqueueEvent(dev: DeviceId, event: S.Event)
      modifies this
      ensures Value() == Pushed(old(Value()), SESSION_EVENT, dev, event).(scheduled := true)
      ensures EventAppended(old(items), items, dev, event)
    {
      items := items + [Command(next, SESSION_EVENT, dev, event)];
      next := next + 1;
      Schedule();
    }

    /** The first locked section of the idle callback. */
    method ProcessBegin() returns (cmd: Option<Command>)
      modifies this
      ensures (Value(), cmd) == Begun(old(Value()))
    {
      scheduled := false;
      if busy {
        return None;
      }
      if |items| == 0 {
        return None;
      }
      cmd := Some(items[0]);
      items := items[1..];
      busy := true;
    }

    /** The last locked section of the idle callback, and the rescheduling. */
    method ProcessEnd()
      modifies this
      ensures Value() == old(Value()).(busy := false, scheduled := old(scheduled) || old(items) != [])
    {
      busy := false;
      var hasMore := |items| != 0;
      if hasMore {
        Schedule();
      }
    }

    /** The commands of other devices are set aside, in order. */
    method SetAside(dev: DeviceId) returns (kept: seq<Command>)
      modifies this`items
      ensures items == [] && kept == Without(old(items), dev)
    {
      kept := [];
      while |items| != 0
        invariant kept + Without(items, dev) == Without(old(items), dev)
        decreases |items|
      {
        var cmd := items[0];
        WithoutFirst(items, dev);
        items := items[1..];
        if cmd.dev != dev {
          Associate(kept, [cmd], Without(items, dev));
          kept := kept + [cmd];
        }
      }
    }

    /** Dropping a device is a stable filter. */
    method DropDevice(dev: DeviceId)
      modifies this`items
      ensures items == Without(old(items), dev)
    {
      var kept := SetAside(dev);
      ghost var whole := kept;
      while |kept| != 0
        invariant items + kept == whole
        decreases |kept|
      {
        items := items + [kept[0]];
        kept := kept[1..];
      }
    }
  }

  // ---- many threads ----

  type Thread = nat

  /**
    `owing` are the threads that have changed the queue and still have to make
    sure a callback is scheduled; `worker` is the thread processing a command.
    `popped` and `dropped` record what has left the queue.
   */
  datatype System = System(q: Queue, owing: set<Thread>, worker: Option<Thread>,
                           popped: seq<Command>, dropped: multiset<Command>, pushed: seq<Command>)

  const START := System(FRESH, {}, None, [], multiset{}, [])

  /** One locked section, or one scheduling section, of one thread. */
  datatype Step =
    | Push(t: Thread, kind: Kind, dev: DeviceId)
    | PushEvent(t: Thread, dev: DeviceId, event: S.Event)
    | Schedule(t: Thread)
    | Fire(t: Thread)
    | Finish(t: Thread)
    | Drop(t: Thread, dev: DeviceId)

  /** A thread that owes a scheduling does nothing else first; callbacks fire only when scheduled. */
  predicate Enabled(s: System, step: Step) {
    match step
    case Push(t, _, _) => t !in s.owing
    case PushEvent(t, _, _) => t !in s.owing
    case Schedule(t) => t in s.owing
    case Fire(t) => s.q.scheduled && t !in s.owing
    case Finish(t) => s.worker == Some(t) && t !in s.owing
    case Drop(t, _) => t !in s.owing
  }

  function Removed(items: seq<Command>, dev: DeviceId): multiset<Command> {
    multiset(items) - multiset(Without(items, dev))
  }

  function AfterPush(s: System, t: Thread, kind: Kind, dev: DeviceId, event: S.Event): System {
    var q := Pushed(s.q, kind, dev, event);
    s.(q := q, owing := s.owing + {t}, pushed := s.pushed + [q.items[|q.items| - 1]])
  }

  function After(s: System, step: Step): System
    requires Enabled(s, step)
  {
    match step
    case Push(t, kind, dev) =>
      if Pending(s.q.items, dev, kind) then s else AfterPush(s, t, kind, dev, S.CmdScan)
    case PushEvent(t, dev, event) => AfterPush(s, t, SESSION_EVENT, dev, event)
    case Schedule(t) => s.(q := s.q.(scheduled := true), owing := s.owing - {t})
    case Fire(t) =>
      var (q, cmd) := Begun(s.q);
      if cmd.None? then s.(q := q) else s.(q := q, worker := Some(t), popped := s.popped + [cmd.value])
    case Finish(t) =>
      s.(q := s.q.(busy := false), worker := None, owing := if s.q.items != [] then s.owing + {t} else s.owing)
    case Drop(_, dev) =>
      s.(q := s.q.(items := Without(s.q.items, dev)), dropped := s.dropped + Removed(s.q.items, dev))
  }

  // ---- invariants ----

  /** At most one queued command per device and kind, session events apart. */
  ghost predicate NoDuplicates(items: seq<Command>) {
    forall i, j | 0 <= i < j < |items| ::
      items[i].dev == items[j].dev && items[i].kind == items[j].kind ==> items[i].kind == SESSION_EVENT
  }

  ghost predicate InOrder(items: seq<Command>, next: nat) {
    && (forall i, j | 0 <= i < j < |items| :: items[i].ticket < items[j].ticket)
    && (forall i | 0 <= i < |items| :: items[i].ticket < next)
  }

  ghost predicate Inv(s: System) {
    && (s.q.busy <==> s.worker.Some?)
    && (s.q.items != [] ==> s.q.scheduled || s.q.busy || s.owing != {})
    && NoDuplicates(s.q.items)
    && InOrder(s.popped + s.q.items, s.q.next)
    && InOrder(s.pushed, s.q.next)
    && multiset(s.pushed) == multiset(s.popped) + multiset(s.q.items) + s.dropped
  }

  lemma InOrderSnoc(s: seq<Command>, last: Command, next: nat)
    requires InOrder(s, next) && last.ticket < next && forall c | c in s :: c.ticket < last.ticket
    ensures InOrder(s + [last], next)
  {
  }

  /** A filtered queue is a subsequence: two kept commands keep their order. */
  lemma {:induction false} WithoutKeepsOrder(before: seq<Command>, items: seq<Command>, dev: DeviceId, next: nat)
    requires InOrder(before + items, next)
    ensures InOrder(before + Without(items, dev), next)
  {
    if items != [] {
      var n := |items| - 1;
      var earlier, last := before + items[..n], items[n];
      assert before + items == earlier + [last];
      assert earlier == (before + items)[..|earlier|];
      WithoutKeepsOrder(before, items[..n], dev, next);
      if last.dev != dev {
        var kept := Without(items[..n], dev);
        EarlierTickets(earlier, last, next);
        WithoutHas(items[..n], dev);
        InOrderSnoc(before + kept, last, next);
        Associate(before, kept, [last]);
      }
    }
  }

  lemma EarlierTickets(s: seq<Command>, last: Command, next: nat)
    requires InOrder(s + [last], next)
    ensures InOrder(s, next) && last.ticket < next && forall c | c in s :: c.ticket < last.ticket
  {
    var all := s + [last];
    assert all[|s|] == last;
    forall c | c in s ensures c.ticket < last.ticket {
      var i :| 0 <= i < |s| && s[i] == c;
      assert all[i] == c;
    }
    assert s == all[..|s|];
  }

  lemma {:induction false} WithoutIsPart(items: seq<Command>, dev: DeviceId)
    ensures multiset(Without(items, dev)) <= multiset(items)
  {
    if items != [] {
      var n := |items| - 1;
      WithoutIsPart(items[..n], dev);
      assert items == items[..n] + [items[n]];
    }
  }

  lemma NoDuplicatesSnoc(items: seq<Command>, c: Command)
    requires NoDuplicates(items)
    requires forall d | d in items :: d.dev == c.dev && d.kind == c.kind ==> d.kind == SESSION_EVENT
    ensures NoDuplicates(items + [c])
  {
  }

  lemma {:induction false} WithoutKeepsDistinct(items: seq<Command>, dev: DeviceId)
    requires NoDuplicates(items)
    ensures NoDuplicates(Without(items, dev))
  {
    if items != [] {
      var n := |items| - 1;
      WithoutKeepsDistinct(items[..n], dev);
      WithoutHas(items[..n], dev);
      var kept := Without(items[..n], dev);
      forall d | d in kept ensures d.dev == items[n].dev && d.kind == items[n].kind ==> d.kind == SESSION_EVENT {
        assert d in items[..n];
      }
      NoDuplicatesSnoc(kept, items[n]);
    }
  }

  lemma {:induction false} PushKeeps(s: System, t: Thread, kind: Kind, dev: DeviceId, event: S.Event)
    requires Inv(s) && (kind == SESSION_EVENT || !Pending(s.q.items, dev, kind))
    ensures Inv(AfterPush(s, t, kind, dev, event))
  {
    var s' := AfterPush(s, t, kind, dev, event);
    assert t in s'.owing;
    assert s.popped + s'.q.items == s.popped + s.q.items + [s'.q.items[|s.q.items|]];
  }

  lemma {:induction false} FireKeeps(s: System, t: Thread)
    requires Inv(s) && Enabled(s, Fire(t))
    ensures Inv(After(s, Fire(t)))
  {
    var s' := After(s, Fire(t));
    if !s.q.busy && s.q.items != [] {
      var c := s.q.items[0];
      assert s.q.items == [c] + s.q.items[1..];
      assert s'.popped + s'.q.items == s.popped + s.q.items;
    }
  }

  lemma {:induction false} DropKeeps(s: System, t: Thread, dev: DeviceId)
    requires Inv(s) && Enabled(s, Drop(t, dev))
    ensures Inv(After(s, Drop(t, dev)))
  {
    WithoutKeepsOrder(s.popped, s.q.items, dev, s.q.next);
    WithoutKeepsDistinct(s.q.items, dev);
    WithoutIsPart(s.q.items, dev);
  }

  lemma {:induction false} StepKeeps(s: System, step: Step)
    requires Inv(s) && Enabled(s, step)
    ensures Inv(After(s, step))
  {
    match step
    case Push(t, kind, dev) =>
      if !Pending(s.q.items, dev, kind) {
        PushKeeps(s, t, kind, dev, S.CmdScan);
      }
    case PushEvent(t, dev, event) => PushKeeps(s, t, SESSION_EVENT, dev, event);
    case Schedule(t) =>
    case Fire(t) => FireKeeps(s, t);
    case Finish(t) =>
      if s.q.items != [] {
        assert t in After(s, step).owing;
      }
    case Drop(t, dev) => DropKeeps(s, t, dev);
  }

  ghost predicate IsRun(s: System, steps: seq<Step>)
    decreases |steps|
  {
    steps != [] ==> Enabled(s, steps[0]) && IsRun(After(s, steps[0]), steps[1..])
  }

  function End(s: System, steps: seq<Step>): System
    requires IsRun(s, steps)
    decreases |steps|
  {
    if steps == [] then s else End(After(s, steps[0]), steps[1..])
  }

  lemma {:induction false} EveryRunKeeps(s: System, steps: seq<Step>)
    requires Inv(s) && IsRun(s, steps)
    ensures Inv(End(s, steps))
    decreases |steps|
  {
    if steps != [] {
      StepKeeps(s, steps[0]);
      EveryRunKeeps(After(s, steps[0]), steps[1..]);
    }
  }

  /**
    Whatever the threads do, in any interleaving: when none is inside these
    functions, a non-empty queue has a callback scheduled; no device has two
    queued commands of one kind, events apart.
   */
  lemma NothingIsForgotten(steps: seq<Step>)
    requires IsRun(START, steps)
    ensures var s := End(START, steps);
            && (s.owing == {} && s.worker.None? && s.q.items != [] ==> s.q.scheduled)
            && NoDuplicates(s.q.items)
  {
    EveryRunKeeps(START, steps);
  }

  /**
    First in, first out, and nothing lost: every command ever pushed has been
    processed, dropped or is still queued, once; whatever was processed was pushed
    before everything processed later and before everything still queued.
   */
  lemma FirstInFirstOut(steps: seq<Step>)
    requires IsRun(START, steps)
    ensures var s := End(START, steps);
            && multiset(s.pushed) == multiset(s.popped) + multiset(s.q.items) + s.dropped
            && (forall i, j | 0 <= i < j < |s.pushed| :: s.pushed[i].ticket < s.pushed[j].ticket)
            && (forall i, j | 0 <= i < j < |s.popped| :: s.popped[i].ticket < s.popped[j].ticket)
            && (forall c, d | c in s.popped && d in s.q.items :: c.ticket < d.ticket)
  {
    EveryRunKeeps(START, steps);
    var s := End(START, steps);
    OrderOfParts(s.popped, s.q.items, s.q.next);
  }

  lemma OrderOfParts(popped: seq<Command>, items: seq<Command>, next: nat)
    requires InOrder(popped + items, next)
    ensures InOrder(popped, next)
    ensures forall c, d | c in popped && d in items :: c.ticket < d.ticket
  {
    var all := popped + items;
    assert popped == all[..|popped|];
    forall c, d | c in popped && d in items ensures c.ticket < d.ticket {
      var i :| 0 <= i < |popped| && popped[i] == c;
      var j :| 0 <= j < |items| && items[j] == d;
      assert all[i] == c && all[|popped| + j] == d;
    }
  }

  // ---- requests ----

  /** What each locked section does to the queue, said by its effect on the commands. */
  lemma {:induction false} PushRequests(s: System, t: Thread, kind: Kind, dev: DeviceId)
    requires Enabled(s, Push(t, kind, dev))
    ensures Requested(s.q.items, After(s, Push(t, kind, dev)).q.items, dev, kind)
  {
    PendingMeans(s.q.items, dev, kind);
    if !Pending(s.q.items, dev, kind) {
      AppendedIsRequested(s.q.items, Command(s.q.next, kind, dev, S.CmdScan));
    }
  }

  lemma EventIsAppended(s: System, t: Thread, dev: DeviceId, event: S.Event)
    requires Enabled(s, PushEvent(t, dev, event))
    ensures EventAppended(s.q.items, After(s, PushEvent(t, dev, event)).q.items, dev, event)
  {
  }

  /** A callback takes the first command when none is in progress, and otherwise nothing. */
  lemma {:induction false} FireTakesFirst(s: System, t: Thread)
    requires Enabled(s, Fire(t))
    ensures var u := After(s, Fire(t));
            if s.q.busy || s.q.items == [] then u.q.items == s.q.items && u.popped == s.popped && u.q.busy == s.q.busy
            else && [u.popped[|s.popped|]] + u.q.items == s.q.items && u.popped[..|s.popped|] == s.popped
                 && |u.popped| == |s.popped| + 1 && u.q.busy && u.worker == Some(t)
  {
    if !s.q.busy && s.q.items != [] {
      assert [s.q.items[0]] + s.q.items[1..] == s.q.items;
    }
  }

  /** Dropping a device takes out its commands and no other, and keeps the order of the others. */
  lemma {:induction false} DropTakesOwn(s: System, t: Thread, dev: DeviceId)
    requires Inv(s) && Enabled(s, Drop(t, dev))
    ensures var u := After(s, Drop(t, dev));
            && (forall c :: c in u.q.items <==> c in s.q.items && c.dev != dev)
            && (forall i, j | 0 <= i < j < |u.q.items| :: u.q.items[i].ticket < u.q.items[j].ticket)
  {
    WithoutHas(s.q.items, dev);
    DropKeeps(s, t, dev);
    var u := After(s, Drop(t, dev));
    OrderOfParts(u.popped, u.q.items, u.q.next);
    TicketsOfItems(u);
  }

  lemma TicketsOfItems(s: System)
    requires InOrder(s.popped + s.q.items, s.q.next)
    ensures forall i, j | 0 <= i < j < |s.q.items| :: s.q.items[i].ticket < s.q.items[j].ticket
  {
    var all := s.popped + s.q.items;
    forall i, j | 0 <= i < j < |s.q.items| ensures s.q.items[i].ticket < s.q.items[j].ticket {
      assert all[|s.popped| + i] == s.q.items[i] && all[|s.popped| + j] == s.q.items[j];
    }
  }

  /** No section of the run drops the device. */
  predicate NotDropped(steps: seq<Step>, dev: DeviceId) {
    forall i | 0 <= i < |steps| :: steps[i].Drop? ==> steps[i].dev != dev
  }

  lemma {:induction false} StepKeepsCommand(s: System, step: Step, c: Command)
    requires Enabled(s, step) && c in s.q.items && (step.Drop? ==> step.dev != c.dev)
    ensures var u := After(s, step);
            s.popped <= u.popped && (c in u.q.items || c in u.popped[|s.popped|..])
  {
    match step
    case Drop(_, dev) => WithoutHas(s.q.items, dev);
    case Fire(t) =>
      FireTakesFirst(s, t);
      if !s.q.busy {
        var u := After(s, step);
        assert u.popped[|s.popped|..] == [u.popped[|s.popped|]];
      }
    case _ =>
  }

  lemma {:induction false} PoppedGrows(s: System, steps: seq<Step>)
    requires IsRun(s, steps)
    ensures s.popped <= End(s, steps).popped
    decreases |steps|
  {
    if steps != [] {
      PoppedGrows(After(s, steps[0]), steps[1..]);
    }
  }

  /** What was taken up in a first part of a run or in a second one was taken up in the whole. */
  lemma TakenUp(a: seq<Command>, b: seq<Command>, d: seq<Command>, c: Command)
    requires a <= b <= d && (c in b[|a|..] || c in d[|b|..])
    ensures a <= d && c in d[|a|..]
  {
    assert d[|a|..] == b[|a|..] + d[|b|..];
  }

  lemma NotDroppedLater(steps: seq<Step>, dev: DeviceId)
    requires steps != [] && NotDropped(steps, dev)
    ensures NotDropped(steps[1..], dev) && (steps[0].Drop? ==> steps[0].dev != dev)
  {
    forall i | 0 <= i < |steps[1..]| ensures steps[1..][i].Drop? ==> steps[1..][i].dev != dev {
      assert steps[1..][i] == steps[i + 1];
    }
  }

  /** A queued command is processed or still queued, unless its device is dropped. */
  lemma {:induction false} CommandIsServed(s: System, steps: seq<Step>, c: Command)
    requires IsRun(s, steps) && c in s.q.items && NotDropped(steps, c.dev)
    ensures var u := End(s, steps);
            s.popped <= u.popped && (c in u.q.items || c in u.popped[|s.popped|..])
    decreases |steps|
  {
    if steps != [] {
      var n, u := After(s, steps[0]), End(s, steps);
      NotDroppedLater(steps, c.dev);
      StepKeepsCommand(s, steps[0], c);
      PoppedGrows(n, steps[1..]);
      if c in n.q.items {
        CommandIsServed(n, steps[1..], c);
      }
      if c !in u.q.items {
        TakenUp(s.popped, n.popped, u.popped, c);
      }
    }
  }

  /**
    No request is lost to another one: after a device has been asked for, in any
    interleaving, a command of that device and kind is still queued or has been
    taken up since, unless the device was dropped.
   */
  lemma {:induction false} RequestIsServed(s: System, t: Thread, kind: Kind, dev: DeviceId, steps: seq<Step>)
    requires IsRun(s, [Push(t, kind, dev)] + steps) && NotDropped(steps, dev)
    ensures var u := End(s, [Push(t, kind, dev)] + steps);
            && s.popped <= u.popped
            && exists c :: Is(c, dev, kind) && (c in u.q.items || c in u.popped[|s.popped|..])
  {
    assert ([Push(t, kind, dev)] + steps)[1..] == steps;
    PushRequests(s, t, kind, dev);
    var n := After(s, Push(t, kind, dev));
    var c :| c in n.q.items && Is(c, dev, kind);
    CommandIsServed(n, steps, c);
  }

  /** An event is never merged with another: it is still queued or has been taken up, with what it carries. */
  lemma {:induction false} EventIsServed(s: System, t: Thread, dev: DeviceId, event: S.Event, steps: seq<Step>)
    requires IsRun(s, [PushEvent(t, dev, event)] + steps) && NotDropped(steps, dev)
    ensures var u, c := End(s, [PushEvent(t, dev, event)] + steps), Command(s.q.next, SESSION_EVENT, dev, event);
            s.popped <= u.popped && (c in u.q.items || c in u.popped[|s.popped|..])
  {
    assert ([PushEvent(t, dev, event)] + steps)[1..] == steps;
    var n := After(s, PushEvent(t, dev, event));
    CommandIsServed(n, steps, n.q.items[|s.q.items|]);
  }
}
