/**
  What holds in every reachable state of the queue machine, and over whole
  runs: order and content, ownership of frames, absence of races, wake-up,
  stop, and the ways a push can fail.
 */
module QueueTheorems {
  import opened Bytes
  import opened FrameModel
  import opened RingModel
  import opened QueueSteps
  import opened QueueControl
  import opened QueueData
  import opened QueueProof

  // ---- runs ----

  predicate CanRun(s: State, acts: seq<Action>)
    decreases |acts|
  {
    acts == [] || (Enabled(s, acts[0]) && CanRun(Do(s, acts[0]), acts[1..]))
  }

  function RunOf(s: State, acts: seq<Action>): State
    requires CanRun(s, acts)
    decreases |acts|
  {
    if acts == [] then s else RunOf(Do(s, acts[0]), acts[1..])
  }

  ghost predicate Reachable(s: State) {
    exists acts :: CanRun(Start(), acts) && RunOf(Start(), acts) == s
  }

  lemma {:induction false} RunKeeps(s: State, acts: seq<Action>)
    requires Inv(s) && CanRun(s, acts)
    ensures Inv(RunOf(s, acts))
    decreases |acts|
  {
    if acts != [] {
      StepKeeps(s, acts[0]);
      RunKeeps(Do(s, acts[0]), acts[1..]);
    }
  }

  lemma ReachableHolds(s: State)
    requires Reachable(s)
    ensures Inv(s)
  {
    var acts :| CanRun(Start(), acts) && RunOf(Start(), acts) == s;
    StartHolds();
    RunKeeps(Start(), acts);
  }

  /** The range checks of the machine never hold a thread back. */
  lemma NoAccessOutOfRange(s: State)
    requires Reachable(s)
    ensures ProducerSafe(s.c, s.m) && WorkerSafe(s.c, s.m)
  {
    ReachableHolds(s);
    AccessesInRange(s.c, s.m);
  }

  // ---- order and content ----

  /** What a step publishes, `current` being the arguments of the push in progress. */
  function PublishedBy(s: State, a: Action, current: Delivery): seq<Delivery> {
    if a == ProducerStep && s.c.p == PPublish then [current] else []
  }

  /** The arguments of the push in progress after a step. */
  function CurrentAfter(a: Action, current: Delivery): Delivery {
    if a.Push? && |a.data| <= CAPACITY then Delivery(a.data, a.epoch, a.timestamp) else current
  }

  /** The arguments of the pushes that get published during a run, read off the run itself. */
  function Accepted(s: State, acts: seq<Action>, current: Delivery): seq<Delivery>
    requires CanRun(s, acts)
    decreases |acts|
  {
    if acts == [] then []
    else PublishedBy(s, acts[0], current) + Accepted(Do(s, acts[0]), acts[1..], CurrentAfter(acts[0], current))
  }

  function Promises(accepted: seq<Entry>): seq<Delivery> {
    seq(|accepted|, k requires 0 <= k < |accepted| => Promise(accepted[k]))
  }

  function Arguments(m: Memory): Delivery {
    Delivery(m.data, m.epoch, m.timestamp)
  }

  lemma StepLogs(s: State, a: Action)
    requires Enabled(s, a)
    ensures Do(s, a).m.accepted
            == if a == ProducerStep && s.c.p == PPublish
               then s.m.accepted + [Entry(s.c.pId, s.m.data, s.m.timestamp, s.m.epoch)] else s.m.accepted
    ensures Arguments(Do(s, a).m) == CurrentAfter(a, Arguments(s.m))
  {
  }

  lemma StepPromises(s: State, a: Action)
    requires Enabled(s, a)
    ensures Promises(Do(s, a).m.accepted) == Promises(s.m.accepted) + PublishedBy(s, a, Arguments(s.m))
    ensures Arguments(Do(s, a).m) == CurrentAfter(a, Arguments(s.m))
  {
    StepLogs(s, a);
  }

  lemma {:induction false} LogIsAccepted(s: State, acts: seq<Action>)
    requires CanRun(s, acts)
    ensures Promises(RunOf(s, acts).m.accepted) == Promises(s.m.accepted) + Accepted(s, acts, Arguments(s.m))
    decreases |acts|
  {
    if acts != [] {
      var now := PublishedBy(s, acts[0], Arguments(s.m));
      var later := Accepted(Do(s, acts[0]), acts[1..], CurrentAfter(acts[0], Arguments(s.m)));
      StepPromises(s, acts[0]);
      LogIsAccepted(Do(s, acts[0]), acts[1..]);
      Associate(Promises(s.m.accepted), now, later);
    }
  }

  /**
    For every interleaving, the callback is given, in order and byte for byte,
    the first of the accepted pushes: none is lost, repeated, reordered or altered.
   */
  lemma DeliveredInOrder(acts: seq<Action>)
    requires CanRun(Start(), acts)
    ensures RunOf(Start(), acts).m.delivered <= Accepted(Start(), acts, Arguments(Start().m))
  {
    StartHolds();
    RunKeeps(Start(), acts);
    LogIsAccepted(Start(), acts);
    var m := RunOf(Start(), acts).m;
    assert m.delivered <= Promises(m.accepted);
    assert Promises(Start().m.accepted) == [];
  }

  // ---- ownership ----

  predicate ProducerHas(s: State, i: nat) {
    Filling(s.c.p) && s.c.pId == i
  }

  predicate WorkerHas(s: State, i: nat) {
    Holding(s.c.w) && s.m.local.slice.id == i
  }

  predicate SlotHas(s: State, i: nat, k: nat) {
    s.c.readSeq <= k < s.c.writeSeq <= |s.m.accepted| && s.m.accepted[k].id == i
  }

  function One(b: bool): nat {
    if b then 1 else 0
  }

  /**
    Every frame is exactly one of free, held by the producer, queued, or held by
    the worker, and is queued by one publication only; a live slot that the
    worker is not already emptying names the frame it owns.
   */
  ghost predicate OwnedOnce(s: State, i: nat)
    requires Sized(s.m) && i < FRAMES
  {
    && (var queued := exists k: nat :: SlotHas(s, i, k);
        One(!s.m.frames[i].busy) + One(ProducerHas(s, i)) + One(queued) + One(WorkerHas(s, i)) == 1)
    && (forall k: nat, l: nat :: SlotHas(s, i, k) && SlotHas(s, i, l) ==> k == l)
    && (forall k: nat :: SlotHas(s, i, k) && !(k == s.c.readSeq && Vacating(s.c.w))
                         ==> s.m.items[Slot(k)] == ItemFor(k, s.m.accepted[k]))
  }

  lemma SoundMeansOwnedOnce(s: State, i: nat)
    requires Sound(s) && i < FRAMES
    ensures Sized(s.m) && OwnedOnce(s, i)
  {
    var o := s.m.owner[i];
    assert forall k: nat :: SlotHas(s, i, k) ==> o == Queued(k);
    assert o.Queued? ==> SlotHas(s, i, o.k);
  }

  lemma OneOwner(s: State, i: nat)
    requires Reachable(s) && i < FRAMES
    ensures Sized(s.m) && OwnedOnce(s, i)
  {
    ReachableHolds(s);
    SoundMeansOwnedOnce(s, i);
  }

  lemma {:induction false} DistinctIds(accepted: seq<Entry>, from: nat)
    requires from <= |accepted|
    requires forall k, l :: from <= k < l < |accepted| ==> accepted[k].id != accepted[l].id
    ensures |IdsFrom(accepted, from)| == |accepted| - from
    decreases |accepted| - from
  {
    if from == |accepted| {
      assert IdsFrom(accepted, from) == {};
    } else {
      DistinctIds(accepted, from + 1);
      assert IdsFrom(accepted, from) == IdsFrom(accepted, from + 1) + {accepted[from].id};
    }
  }

  lemma {:induction false} BusyIs(c: Control, m: Memory)
    requires DataInv(c, m)
    ensures BusySet(m) == IdsFrom(m.accepted, c.readSeq)
                          + (if Filling(c.p) then {c.pId} else {}) + (if Holding(c.w) then {m.local.slice.id} else {})
  {
    forall i | i in BusySet(m)
      ensures i in IdsFrom(m.accepted, c.readSeq) + (if Filling(c.p) then {c.pId} else {})
                   + (if Holding(c.w) then {m.local.slice.id} else {})
    {
      if m.owner[i].Queued? {
        assert m.accepted[m.owner[i].k].id == i;
      }
    }
  }

  lemma {:induction false} BusyCount(c: Control, m: Memory)
    requires DataInv(c, m)
    ensures |BusySet(m)| == c.writeSeq - c.readSeq + One(Filling(c.p)) + One(Holding(c.w))
  {
    var ids := IdsFrom(m.accepted, c.readSeq);
    forall k, l | c.readSeq <= k < l < c.writeSeq ensures m.accepted[k].id != m.accepted[l].id {
      assert m.owner[m.accepted[k].id] == Queued(k) && m.owner[m.accepted[l].id] == Queued(l);
    }
    DistinctIds(m.accepted, c.readSeq);
    BusyIs(c, m);
    forall i | i in ids ensures m.owner[i].Queued? {
      var k :| c.readSeq <= k < c.writeSeq && m.accepted[k].id == i;
      assert m.owner[m.accepted[k].id] == Queued(k);
    }
    var mine := if Filling(c.p) then {c.pId} else {};
    var theirs := if Holding(c.w) then {m.local.slice.id} else {};
    assert ids !! mine && (ids + mine) !! theirs;
  }

  /** No frame leaks: the busy frames are the queued items, plus one in each thread that is working on one. */
  lemma FramesConserved(s: State)
    requires Reachable(s)
    ensures |BusySet(s.m)| == s.c.writeSeq - s.c.readSeq + One(Filling(s.c.p)) + One(Holding(s.c.w))
  {
    ReachableHolds(s);
    BusyCount(s.c, s.m);
  }

  // ---- races ----

  datatype Loc =
    | Payload(id: nat) | Length(id: nat) | Number(id: nat) | Stamp(id: nat) | Holders(id: nat) | RingSlot(i: nat)

  datatype Access = NoAccess | Reads(loc: Loc) | Writes(loc: Loc)

  function FrameLoc(id: nat, f: nat): Loc {
    if f == 0 then Length(id) else if f == 1 then Number(id) else Stamp(id)
  }

  /** The plain access the producer would make next. */
  function ProducerAccess(s: State): Access {
    var id := s.c.pId;
    match s.c.p
    case PCopy(j) => if j < |s.m.data| then Writes(Payload(id)) else NoAccess
    case PLen => Writes(Length(id))
    case PHolders => Writes(Holders(id))
    case PNumber => Writes(Number(id))
    case PStamp => Writes(Stamp(id))
    case PSlot(_) => Writes(RingSlot(Slot(s.c.writeSeq)))
    case PUndoDec => Writes(Holders(id))
    case PUndoClear(f) => Writes(FrameLoc(id, f))
    case _ => NoAccess
  }

  /** The plain access the worker would make next. */
  function WorkerAccess(s: State): Access {
    var id := s.m.local.slice.id;
    match s.c.w
    case WCopy(_) => Reads(RingSlot(Slot(s.c.wRead)))
    case WZero(_) => Writes(RingSlot(Slot(s.c.wRead)))
    case WGetLen => Reads(Length(id))
    case WRead(j) => if j < s.m.local.slice.len then Reads(Payload(id)) else NoAccess
    case WDoneDec => Writes(Holders(id))
    case WDoneClear(f) => Writes(FrameLoc(id, f))
    case _ => NoAccess
  }

  predicate Conflict(a: Access, b: Access) {
    !a.NoAccess? && !b.NoAccess? && a.loc == b.loc && (a.Writes? || b.Writes?)
  }

  /** The two threads are never about to touch the same plain location with one of them writing it. */
  lemma NoRace(s: State)
    requires Reachable(s)
    ensures !Conflict(ProducerAccess(s), WorkerAccess(s))
  {
    ReachableHolds(s);
    if Writing(s.c.p) && Taking(s.c.w) {
      SlotsDiffer(s.c.readSeq, s.c.writeSeq);
    }
  }

  /** The producer changes no busy frame that is not its own, and no live slot. */
  lemma {:induction false} ProducerLeavesOthersAlone(s: State)
    requires Reachable(s) && Enabled(s, ProducerStep)
    ensures forall i :: 0 <= i < FRAMES && s.m.frames[i].busy && !ProducerHas(s, i)
                        ==> Do(s, ProducerStep).m.frames[i] == s.m.frames[i]
    ensures forall k :: s.c.readSeq <= k < s.c.writeSeq
                        ==> Do(s, ProducerStep).m.items[Slot(k)] == s.m.items[Slot(k)]
  {
    ReachableHolds(s);
    if s.c.p.PSlot? {
      forall k | s.c.readSeq <= k < s.c.writeSeq ensures Slot(k) != Slot(s.c.writeSeq) {
        SlotsDiffer(k, s.c.writeSeq);
      }
    }
  }

  /** The worker changes no frame but the one it took, and no slot but the one it is emptying. */
  lemma {:induction false} WorkerLeavesOthersAlone(s: State)
    requires Reachable(s) && Enabled(s, WorkerStep)
    ensures forall i :: 0 <= i < FRAMES && !WorkerHas(s, i) ==> Do(s, WorkerStep).m.frames[i] == s.m.frames[i]
    ensures forall k :: s.c.readSeq < k < s.c.readSeq + SLOTS
                        ==> Do(s, WorkerStep).m.items[Slot(k)] == s.m.items[Slot(k)]
  {
    ReachableHolds(s);
    if s.c.w.WZero? {
      forall k | s.c.readSeq < k < s.c.readSeq + SLOTS ensures Slot(k) != Slot(s.c.readSeq) {
        SlotsDiffer(s.c.readSeq, k);
      }
    }
  }

  // ---- wake-up ----

  /** A blocked worker has nothing to do, or the thread that gave it something has still to signal. */
  lemma NoLostWakeup(s: State)
    requires Reachable(s) && s.c.w == WBlocked
    ensures s.c.readSeq != s.c.writeSeq ==> s.c.p in {PLock, PSignal}
    ensures s.c.stop ==> s.c.c == CSignal
  {
    ReachableHolds(s);
  }

  /** At rest everything accepted has been delivered and every frame is free. */
  lemma AtRestNothingIsPending(s: State)
    requires Reachable(s) && s.c.w == WBlocked && s.c.p == PIdle
    ensures s.m.delivered == Promises(s.m.accepted)
    ensures BusySet(s.m) == {}
  {
    ReachableHolds(s);
    FramesConserved(s);
  }

  /**
    While anything is queued, or a stop is not yet obeyed, a push, the worker or a
    stop already under way can move, without a spurious wake-up or a new call.
   */
  lemma NoDeadlock(s: State)
    requires Reachable(s)
    requires s.c.readSeq != s.c.writeSeq || s.c.stop
    requires s.c.w != WExit
    ensures Enabled(s, ProducerStep) || Enabled(s, WorkerStep) || (s.c.c != CIdle && Enabled(s, StopperStep))
  {
    ReachableHolds(s);
    AccessesInRange(s.c, s.m);
  }

  // ---- stop ----

  /** A run only adds to the log. */
  lemma {:induction false} LogGrows(s: State, acts: seq<Action>)
    requires CanRun(s, acts)
    ensures s.m.accepted <= RunOf(s, acts).m.accepted
    decreases |acts|
  {
    if acts != [] {
      StepLogs(s, acts[0]);
      LogGrows(Do(s, acts[0]), acts[1..]);
    }
  }

  lemma StopStays(s: State, a: Action)
    requires StopOk(s.c) && Enabled(s, a) && s.c.stop
    ensures Do(s, a).c.stop && Do(s, a).c.stopMark == s.c.stopMark
  {
  }

  /** The mark set with the stop request stays. */
  lemma {:induction false} MarkStays(s: State, acts: seq<Action>)
    requires ControlInv(s.c) && s.c.stop && CanRun(s, acts)
    ensures RunOf(s, acts).c.stop && RunOf(s, acts).c.stopMark == s.c.stopMark
    decreases |acts|
  {
    if acts != [] {
      ControlKept(s, acts[0]);
      StopStays(s, acts[0]);
      MarkStays(Do(s, acts[0]), acts[1..]);
    }
  }

  /**
    When the worker returns, everything accepted before the stop request was
    stored has been delivered, in order, and its frame is no longer queued or
    in the worker's hands.
   */
  lemma {:induction false} StopDrains(s: State, acts: seq<Action>)
    requires Reachable(s) && s.c.c == CSet && CanRun(s, [StopperStep] + acts)
    requires RunOf(s, [StopperStep] + acts).c.w == WExit
    ensures Promises(s.m.accepted) <= RunOf(s, [StopperStep] + acts).m.delivered
    ensures forall i: nat, k: nat :: SlotHas(RunOf(s, [StopperStep] + acts), i, k) ==> k >= |s.m.accepted|
    ensures forall i: nat :: !WorkerHas(RunOf(s, [StopperStep] + acts), i)
  {
    ReachableHolds(s);
    var t := Do(s, StopperStep);
    StepKeeps(s, StopperStep);
    assert ([StopperStep] + acts)[1..] == acts;
    var u := RunOf(t, acts);
    LogGrows(t, acts);
    MarkStays(t, acts);
    RunKeeps(t, acts);
    assert |u.m.delivered| >= |s.m.accepted|;
    forall k | 0 <= k < |s.m.accepted| ensures u.m.delivered[k] == Promises(s.m.accepted)[k] {
      assert u.m.accepted[k] == s.m.accepted[k];
    }
  }

  const ROUND := 1000   // more than the worker's steps between two changes of read_seq

  /** How far the worker is, at most, from the next change of read_seq or from its return. */
  function Distance(c: Control): nat {
    match c.w
    case WUnlock => if c.wStop then 17 else 799
    case WLock => 20
    case WReacquire => 20
    case WTestStop => 19
    case WReadStop => 18
    case WStopRead => 16
    case WStopWrite => if c.wRead == c.readSeq then 15 else 25
    case WTakeRead => if c.readSeq == c.writeSeq then 22 else 14
    case WTakeWrite => if c.readSeq == c.writeSeq then 21 else 13
    case WCopy(f) => if f < FIELDS then 12 - f else 0
    case WZero(f) => if f < FIELDS then 7 - f else 0
    case WAdvance => 2
    case WGetBusy => 700
    case WGetLen => 699
    case WRead(j) => if j <= CAPACITY then 600 - j else 0
    case WDoneBusy => 30
    case WDoneDec => 29
    case WDoneClear(f) => if f < FRAME_FIELDS then 28 - f else 0
    case WDoneFree => 23
    case _ => 0
  }

  function Remaining(c: Control): nat
    requires c.readSeq <= c.writeSeq
  {
    (c.writeSeq - c.readSeq) * ROUND + Distance(c)
  }

  /** Once stop is requested, every step of the worker brings it closer to its return, whatever it finds in memory. */
  lemma {:induction false} WorkerApproaches(c: Control, hit: bool)
    requires SeqOk(c) && c.stop && c.w !in {WTestRead, WTestWrite, WEnter, WBlocked, WExit}
    requires c.w.WRead? ==> c.w.j <= CAPACITY
    ensures WorkerControl(c, hit).readSeq <= WorkerControl(c, hit).writeSeq == c.writeSeq
    ensures Remaining(WorkerControl(c, hit)) < Remaining(c)
  {
  }

  /** The stopping thread waits in g_thread_join and no push is in progress. */
  ghost predicate Joining(s: State) {
    Inv(s) && s.c.c == CJoin && s.c.p == PIdle
  }

  lemma {:induction false} JoiningWorkerCanMove(s: State)
    requires Joining(s) && s.c.w != WExit
    ensures Enabled(s, WorkerStep) && s.c.stop && s.c.w !in {WTestRead, WTestWrite, WEnter, WBlocked}
    ensures s.c.w.WRead? ==> s.c.w.j <= CAPACITY
  {
    AccessesInRange(s.c, s.m);
  }

  lemma {:induction false} JoiningStep(s: State)
    requires Joining(s) && Enabled(s, WorkerStep) && s.c.w != WExit
    ensures var t := Do(s, WorkerStep);
            && Joining(t) && t.c.writeSeq == s.c.writeSeq && t.c.stopMark == s.c.stopMark
            && t.m.accepted == s.m.accepted
            && Remaining(t.c) < Remaining(s.c)
  {
    JoiningWorkerCanMove(s);
    StepKeeps(s, WorkerStep);
    StepLogs(s, WorkerStep);
    StopStays(s, WorkerStep);
    WorkerApproaches(s.c, WorkerHit(s.c, s.m));
  }

  /** The worker left alone meanwhile. */
  ghost function Finish(s: State): (t: State)
    requires Joining(s)
    ensures Joining(t) && t.c.w == WExit
    ensures t.c.writeSeq == s.c.writeSeq && t.c.stopMark == s.c.stopMark && t.m.accepted == s.m.accepted
    decreases Remaining(s.c)
  {
    if s.c.w == WExit then s
    else
      JoiningWorkerCanMove(s);
      JoiningStep(s);
      Finish(Do(s, WorkerStep))
  }

  lemma {:induction false} NothingLeft(s: State)
    requires Inv(s) && s.c.w == WExit && s.c.p == PIdle && s.c.stopMark == s.c.writeSeq
    ensures s.m.delivered == Promises(s.m.accepted) && BusySet(s.m) == {}
  {
    BusyCount(s.c, s.m);
  }

  /**
    With no push in progress a stop returns; if nothing was accepted since the
    request, everything accepted has then been delivered and every frame is free.
   */
  lemma StopReturns(s: State)
    requires Reachable(s) && s.c.c == CJoin && s.c.p == PIdle
    ensures Joining(s) && Finish(s).c.w == WExit
    ensures s.c.stopMark == s.c.writeSeq ==>
              Finish(s).m.delivered == Promises(s.m.accepted) && BusySet(Finish(s).m) == {}
  {
    ReachableHolds(s);
    if s.c.stopMark == s.c.writeSeq {
      NothingLeft(Finish(s));
    }
  }

  function WorkerSteps(acts: seq<Action>): nat {
    if acts == [] then 0 else One(acts[0] == WorkerStep) + WorkerSteps(acts[1..])
  }

  /** How often the ring grows during a run. */
  function Publications(s: State, acts: seq<Action>): nat
    requires CanRun(s, acts)
    decreases |acts|
  {
    if acts == [] then 0
    else One(acts[0] == ProducerStep && s.c.p == PPublish) + Publications(Do(s, acts[0]), acts[1..])
  }

  /** Stop requested, and the worker out of its wait. */
  predicate Stopping(c: Control) {
    c.stop && c.w != WBlocked
  }

  lemma {:induction false} ProducerAddsAtMostRound(c: Control, hit: bool)
    requires SeqOk(c) && Stopping(c) && c.p != PIdle
    ensures var d := ProducerControl(c, hit);
            && Stopping(d) && c.readSeq <= d.readSeq <= d.writeSeq
            && Remaining(d) <= Remaining(c) + ROUND * One(c.p == PPublish)
  {
  }

  lemma {:induction false} StopperAddsNothing(c: Control)
    requires SeqOk(c) && Stopping(c)
    ensures var d := StopperControl(c);
            Stopping(d) && d.readSeq == c.readSeq && d.writeSeq == c.writeSeq && Remaining(d) == Remaining(c)
  {
  }

  lemma {:induction false} OtherStepsAddNothing(s: State, a: Action)
    requires SeqOk(s.c) && Stopping(s.c) && Enabled(s, a) && a != ProducerStep && a != WorkerStep
    ensures Stopping(Do(s, a).c) && Do(s, a).c.readSeq == s.c.readSeq && Do(s, a).c.writeSeq == s.c.writeSeq
    ensures Remaining(Do(s, a).c) == Remaining(s.c)
  {
    if a == StopperStep {
      StopperAddsNothing(s.c);
    }
  }

  lemma {:induction false} WorkerStaysAwake(c: Control, hit: bool)
    requires ControlInv(c) && Stopping(c) && c.w != WExit
    ensures Stopping(WorkerControl(c, hit)) && c.w !in {WTestRead, WTestWrite, WEnter}
  {
  }

  lemma {:induction false} StepSpendsRemaining(s: State, a: Action)
    requires Inv(s) && Stopping(s.c) && Enabled(s, a)
    ensures var t := Do(s, a);
            && Stopping(t.c) && t.c.readSeq <= t.c.writeSeq
            && One(a == WorkerStep) + Remaining(t.c)
               <= Remaining(s.c) + ROUND * One(a == ProducerStep && s.c.p == PPublish)
  {
    match a
    case ProducerStep => ProducerAddsAtMostRound(s.c, ProducerHit(s.c, s.m));
    case WorkerStep =>
      WorkerStaysAwake(s.c, WorkerHit(s.c, s.m));
      WorkerApproaches(s.c, WorkerHit(s.c, s.m));
    case _ => OtherStepsAddNothing(s, a);
  }

  lemma {:induction false} RunSpendsRemaining(s: State, acts: seq<Action>)
    requires Inv(s) && Stopping(s.c) && CanRun(s, acts)
    ensures var t := RunOf(s, acts);
            && Inv(t) && Stopping(t.c)
            && WorkerSteps(acts) + Remaining(t.c) <= Remaining(s.c) + ROUND * Publications(s, acts)
    decreases |acts|
  {
    if acts != [] {
      StepKeeps(s, acts[0]);
      StepSpendsRemaining(s, acts[0]);
      RunSpendsRemaining(Do(s, acts[0]), acts[1..]);
    }
  }

  lemma {:induction false} RemainingIsBounded(c: Control)
    requires SeqOk(c)
    ensures Remaining(c) <= SLOTS * ROUND + 799
  {
  }

  /**
    Stop is bounded in every interleaving: once it has been requested and the
    worker is out of its wait, the worker takes at most 16799 further steps, and
    1000 more for each push that is still published, and never waits again.
   */
  lemma StopIsBounded(s: State, acts: seq<Action>)
    requires Reachable(s) && Stopping(s.c) && CanRun(s, acts)
    ensures WorkerSteps(acts) <= SLOTS * ROUND + 799 + ROUND * Publications(s, acts)
    ensures RunOf(s, acts).c.w != WBlocked
  {
    ReachableHolds(s);
    RunSpendsRemaining(s, acts);
    RemainingIsBounded(s.c);
  }

  // ---- the ways a push can fail ----

  /**
    A push of data that fits never fails for want of a frame; it is undone only
    after the producer saw the ring full, with exactly sixteen items between the
    two sequence numbers it loaded.
   */
  lemma PushFailsOnlyWhenFull(s: State)
    requires Reachable(s)
    ensures s.c.p != PNoFrame
    ensures Undoing(s.c.p) ==> s.c.writeSeq == s.c.pRead + SLOTS && s.c.pRead <= s.c.readSeq
  {
    ReachableHolds(s);
  }

  /** How many steps of its own a push still needs at most. */
  function PushDistance(c: Control): nat {
    match c.p
    case PIdle => 0
    case PScan(k) => if k < FRAMES then 300 + FRAMES - k else 300
    case PNoFrame => 1
    case PCopy(j) => if j <= CAPACITY then 18 + CAPACITY - j else 18
    case PLen => 17
    case PHolders => 16
    case PNumber => 15
    case PStamp => 14
    case PCursor => 13
    case PLoadRead => 12
    case PLoadWrite => 11
    case PSlot(f) => if f < FIELDS then 5 + FIELDS - f else 5
    case PPublish => 4
    case PLock => 3
    case PSignal => 2
    case PUnlock => 1
    case PUndoBusy => 6
    case PUndoDec => 5
    case PUndoClear(f) => if f < FRAME_FIELDS then 1 + FRAME_FIELDS - f else 1
    case PUndoFree => 1
  }

  lemma {:induction false} ProducerApproaches(c: Control, hit: bool)
    requires SeqOk(c) && c.p != PIdle && (c.p.PCopy? && hit ==> c.p.j < CAPACITY)
    ensures PushDistance(ProducerControl(c, hit)) < PushDistance(c) <= 332
  {
  }

  lemma OthersLeavePush(s: State, a: Action)
    requires Enabled(s, a) && s.c.p != PIdle && a != ProducerStep
    ensures PushDistance(Do(s, a).c) == PushDistance(s.c)
  {
  }

  /**
    A push is bounded whatever the other threads do: it is over after at most
    332 steps of its own, none of which the worker or a stop can add to.
   */
  lemma PushIsBounded(s: State, a: Action)
    requires Reachable(s) && Enabled(s, a) && s.c.p != PIdle
    ensures PushDistance(s.c) <= 332
    ensures PushDistance(Do(s, a).c) + One(a == ProducerStep) <= PushDistance(s.c)
  {
    ReachableHolds(s);
    if a == ProducerStep {
      ProducerApproaches(s.c, ProducerHit(s.c, s.m));
    } else {
      OthersLeavePush(s, a);
      ProducerApproaches(s.c, false);
    }
  }
}
