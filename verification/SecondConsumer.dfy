/**
  A drop beside the worker: a second consumer of a ring made for one. A drop is
  taken at its best, without another thread's step in between. Runs in which no
  drop meets the worker inside its take.
 */
module SecondConsumer {
  import opened FrameModel
  import opened RingModel
  import opened QueueSteps
  import opened QueueControl
  import opened QueueData
  import opened QueueProof
  import opened QueueTheorems

  /** Between the load and the store of read_seq in mb_slice_ring_take. */
  predicate InsideTake(w: WorkerPc) {
    w == WTakeWrite || Taking(w)
  }

  predicate CanDrop(s: State) {
    Sized(s.m) && s.c.readSeq != s.c.writeSeq
  }

  /** One reference fewer, the last one clears and frees the frame. */
  function GivenBack(f: Frame): Frame {
    if !f.busy then f
    else if f.holders == 1 then f.(busy := false, holders := 0, len := 0, number := 0, timestamp := 0)
    else f.(holders := f.holders - 1)
  }

  /** mb_slice_ring_drop from beginning to end: the oldest slot is read, zeroed and passed, its frame given back. */
  function DropOne(s: State): (d: State)
    requires CanDrop(s)
    ensures Sized(d.m)
  {
    var i := Slot(s.c.readSeq);
    var id := s.m.items[i].slice.id;
    var emptied := SetItem(s.m, i, ZERO_ITEM);
    State(s.c.(readSeq := s.c.readSeq + 1),
          if !SliceOk(s.m.items[i].slice) then emptied
          else
            var f := GivenBack(s.m.frames[id]);
            SetOwner(SetFrame(emptied, id, f), id, if f.busy then s.m.owner[id] else Free))
  }

  // ---- outside a take ----

  /** What a drop does when the oldest slot is whole: the frame of the oldest entry is freed. */
  function Dropped(m: Memory, k: nat): Memory
    requires Sized(m) && k < |m.accepted| && m.accepted[k].id < FRAMES
  {
    var id := m.accepted[k].id;
    SetOwner(SetFrame(SetItem(m, Slot(k), ZERO_ITEM), id, GivenBack(m.frames[id])), id, Free)
  }

  /** The oldest frame belongs to the oldest slot alone, and giving it back frees it. */
  ghost predicate OldestReleasable(c: Control, m: Memory)
    requires Sized(m) && EntriesOk(c, m) && c.readSeq < |m.accepted|
  {
    var id := m.accepted[c.readSeq].id;
    m.owner[id] == Queued(c.readSeq) && !GivenBack(m.frames[id]).busy
  }

  lemma {:induction false} DropIs(s: State)
    requires Sound(s) && s.c.readSeq != s.c.writeSeq && !InsideTake(s.c.w)
    ensures OldestReleasable(s.c, s.m)
    ensures DropOne(s) == State(s.c.(readSeq := s.c.readSeq + 1), Dropped(s.m, s.c.readSeq))
  {
    var e := s.m.accepted[s.c.readSeq];
    assert s.m.items[Slot(s.c.readSeq)] == ItemFor(s.c.readSeq, e);
    assert s.m.owner[e.id] == Queued(s.c.readSeq) && FrameHas(s.m.frames[e.id], e.bytes);
  }

  lemma {:induction false} DropKeepsShared(c: Control, m: Memory)
    requires DataInv(c, m) && c.readSeq != c.writeSeq && SeqOk(c.(readSeq := c.readSeq + 1)) && !InsideTake(c.w)
    requires OldestReleasable(c, m)
    ensures SharedInv(c.(readSeq := c.readSeq + 1), Dropped(m, c.readSeq))
  {
    forall k | c.readSeq < k < c.writeSeq ensures Slot(k) != Slot(c.readSeq) {
      SlotsDiffer(c.readSeq, k);
    }
  }

  lemma {:induction false} DropKeepsLocal(c: Control, m: Memory)
    requires DataInv(c, m) && c.readSeq != c.writeSeq && SeqOk(c.(readSeq := c.readSeq + 1)) && !InsideTake(c.w)
    requires OldestReleasable(c, m)
    requires SharedInv(c.(readSeq := c.readSeq + 1), Dropped(m, c.readSeq))
    ensures LocalInv(c.(readSeq := c.readSeq + 1), Dropped(m, c.readSeq))
  {
    if Writing(c.p) {
      SlotsDiffer(c.readSeq, c.writeSeq);
    }
  }

  lemma {:induction false} DropKeepsData(c: Control, m: Memory)
    requires DataInv(c, m) && c.readSeq != c.writeSeq && SeqOk(c.(readSeq := c.readSeq + 1)) && !InsideTake(c.w)
    requires OldestReleasable(c, m)
    ensures DataInv(c.(readSeq := c.readSeq + 1), Dropped(m, c.readSeq))
  {
    DropKeepsShared(c, m);
    DropKeepsLocal(c, m);
  }

  lemma {:induction false} DropKeepsControlInv(c: Control)
    requires ControlInv(c) && c.readSeq != c.writeSeq && !InsideTake(c.w)
    ensures ControlInv(c.(readSeq := c.readSeq + 1))
  {
  }

  lemma {:induction false} DropKeepsSound(s: State)
    requires Sound(s) && s.c.readSeq != s.c.writeSeq && !InsideTake(s.c.w)
    ensures Sound(DropOne(s))
  {
    DropKeepsControlInv(s.c);
    DropIs(s);
    DropKeepsData(s.c, s.m);
  }

  // ---- runs with drops outside a take ----

  /** `gone` are the positions of the dropped publications. */
  datatype Mixed = Mixed(s: State, gone: set<nat>)

  datatype Move = Act(a: Action) | Drop

  predicate Allowed(x: Mixed, move: Move) {
    match move
    case Act(a) => Enabled(x.s, a)
    case Drop => CanDrop(x.s) && !InsideTake(x.s.c.w)
  }

  function After(x: Mixed, move: Move): Mixed
    requires Allowed(x, move)
  {
    match move
    case Act(a) => Mixed(Do(x.s, a), x.gone)
    case Drop => Mixed(DropOne(x.s), x.gone + {x.s.c.readSeq})
  }

  /** The first `n` publications without the dropped ones. */
  function Kept(accepted: seq<Entry>, gone: set<nat>, n: nat): seq<Delivery>
    requires n <= |accepted|
  {
    if n == 0 then []
    else Kept(accepted, gone, n - 1) + if n - 1 in gone then [] else [Promise(accepted[n - 1])]
  }

  /** How many publications have been dealt with: the one in the worker's hands has not. */
  function Dealt(c: Control): nat {
    if Undelivered(c.w) then c.wRead else c.readSeq
  }

  ghost predicate LogWithDrops(c: Control, m: Memory, gone: set<nat>) {
    && Dealt(c) <= c.readSeq <= |m.accepted|
    && m.delivered == Kept(m.accepted, gone, Dealt(c))
    && (forall k | k in gone :: k < c.readSeq)
    && (Undelivered(c.w) ==> c.wRead < c.readSeq && c.wRead !in gone && forall k | c.wRead < k < c.readSeq :: k in gone)
  }

  lemma {:induction false} KeptGrows(a: seq<Entry>, b: seq<Entry>, gone: set<nat>, more: set<nat>, n: nat)
    requires n <= |a| && a <= b && gone <= more && forall k | k in more && k < n :: k in gone
    ensures Kept(b, more, n) == Kept(a, gone, n)
  {
    if n > 0 {
      KeptGrows(a, b, gone, more, n - 1);
    }
  }

  lemma {:induction false} KeptSkips(a: seq<Entry>, gone: set<nat>, i: nat, n: nat)
    requires i <= n <= |a| && forall k | i <= k < n :: k in gone
    ensures Kept(a, gone, n) == Kept(a, gone, i)
  {
    if i < n {
      KeptSkips(a, gone, i, n - 1);
    }
  }

  lemma {:induction false} QuietStep(c: Control, m: Memory, d: Control, m': Memory, gone: set<nat>)
    requires LogWithDrops(c, m, gone) && m'.delivered == m.delivered && m.accepted <= m'.accepted
    requires Undelivered(d.w) == Undelivered(c.w) && d.readSeq == c.readSeq && (Undelivered(d.w) ==> d.wRead == c.wRead)
    ensures LogWithDrops(d, m', gone)
  {
    KeptGrows(m.accepted, m'.accepted, gone, gone, Dealt(c));
  }

  lemma {:induction false} AdvanceKeepsDrops(c: Control, m: Memory, gone: set<nat>)
    requires DataInv(c, m) && LogWithDrops(c, m, gone) && c.w == WAdvance
    ensures LogWithDrops(WorkerControl(c, WorkerHit(c, m)), WorkerMemory(c, m), gone)
  {
  }

  lemma {:induction false} DeliveryIsLogged(c: Control, m: Memory, gone: set<nat>)
    requires LogWithDrops(c, m, gone) && c.w.WRead? && c.wRead < |m.accepted|
    requires Delivery(m.buffer, m.local.epoch, m.local.timestamp) == Promise(m.accepted[c.wRead])
    ensures LogWithDrops(c.(w := WDoneBusy), Delivered(m), gone)
  {
    KeptSkips(m.accepted, gone, c.wRead + 1, c.readSeq);
  }

  lemma {:induction false} DeliverKeepsDrops(c: Control, m: Memory, gone: set<nat>)
    requires DataInv(c, m) && LogWithDrops(c, m, gone) && c.w.WRead? && c.w.j >= m.local.slice.len
    ensures LogWithDrops(c.(w := WDoneBusy), Delivered(m), gone)
  {
    DeliversPromise(c, m);
    DeliveryIsLogged(c, m, gone);
  }

  lemma {:induction false} WorkerIsQuiet(c: Control, m: Memory)
    requires WorkerSafe(c, m) && c.w != WAdvance && !(c.w.WRead? && c.w.j >= m.local.slice.len)
    requires c.w == WGetBusy || c.w == WGetLen ==> WorkerHit(c, m)
    ensures var d, m' := WorkerControl(c, WorkerHit(c, m)), WorkerMemory(c, m);
            && m'.delivered == m.delivered && m'.accepted == m.accepted
            && Undelivered(d.w) == Undelivered(c.w) && d.readSeq == c.readSeq
            && (Undelivered(d.w) ==> d.wRead == c.wRead)
  {
  }

  lemma {:induction false} ProducerIsQuiet(c: Control, m: Memory)
    requires ProducerSafe(c, m)
    ensures var d, m' := ProducerControl(c, ProducerHit(c, m)), ProducerMemory(c, m);
            && m'.delivered == m.delivered && m.accepted <= m'.accepted
            && Undelivered(d.w) == Undelivered(c.w) && d.readSeq == c.readSeq && d.wRead == c.wRead
  {
  }

  lemma {:induction false} OthersAreQuiet(s: State, a: Action)
    requires Enabled(s, a) && a != WorkerStep
    ensures var t := Do(s, a);
            && t.m.delivered == s.m.delivered && s.m.accepted <= t.m.accepted
            && Undelivered(t.c.w) == Undelivered(s.c.w) && t.c.readSeq == s.c.readSeq && t.c.wRead == s.c.wRead
  {
    if a == ProducerStep {
      ProducerIsQuiet(s.c, s.m);
    }
  }

  lemma {:induction false} WorkerKeepsDrops(c: Control, m: Memory, gone: set<nat>)
    requires DataInv(c, m) && LogWithDrops(c, m, gone)
    ensures LogWithDrops(WorkerControl(c, WorkerHit(c, m)), WorkerMemory(c, m), gone)
  {
    if c.w == WAdvance {
      AdvanceKeepsDrops(c, m, gone);
    } else if c.w.WRead? && c.w.j >= m.local.slice.len {
      DeliverKeepsDrops(c, m, gone);
    } else {
      if c.w == WGetBusy || c.w == WGetLen {
        WorkerFindsFrame(c, m);
      }
      WorkerIsQuiet(c, m);
      QuietStep(c, m, WorkerControl(c, WorkerHit(c, m)), WorkerMemory(c, m), gone);
    }
  }

  lemma {:induction false} DropKeepsDrops(c: Control, m: Memory, m': Memory, gone: set<nat>)
    requires LogWithDrops(c, m, gone) && c.readSeq < |m.accepted|
    requires m'.delivered == m.delivered && m'.accepted == m.accepted
    ensures LogWithDrops(c.(readSeq := c.readSeq + 1), m', gone + {c.readSeq})
  {
    KeptGrows(m.accepted, m.accepted, gone, gone + {c.readSeq}, Dealt(c));
  }

  ghost predicate MixedInv(x: Mixed) {
    Sound(x.s) && LogWithDrops(x.s.c, x.s.m, x.gone)
  }

  lemma {:induction false} ActKeepsDrops(s: State, a: Action, gone: set<nat>)
    requires Sound(s) && LogWithDrops(s.c, s.m, gone) && Enabled(s, a)
    ensures LogWithDrops(Do(s, a).c, Do(s, a).m, gone)
  {
    if a == WorkerStep {
      WorkerKeepsDrops(s.c, s.m, gone);
    } else {
      OthersAreQuiet(s, a);
      QuietStep(s.c, s.m, Do(s, a).c, Do(s, a).m, gone);
    }
  }

  lemma DropLogsNothing(s: State)
    requires CanDrop(s)
    ensures DropOne(s).c == s.c.(readSeq := s.c.readSeq + 1)
    ensures DropOne(s).m.delivered == s.m.delivered && DropOne(s).m.accepted == s.m.accepted
  {
  }

  lemma {:induction false} DropMoveKeepsDrops(s: State, gone: set<nat>)
    requires CanDrop(s) && SeqOk(s.c) && EntriesOk(s.c, s.m) && LogWithDrops(s.c, s.m, gone)
    ensures LogWithDrops(DropOne(s).c, DropOne(s).m, gone + {s.c.readSeq})
  {
    DropLogsNothing(s);
    DropKeepsDrops(s.c, s.m, DropOne(s).m, gone);
  }

  lemma {:induction false} MoveKeepsDrops(x: Mixed, move: Move)
    requires MixedInv(x) && Allowed(x, move)
    ensures LogWithDrops(After(x, move).s.c, After(x, move).s.m, After(x, move).gone)
  {
    match move
    case Act(a) => ActKeepsDrops(x.s, a, x.gone);
    case Drop => DropMoveKeepsDrops(x.s, x.gone);
  }

  lemma {:induction false} MoveKeeps(x: Mixed, move: Move)
    requires MixedInv(x) && Allowed(x, move)
    ensures MixedInv(After(x, move))
  {
    MoveKeepsDrops(x, move);
    match move
    case Act(a) => StepKeepsSound(x.s, a);
    case Drop => DropKeepsSound(x.s);
  }

  ghost predicate MixedRun(x: Mixed, moves: seq<Move>)
    decreases |moves|
  {
    moves != [] ==> Allowed(x, moves[0]) && MixedRun(After(x, moves[0]), moves[1..])
  }

  function End(x: Mixed, moves: seq<Move>): Mixed
    requires MixedRun(x, moves)
    decreases |moves|
  {
    if moves == [] then x else End(After(x, moves[0]), moves[1..])
  }

  lemma {:induction false} MixedRunKeeps(x: Mixed, moves: seq<Move>)
    requires MixedInv(x) && MixedRun(x, moves)
    ensures MixedInv(End(x, moves))
    decreases |moves|
  {
    if moves != [] {
      MoveKeeps(x, moves[0]);
      MixedRunKeeps(After(x, moves[0]), moves[1..]);
    }
  }

  /**
    Over all interleavings with drops, none of them while the worker is inside a
    take: every frame still has one owner, and the callback is given, in order and
    byte for byte, the accepted pushes without the dropped ones.
   */
  lemma DropsOutsideTakeAreHarmless(moves: seq<Move>, i: nat)
    requires MixedRun(Mixed(Start(), {}), moves) && i < FRAMES
    ensures var x := End(Mixed(Start(), {}), moves);
            && Sized(x.s.m) && OwnedOnce(x.s, i)
            && Dealt(x.s.c) <= |x.s.m.accepted| && x.s.m.delivered == Kept(x.s.m.accepted, x.gone, Dealt(x.s.c))
  {
    StartHolds();
    MixedRunKeeps(Mixed(Start(), {}), moves);
    SoundMeansOwnedOnce(End(Mixed(Start(), {}), moves).s, i);
  }
}
