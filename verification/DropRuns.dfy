/** A drop of the pending items in reachable states, and runs from the start after which it does damage. */
module DropRuns {
  import opened FrameModel
  import opened RingModel
  import opened QueueSteps
  import opened QueueControl
  import opened QueueData
  import opened QueueProof
  import opened QueueTheorems
  import opened SecondConsumer
  import opened DropDamage

  // ---- reachable states ----

  lemma {:induction false} NothingGone(m: Memory, n: nat)
    requires n <= |m.delivered| && n <= |m.accepted|
    requires forall k | 0 <= k < n :: m.delivered[k] == Promise(m.accepted[k])
    ensures Kept(m.accepted, {}, n) == m.delivered[..n]
  {
    if n > 0 {
      NothingGone(m, n - 1);
      assert m.delivered[..n] == m.delivered[..n - 1] + [m.delivered[n - 1]];
    }
  }

  /** Without drops the two invariants are one. */
  lemma {:induction false} InvIsMixedInv(s: State)
    requires Inv(s)
    ensures MixedInv(Mixed(s, {}))
  {
    NothingGone(s.m, |s.m.delivered|);
  }

  /** In every reachable state a drop of the pending items is safe on the very same condition. */
  lemma ReachableDropIsSafeExactly(s: State)
    requires Reachable(s)
    ensures Sized(s.m) && s.c.readSeq <= s.c.writeSeq
    ensures var t := Leave(DropAll(s));
            && ((forall i: nat | i < FRAMES :: OwnedOnce(t, i)) <==> Safe(s))
            && (Safe(s) ==> MixedInv(Mixed(t, Lost(s))))
  {
    ReachableHolds(s);
    InvIsMixedInv(s);
    DropPendingIsSafeExactly(Mixed(s, {}));
    assert {} + Lost(s) == Lost(s);
  }

  // ---- one push ----

  lemma RunOne(s: State, a: Action)
    requires Enabled(s, a)
    ensures CanRun(s, [a]) && RunOf(s, [a]) == Do(s, a)
  {
    assert [a][1..] == [];
  }

  lemma {:induction false} RunSnoc(s: State, acts: seq<Action>, t: State, a: Action)
    requires CanRun(s, acts) && RunOf(s, acts) == t && Enabled(t, a)
    ensures CanRun(s, acts + [a]) && RunOf(s, acts + [a]) == Do(t, a)
    decreases |acts|
  {
    if acts == [] {
      assert acts + [a] == [a];
      RunOne(s, a);
    } else {
      assert (acts + [a])[1..] == acts[1..] + [a];
      RunSnoc(Do(s, acts[0]), acts[1..], t, a);
    }
  }

  /** The worker is at its lock with `r` items taken, and nobody is stopping. */
  ghost predicate Calm(s: State, r: nat) {
    Inv(s) && s.c.w == WLock && s.c.c == CIdle && s.c.readSeq == r
  }

  ghost predicate Idle(s: State, r: nat, n: nat) {
    Calm(s, r) && s.c.p == PIdle && s.c.writeSeq == n
  }

  predicate Waking(p: ProducerPc) {
    p in {PLock, PSignal, PUnlock}
  }

  predicate CursorMoved(p: ProducerPc) {
    Waking(p) || Writing(p) || p in {PLoadRead, PLoadWrite}
  }

  /** A push into frame `f` in progress, `n` pushes before it. */
  predicate PushingControl(c: Control, r: nat, n: nat, f: nat) {
    && c.w == WLock && c.c == CIdle && c.readSeq == r && r <= n < r + SLOTS
    && c.p != PIdle && c.p != PNoFrame && !Undoing(c.p)
    && (c.p == PLoadWrite ==> c.pRead == r)
    && c.writeSeq == (if Waking(c.p) then n + 1 else n)
    && c.next == (if CursorMoved(c.p) then At(f, 1) else f)
    && (if c.p.PScan? then c.p.k == 0 else c.pId == f)
  }

  ghost predicate Pushing(s: State, r: nat, n: nat, f: nat) {
    && Inv(s) && PushingControl(s.c, r, n, f) && f < FRAMES
    && (s.c.p.PScan? ==> !s.m.frames[f].busy)
    && (Waking(s.c.p) ==> s.m.accepted[n].id == f)
  }

  lemma {:induction false} PushingStep(c: Control, hit: bool, r: nat, n: nat, f: nat)
    requires ControlInv(c) && PushingControl(c, r, n, f) && f < FRAMES && (c.p.PScan? ==> hit)
    ensures var d := ProducerControl(c, hit);
            if c.p == PUnlock then d == c.(p := PIdle, lock := Nobody) else PushingControl(d, r, n, f) && !d.p.PScan?
  {
  }

  lemma {:induction false} PushedStep(s: State)
    requires Inv(s) && Enabled(s, ProducerStep)
    ensures Inv(Do(s, ProducerStep)) && PushDistance(Do(s, ProducerStep).c) < PushDistance(s.c)
  {
    StepKeeps(s, ProducerStep);
    ProducerApproaches(s.c, ProducerHit(s.c, s.m));
  }

  lemma {:induction false} LockIsFree(c: Control)
    requires LockOk(c) && c.w == WLock && c.c == CIdle && c.p == PLock
    ensures c.lock == Nobody
  {
  }

  lemma {:induction false} PushIsEnabled(s: State)
    requires Inv(s) && s.c.p != PIdle && s.c.w == WLock && s.c.c == CIdle
    ensures Enabled(s, ProducerStep)
  {
    AccessesInRange(s.c, s.m);
    if s.c.p == PLock {
      LockIsFree(s.c);
    }
  }

  lemma {:induction false} ScanHits(c: Control, m: Memory)
    requires ProducerSafe(c, m) && c.p == PScan(0) && c.next < FRAMES && !m.frames[c.next].busy
    ensures ProducerHit(c, m)
  {
  }

  lemma {:induction false} PushGoesOn(s: State, r: nat, n: nat, f: nat)
    requires Pushing(s, r, n, f)
    ensures Enabled(s, ProducerStep)
    ensures var t := Do(s, ProducerStep);
            && PushDistance(t.c) < PushDistance(s.c) && s.m.accepted <= t.m.accepted
            && if s.c.p == PUnlock then Idle(t, r, n + 1) && t.c.next == At(f, 1) && t.m.accepted[n].id == f
               else Pushing(t, r, n, f)
  {
    PushIsEnabled(s);
    if s.c.p.PScan? {
      ScanHits(s.c, s.m);
    }
    PushingStep(s.c, ProducerHit(s.c, s.m), r, n, f);
    PushedStep(s);
    StepLogs(s, ProducerStep);
  }

  /** The producer pushes one byte, left alone; the cursor points at a free frame. */
  lemma {:induction false} PushAlone(before: seq<Action>, b: State) returns (acts: seq<Action>, s: State)
    requires CanRun(Start(), before) && RunOf(Start(), before) == b
    requires Idle(b, b.c.readSeq, b.c.writeSeq) && b.c.writeSeq < b.c.readSeq + SLOTS && b.c.writeSeq < 100
    requires !b.m.frames[b.c.next].busy
    ensures CanRun(Start(), acts) && RunOf(Start(), acts) == s
    ensures Idle(s, b.c.readSeq, b.c.writeSeq + 1) && s.c.next == At(b.c.next, 1)
    ensures b.m.accepted <= s.m.accepted && s.m.accepted[b.c.writeSeq].id == b.c.next
  {
    var push := Push([0], 0, 0);
    StepKeeps(b, push);
    RunSnoc(Start(), before, b, push);
    acts, s := before + [push], Do(b, push);
    while s.c.p != PIdle
      invariant CanRun(Start(), acts) && RunOf(Start(), acts) == s
      invariant b.m.accepted <= s.m.accepted
      invariant if s.c.p == PIdle
                then && Idle(s, b.c.readSeq, b.c.writeSeq + 1) && s.c.next == At(b.c.next, 1)
                     && s.m.accepted[b.c.writeSeq].id == b.c.next
                else Pushing(s, b.c.readSeq, b.c.writeSeq, b.c.next)
      decreases PushDistance(s.c)
    {
      PushGoesOn(s, b.c.readSeq, b.c.writeSeq, b.c.next);
      RunSnoc(Start(), acts, s, ProducerStep);
      acts, s := acts + [ProducerStep], Do(s, ProducerStep);
    }
  }

  // ---- the worker alone ----

  /** From the lock to the take with something queued. */
  function ToTake(w: WorkerPc): nat {
    match w
    case WLock => 7
    case WTestStop => 6
    case WTestRead => 5
    case WTestWrite => 4
    case WReadStop => 3
    case WUnlock => 2
    case WTakeRead => 1
    case _ => 0
  }

  /** On the way from its lock to the next take, and back with it when there is nothing more. */
  ghost predicate Going(c: Control, r: nat) {
    && ControlInv(c) && c.p == PIdle && c.c == CIdle
    && if c.readSeq == r then (ToTake(c.w) > 0 || InsideTake(c.w)) && (c.w == WTestWrite ==> c.wRead == r)
       else c.readSeq == r + 1 && (Holding(c.w) || c.w in {WTakeRead, WTakeWrite, WLock})
  }

  function Left(c: Control): nat
    requires c.readSeq <= c.writeSeq
  {
    if c.readSeq != c.writeSeq && ToTake(c.w) > 0 then 20000 + ToTake(c.w) else Remaining(c)
  }

  lemma {:induction false} GoingStep(c: Control, hit: bool, r: nat)
    requires Going(c, r) && r < c.writeSeq && (c.readSeq == r || (c.writeSeq == r + 1 && c.w != WLock))
    requires ControlInv(WorkerControl(c, hit)) && (c.w.WRead? ==> c.w.j <= CAPACITY)
    ensures (c.w == WLock ==> c.lock == Nobody) && c.w !in {WExit, WBlocked, WReacquire}
    ensures var d := WorkerControl(c, hit);
            Going(d, r) && d.writeSeq == c.writeSeq && d.next == c.next && d.readSeq <= c.writeSeq && Left(d) < Left(c)
  {
  }

  lemma {:induction false} WorkerGoesOn(s: State, r: nat)
    requires Inv(s) && Going(s.c, r) && r < s.c.writeSeq
    requires s.c.readSeq == r || (s.c.writeSeq == r + 1 && s.c.w != WLock)
    ensures Enabled(s, WorkerStep)
    ensures var t := Do(s, WorkerStep);
            && Inv(t) && Going(t.c, r) && t.c.writeSeq == s.c.writeSeq && t.c.next == s.c.next
            && t.c.readSeq <= t.c.writeSeq && Left(t.c) < Left(s.c)
  {
    AccessesInRange(s.c, s.m);
    assert s.c.w.WRead? ==> s.c.w.j <= CAPACITY;
    assert Enabled(s, WorkerStep);
    StepKeeps(s, WorkerStep);
    GoingStep(s.c, WorkerHit(s.c, s.m), r);
  }

  /** The worker alone, up to the middle of its take, or with `through` until it waits at its lock again. */
  lemma {:induction false} WorkAlone(before: seq<Action>, b: State, through: bool) returns (acts: seq<Action>, s: State)
    requires CanRun(Start(), before) && RunOf(Start(), before) == b
    requires Idle(b, b.c.readSeq, b.c.writeSeq) && b.c.readSeq < b.c.writeSeq
    requires through ==> b.c.writeSeq == b.c.readSeq + 1
    ensures CanRun(Start(), acts) && RunOf(Start(), acts) == s
    ensures s.c.next == b.c.next && s.m.accepted == b.m.accepted
    ensures if through then Idle(s, b.c.writeSeq, b.c.writeSeq)
            else && Inv(s) && s.c.w == WTakeWrite && s.c.p == PIdle
                 && s.c.readSeq == b.c.readSeq && s.c.writeSeq == b.c.writeSeq
  {
    var r := b.c.readSeq;
    acts, s := before, b;
    while if through then !(s.c.w == WLock && s.c.readSeq == r + 1) else s.c.w != WTakeWrite
      invariant CanRun(Start(), acts) && RunOf(Start(), acts) == s
      invariant Inv(s) && Going(s.c, r) && s.c.writeSeq == b.c.writeSeq && s.c.next == b.c.next
      invariant s.m.accepted == b.m.accepted
      invariant !through ==> s.c.readSeq == r && (ToTake(s.c.w) > 0 || s.c.w == WTakeWrite)
      decreases Left(s.c)
    {
      WorkerGoesOn(s, r);
      StepLogs(s, WorkerStep);
      RunSnoc(Start(), acts, s, WorkerStep);
      acts, s := acts + [WorkerStep], Do(s, WorkerStep);
    }
  }

  // ---- two items dropped ----

  lemma {:induction false} NextIsFree(s: State)
    requires Idle(s, s.c.readSeq, s.c.writeSeq)
    requires forall k | s.c.readSeq <= k < s.c.writeSeq :: s.m.accepted[k].id != s.c.next
    ensures !s.m.frames[s.c.next].busy
  {
  }

  lemma {:induction false} TwoQueued() returns (s: State)
    ensures Reachable(s) && Inv(s) && s.c.w == WTakeWrite && s.c.readSeq == 0 && s.c.writeSeq == 2
  {
    StartHolds();
    var acts, b := PushAlone([], Start());
    NextIsFree(b);
    acts, b := PushAlone(acts, b);
    acts, s := WorkAlone(acts, b, false);
  }

  /**
    A run from the start after which drop_pending and the rest of the take leave
    an item queued whose frame is free: the next scan may claim and overwrite it.
   */
  lemma {:induction false} LiveSlotFreedFromStart() returns (s: State)
    ensures Reachable(s) && Sound(s) && s.c.w == WTakeWrite && s.c.readSeq == 0 && s.c.writeSeq == 2
    ensures var t := Leave(DropAll(s));
            exists i: nat :: i < FRAMES && SlotHas(t, i, 1) && !t.m.frames[i].busy
  {
    s := TwoQueued();
    LiveSlotIsFreed(s);
  }

  // ---- one item dropped ----

  /** A push that is delivered before the next one. */
  lemma {:induction false} OneRound(before: seq<Action>, b: State, k: nat) returns (acts: seq<Action>, s: State)
    requires CanRun(Start(), before) && RunOf(Start(), before) == b
    requires Idle(b, k, k) && b.c.next == k < 31
    ensures CanRun(Start(), acts) && RunOf(Start(), acts) == s
    ensures Idle(s, k + 1, k + 1) && s.c.next == k + 1
  {
    NextIsFree(b);
    acts, s := PushAlone(before, b);
    acts, s := WorkAlone(acts, s, true);
  }

  lemma {:induction false} CursorComesRound() returns (acts: seq<Action>, s: State)
    ensures CanRun(Start(), acts) && RunOf(Start(), acts) == s
    ensures Idle(s, 31, 31) && s.c.next == 31
  {
    StartHolds();
    acts, s := [], Start();
    for k := 0 to 31
      invariant CanRun(Start(), acts) && RunOf(Start(), acts) == s
      invariant Idle(s, k, k) && s.c.next == k
    {
      acts, s := OneRound(acts, s, k);
    }
  }

  /** An item in frame 31 that the worker begins to take, and the cursor back at frame 0. */
  lemma {:induction false} LastFrameQueued() returns (acts: seq<Action>, s: State)
    ensures CanRun(Start(), acts) && RunOf(Start(), acts) == s
    ensures Inv(s) && s.c.w == WTakeWrite && s.c.p == PIdle && s.c.readSeq == 31 && s.c.writeSeq == 32
    ensures s.c.next == 0 && s.m.accepted[31].id == 31
  {
    acts, s := CursorComesRound();
    NextIsFree(s);
    acts, s := PushAlone(acts, s);
    acts, s := WorkAlone(acts, s, false);
  }

  lemma {:induction false} ClaimStep(b: State)
    requires Inv(b) && b.c.w == WTakeWrite && b.c.p == PIdle && b.c.readSeq == 31 && b.c.writeSeq == 32
    requires b.c.next == 0 && b.m.accepted[31].id == 31
    ensures Enabled(b, Push([0], 0, 0))
    ensures var c := Do(b, Push([0], 0, 0));
            && Enabled(c, ProducerStep)
            && var s := Do(c, ProducerStep);
               && s.c == b.c.(p := PCopy(0), pId := 0) && s.m.frames[0].busy && s.m.accepted == b.m.accepted
  {
    AccessesInRange(b.c, b.m);
    assert !b.m.frames[0].busy;
  }

  /** The next push claims frame 0. */
  lemma {:induction false} FrameZeroClaimed() returns (s: State)
    ensures Reachable(s) && Inv(s) && s.c.w == WTakeWrite && s.c.readSeq == 31 && s.c.writeSeq == 32
    ensures s.m.frames[0].busy && s.m.accepted[31].id == 31
  {
    var acts, b := LastFrameQueued();
    var push := Push([0], 0, 0);
    ClaimStep(b);
    RunSnoc(Start(), acts, b, push);
    RunSnoc(Start(), acts + [push], Do(b, push), ProducerStep);
    s := Do(Do(b, push), ProducerStep);
    ReachableHolds(s);
  }

  lemma {:induction false} EmptyDelivery(s: State)
    requires Inv(s) && s.c.w == WTakeWrite && s.c.readSeq + 1 == s.c.writeSeq
    requires s.m.frames[0].busy && s.m.accepted[s.c.readSeq].id != 0
    ensures var u := Leave(DropAll(s));
            && Sized(u.m) && SliceOk(u.m.local.slice) && !u.c.w.WRead?
            && HandOver(u).m.delivered == s.m.delivered + [Delivery([], 0, 0)]
  {
    WholeSlotFrees(s);
    HandedAfterDrop(s);
    OneDropThenLeave(s);
  }

  /**
    A run from the start with 31 of 32 pushes delivered, after which the last one is
    dropped and the callback is given an empty message that nobody pushed.
   */
  lemma {:induction false} EmptyDeliveryFromStart() returns (s: State)
    ensures Reachable(s) && Sound(s) && s.c.w == WTakeWrite && s.c.readSeq == 31 && s.c.writeSeq == 32
    ensures s.m.delivered == Promises(s.m.accepted)[..31]
    ensures var u := Leave(DropAll(s));
            && Sized(u.m) && SliceOk(u.m.local.slice) && !u.c.w.WRead?
            && HandOver(u).m.delivered == s.m.delivered + [Delivery([], 0, 0)]
  {
    s := FrameZeroClaimed();
    EmptyDelivery(s);
  }
}
