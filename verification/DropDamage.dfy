/**
  mb_runtime_flow_drop_pending against a worker inside its take: the whole loop
  of drops without a step of another thread in between, then the worker alone
  until it has left its take. When this breaks the ownership of a frame, and what
  the worker then delivers.
 */
module DropDamage {
  import opened Sets
  import opened FrameModel
  import opened RingModel
  import opened QueueSteps
  import opened QueueControl
  import opened QueueData
  import opened QueueProof
  import opened QueueTheorems
  import opened SecondConsumer

  // ---- the drops ----

  /** The loop of mb_runtime_flow_drop_pending. */
  function DropAll(s: State): (d: State)
    requires Sized(s.m) && s.c.readSeq <= s.c.writeSeq
    ensures Sized(d.m)
    decreases s.c.writeSeq - s.c.readSeq
  {
    if s.c.readSeq == s.c.writeSeq then s else DropAll(DropOne(s))
  }

  function Pending(c: Control): set<nat> {
    Upto(c.writeSeq) - Upto(c.readSeq)
  }

  lemma {:induction false} DropAllDoes(s: State)
    requires Sized(s.m) && s.c.readSeq <= s.c.writeSeq
    ensures var d := DropAll(s);
            && d.c == s.c.(readSeq := s.c.writeSeq) && d.m.local == s.m.local
            && d.m.accepted == s.m.accepted && d.m.delivered == s.m.delivered
    decreases s.c.writeSeq - s.c.readSeq
  {
    if s.c.readSeq != s.c.writeSeq {
      DropAllDoes(DropOne(s));
    }
  }

  lemma {:induction false} FreeStaysFree(s: State, i: nat)
    requires Sized(s.m) && s.c.readSeq <= s.c.writeSeq && i < FRAMES && !s.m.frames[i].busy
    ensures !DropAll(s).m.frames[i].busy
    decreases s.c.writeSeq - s.c.readSeq
  {
    if s.c.readSeq != s.c.writeSeq {
      FreeStaysFree(DropOne(s), i);
    }
  }

  /** A drop leaves the next slot whole, wherever the worker is, and frees the next frame or leaves it alone. */
  lemma {:induction false} DropLeavesNext(s: State)
    requires Sound(s) && s.c.readSeq + 2 <= s.c.writeSeq
    ensures var k := s.c.readSeq + 1;
            var e, d := s.m.accepted[k], DropOne(s);
            && d.c == s.c.(readSeq := k) && d.m.items[Slot(k)] == ItemFor(k, e)
            && e.id < FRAMES && |e.bytes| <= CAPACITY
            && (d.m.frames[e.id].busy ==> d.m.frames[e.id].holders == 1)
  {
    var k := s.c.readSeq + 1;
    var e := s.m.accepted[k];
    SlotsDiffer(s.c.readSeq, k);
    assert s.m.items[Slot(k)] == ItemFor(k, e);
    assert s.m.owner[e.id] == Queued(k) && FrameHas(s.m.frames[e.id], e.bytes);
  }

  lemma {:induction false} WholeSlotIsFreed(d: State, id: nat)
    requires CanDrop(d) && SliceOk(d.m.items[Slot(d.c.readSeq)].slice) && id == d.m.items[Slot(d.c.readSeq)].slice.id
    requires d.m.frames[id].busy ==> d.m.frames[id].holders == 1
    ensures !DropOne(d).m.frames[id].busy
  {
  }

  lemma {:induction false} SecondIsFreed(s: State)
    requires Sound(s) && s.c.readSeq + 2 <= s.c.writeSeq
    ensures !DropOne(DropOne(s)).m.frames[s.m.accepted[s.c.readSeq + 1].id].busy
  {
    DropLeavesNext(s);
    WholeSlotIsFreed(DropOne(s), s.m.accepted[s.c.readSeq + 1].id);
  }

  lemma {:induction false} SecondStaysFreed(s: State)
    requires Sound(s) && s.c.readSeq + 2 <= s.c.writeSeq
    ensures !DropAll(s).m.frames[s.m.accepted[s.c.readSeq + 1].id].busy
  {
    SecondIsFreed(s);
    FreeStaysFree(DropOne(DropOne(s)), s.m.accepted[s.c.readSeq + 1].id);
  }

  lemma PendingShrinks(c: Control, gone: set<nat>)
    ensures c.readSeq >= c.writeSeq ==> gone + Pending(c) == gone
    ensures c.readSeq < c.writeSeq ==>
              gone + {c.readSeq} + Pending(c.(readSeq := c.readSeq + 1)) == gone + Pending(c)
  {
  }

  lemma {:induction false} FirstDropKeeps(x: Mixed)
    requires MixedInv(x) && !InsideTake(x.s.c.w) && x.s.c.readSeq < x.s.c.writeSeq
    ensures MixedInv(Mixed(DropOne(x.s), x.gone + {x.s.c.readSeq}))
    ensures DropOne(x.s).c == x.s.c.(readSeq := x.s.c.readSeq + 1) && DropAll(x.s) == DropAll(DropOne(x.s))
  {
    MoveKeeps(x, Drop);
  }

  lemma {:induction false} DropAllKeeps(x: Mixed)
    requires MixedInv(x) && !InsideTake(x.s.c.w)
    ensures MixedInv(Mixed(DropAll(x.s), x.gone + Pending(x.s.c)))
    decreases x.s.c.writeSeq - x.s.c.readSeq
  {
    PendingShrinks(x.s.c, x.gone);
    if x.s.c.readSeq != x.s.c.writeSeq {
      FirstDropKeeps(x);
      DropAllKeeps(Mixed(DropOne(x.s), x.gone + {x.s.c.readSeq}));
    }
  }

  // ---- the worker leaves its take ----

  function TakeDistance(w: WorkerPc): nat {
    match w
    case WTakeWrite => 20
    case WCopy(f) => if f < FIELDS then 10 + FIELDS - f else 10
    case WZero(f) => if f < FIELDS then 2 + FIELDS - f else 2
    case WAdvance => 1
    case _ => 0
  }

  /** The worker alone, until it is past the store of read_seq or has found the ring empty. */
  function Leave(s: State): (t: State)
    requires Sized(s.m)
    ensures Sized(t.m) && !InsideTake(t.c.w)
    decreases TakeDistance(s.c.w)
  {
    if InsideTake(s.c.w) then Leave(Do(s, WorkerStep)) else s
  }

  /** The worker has loaded both sequence numbers, or will find them different. */
  predicate GoesOn(c: Control) {
    InsideTake(c.w) && (c.w == WTakeWrite ==> c.wRead != c.writeSeq)
  }

  /** The worker has not read the slice of the slot yet. */
  predicate SliceUnread(w: WorkerPc) {
    w == WTakeWrite || w == WCopy(0)
  }

  lemma {:induction false} TakeStep(s: State)
    requires Sized(s.m) && GoesOn(s.c)
    ensures var t := Do(s, WorkerStep);
            && Sized(t.m) && t.m.frames == s.m.frames && t.m.accepted == s.m.accepted && t.m.delivered == s.m.delivered
            && t.c == (if s.c.w == WAdvance then s.c.(w := WGetBusy, readSeq := s.c.wRead + 1) else s.c.(w := t.c.w))
            && (s.c.w != WAdvance ==> GoesOn(t.c) && TakeDistance(t.c.w) < TakeDistance(s.c.w))
  {
  }

  lemma {:induction false} TakeStepCopies(s: State)
    requires Sized(s.m) && GoesOn(s.c)
    ensures var t := Do(s, WorkerStep);
            t.m.local == if s.c.w.WCopy? then CopyField(s.m.local, s.m.items[Slot(s.c.wRead)], s.c.w.f) else s.m.local
    ensures !s.c.w.WZero? ==> Do(s, WorkerStep).m.items == s.m.items
  {
  }

  lemma {:induction false} LeaveDoes(s: State)
    requires Sized(s.m) && GoesOn(s.c)
    ensures var t := Leave(s);
            && t.c == s.c.(w := WGetBusy, readSeq := s.c.wRead + 1) && t.m.frames == s.m.frames
            && t.m.accepted == s.m.accepted && t.m.delivered == s.m.delivered
    decreases TakeDistance(s.c.w)
  {
    TakeStep(s);
    if s.c.w != WAdvance {
      LeaveDoes(Do(s, WorkerStep));
    }
  }

  lemma {:induction false} LeaveReadsSlice(s: State)
    requires Sized(s.m) && GoesOn(s.c)
    ensures Leave(s).m.local.slice
            == if SliceUnread(s.c.w) then s.m.items[Slot(s.c.wRead)].slice else s.m.local.slice
    decreases TakeDistance(s.c.w)
  {
    TakeStep(s);
    TakeStepCopies(s);
    if s.c.w != WAdvance {
      LeaveReadsSlice(Do(s, WorkerStep));
    }
  }

  /** A copy that agrees so far ends up equal. */
  lemma {:induction false} LeaveCopies(s: State, it: Item)
    requires Sized(s.m) && GoesOn(s.c)
    requires s.c.w == WTakeWrite || s.c.w.WCopy? ==> s.m.items[Slot(s.c.wRead)] == it
    requires s.c.w.WCopy? ==> s.c.w.f < FIELDS && Agrees(s.m.local, it, s.c.w.f)
    requires s.c.w != WTakeWrite && !s.c.w.WCopy? ==> s.m.local == it
    ensures Leave(s).m.local == it
    decreases TakeDistance(s.c.w)
  {
    TakeStep(s);
    TakeStepCopies(s);
    if s.c.w.WCopy? {
      OneMoreAgrees(s.m.local, it, s.c.w.f);
    }
    if s.c.w != WAdvance {
      LeaveCopies(Do(s, WorkerStep), it);
    }
  }

  lemma {:induction false} StepIgnoresReadSeq(s: State, n: nat)
    requires Sized(s.m) && GoesOn(s.c)
    ensures var t := Do(s, WorkerStep);
            Do(State(s.c.(readSeq := n), s.m), WorkerStep)
            == State(if s.c.w == WAdvance then t.c else t.c.(readSeq := n), t.m)
  {
  }

  /** The store of read_seq hides what stood there. */
  lemma {:induction false} LeaveOverwrites(s: State, n: nat)
    requires Sized(s.m) && GoesOn(s.c)
    ensures Leave(State(s.c.(readSeq := n), s.m)) == Leave(s)
    decreases TakeDistance(s.c.w)
  {
    TakeStep(s);
    StepIgnoresReadSeq(s, n);
    if s.c.w != WAdvance {
      LeaveOverwrites(Do(s, WorkerStep), n);
    }
  }

  lemma TakeComesToAnEnd(s: State)
    requires Sized(s.m) && InsideTake(s.c.w)
    ensures Enabled(s, WorkerStep) && TakeDistance(Do(s, WorkerStep).c.w) < TakeDistance(s.c.w)
    ensures Leave(s) == Leave(Do(s, WorkerStep))
  {
  }

  lemma {:induction false} LeaveKeeps(x: Mixed)
    requires MixedInv(x)
    ensures MixedInv(Mixed(Leave(x.s), x.gone))
    decreases TakeDistance(x.s.c.w)
  {
    if InsideTake(x.s.c.w) {
      TakeComesToAnEnd(x.s);
      MoveKeeps(x, Act(WorkerStep));
      LeaveKeeps(After(x, Act(WorkerStep)));
    }
  }

  // ---- when ownership breaks ----

  /** The slot that the next drop reads names a frame with one reference. */
  predicate FreesFrame(s: State)
    requires CanDrop(s)
  {
    var slice := s.m.items[Slot(s.c.readSeq)].slice;
    SliceOk(slice) && s.m.frames[slice.id].busy && s.m.frames[slice.id].holders == 1
  }

  /** Outside a take, or nothing to drop, or one item whose slot no longer names a frame to free. */
  predicate Safe(s: State)
    requires Sized(s.m)
  {
    || !InsideTake(s.c.w) || s.c.readSeq == s.c.writeSeq
    || (s.c.readSeq + 1 == s.c.writeSeq && !FreesFrame(s))
  }

  /** The positions that end up dropped: inside a take a safe drop leaves the item to the worker. */
  function Lost(s: State): set<nat> {
    if InsideTake(s.c.w) then {} else Pending(s.c)
  }

  lemma {:induction false} WholeSlotFrees(s: State)
    requires Sound(s) && s.c.readSeq < s.c.writeSeq && !Vacating(s.c.w)
    ensures FreesFrame(s) && s.m.items[Slot(s.c.readSeq)].slice.id == s.m.accepted[s.c.readSeq].id
  {
    var e := s.m.accepted[s.c.readSeq];
    assert s.m.items[Slot(s.c.readSeq)] == ItemFor(s.c.readSeq, e);
    assert s.m.owner[e.id] == Queued(s.c.readSeq) && FrameHas(s.m.frames[e.id], e.bytes);
  }

  /** A drop that frees nothing touches the slot being emptied and, at most, a frame whose count is not set yet. */
  lemma {:induction false} QuietDropKeepsShared(s: State)
    requires Sound(s) && s.c.readSeq + 1 == s.c.writeSeq && Vacating(s.c.w) && !FreesFrame(s)
    ensures SharedInv(s.c, DropOne(s).m)
  {
    assert s.m.owner[s.m.accepted[s.c.readSeq].id] == Queued(s.c.readSeq);
  }

  lemma {:induction false} QuietDropKeepsLocal(s: State)
    requires Sound(s) && s.c.readSeq + 1 == s.c.writeSeq && Vacating(s.c.w) && !FreesFrame(s)
    requires SharedInv(s.c, DropOne(s).m)
    ensures LocalInv(s.c, DropOne(s).m)
  {
    if Writing(s.c.p) {
      SlotsDiffer(s.c.readSeq, s.c.writeSeq);
    }
  }

  lemma {:induction false} QuietDropKeepsInv(x: Mixed)
    requires MixedInv(x) && x.s.c.readSeq + 1 == x.s.c.writeSeq && Vacating(x.s.c.w) && !FreesFrame(x.s)
    ensures MixedInv(Mixed(State(x.s.c, DropOne(x.s).m), x.gone))
  {
    QuietDropKeepsShared(x.s);
    QuietDropKeepsLocal(x.s);
    DropLogsNothing(x.s);
  }

  /** But for read_seq, which the worker is about to store. */
  lemma {:induction false} OneDropOnly(s: State)
    requires Sized(s.m) && s.c.readSeq + 1 == s.c.writeSeq
    ensures DropAll(s) == DropOne(s) == State(s.c.(readSeq := s.c.writeSeq), DropOne(s).m)
  {
  }

  lemma {:induction false} QuietDropKeeps(x: Mixed)
    requires MixedInv(x) && x.s.c.readSeq + 1 == x.s.c.writeSeq && InsideTake(x.s.c.w) && !FreesFrame(x.s)
    ensures MixedInv(Mixed(Leave(DropAll(x.s)), x.gone))
  {
    if !Vacating(x.s.c.w) {
      WholeSlotFrees(x.s);
    } else {
      var t := State(x.s.c, DropOne(x.s).m);
      QuietDropKeepsInv(x);
      LeaveKeeps(Mixed(t, x.gone));
      LeaveOverwrites(t, x.s.c.writeSeq);
      OneDropOnly(x.s);
    }
  }

  lemma {:induction false} SafeKeeps(x: Mixed)
    requires MixedInv(x) && Safe(x.s)
    ensures MixedInv(Mixed(Leave(DropAll(x.s)), x.gone + Lost(x.s)))
  {
    if !InsideTake(x.s.c.w) {
      DropAllKeeps(x);
      DropAllDoes(x.s);
    } else {
      assert x.gone + Lost(x.s) == x.gone;
      if x.s.c.readSeq == x.s.c.writeSeq {
        LeaveKeeps(x);
      } else {
        QuietDropKeeps(x);
      }
    }
  }

  /** With two items or more the worker puts read_seq back to an item that is gone. */
  lemma {:induction false} LiveSlotIsFreed(s: State)
    requires Sound(s) && InsideTake(s.c.w) && s.c.readSeq + 2 <= s.c.writeSeq
    ensures var t, k := Leave(DropAll(s)), s.c.readSeq + 1;
            SlotHas(t, s.m.accepted[k].id, k) && !t.m.frames[s.m.accepted[k].id].busy
  {
    SecondStaysFreed(s);
    DropAllDoes(s);
    LeaveDoes(DropAll(s));
  }

  /** The frame that the worker's copy will name once the slot has been dropped. */
  function Named(s: State): nat {
    if SliceUnread(s.c.w) then 0 else s.m.local.slice.id
  }

  lemma {:induction false} OneDrop(s: State)
    requires Sound(s) && InsideTake(s.c.w) && s.c.readSeq + 1 == s.c.writeSeq && FreesFrame(s)
    ensures var d, id := DropOne(s), s.m.items[Slot(s.c.readSeq)].slice.id;
            && DropAll(s) == d && GoesOn(d.c)
            && d.c == s.c.(readSeq := s.c.writeSeq) && d.m.local == s.m.local && d.m.items[Slot(d.c.wRead)] == ZERO_ITEM
            && d.m.accepted == s.m.accepted && d.m.delivered == s.m.delivered
            && d.m.frames == s.m.frames[id := GivenBack(s.m.frames[id])]
  {
  }

  lemma {:induction false} OneDropThenLeave(s: State)
    requires Sound(s) && InsideTake(s.c.w) && s.c.readSeq + 1 == s.c.writeSeq && FreesFrame(s)
    ensures var t, id := Leave(DropAll(s)), s.m.items[Slot(s.c.readSeq)].slice.id;
            && t.c == s.c.(w := WGetBusy, readSeq := s.c.writeSeq) && t.m.local.slice.id == Named(s)
            && t.m.accepted == s.m.accepted && t.m.delivered == s.m.delivered
            && t.m.frames == s.m.frames[id := GivenBack(s.m.frames[id])]
  {
    OneDrop(s);
    LeaveDoes(DropOne(s));
    LeaveReadsSlice(DropOne(s));
  }

  /** Nobody but the producer and the only item can have a frame, which is why the frame freed is one of theirs. */
  lemma {:induction false} FreedFrameIs(s: State)
    requires Sound(s) && InsideTake(s.c.w) && s.c.readSeq + 1 == s.c.writeSeq && FreesFrame(s)
    ensures var own, id := s.m.accepted[s.c.readSeq].id, s.m.items[Slot(s.c.readSeq)].slice.id;
            && (id == own || ProducerHas(s, id)) && (!Vacating(s.c.w) ==> id == own)
            && (Named(s) == own || (Named(s) == 0 && !Vacating(s.c.w)))
            && (s.m.frames[0].busy ==> own == 0 || ProducerHas(s, 0))
  {
    assert s.m.owner[s.m.accepted[s.c.readSeq].id] == Queued(s.c.readSeq);
    if !Vacating(s.c.w) {
      WholeSlotFrees(s);
    }
  }

  /** The freed frame is the producer's, or the frame that the worker now has is free or the producer's. */
  lemma {:induction false} OneFreedIsShared(s: State)
    requires Sound(s) && InsideTake(s.c.w) && s.c.readSeq + 1 == s.c.writeSeq && FreesFrame(s)
    ensures var t := Leave(DropAll(s));
            exists i: nat :: i < FRAMES && !OwnedOnce(t, i)
  {
    var t := Leave(DropAll(s));
    var id := s.m.items[Slot(s.c.readSeq)].slice.id;
    OneDropThenLeave(s);
    FreedFrameIs(s);
    if ProducerHas(s, id) {
      assert !OwnedOnce(t, id);
    } else {
      assert !OwnedOnce(t, Named(s));
    }
  }

  lemma SoundMeansAllOwnedOnce(t: State)
    requires Sound(t)
    ensures Sized(t.m) && forall i: nat | i < FRAMES :: OwnedOnce(t, i)
  {
    forall i: nat | i < FRAMES ensures OwnedOnce(t, i) {
      SoundMeansOwnedOnce(t, i);
    }
  }

  lemma {:induction false} UnsafeBreaks(s: State)
    requires Sound(s) && !Safe(s)
    ensures exists i: nat :: i < FRAMES && !OwnedOnce(Leave(DropAll(s)), i)
  {
    var t := Leave(DropAll(s));
    if s.c.readSeq + 2 <= s.c.writeSeq {
      LiveSlotIsFreed(s);
      assert !OwnedOnce(t, s.m.accepted[s.c.readSeq + 1].id);
    } else {
      OneFreedIsShared(s);
    }
  }

  /**
    After mb_runtime_flow_drop_pending and the rest of the worker's take every
    frame has one owner if and only if the worker was outside its take, or nothing
    was queued, or one item was queued and its slot named no frame to free. Then
    the whole invariant holds, whatever the threads do next.
   */
  lemma {:induction false} DropPendingIsSafeExactly(x: Mixed)
    requires MixedInv(x)
    ensures var t := Leave(DropAll(x.s));
            && ((forall i: nat | i < FRAMES :: OwnedOnce(t, i)) <==> Safe(x.s))
            && (Safe(x.s) ==> MixedInv(Mixed(t, x.gone + Lost(x.s))))
  {
    if Safe(x.s) {
      SafeKeeps(x);
      SoundMeansAllOwnedOnce(Leave(DropAll(x.s)));
    } else {
      UnsafeBreaks(x.s);
    }
  }

  /**
    After a safe drop every later interleaving, with more drops outside a take, keeps
    one owner for every frame, and the callback gets, in order and byte for byte, the
    accepted pushes without the dropped ones.
   */
  lemma {:induction false} AnyRunAfterSafeDrop(x: Mixed, moves: seq<Move>, i: nat)
    requires MixedInv(x) && Safe(x.s) && i < FRAMES
    requires MixedRun(Mixed(Leave(DropAll(x.s)), x.gone + Lost(x.s)), moves)
    ensures var y := End(Mixed(Leave(DropAll(x.s)), x.gone + Lost(x.s)), moves);
            && Sized(y.s.m) && OwnedOnce(y.s, i)
            && Dealt(y.s.c) <= |y.s.m.accepted| && y.s.m.delivered == Kept(y.s.m.accepted, y.gone, Dealt(y.s.c))
  {
    var y := Mixed(Leave(DropAll(x.s)), x.gone + Lost(x.s));
    SafeKeeps(x);
    MixedRunKeeps(y, moves);
    SoundMeansOwnedOnce(End(y, moves).s, i);
  }

  // ---- what the worker then delivers ----

  /** The worker alone, until the callback has returned or the frame was refused. */
  function HandOver(s: State): State
    requires Sized(s.m) && SliceOk(s.m.local.slice) && (s.c.w.WRead? ==> s.c.w.j <= s.m.local.slice.len)
    decreases HandDistance(s)
  {
    if Undelivered(s.c.w) then HandOver(Do(s, WorkerStep)) else s
  }

  function HandDistance(s: State): nat {
    match s.c.w
    case WGetBusy => s.m.local.slice.len + 3
    case WGetLen => s.m.local.slice.len + 2
    case WRead(j) => if j <= s.m.local.slice.len then 1 + s.m.local.slice.len - j else 1
    case _ => 0
  }

  lemma {:induction false} FreeFrameIsRefused(s: State)
    requires Sized(s.m) && SliceOk(s.m.local.slice) && s.c.w == WGetBusy && !s.m.frames[s.m.local.slice.id].busy
    ensures HandOver(s) == State(s.c.(w := WDoneBusy), s.m)
  {
    assert HandOver(Do(s, WorkerStep)) == Do(s, WorkerStep);
  }

  lemma {:induction false} NoBytesAreDelivered(s: State)
    requires Sized(s.m) && s.c.w == WRead(0) && s.m.local == ZERO_ITEM && s.m.buffer == []
    ensures HandOver(s) == State(s.c.(w := WDoneBusy), s.m.(delivered := s.m.delivered + [Delivery([], 0, 0)]))
  {
    assert HandOver(Do(s, WorkerStep)) == Do(s, WorkerStep);
  }

  lemma {:induction false} NoBytesAlwaysFit(s: State)
    requires Sized(s.m) && s.c.w == WGetLen && s.m.local == ZERO_ITEM
    ensures HandOver(s).c.w == WDoneBusy
    ensures HandOver(s).m.delivered == s.m.delivered + [Delivery([], 0, 0)]
  {
    var t := Do(s, WorkerStep);
    assert t == State(s.c.(w := WRead(0)), s.m.(buffer := []));
    NoBytesAreDelivered(t);
  }

  /** A zeroed item names no bytes of frame 0, which is always long enough for that. */
  lemma {:induction false} ZeroItemIsHandedOver(s: State)
    requires Sized(s.m) && s.c.w == WGetBusy && s.m.local == ZERO_ITEM && s.m.frames[0].busy
    ensures HandOver(s).c.w == WDoneBusy
    ensures HandOver(s).m.delivered == s.m.delivered + [Delivery([], 0, 0)]
  {
    var t := Do(s, WorkerStep);
    assert t == State(s.c.(w := WGetLen), s.m);
    NoBytesAlwaysFit(t);
  }

  /** The only item is dropped under the worker, and its own frame freed. */
  predicate DroppedUnderWorker(s: State)
    requires CanDrop(s) && s.c.readSeq < |s.m.accepted|
  {
    && InsideTake(s.c.w) && s.c.readSeq + 1 == s.c.writeSeq && FreesFrame(s)
    && s.m.items[Slot(s.c.readSeq)].slice.id == s.m.accepted[s.c.readSeq].id
  }

  lemma {:induction false} CopyOfDropped(s: State)
    requires Sound(s) && s.c.readSeq < s.c.writeSeq && DroppedUnderWorker(s)
    ensures var t := Leave(DropAll(s)); Sized(t.m) && SliceOk(t.m.local.slice)
    ensures SliceUnread(s.c.w) ==> Leave(DropAll(s)).m.local == ZERO_ITEM
  {
    OneDrop(s);
    LeaveReadsSlice(DropOne(s));
    if SliceUnread(s.c.w) {
      LeaveCopies(DropOne(s), ZERO_ITEM);
    }
  }

  /** Frame 0 is looked at for an item of another frame, and somebody has it. */
  predicate TakesFrameZero(s: State)
    requires Sized(s.m) && s.c.readSeq < |s.m.accepted|
  {
    SliceUnread(s.c.w) && s.m.accepted[s.c.readSeq].id != 0 && s.m.frames[0].busy
  }

  lemma {:induction false} HandedAfterDrop(s: State)
    requires Sound(s) && s.c.readSeq < s.c.writeSeq && DroppedUnderWorker(s)
    ensures var u := Leave(DropAll(s));
            && Sized(u.m) && SliceOk(u.m.local.slice) && u.c.w == WGetBusy
            && var t := HandOver(u);
               && t.c.w == WDoneBusy
               && t.m.delivered == u.m.delivered + if TakesFrameZero(s) then [Delivery([], 0, 0)] else []
  {
    var u := Leave(DropAll(s));
    OneDropThenLeave(s);
    CopyOfDropped(s);
    if TakesFrameZero(s) {
      ZeroItemIsHandedOver(u);
    } else {
      FreeFrameIsRefused(u);
    }
  }

  lemma {:induction false} LogAfterDrop(x: Mixed)
    requires MixedInv(x) && x.s.c.readSeq < x.s.c.writeSeq && DroppedUnderWorker(x.s)
    ensures var u := Leave(DropAll(x.s));
            && u.c.readSeq <= |u.m.accepted|
            && u.m.delivered == Kept(u.m.accepted, x.gone + {x.s.c.readSeq}, u.c.readSeq)
  {
    DropMoveKeepsDrops(x.s, x.gone);
    OneDropThenLeave(x.s);
  }

  /**
    One item dropped under the worker, which then goes on alone: the callback gets an
    empty message that was never pushed if the slot was still to be read, the item
    was not in frame 0 and frame 0 is busy; otherwise it gets nothing.
   */
  lemma {:induction false} DroppedItemIsDeliveredEmpty(x: Mixed)
    requires MixedInv(x) && x.s.c.readSeq < x.s.c.writeSeq && DroppedUnderWorker(x.s)
    ensures var u := Leave(DropAll(x.s));
            && Sized(u.m) && SliceOk(u.m.local.slice) && u.c.w == WGetBusy && u.c.readSeq <= |u.m.accepted|
            && var t := HandOver(u);
               && t.c.w == WDoneBusy
               && t.m.delivered == Kept(u.m.accepted, x.gone + {x.s.c.readSeq}, u.c.readSeq)
                                   + if TakesFrameZero(x.s) then [Delivery([], 0, 0)] else []
  {
    HandedAfterDrop(x.s);
    LogAfterDrop(x);
  }
}
