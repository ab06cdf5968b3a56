/** Invariants of the queue machine that tie frames, slots and local copies to the log of accepted pushes. */
module QueueData {
  import opened Bytes
  import opened Sets
  import opened FrameModel
  import opened RingModel
  import opened QueueSteps
  import opened QueueControl

  /** The producer owns a frame. */
  predicate Filling(p: ProducerPc) {
    || p.PCopy? || p.PSlot? || p.PUndoClear?
    || p in {PLen, PHolders, PNumber, PStamp, PCursor, PLoadRead, PLoadWrite, PPublish, PUndoBusy, PUndoDec, PUndoFree}
  }

  /** The payload, then the length, then the count are in place. */
  predicate CopyDone(p: ProducerPc) {
    Filling(p) && !p.PCopy? && !p.PUndoClear? && p != PUndoFree
  }

  predicate LenDone(p: ProducerPc) {
    CopyDone(p) && p != PLen
  }

  predicate CountDone(p: ProducerPc) {
    LenDone(p) && p != PHolders
  }

  predicate Vacating(w: WorkerPc) {
    w.WZero? || w == WAdvance
  }

  /** The taken frame still holds its contents. */
  predicate Intact(w: WorkerPc) {
    w in {WGetBusy, WGetLen, WDoneBusy, WDoneDec} || w.WRead?
  }

  /** Taken but not yet handed over. */
  predicate Undelivered(w: WorkerPc) {
    w in {WGetBusy, WGetLen} || w.WRead?
  }

  ghost predicate FrameHas(f: Frame, bytes: seq<Byte>) {
    |bytes| <= CAPACITY == |f.payload| && f.payload[..|bytes|] == bytes && f.len == |bytes| && f.holders == 1
  }

  function ItemFor(k: nat, e: Entry): Item {
    Item(Slice(e.id, 0, |e.bytes|), k, e.timestamp, e.epoch, 0)
  }

  /** The first `f` fields agree. */
  predicate Agrees(a: Item, b: Item, f: nat) {
    && (f > 0 ==> a.slice == b.slice) && (f > 1 ==> a.number == b.number)
    && (f > 2 ==> a.timestamp == b.timestamp) && (f > 3 ==> a.epoch == b.epoch) && (f > 4 ==> a.flags == b.flags)
  }

  // ---- the parts ----

  /** Every frame is exactly one of free, held by the producer, queued in one live slot, or in the worker's hands. */
  ghost predicate OwnersOk(c: Control, m: Memory)
    requires Sized(m) && |m.accepted| == c.writeSeq
  {
    forall i | 0 <= i < FRAMES ::
      && (m.frames[i].busy <==> m.owner[i] != Free)
      && (m.owner[i] == Held ==> Filling(c.p) && c.pId == i)
      && (m.owner[i] == Working ==> Holding(c.w) && m.local.slice.id == i)
      && (m.owner[i].Queued? ==> c.readSeq <= m.owner[i].k < c.writeSeq && m.accepted[m.owner[i].k].id == i)
  }

  ghost predicate EntriesOk(c: Control, m: Memory) {
    |m.accepted| == c.writeSeq &&
    forall k | 0 <= k < |m.accepted| :: m.accepted[k].id < FRAMES && |m.accepted[k].bytes| <= CAPACITY
  }

  /** A queued frame is owned by its slot and holds the accepted bytes. */
  ghost predicate LiveOk(c: Control, m: Memory)
    requires Sized(m) && EntriesOk(c, m)
  {
    forall k | c.readSeq <= k < c.writeSeq ::
      m.owner[m.accepted[k].id] == Queued(k) && FrameHas(m.frames[m.accepted[k].id], m.accepted[k].bytes)
  }

  ghost predicate SlotsOk(c: Control, m: Memory)
    requires Sized(m) && |m.accepted| == c.writeSeq
  {
    forall k | c.readSeq <= k < c.writeSeq && !(k == c.readSeq && Vacating(c.w)) ::
      m.items[Slot(k)] == ItemFor(k, m.accepted[k])
  }

  ghost predicate ProducerOk(c: Control, m: Memory)
    requires Sized(m) && c.pId < FRAMES
  {
    && |m.data| <= CAPACITY
    && (Filling(c.p) ==> m.owner[c.pId] == Held)
    && (c.p.PCopy? ==> c.p.j <= |m.data| && m.frames[c.pId].payload[..c.p.j] == m.data[..c.p.j])
    && (CopyDone(c.p) ==> m.frames[c.pId].payload[..|m.data|] == m.data)
    && (LenDone(c.p) ==> m.frames[c.pId].len == |m.data|)
    && (CountDone(c.p) ==> m.frames[c.pId].holders == 1)
  }

  ghost predicate IntendedOk(c: Control, m: Memory)
    requires Sized(m)
  {
    && (c.p.PSlot? ==> Agrees(m.items[Slot(c.writeSeq)], Intended(c, m), c.p.f))
    && (c.p == PPublish ==> m.items[Slot(c.writeSeq)] == Intended(c, m))
    && m.ringNumber == c.writeSeq + if (c.p.PSlot? && c.p.f >= 2) || c.p == PPublish then 1 else 0
  }

  ghost predicate WorkerOk(c: Control, m: Memory)
    requires Sized(m) && EntriesOk(c, m) && SeqOk(c)
  {
    && (c.w.WCopy? ==> Agrees(m.local, ItemFor(c.readSeq, m.accepted[c.readSeq]), c.w.f))
    && (Vacating(c.w) ==> m.local == ItemFor(c.readSeq, m.accepted[c.readSeq]))
    && (Holding(c.w) ==> m.local.slice.id < FRAMES && m.owner[m.local.slice.id] == Working)
    && (Intact(c.w) ==> && m.local == ItemFor(c.wRead, m.accepted[c.wRead])
                        && FrameHas(m.frames[m.local.slice.id], m.accepted[c.wRead].bytes))
    && (c.w.WRead? ==> && c.w.j <= |m.accepted[c.wRead].bytes|
                       && m.buffer == m.accepted[c.wRead].bytes[..c.w.j])
  }

  function Promise(e: Entry): Delivery {
    Delivery(e.bytes, e.epoch, e.timestamp)
  }

  /** What the callback got is, in order, the first accepted pushes, byte for byte. */
  ghost predicate LogOk(c: Control, m: Memory) {
    && |m.delivered| == c.readSeq - (if Undelivered(c.w) then 1 else 0)
    && (Undelivered(c.w) ==> c.wRead == c.readSeq - 1)
    && |m.delivered| <= |m.accepted|
    && forall k | 0 <= k < |m.delivered| :: m.delivered[k] == Promise(m.accepted[k])
  }

  /** The scan has only seen frames that were busy when it began, and those were at most 17. */
  ghost predicate ScanOk(c: Control, m: Memory)
    requires Sized(m)
  {
    && c.p != PNoFrame
    && (c.p.PScan? ==>
          && (forall j | 0 <= j < c.p.k :: At(c.next, j) in m.atStart)
          && (forall i | 0 <= i < FRAMES && m.frames[i].busy :: i in m.atStart)
          && |m.atStart| <= SLOTS + 1)
  }

  /** Frames, slots and the log of accepted pushes. */
  ghost predicate SharedInv(c: Control, m: Memory) {
    Sized(m) && SeqOk(c) && EntriesOk(c, m) && OwnersOk(c, m) && LiveOk(c, m) && SlotsOk(c, m)
  }

  /** The two threads' own copies. */
  ghost predicate LocalInv(c: Control, m: Memory)
    requires SharedInv(c, m)
  {
    ProducerOk(c, m) && IntendedOk(c, m) && WorkerOk(c, m) && ScanOk(c, m)
  }

  ghost predicate DataInv(c: Control, m: Memory) {
    SharedInv(c, m) && LocalInv(c, m)
  }

  /** The invariant keeps every access in range: no step is ever held back by the guards of the machine. */
  lemma AccessesInRange(c: Control, m: Memory)
    requires DataInv(c, m)
    ensures ProducerSafe(c, m) && WorkerSafe(c, m)
  {
  }

  // ---- the scan ----

  /** The ids of the live entries. */
  function IdsFrom(accepted: seq<Entry>, from: nat): set<nat>
    requires from <= |accepted|
  {
    set k | from <= k < |accepted| :: accepted[k].id
  }

  lemma {:induction false} IdsBound(accepted: seq<Entry>, from: nat)
    requires from <= |accepted|
    ensures |IdsFrom(accepted, from)| <= |accepted| - from
    decreases |accepted| - from
  {
    if from == |accepted| {
      assert IdsFrom(accepted, from) == {};
    } else {
      IdsBound(accepted, from + 1);
      assert IdsFrom(accepted, from) == IdsFrom(accepted, from + 1) + {accepted[from].id};
    }
  }

  /** When the producer is idle, at most 16 queued frames and the worker's one are busy. */
  lemma {:induction false} BusyAtMost17(c: Control, m: Memory)
    requires DataInv(c, m) && c.p == PIdle
    ensures |BusySet(m)| <= SLOTS + 1
  {
    var ids := IdsFrom(m.accepted, c.readSeq);
    IdsBound(m.accepted, c.readSeq);
    forall i | i in BusySet(m) ensures i in ids + {m.local.slice.id} {
      if m.owner[i].Queued? {
        assert m.accepted[m.owner[i].k].id == i;
      }
    }
    SubsetSize(BusySet(m), ids + {m.local.slice.id});
  }

  /** 17 frames are not 32: a scan that meets only frames busy at its start ends before the last one. */
  lemma {:induction false} ScanEnds(next: nat, k: nat, atStart: set<nat>)
    requires next < FRAMES && k < FRAMES && |atStart| <= SLOTS + 1
    requires forall j | 0 <= j <= k :: At(next, j) in atStart
    ensures k + 1 < FRAMES
  {
    if k + 1 >= FRAMES {
      forall i | i in Upto(FRAMES) ensures i in atStart {
        ScanCovers(next, i);
        var j :| 0 <= j < FRAMES && At(next, j) == i;
        assert At(next, j) in atStart;
      }
      SubsetSize(Upto(FRAMES), atStart);
    }
  }

  // ---- steps that leave memory alone ----

  /** The data part of the invariant looks at control only through these. */
  ghost predicate SameForData(c: Control, d: Control) {
    && c.readSeq == d.readSeq && c.writeSeq == d.writeSeq
    && Filling(c.p) == Filling(d.p) && (Filling(c.p) ==> c.pId == d.pId)
    && (LenDone(d.p) ==> LenDone(c.p)) && (CopyDone(d.p) ==> CopyDone(c.p)) && (CountDone(d.p) ==> CountDone(c.p))
    && Vacating(c.w) == Vacating(d.w) && Holding(c.w) == Holding(d.w) && (Intact(d.w) ==> Intact(c.w))
    && (Holding(d.w) ==> c.wRead == d.wRead)
    && (c.p == d.p || !(c.p == PPublish || (c.p.PSlot? && c.p.f >= 2)))
    && (c.p == d.p || d.p == PSlot(0) || !(d.p.PCopy? || Writing(d.p)))
    && (c.p == d.p ==> c.next == d.next)
    && (c.w == d.w || d.w == WCopy(0) || !(d.w.WCopy? || d.w.WRead?))
  }

  lemma {:induction false} ControlOnly(c: Control, d: Control, m: Memory)
    requires DataInv(c, m) && SeqOk(d) && SameForData(c, d) && ScanOk(d, m)
    ensures DataInv(d, m)
  {
  }
}
