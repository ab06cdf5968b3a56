/** Invariants of the queue machine that speak of program counters and scalars only: lock, wake-up, stop. */
module QueueControl {
  import opened FrameModel
  import opened RingModel
  import opened QueueSteps

  /** The worker has the lock. */
  predicate WorkerInside(w: WorkerPc) {
    w in {WTestStop, WTestRead, WTestWrite, WEnter, WReadStop, WUnlock}
  }

  ghost predicate LockOk(c: Control) {
    && (c.lock == Producer <==> c.p in {PSignal, PUnlock})
    && (c.lock == Worker <==> WorkerInside(c.w))
    && (c.lock == Stopper <==> c.c in {CSet, CSignal, CUnlock})
  }

  /** The item is being copied out of its slot. */
  predicate Taking(w: WorkerPc) {
    w.WCopy? || w.WZero? || w == WAdvance
  }

  /** The worker holds an item whose slot it has given up. */
  predicate Holding(w: WorkerPc) {
    w in {WGetBusy, WGetLen, WDoneBusy, WDoneDec, WDoneFree} || w.WRead? || w.WDoneClear?
  }

  predicate Undoing(p: ProducerPc) {
    p in {PUndoBusy, PUndoDec, PUndoFree} || p.PUndoClear?
  }

  predicate Writing(p: ProducerPc) {
    p.PSlot? || p == PPublish
  }

  ghost predicate SeqOk(c: Control) {
    && c.readSeq <= c.writeSeq <= c.readSeq + SLOTS
    && c.pId < FRAMES && c.next < FRAMES
    && (c.p == PLoadWrite ==> c.pRead <= c.readSeq && c.writeSeq <= c.pRead + SLOTS)
    && (Undoing(c.p) ==> c.pRead <= c.readSeq && c.writeSeq == c.pRead + SLOTS)
    && (Writing(c.p) ==> c.writeSeq < c.readSeq + SLOTS)
    && (c.p.PScan? ==> c.p.k < FRAMES) && (c.p.PSlot? ==> c.p.f < FIELDS) && (c.p.PUndoClear? ==> c.p.f < FRAME_FIELDS)
    && (c.w in {WTestWrite, WStopWrite} ==> c.wRead <= c.readSeq)
    && (c.w == WTakeWrite ==> c.wRead == c.readSeq)
    && (Taking(c.w) ==> c.wRead == c.readSeq < c.writeSeq)
    && (c.w.WCopy? ==> c.w.f < FIELDS) && (c.w.WZero? ==> c.w.f < FIELDS) && (c.w.WDoneClear? ==> c.w.f < FRAME_FIELDS)
    && (Holding(c.w) ==> c.wRead < c.readSeq)
  }

  /** No lost wake-up, including the window between the test and the wait. */
  ghost predicate WakeOk(c: Control) {
    && (c.w in {WTestRead, WTestWrite, WEnter} ==> !c.stop)
    && (c.w == WEnter && c.readSeq != c.writeSeq ==> c.p == PLock)
    && (c.w == WBlocked && c.readSeq != c.writeSeq ==> c.p in {PLock, PSignal})
    && (c.w == WBlocked && c.stop ==> c.c == CSignal)
  }

  ghost predicate StopOk(c: Control) {
    && (c.stop <==> c.c in {CSignal, CUnlock, CJoin, CDone})
    && (c.stop ==> c.stopMark <= c.writeSeq)
    && (c.wStop ==> c.stop)
    && (c.w in {WStopRead, WStopWrite, WExit} ==> c.wStop)
    && (c.w == WExit ==> c.readSeq >= c.stopMark)
    && (c.c in {CDone} ==> c.w == WExit)
  }

  ghost predicate ControlInv(c: Control) {
    LockOk(c) && SeqOk(c) && WakeOk(c) && StopOk(c)
  }

  lemma {:induction false} ProducerKeepsLock(c: Control, hit: bool)
    requires ControlInv(c) && c.p != PIdle && (c.p == PLock ==> c.lock == Nobody)
    ensures LockOk(ProducerControl(c, hit))
  {
  }

  /** Up to the loads of the sequence numbers. */
  lemma {:induction false} FillerKeepsSeq(c: Control, hit: bool)
    requires SeqOk(c) && (c.p.PScan? || c.p.PCopy? || c.p in {PLen, PHolders, PNumber, PStamp, PCursor, PLoadRead})
    ensures SeqOk(ProducerControl(c, hit))
  {
  }

  lemma {:induction false} PusherKeepsSeq(c: Control, hit: bool)
    requires SeqOk(c) && (c.p.PSlot? || c.p in {PLoadWrite, PPublish, PLock, PSignal, PUnlock})
    ensures SeqOk(ProducerControl(c, hit))
  {
  }

  lemma {:induction false} UndoerKeepsSeq(c: Control, hit: bool)
    requires SeqOk(c) && (Undoing(c.p) || c.p == PNoFrame)
    ensures SeqOk(ProducerControl(c, hit))
  {
  }

  lemma {:induction false} ProducerKeepsSeq(c: Control, hit: bool)
    requires SeqOk(c) && c.p != PIdle
    ensures SeqOk(ProducerControl(c, hit))
  {
    if Undoing(c.p) || c.p == PNoFrame {
      UndoerKeepsSeq(c, hit);
    } else if c.p.PSlot? || c.p in {PLoadWrite, PPublish, PLock, PSignal, PUnlock} {
      PusherKeepsSeq(c, hit);
    } else {
      FillerKeepsSeq(c, hit);
    }
  }

  lemma {:induction false} ProducerKeepsWake(c: Control, hit: bool)
    requires ControlInv(c) && c.p != PIdle && (c.p == PLock ==> c.lock == Nobody)
    ensures WakeOk(ProducerControl(c, hit)) && StopOk(ProducerControl(c, hit))
  {
  }

  lemma {:induction false} WorkerKeepsLock(c: Control, hit: bool)
    requires ControlInv(c) && (c.w == WLock || c.w == WReacquire ==> c.lock == Nobody)
    ensures LockOk(WorkerControl(c, hit))
  {
  }

  lemma {:induction false} TakerKeepsSeq(c: Control, hit: bool)
    requires SeqOk(c) && (c.w == WTakeWrite || Taking(c.w))
    ensures SeqOk(WorkerControl(c, hit))
  {
  }

  lemma {:induction false} ReaderKeepsSeq(c: Control, hit: bool)
    requires SeqOk(c) && (c.w == WGetBusy || c.w == WGetLen || c.w.WRead?)
    ensures SeqOk(WorkerControl(c, hit))
  {
  }

  lemma {:induction false} ReleaserKeepsSeq(c: Control, hit: bool)
    requires SeqOk(c) && (c.w in {WDoneBusy, WDoneDec, WDoneFree} || c.w.WDoneClear?)
    ensures SeqOk(WorkerControl(c, hit))
  {
  }

  lemma {:induction false} WaiterKeepsSeq(c: Control, hit: bool)
    requires SeqOk(c) && c.w != WTakeWrite && !Taking(c.w) && !Holding(c.w)
    ensures SeqOk(WorkerControl(c, hit))
  {
  }

  lemma {:induction false} WorkerKeepsWake(c: Control, hit: bool)
    requires ControlInv(c) && (c.w == WLock || c.w == WReacquire ==> c.lock == Nobody)
    ensures WakeOk(WorkerControl(c, hit)) && StopOk(WorkerControl(c, hit))
  {
  }

  lemma {:induction false} StopperKeepsControl(c: Control)
    requires ControlInv(c) && (c.c == CLock ==> c.lock == Nobody) && (c.c == CJoin ==> c.w == WExit)
    ensures ControlInv(StopperControl(c))
  {
  }

  lemma {:induction false} ControlKept(s: State, a: Action)
    requires ControlInv(s.c) && Enabled(s, a)
    ensures ControlInv(Do(s, a).c)
  {
    match a
    case Push(data, _, _) =>
    case ProducerStep =>
      ProducerKeepsLock(s.c, ProducerHit(s.c, s.m));
      ProducerKeepsSeq(s.c, ProducerHit(s.c, s.m));
      ProducerKeepsWake(s.c, ProducerHit(s.c, s.m));
    case WorkerStep =>
      var hit := WorkerHit(s.c, s.m);
      WorkerKeepsLock(s.c, hit);
      if s.c.w == WGetBusy || s.c.w == WGetLen || s.c.w.WRead? {
        ReaderKeepsSeq(s.c, hit);
      } else if Holding(s.c.w) {
        ReleaserKeepsSeq(s.c, hit);
      } else if s.c.w == WTakeWrite || Taking(s.c.w) {
        TakerKeepsSeq(s.c, hit);
      } else {
        WaiterKeepsSeq(s.c, hit);
      }
      WorkerKeepsWake(s.c, WorkerHit(s.c, s.m));
    case SpuriousWakeup =>
    case StopperStep => StopperKeepsControl(s.c);
  }
}
