/** Every step of the queue machine keeps its data invariant. */
module QueueProof {
  import opened Bytes
  import opened FrameModel
  import opened RingModel
  import opened QueueSteps
  import opened QueueControl
  import opened QueueData

  // ---- the producer ----

  lemma {:induction false} CallKeepsShared(c: Control, m: Memory, m': Memory)
    requires DataInv(c, m) && c.p == PIdle
    requires m' == m.(data := m'.data, timestamp := m'.timestamp, epoch := m'.epoch, atStart := m'.atStart)
    ensures SharedInv(c.(p := PScan(0)), m')
  {
  }

  lemma {:induction false} CallKeepsLocal(c: Control, m: Memory, m': Memory)
    requires DataInv(c, m) && c.p == PIdle && SharedInv(c.(p := PScan(0)), m')
    requires m' == m.(data := m'.data, timestamp := m'.timestamp, epoch := m'.epoch, atStart := BusySet(m))
    requires |m'.data| <= CAPACITY && |m'.atStart| <= SLOTS + 1
    ensures LocalInv(c.(p := PScan(0)), m')
  {
  }

  lemma {:induction false} CallKeeps(s: State, data: seq<Byte>, timestamp: nat, epoch: nat)
    requires DataInv(s.c, s.m) && s.c.p == PIdle
    ensures DataInv(Called(s, data, timestamp, epoch).c, Called(s, data, timestamp, epoch).m)
  {
    if |data| <= CAPACITY {
      var m' := Called(s, data, timestamp, epoch).m;
      BusyAtMost17(s.c, s.m);
      CallKeepsShared(s.c, s.m, m');
      CallKeepsLocal(s.c, s.m, m');
    }
  }

  /** A scan that found only busy frames so far has frames left to look at. */
  lemma {:induction false} ScanGoesOn(c: Control, m: Memory)
    requires Sized(m) && ScanOk(c, m) && c.p.PScan? && c.p.k < FRAMES && c.next < FRAMES
    requires m.frames[At(c.next, c.p.k)].busy
    ensures c.p.k + 1 < FRAMES && ScanOk(c.(p := PScan(c.p.k + 1)), m)
  {
    forall j | 0 <= j <= c.p.k ensures At(c.next, j) in m.atStart {
      if j == c.p.k {
        assert m.frames[At(c.next, j)].busy;
      }
    }
    ScanEnds(c.next, c.p.k, m.atStart);
  }

  lemma {:induction false} ScanMissKeeps(c: Control, m: Memory)
    requires DataInv(c, m) && c.p.PScan? && m.frames[At(c.next, c.p.k)].busy
    ensures c.p.k + 1 < FRAMES && DataInv(c.(p := PScan(c.p.k + 1)), m)
  {
    ScanGoesOn(c, m);
    ControlOnly(c, c.(p := PScan(c.p.k + 1)), m);
  }

  lemma {:induction false} ClaimKeepsShared(c: Control, m: Memory, id: nat)
    requires DataInv(c, m) && c.p.PScan? && id < FRAMES && !m.frames[id].busy
    ensures SharedInv(c.(p := PCopy(0), pId := id), SetOwner(SetFrame(m, id, m.frames[id].(busy := true)), id, Held))
  {
  }

  lemma {:induction false} ClaimKeepsLocal(c: Control, m: Memory, id: nat)
    requires DataInv(c, m) && c.p.PScan? && id < FRAMES && !m.frames[id].busy
    requires SharedInv(c.(p := PCopy(0), pId := id), SetOwner(SetFrame(m, id, m.frames[id].(busy := true)), id, Held))
    ensures LocalInv(c.(p := PCopy(0), pId := id), SetOwner(SetFrame(m, id, m.frames[id].(busy := true)), id, Held))
  {
  }

  /** A write into the producer's own frame that keeps it busy. */
  lemma {:induction false} OwnFrameKeeps(c: Control, p': ProducerPc, m: Memory, f: Frame, frameNumber: nat)
    requires DataInv(c, m) && Filling(c.p) && Filling(p') && SeqOk(c.(p := p'))
    requires f.busy && |f.payload| == CAPACITY
    requires !Writing(c.p) && !Writing(p')
    ensures var m' := SetFrame(m, c.pId, f).(frameNumber := frameNumber); var c' := c.(p := p');
            && SharedInv(c', m') && IntendedOk(c', m') && WorkerOk(c', m') && ScanOk(c', m')
  {
  }

  lemma {:induction false} CopyKeeps(c: Control, m: Memory)
    requires DataInv(c, m) && c.p.PCopy? && c.p.j < |m.data|
    ensures DataInv(c.(p := PCopy(c.p.j + 1)),
                    SetFrame(m, c.pId, m.frames[c.pId].(payload := m.frames[c.pId].payload[c.p.j := m.data[c.p.j]])))
  {
    var j := c.p.j;
    var f := m.frames[c.pId];
    var g := f.(payload := f.payload[j := m.data[j]]);
    OwnFrameKeeps(c, PCopy(j + 1), m, g, m.frameNumber);
    CopiedOneMore(f.payload, m.data, j);
    var m' := SetFrame(m, c.pId, g);
    assert m' == m'.(frameNumber := m.frameNumber);
    assert ProducerOk(c.(p := PCopy(j + 1)), m');
  }

  lemma CopiedOneMore(payload: seq<Byte>, data: seq<Byte>, j: nat)
    requires j < |data| <= |payload| && payload[..j] == data[..j]
    ensures payload[j := data[j]][..j + 1] == data[..j + 1]
  {
    assert payload[j := data[j]][..j + 1] == payload[..j] + [data[j]];
  }

  /** Setting one header field of the producer's frame. */
  predicate Marking(p: ProducerPc) {
    p in {PLen, PHolders, PNumber, PStamp, PUndoDec} || p.PUndoClear?
  }

  lemma FillOutcome(c: Control, m: Memory)
    requires ProducerSafe(c, m) && Marking(c.p) && (c.p == PUndoDec ==> m.frames[c.pId].holders == 1)
    ensures var m' := ProducerMemory(c, m); var c' := ProducerControl(c, ProducerHit(c, m));
            && m' == SetFrame(m, c.pId, m'.frames[c.pId]).(frameNumber := m'.frameNumber)
            && m'.frames[c.pId].busy == m.frames[c.pId].busy && m'.frames[c.pId].payload == m.frames[c.pId].payload
            && c' == c.(p := c'.p) && Filling(c'.p) && !Writing(c'.p)
  {
  }

  lemma {:induction false} FillKeepsOwn(c: Control, m: Memory)
    requires SeqOk(c) && ProducerSafe(c, m) && ProducerOk(c, m) && Marking(c.p)
    ensures ProducerOk(ProducerControl(c, ProducerHit(c, m)), ProducerMemory(c, m))
  {
  }

  lemma {:induction false} FillKeeps(c: Control, m: Memory)
    requires DataInv(c, m) && Marking(c.p) && SeqOk(ProducerControl(c, ProducerHit(c, m)))
    ensures DataInv(ProducerControl(c, ProducerHit(c, m)), ProducerMemory(c, m))
  {
    var m' := ProducerMemory(c, m);
    FillOutcome(c, m);
    FillKeepsOwn(c, m);
    OwnFrameKeeps(c, ProducerControl(c, ProducerHit(c, m)).p, m, m'.frames[c.pId], m'.frameNumber);
  }

  function Freed(m: Memory, id: nat): Memory
    requires id < |m.frames| && id < |m.owner|
  {
    SetOwner(SetFrame(m, id, m.frames[id].(busy := false)), id, Free)
  }

  lemma {:induction false} UndoFreeKeepsShared(c: Control, m: Memory)
    requires DataInv(c, m) && c.p == PUndoFree
    ensures SharedInv(c.(p := PIdle), Freed(m, c.pId))
  {
  }

  lemma {:induction false} UndoFreeKeepsLocal(c: Control, m: Memory)
    requires DataInv(c, m) && c.p == PUndoFree && SharedInv(c.(p := PIdle), Freed(m, c.pId))
    ensures LocalInv(c.(p := PIdle), Freed(m, c.pId))
  {
  }

  lemma {:induction false} SlotKeepsShared(c: Control, p': ProducerPc, m: Memory, it: Item, n: nat)
    requires DataInv(c, m) && c.p.PSlot? && Writing(p') && SeqOk(c.(p := p'))
    ensures SharedInv(c.(p := p'), SetItem(m, Slot(c.writeSeq), it).(ringNumber := n))
  {
    forall k | c.readSeq <= k < c.writeSeq ensures Slot(k) != Slot(c.writeSeq) {
      SlotsDiffer(k, c.writeSeq);
    }
  }

  lemma {:induction false} SlotKeepsRest(c: Control, p': ProducerPc, m: Memory, it: Item, n: nat)
    requires DataInv(c, m) && c.p.PSlot? && Writing(p') && SeqOk(c.(p := p'))
    requires SharedInv(c.(p := p'), SetItem(m, Slot(c.writeSeq), it).(ringNumber := n))
    ensures var d := c.(p := p'); var m' := SetItem(m, Slot(c.writeSeq), it).(ringNumber := n);
            ProducerOk(d, m') && WorkerOk(d, m') && ScanOk(d, m')
  {
  }

  lemma {:induction false} SlotKeepsIntended(c: Control, m: Memory)
    requires SeqOk(c) && ProducerSafe(c, m) && IntendedOk(c, m) && c.p.PSlot?
    ensures IntendedOk(ProducerControl(c, ProducerHit(c, m)), ProducerMemory(c, m))
  {
  }

  lemma {:induction false} SlotKeeps(c: Control, m: Memory)
    requires DataInv(c, m) && c.p.PSlot? && SeqOk(ProducerControl(c, ProducerHit(c, m)))
    ensures DataInv(ProducerControl(c, ProducerHit(c, m)), ProducerMemory(c, m))
  {
    var p' := ProducerControl(c, ProducerHit(c, m)).p;
    var m' := ProducerMemory(c, m);
    var i := Slot(c.writeSeq);
    SlotKeepsShared(c, p', m, m'.items[i], m'.ringNumber);
    SlotKeepsRest(c, p', m, m'.items[i], m'.ringNumber);
    SlotKeepsIntended(c, m);
    assert m' == SetItem(m, i, m'.items[i]).(ringNumber := m'.ringNumber);
  }

  function Published(c: Control, m: Memory): Memory
    requires c.pId < |m.owner|
  {
    SetOwner(m, c.pId, Queued(c.writeSeq)).(accepted := m.accepted + [Entry(c.pId, m.data, m.timestamp, m.epoch)])
  }

  lemma {:induction false} PublishKeepsShared(c: Control, m: Memory)
    requires DataInv(c, m) && c.p == PPublish
    ensures SharedInv(c.(p := PLock, writeSeq := c.writeSeq + 1), Published(c, m))
  {
  }

  lemma {:induction false} PublishKeepsWorker(c: Control, m: Memory)
    requires DataInv(c, m) && c.p == PPublish
    requires SharedInv(c.(p := PLock, writeSeq := c.writeSeq + 1), Published(c, m))
    ensures WorkerOk(c.(p := PLock, writeSeq := c.writeSeq + 1), Published(c, m))
  {
    var a := Published(c, m).accepted;
    assert Taking(c.w) ==> a[c.readSeq] == m.accepted[c.readSeq];
    assert Holding(c.w) ==> a[c.wRead] == m.accepted[c.wRead];
  }

  lemma {:induction false} PublishKeepsRest(c: Control, m: Memory)
    requires DataInv(c, m) && c.p == PPublish
    requires SharedInv(c.(p := PLock, writeSeq := c.writeSeq + 1), Published(c, m))
    ensures var d := c.(p := PLock, writeSeq := c.writeSeq + 1); var m' := Published(c, m);
            ProducerOk(d, m') && IntendedOk(d, m') && ScanOk(d, m')
  {
  }

  // ---- the worker ----

  function Copied(c: Control, m: Memory, f: nat): Memory
    requires Sized(m)
  {
    m.(local := CopyField(m.local, m.items[Slot(c.wRead)], f))
  }

  lemma {:induction false} TakeCopyKeepsShared(c: Control, w': WorkerPc, m: Memory)
    requires DataInv(c, m) && c.w.WCopy? && (w'.WCopy? || w'.WZero?) && SeqOk(c.(w := w'))
    ensures SharedInv(c.(w := w'), Copied(c, m, c.w.f))
  {
  }

  lemma OneMoreAgrees(a: Item, b: Item, f: nat)
    requires f < FIELDS && Agrees(a, b, f)
    ensures Agrees(CopyField(a, b, f), b, f + 1)
    ensures f + 1 == FIELDS ==> CopyField(a, b, f) == b
  {
  }

  lemma {:induction false} TakeCopyKeepsLocal(c: Control, w': WorkerPc, m: Memory)
    requires DataInv(c, m) && c.w.WCopy? && SeqOk(c.(w := w'))
    requires w' == if c.w.f + 1 < FIELDS then WCopy(c.w.f + 1) else WZero(0)
    requires SharedInv(c.(w := w'), Copied(c, m, c.w.f))
    ensures LocalInv(c.(w := w'), Copied(c, m, c.w.f))
  {
    assert m.items[Slot(c.readSeq)] == ItemFor(c.readSeq, m.accepted[c.readSeq]);
    OneMoreAgrees(m.local, ItemFor(c.readSeq, m.accepted[c.readSeq]), c.w.f);
  }

  lemma {:induction false} ZeroKeepsShared(c: Control, w': WorkerPc, m: Memory, it: Item)
    requires DataInv(c, m) && c.w.WZero? && Vacating(w') && SeqOk(c.(w := w'))
    ensures SharedInv(c.(w := w'), SetItem(m, Slot(c.readSeq), it))
  {
    forall k | c.readSeq < k < c.writeSeq ensures Slot(k) != Slot(c.readSeq) {
      SlotsDiffer(c.readSeq, k);
    }
  }

  lemma {:induction false} ZeroKeepsLocal(c: Control, w': WorkerPc, m: Memory, it: Item)
    requires DataInv(c, m) && c.w.WZero? && Vacating(w') && SeqOk(c.(w := w'))
    requires SharedInv(c.(w := w'), SetItem(m, Slot(c.readSeq), it))
    ensures LocalInv(c.(w := w'), SetItem(m, Slot(c.readSeq), it))
  {
    if Writing(c.p) {
      SlotsDiffer(c.readSeq, c.writeSeq);
    }
  }

  lemma {:induction false} AdvanceKeepsShared(c: Control, m: Memory)
    requires DataInv(c, m) && c.w == WAdvance && m.local.slice.id < FRAMES
    ensures SharedInv(c.(w := WGetBusy, readSeq := c.readSeq + 1), SetOwner(m, m.local.slice.id, Working))
  {
  }

  lemma {:induction false} AdvanceKeepsLocal(c: Control, m: Memory)
    requires DataInv(c, m) && c.w == WAdvance && m.local.slice.id < FRAMES
    requires SharedInv(c.(w := WGetBusy, readSeq := c.readSeq + 1), SetOwner(m, m.local.slice.id, Working))
    ensures LocalInv(c.(w := WGetBusy, readSeq := c.readSeq + 1), SetOwner(m, m.local.slice.id, Working))
  {
  }

  /** Only the bytes read so far change. */
  lemma {:induction false} BufferKeeps(c: Control, j: nat, m: Memory, buffer: seq<Byte>)
    requires DataInv(c, m) && (c.w == WGetLen || c.w.WRead?)
    ensures var d := c.(w := WRead(j)); var m' := m.(buffer := buffer);
            SharedInv(d, m') && ProducerOk(d, m') && IntendedOk(d, m') && ScanOk(d, m')
  {
  }

  lemma {:induction false} GetKeeps(c: Control, m: Memory)
    requires DataInv(c, m) && c.w == WGetLen
    ensures WorkerHit(c, m) && DataInv(c.(w := WRead(0)), m.(buffer := []))
  {
    BufferKeeps(c, 0, m, []);
  }

  lemma {:induction false} ReadKeeps(c: Control, m: Memory)
    requires DataInv(c, m) && c.w.WRead? && c.w.j < m.local.slice.len
    ensures DataInv(c.(w := WRead(c.w.j + 1)),
                    m.(buffer := m.buffer + [m.frames[m.local.slice.id].payload[m.local.slice.off + c.w.j]]))
  {
    var bytes := m.accepted[c.wRead].bytes;
    var f := m.frames[m.local.slice.id];
    assert f.payload[c.w.j] == f.payload[..|bytes|][c.w.j] == bytes[c.w.j];
    assert bytes[..c.w.j + 1] == bytes[..c.w.j] + [bytes[c.w.j]];
    BufferKeeps(c, c.w.j + 1, m, m.buffer + [f.payload[m.local.slice.off + c.w.j]]);
  }

  function Delivered(m: Memory): Memory {
    m.(delivered := m.delivered + [Delivery(m.buffer, m.local.epoch, m.local.timestamp)])
  }

  lemma {:induction false} DeliverKeepsShared(c: Control, m: Memory)
    requires DataInv(c, m) && c.w.WRead?
    ensures SharedInv(c.(w := WDoneBusy), Delivered(m))
  {
  }

  lemma {:induction false} DeliverKeepsLocal(c: Control, m: Memory)
    requires DataInv(c, m) && c.w.WRead? && SharedInv(c.(w := WDoneBusy), Delivered(m))
    ensures LocalInv(c.(w := WDoneBusy), Delivered(m))
  {
  }

  /** A write into the worker's own frame that keeps it busy. */
  lemma {:induction false} WorkedFrameKeeps(c: Control, w': WorkerPc, m: Memory, f: Frame)
    requires DataInv(c, m) && Holding(c.w) && !Undelivered(c.w)
    requires w'.WDoneClear? || w' == WDoneFree
    requires SeqOk(c.(w := w')) && f.busy && |f.payload| == CAPACITY
    ensures DataInv(c.(w := w'), SetFrame(m, m.local.slice.id, f))
  {
  }

  lemma {:induction false} ReleaseKeepsShared(c: Control, m: Memory)
    requires DataInv(c, m) && c.w == WDoneFree
    ensures SharedInv(c.(w := WTakeRead), Freed(m, m.local.slice.id))
  {
  }

  lemma {:induction false} ReleaseKeepsLocal(c: Control, m: Memory)
    requires DataInv(c, m) && c.w == WDoneFree && SharedInv(c.(w := WTakeRead), Freed(m, m.local.slice.id))
    ensures LocalInv(c.(w := WTakeRead), Freed(m, m.local.slice.id))
  {
  }

  // ---- one step of either thread ----

  lemma {:induction false} CopyEndKeeps(c: Control, m: Memory)
    requires DataInv(c, m) && c.p.PCopy? && c.p.j == |m.data|
    ensures DataInv(c.(p := PLen), m)
  {
    assert m.data[..c.p.j] == m.data;
    OwnFrameKeeps(c, PLen, m, m.frames[c.pId], m.frameNumber);
    assert SetFrame(m, c.pId, m.frames[c.pId]).(frameNumber := m.frameNumber) == m;
  }

  lemma {:induction false} ProducerLooksSame(c: Control, hit: bool)
    requires SeqOk(c) && (c.p == PUndoBusy ==> hit)
    requires c.p in {PCursor, PLoadRead, PLoadWrite, PLock, PSignal, PUnlock, PUndoBusy}
    ensures SameForData(c, ProducerControl(c, hit))
  {
  }

  /** The steps of the producer that change no memory. */
  lemma {:induction false} ProducerLooks(c: Control, m: Memory, hit: bool)
    requires DataInv(c, m) && SeqOk(ProducerControl(c, hit)) && (c.p == PUndoBusy ==> hit)
    requires c.p in {PCursor, PLoadRead, PLoadWrite, PLock, PSignal, PUnlock, PUndoBusy}
    ensures DataInv(ProducerControl(c, hit), m)
  {
    var d := ProducerControl(c, hit);
    ProducerLooksSame(c, hit);
    ControlOnly(c, d, m);
  }

  lemma ScanOutcome(c: Control, m: Memory)
    requires ProducerSafe(c, m) && c.p.PScan?
    ensures var id := At(c.next, c.p.k);
            && ProducerControl(c, ProducerHit(c, m))
               == (if !m.frames[id].busy then c.(p := PCopy(0), pId := id)
                   else c.(p := if c.p.k + 1 < FRAMES then PScan(c.p.k + 1) else PNoFrame))
            && ProducerMemory(c, m)
               == (if m.frames[id].busy then m else SetOwner(SetFrame(m, id, m.frames[id].(busy := true)), id, Held))
  {
  }

  lemma {:induction false} ProducerScans(c: Control, m: Memory)
    requires DataInv(c, m) && c.p.PScan?
    ensures DataInv(ProducerControl(c, ProducerHit(c, m)), ProducerMemory(c, m))
  {
    var id := At(c.next, c.p.k);
    ScanOutcome(c, m);
    if m.frames[id].busy {
      ScanMissKeeps(c, m);
    } else {
      ClaimKeepsShared(c, m, id);
      ClaimKeepsLocal(c, m, id);
    }
  }

  lemma {:induction false} ProducerCopies(c: Control, m: Memory)
    requires DataInv(c, m) && c.p.PCopy?
    ensures DataInv(ProducerControl(c, ProducerHit(c, m)), ProducerMemory(c, m))
  {
    if c.p.j < |m.data| {
      CopyKeeps(c, m);
    } else {
      CopyEndKeeps(c, m);
    }
  }

  lemma {:induction false} ProducerPublishes(c: Control, m: Memory)
    requires DataInv(c, m) && c.p == PPublish
    ensures DataInv(ProducerControl(c, ProducerHit(c, m)), ProducerMemory(c, m))
  {
    PublishKeepsShared(c, m);
    PublishKeepsWorker(c, m);
    PublishKeepsRest(c, m);
    assert ProducerMemory(c, m) == Published(c, m);
  }

  lemma {:induction false} ProducerWaits(c: Control, m: Memory)
    requires DataInv(c, m) && SeqOk(ProducerControl(c, ProducerHit(c, m)))
    requires c.p in {PCursor, PLoadRead, PLoadWrite, PLock, PSignal, PUnlock, PUndoBusy}
    ensures DataInv(ProducerControl(c, ProducerHit(c, m)), ProducerMemory(c, m))
  {
    ProducerLooks(c, m, ProducerHit(c, m));
  }

  lemma {:induction false} ProducerFrees(c: Control, m: Memory)
    requires DataInv(c, m) && c.p == PUndoFree
    ensures DataInv(ProducerControl(c, ProducerHit(c, m)), ProducerMemory(c, m))
  {
    UndoFreeKeepsShared(c, m);
    UndoFreeKeepsLocal(c, m);
  }

  lemma {:induction false} ProducerKeeps(c: Control, m: Memory)
    requires DataInv(c, m) && c.p != PIdle && c.p != PNoFrame && SeqOk(ProducerControl(c, ProducerHit(c, m)))
    ensures DataInv(ProducerControl(c, ProducerHit(c, m)), ProducerMemory(c, m))
  {
    match c.p
    case PScan(_) => ProducerScans(c, m);
    case PCopy(_) => ProducerCopies(c, m);
    case PLen => FillKeeps(c, m);
    case PHolders => FillKeeps(c, m);
    case PNumber => FillKeeps(c, m);
    case PStamp => FillKeeps(c, m);
    case PSlot(_) => SlotKeeps(c, m);
    case PPublish => ProducerPublishes(c, m);
    case PUndoDec => FillKeeps(c, m);
    case PUndoClear(_) => FillKeeps(c, m);
    case PUndoFree => ProducerFrees(c, m);
    case _ => ProducerWaits(c, m);
  }

  /** The worker outside its critical sections on a frame. */
  predicate Waiting(w: WorkerPc) {
    w in {WLock, WTestStop, WTestRead, WTestWrite, WEnter, WBlocked, WReacquire,
          WReadStop, WUnlock, WStopRead, WStopWrite, WTakeRead, WTakeWrite}
  }

  lemma {:induction false} WorkerLooksSame(c: Control, hit: bool)
    requires SeqOk(c) && (c.w in {WGetBusy, WDoneBusy} ==> hit)
    requires Waiting(c.w) || c.w in {WGetBusy, WDoneBusy}
    ensures SameForData(c, WorkerControl(c, hit))
    ensures WorkerControl(c, hit).p == c.p && WorkerControl(c, hit).next == c.next
  {
  }

  /** The steps of the worker that change no memory. */
  lemma {:induction false} WorkerLooks(c: Control, m: Memory, hit: bool)
    requires DataInv(c, m) && SeqOk(WorkerControl(c, hit)) && (c.w in {WGetBusy, WDoneBusy} ==> hit)
    requires Waiting(c.w) || c.w in {WGetBusy, WDoneBusy}
    ensures DataInv(WorkerControl(c, hit), m)
  {
    var d := WorkerControl(c, hit);
    WorkerLooksSame(c, hit);
    assert ScanOk(d, m);
    ControlOnly(c, d, m);
  }

  lemma {:induction false} WorkerCopies(c: Control, m: Memory)
    requires DataInv(c, m) && c.w.WCopy? && SeqOk(WorkerControl(c, WorkerHit(c, m)))
    ensures DataInv(WorkerControl(c, WorkerHit(c, m)), WorkerMemory(c, m))
  {
    var w' := WorkerControl(c, WorkerHit(c, m)).w;
    TakeCopyKeepsShared(c, w', m);
    TakeCopyKeepsLocal(c, w', m);
  }

  lemma {:induction false} WorkerZeroes(c: Control, m: Memory)
    requires DataInv(c, m) && c.w.WZero? && SeqOk(WorkerControl(c, WorkerHit(c, m)))
    ensures DataInv(WorkerControl(c, WorkerHit(c, m)), WorkerMemory(c, m))
  {
    var w' := WorkerControl(c, WorkerHit(c, m)).w;
    var it := CopyField(m.items[Slot(c.wRead)], ZERO_ITEM, c.w.f);
    ZeroKeepsShared(c, w', m, it);
    ZeroKeepsLocal(c, w', m, it);
  }

  lemma {:induction false} WorkerAdvances(c: Control, m: Memory)
    requires DataInv(c, m) && c.w == WAdvance
    ensures DataInv(WorkerControl(c, WorkerHit(c, m)), WorkerMemory(c, m))
  {
    AdvanceKeepsShared(c, m);
    AdvanceKeepsLocal(c, m);
    assert WorkerControl(c, WorkerHit(c, m)) == c.(w := WGetBusy, readSeq := c.readSeq + 1);
  }

  lemma {:induction false} WorkerReads(c: Control, m: Memory)
    requires DataInv(c, m) && c.w.WRead?
    ensures DataInv(WorkerControl(c, WorkerHit(c, m)), WorkerMemory(c, m))
  {
    if c.w.j < m.local.slice.len {
      ReadKeeps(c, m);
    } else {
      DeliverKeepsShared(c, m);
      DeliverKeepsLocal(c, m);
    }
  }

  lemma {:induction false} WorkerReleases(c: Control, m: Memory)
    requires DataInv(c, m) && (c.w == WDoneDec || c.w.WDoneClear?) && SeqOk(WorkerControl(c, WorkerHit(c, m)))
    ensures DataInv(WorkerControl(c, WorkerHit(c, m)), WorkerMemory(c, m))
  {
    var id := m.local.slice.id;
    var m' := WorkerMemory(c, m);
    WorkedFrameKeeps(c, WorkerControl(c, WorkerHit(c, m)).w, m, m'.frames[id]);
    assert m' == SetFrame(m, id, m'.frames[id]);
  }

  lemma {:induction false} WorkerFrees(c: Control, m: Memory)
    requires DataInv(c, m) && c.w == WDoneFree
    ensures DataInv(WorkerControl(c, WorkerHit(c, m)), WorkerMemory(c, m))
  {
    ReleaseKeepsShared(c, m);
    ReleaseKeepsLocal(c, m);
  }

  lemma {:induction false} WorkerWaits(c: Control, m: Memory)
    requires DataInv(c, m) && SeqOk(WorkerControl(c, WorkerHit(c, m)))
    requires Waiting(c.w) || c.w in {WGetBusy, WDoneBusy}
    ensures DataInv(WorkerControl(c, WorkerHit(c, m)), WorkerMemory(c, m))
  {
    WorkerLooks(c, m, WorkerHit(c, m));
  }

  lemma {:induction false} WorkerGets(c: Control, m: Memory)
    requires DataInv(c, m) && c.w == WGetLen
    ensures DataInv(WorkerControl(c, WorkerHit(c, m)), WorkerMemory(c, m))
  {
    GetKeeps(c, m);
  }

  lemma {:induction false} WorkerTakes(c: Control, m: Memory)
    requires DataInv(c, m) && Taking(c.w) && SeqOk(WorkerControl(c, WorkerHit(c, m)))
    ensures DataInv(WorkerControl(c, WorkerHit(c, m)), WorkerMemory(c, m))
  {
    match c.w
    case WCopy(_) => WorkerCopies(c, m);
    case WZero(_) => WorkerZeroes(c, m);
    case _ => WorkerAdvances(c, m);
  }

  lemma {:induction false} WorkerHandsOver(c: Control, m: Memory)
    requires DataInv(c, m) && Holding(c.w) && c.w !in {WGetBusy, WDoneBusy} && SeqOk(WorkerControl(c, WorkerHit(c, m)))
    ensures DataInv(WorkerControl(c, WorkerHit(c, m)), WorkerMemory(c, m))
  {
    match c.w
    case WGetLen => WorkerGets(c, m);
    case WRead(_) => WorkerReads(c, m);
    case WDoneFree => WorkerFrees(c, m);
    case _ => WorkerReleases(c, m);
  }

  lemma {:induction false} WorkerKeeps(c: Control, m: Memory)
    requires DataInv(c, m) && c.w != WExit && c.w != WBlocked && SeqOk(WorkerControl(c, WorkerHit(c, m)))
    ensures DataInv(WorkerControl(c, WorkerHit(c, m)), WorkerMemory(c, m))
  {
    if Taking(c.w) {
      WorkerTakes(c, m);
    } else if Holding(c.w) && c.w !in {WGetBusy, WDoneBusy} {
      WorkerHandsOver(c, m);
    } else {
      WorkerWaits(c, m);
    }
  }

  // ---- the log of deliveries ----

  /** What is handed to the callback is what the publication promised. */
  lemma {:induction false} DeliversPromise(c: Control, m: Memory)
    requires DataInv(c, m) && c.w.WRead? && c.w.j >= m.local.slice.len
    ensures Delivery(m.buffer, m.local.epoch, m.local.timestamp) == Promise(m.accepted[c.wRead])
  {
    var e := m.accepted[c.wRead];
    assert e.bytes[..c.w.j] == e.bytes;
  }

  lemma {:induction false} DeliverKeepsLog(c: Control, m: Memory)
    requires DataInv(c, m) && LogOk(c, m) && c.w.WRead? && c.w.j >= m.local.slice.len
    ensures LogOk(c.(w := WDoneBusy), Delivered(m))
  {
    DeliversPromise(c, m);
  }

  /** A step that delivers nothing. */
  predicate SameLog(c: Control, m: Memory, d: Control, m': Memory) {
    && m'.delivered == m.delivered && m.accepted <= m'.accepted
    && d.readSeq - (if Undelivered(d.w) then 1 else 0) == c.readSeq - (if Undelivered(c.w) then 1 else 0)
    && (Undelivered(d.w) ==> d.wRead == d.readSeq - 1)
  }

  lemma {:induction false} SameLogKeeps(c: Control, m: Memory, d: Control, m': Memory)
    requires LogOk(c, m) && SameLog(c, m, d, m')
    ensures LogOk(d, m')
  {
  }

  lemma {:induction false} ProducerDeliversNothing(c: Control, m: Memory)
    requires ProducerSafe(c, m) && LogOk(c, m) && c.p != PIdle
    ensures SameLog(c, m, ProducerControl(c, ProducerHit(c, m)), ProducerMemory(c, m))
  {
  }

  lemma {:induction false} WorkerDeliversNothing(c: Control, m: Memory)
    requires WorkerSafe(c, m) && SeqOk(c) && LogOk(c, m) && !(c.w.WRead? && c.w.j >= m.local.slice.len)
    requires c.w == WGetBusy || c.w == WGetLen ==> WorkerHit(c, m)
    ensures SameLog(c, m, WorkerControl(c, WorkerHit(c, m)), WorkerMemory(c, m))
  {
  }

  lemma {:induction false} WorkerFindsFrame(c: Control, m: Memory)
    requires DataInv(c, m) && (c.w == WGetBusy || c.w == WGetLen)
    ensures WorkerHit(c, m)
  {
  }

  lemma {:induction false} WorkerKeepsLog(c: Control, m: Memory)
    requires DataInv(c, m) && LogOk(c, m)
    ensures LogOk(WorkerControl(c, WorkerHit(c, m)), WorkerMemory(c, m))
  {
    if c.w.WRead? && c.w.j >= m.local.slice.len {
      DeliverKeepsLog(c, m);
    } else {
      if c.w == WGetBusy || c.w == WGetLen {
        WorkerFindsFrame(c, m);
      }
      WorkerDeliversNothing(c, m);
      SameLogKeeps(c, m, WorkerControl(c, WorkerHit(c, m)), WorkerMemory(c, m));
    }
  }

  // ---- the whole machine ----

  /** Lock, wake-up, stop, ownership and contents; nothing about what has been delivered. */
  ghost predicate Sound(s: State) {
    ControlInv(s.c) && DataInv(s.c, s.m)
  }

  ghost predicate Inv(s: State) {
    Sound(s) && LogOk(s.c, s.m)
  }

  lemma StartHolds()
    ensures Inv(Start())
  {
    assert BusySet(Start().m) == {};
  }

  lemma {:induction false} OtherLooksSame(s: State, a: Action)
    requires SeqOk(s.c) && Enabled(s, a) && (a == SpuriousWakeup || a == StopperStep)
    ensures Do(s, a) == State(Do(s, a).c, s.m) && SeqOk(Do(s, a).c) && SameForData(s.c, Do(s, a).c)
    ensures Do(s, a).c.p == s.c.p && Do(s, a).c.next == s.c.next
  {
  }

  lemma {:induction false} OtherStepKeeps(s: State, a: Action)
    requires Sound(s) && Enabled(s, a) && (a == SpuriousWakeup || a == StopperStep)
    ensures DataInv(Do(s, a).c, s.m) && Do(s, a).m == s.m
  {
    OtherLooksSame(s, a);
    ControlOnly(s.c, Do(s, a).c, s.m);
  }

  /** Whatever thread moves next, ownership and contents stay sound. */
  lemma {:induction false} StepKeepsSound(s: State, a: Action)
    requires Sound(s) && Enabled(s, a)
    ensures Sound(Do(s, a))
  {
    ControlKept(s, a);
    match a
    case Push(data, timestamp, epoch) => CallKeeps(s, data, timestamp, epoch);
    case ProducerStep =>
      assert s.c.p != PNoFrame;
      ProducerKeeps(s.c, s.m);
    case WorkerStep => WorkerKeeps(s.c, s.m);
    case _ => OtherStepKeeps(s, a);
  }

  lemma {:induction false} OtherStepsDeliverNothing(s: State, a: Action)
    requires LogOk(s.c, s.m) && Enabled(s, a) && a != ProducerStep && a != WorkerStep
    ensures SameLog(s.c, s.m, Do(s, a).c, Do(s, a).m)
  {
  }

  lemma {:induction false} StepKeepsLog(s: State, a: Action)
    requires Inv(s) && Enabled(s, a)
    ensures LogOk(Do(s, a).c, Do(s, a).m)
  {
    match a
    case WorkerStep => WorkerKeepsLog(s.c, s.m);
    case ProducerStep =>
      ProducerDeliversNothing(s.c, s.m);
      SameLogKeeps(s.c, s.m, Do(s, a).c, Do(s, a).m);
    case _ =>
      OtherStepsDeliverNothing(s, a);
      SameLogKeeps(s.c, s.m, Do(s, a).c, Do(s, a).m);
  }

  /** Whatever thread moves next, the invariant survives its step. */
  lemma {:induction false} StepKeeps(s: State, a: Action)
    requires Inv(s) && Enabled(s, a)
    ensures Inv(Do(s, a))
  {
    StepKeepsSound(s, a);
    StepKeepsLog(s, a);
  }
}
