/**
  The runtime queue as a step machine: one producer, one worker and one thread
  that requests a stop, interleaved freely. A step is one atomic load, store or
  compare-and-swap, one lock operation, or one plain access to one field.
  `Control` holds the program counters and the scalars they branch on, `Memory`
  the frames, the ring slots and the local copies.
 */
module QueueSteps {
  import opened Bytes
  import opened FrameModel
  import opened RingModel

  // ---- program counters ----

  /** mb_runtime_flow_push_bytes_with_epoch, with make, push_item, wake and the undo by done. */
  datatype ProducerPc =
    | PIdle
    | PScan(k: nat)          // compare-and-swap on the busy word of the k-th frame of the scan
    | PNoFrame               // the scan found no frame: the push fails
    | PCopy(j: nat)          // payload[j]
    | PLen | PHolders | PNumber | PStamp | PCursor
    | PLoadRead | PLoadWrite
    | PSlot(f: nat)          // field f of the ring slot
    | PPublish               // store write_seq
    | PLock | PSignal | PUnlock
    | PUndoBusy | PUndoDec | PUndoClear(f: nat) | PUndoFree

  /** runtime_flow_thread, with take, get, the consume callback and item_done. */
  datatype WorkerPc =
    | WLock | WTestStop | WTestRead | WTestWrite
    | WEnter                 // about to call g_cond_wait
    | WBlocked               // in g_cond_wait, lock released
    | WReacquire             // woken, needs the lock again
    | WReadStop | WUnlock
    | WStopRead | WStopWrite
    | WTakeRead | WTakeWrite
    | WCopy(f: nat) | WZero(f: nat)
    | WAdvance               // store read_seq
    | WGetBusy | WGetLen
    | WRead(j: nat)          // the callback reads payload[j]
    | WDoneBusy | WDoneDec | WDoneClear(f: nat) | WDoneFree
    | WExit

  /** mb_runtime_flow_stop. */
  datatype StopperPc = CIdle | CLock | CSet | CSignal | CUnlock | CJoin | CDone

  datatype Who = Nobody | Producer | Worker | Stopper

  /** `stopMark` records write_seq at the moment the stop request was stored. */
  datatype Control = Control(
    p: ProducerPc, pRead: nat, pId: nat,
    w: WorkerPc, wRead: nat, wStop: bool,
    c: StopperPc,
    lock: Who, stop: bool, readSeq: nat, writeSeq: nat, next: nat, stopMark: nat)

  const FIELDS := 5          // slice, number, timestamp, epoch, flags of a ring item
  const FRAME_FIELDS := 3    // len, number, timestamp of a frame

  // ---- control ----

  /** `hit` is what the step finds in memory: the swap succeeds, the check passes, there is one more byte. */
  function ProducerControl(c: Control, hit: bool): Control {
    match c.p
    case PIdle => c
    case PScan(k) =>
      if hit then c.(p := PCopy(0), pId := At(c.next, k))
      else c.(p := if k + 1 < FRAMES then PScan(k + 1) else PNoFrame)
    case PNoFrame => c.(p := PIdle)
    case PCopy(j) => c.(p := if hit then PCopy(j + 1) else PLen)
    case PLen => c.(p := PHolders)
    case PHolders => c.(p := PNumber)
    case PNumber => c.(p := PStamp)
    case PStamp => c.(p := PCursor)
    case PCursor => c.(p := PLoadRead, next := At(c.pId, 1))
    case PLoadRead => c.(p := PLoadWrite, pRead := c.readSeq)
    case PLoadWrite => c.(p := if c.writeSeq >= c.pRead + SLOTS then PUndoBusy else PSlot(0))
    case PSlot(f) => c.(p := if f + 1 < FIELDS then PSlot(f + 1) else PPublish)
    case PPublish => c.(p := PLock, writeSeq := c.writeSeq + 1)
    case PLock => c.(p := PSignal, lock := Producer)
    case PSignal => c.(p := PUnlock, w := if c.w == WBlocked then WReacquire else c.w)
    case PUnlock => c.(p := PIdle, lock := Nobody)
    case PUndoBusy => c.(p := if hit then PUndoDec else PIdle)
    case PUndoDec => c.(p := if hit then PUndoClear(0) else PIdle)
    case PUndoClear(f) => c.(p := if f + 1 < FRAME_FIELDS then PUndoClear(f + 1) else PUndoFree)
    case PUndoFree => c.(p := PIdle)
  }

  function WorkerControl(c: Control, hit: bool): Control {
    match c.w
    case WLock => c.(w := WTestStop, lock := Worker)
    case WTestStop => c.(w := if c.stop then WReadStop else WTestRead)
    case WTestRead => c.(w := WTestWrite, wRead := c.readSeq)
    case WTestWrite => c.(w := if c.wRead == c.writeSeq then WEnter else WReadStop)
    case WEnter => c.(w := WBlocked, lock := Nobody)
    case WBlocked => c
    case WReacquire => c.(w := WTestStop, lock := Worker)
    case WReadStop => c.(w := WUnlock, wStop := c.stop)
    case WUnlock => c.(w := if c.wStop then WStopRead else WTakeRead, lock := Nobody)
    case WStopRead => c.(w := WStopWrite, wRead := c.readSeq)
    case WStopWrite => c.(w := if c.wRead == c.writeSeq then WExit else WTakeRead)
    case WTakeRead => c.(w := WTakeWrite, wRead := c.readSeq)
    case WTakeWrite => c.(w := if c.wRead == c.writeSeq then WLock else WCopy(0))
    case WCopy(f) => c.(w := if f + 1 < FIELDS then WCopy(f + 1) else WZero(0))
    case WZero(f) => c.(w := if f + 1 < FIELDS then WZero(f + 1) else WAdvance)
    case WAdvance => c.(w := WGetBusy, readSeq := c.wRead + 1)
    case WGetBusy => c.(w := if hit then WGetLen else WDoneBusy)
    case WGetLen => c.(w := if hit then WRead(0) else WDoneBusy)
    case WRead(j) => c.(w := if hit then WRead(j + 1) else WDoneBusy)
    case WDoneBusy => c.(w := if hit then WDoneDec else WTakeRead)
    case WDoneDec => c.(w := if hit then WDoneClear(0) else WTakeRead)
    case WDoneClear(f) => c.(w := if f + 1 < FRAME_FIELDS then WDoneClear(f + 1) else WDoneFree)
    case WDoneFree => c.(w := WTakeRead)
    case WExit => c
  }

  function StopperControl(c: Control): Control {
    match c.c
    case CIdle => c.(c := CLock)
    case CLock => c.(c := CSet, lock := Stopper)
    case CSet => c.(c := CSignal, stop := true, stopMark := c.writeSeq)
    case CSignal => c.(c := CUnlock, w := if c.w == WBlocked then WReacquire else c.w)
    case CUnlock => c.(c := CJoin, lock := Nobody)
    case CJoin => c.(c := CDone)
    case CDone => c
  }

  // ---- memory ----

  /** Who a frame belongs to; an auxiliary record, updated where ownership passes on. */
  datatype Owner = Free | Held | Queued(k: nat) | Working

  /** One accepted push. */
  datatype Entry = Entry(id: nat, bytes: seq<Byte>, timestamp: nat, epoch: nat)

  /**
    `data`, `timestamp` and `epoch` are the arguments of the push in progress,
    `local` and `buffer` the worker's copy of the item and the bytes read so far.
    `accepted` and `delivered` record publications and callbacks, `atStart` the
    frames busy when the current scan began.
   */
  datatype Memory = Memory(
    frames: seq<Frame>, items: seq<Item>, frameNumber: nat, ringNumber: nat,
    data: seq<Byte>, timestamp: nat, epoch: nat,
    local: Item, buffer: seq<Byte>,
    owner: seq<Owner>, accepted: seq<Entry>, delivered: seq<Delivery>, atStart: set<nat>)

  datatype State = State(c: Control, m: Memory)

  predicate Sized(m: Memory) {
    && |m.frames| == FRAMES && |m.items| == SLOTS && |m.owner| == FRAMES
    && forall i | 0 <= i < FRAMES :: |m.frames[i].payload| == CAPACITY
  }

  /** Copies field `f` of one item into another. */
  function CopyField(to: Item, from: Item, f: nat): Item {
    if f == 0 then to.(slice := from.slice)
    else if f == 1 then to.(number := from.number)
    else if f == 2 then to.(timestamp := from.timestamp)
    else if f == 3 then to.(epoch := from.epoch)
    else to.(flags := from.flags)
  }

  function ClearField(f: Frame, k: nat): Frame {
    if k == 0 then f.(len := 0) else if k == 1 then f.(number := 0) else f.(timestamp := 0)
  }

  function SetFrame(m: Memory, id: nat, f: Frame): Memory
    requires id < |m.frames|
  {
    m.(frames := m.frames[id := f])
  }

  function SetItem(m: Memory, i: nat, it: Item): Memory
    requires i < |m.items|
  {
    m.(items := m.items[i := it])
  }

  function SetOwner(m: Memory, id: nat, o: Owner): Memory
    requires id < |m.owner|
  {
    m.(owner := m.owner[id := o])
  }

  /** The item the producer is about to publish. */
  function Intended(c: Control, m: Memory): Item {
    Item(Slice(c.pId, 0, |m.data|), c.writeSeq, m.timestamp, m.epoch, 0)
  }

  /** Only indices in range are dereferenced. */
  predicate ProducerSafe(c: Control, m: Memory) {
    && Sized(m)
    && (c.p.PCopy? ==> c.p.j <= |m.data| <= CAPACITY)
    && (c.p.PScan? ==> c.p.k < FRAMES)
    && c.pId < FRAMES
  }

  predicate WorkerSafe(c: Control, m: Memory) {
    && Sized(m)
    && (c.w in {WGetBusy, WGetLen, WDoneBusy, WDoneDec, WDoneFree} || c.w.WRead? || c.w.WDoneClear?
        ==> m.local.slice.id < FRAMES)
    && (c.w.WRead? ==> m.local.slice.off + c.w.j <= m.local.slice.off + m.local.slice.len <= CAPACITY)
  }

  function ProducerHit(c: Control, m: Memory): bool
    requires ProducerSafe(c, m)
  {
    match c.p
    case PScan(k) => !m.frames[At(c.next, k)].busy
    case PCopy(j) => j < |m.data|
    case PUndoBusy => m.frames[c.pId].busy
    case PUndoDec => m.frames[c.pId].holders == 1
    case _ => false
  }

  function ProducerMemory(c: Control, m: Memory): Memory
    requires ProducerSafe(c, m)
  {
    match c.p
    case PScan(k) =>
      var id := At(c.next, k);
      if m.frames[id].busy then m else SetOwner(SetFrame(m, id, m.frames[id].(busy := true)), id, Held)
    case PCopy(j) =>
      if j < |m.data| then SetFrame(m, c.pId, m.frames[c.pId].(payload := m.frames[c.pId].payload[j := m.data[j]]))
      else m
    case PLen => SetFrame(m, c.pId, m.frames[c.pId].(len := |m.data|))
    case PHolders => SetFrame(m, c.pId, m.frames[c.pId].(holders := 1))
    case PNumber => SetFrame(m, c.pId, m.frames[c.pId].(number := m.frameNumber)).(frameNumber := m.frameNumber + 1)
    case PStamp => SetFrame(m, c.pId, m.frames[c.pId].(timestamp := m.timestamp))
    case PSlot(f) =>
      var i := Slot(c.writeSeq);
      var it := Intended(c, m).(number := m.ringNumber);
      SetItem(m, i, CopyField(m.items[i], it, f)).(ringNumber := if f == 1 then m.ringNumber + 1 else m.ringNumber)
    case PPublish =>
      SetOwner(m, c.pId, Queued(c.writeSeq)).(accepted := m.accepted + [Entry(c.pId, m.data, m.timestamp, m.epoch)])
    case PUndoDec => SetFrame(m, c.pId, m.frames[c.pId].(holders := m.frames[c.pId].holders - 1))
    case PUndoClear(f) => SetFrame(m, c.pId, ClearField(m.frames[c.pId], f))
    case PUndoFree => SetOwner(SetFrame(m, c.pId, m.frames[c.pId].(busy := false)), c.pId, Free)
    case _ => m
  }

  function WorkerHit(c: Control, m: Memory): bool
    requires WorkerSafe(c, m)
  {
    match c.w
    case WGetBusy => m.frames[m.local.slice.id].busy
    case WGetLen => m.local.slice.off + m.local.slice.len <= m.frames[m.local.slice.id].len
    case WRead(j) => j < m.local.slice.len
    case WDoneBusy => m.frames[m.local.slice.id].busy
    case WDoneDec => m.frames[m.local.slice.id].holders == 1
    case _ => false
  }

  function WorkerMemory(c: Control, m: Memory): Memory
    requires WorkerSafe(c, m)
  {
    var id := m.local.slice.id;
    match c.w
    case WCopy(f) => m.(local := CopyField(m.local, m.items[Slot(c.wRead)], f))
    case WZero(f) => SetItem(m, Slot(c.wRead), CopyField(m.items[Slot(c.wRead)], ZERO_ITEM, f))
    case WAdvance => if id < FRAMES then SetOwner(m, id, Working) else m
    case WGetLen => m.(buffer := [])
    case WRead(j) =>
      if j < m.local.slice.len then m.(buffer := m.buffer + [m.frames[id].payload[m.local.slice.off + j]])
      else m.(delivered := m.delivered + [Delivery(m.buffer, m.local.epoch, m.local.timestamp)])
    case WDoneDec => SetFrame(m, id, m.frames[id].(holders := m.frames[id].holders - 1))
    case WDoneClear(f) => SetFrame(m, id, ClearField(m.frames[id], f))
    case WDoneFree => SetOwner(SetFrame(m, id, m.frames[id].(busy := false)), id, Free)
    case _ => m
  }

  function BusySet(m: Memory): set<nat> {
    set i | 0 <= i < |m.frames| && m.frames[i].busy
  }

  // ---- the machine ----

  datatype Action =
    | Push(data: seq<Byte>, timestamp: nat, epoch: nat)   // the producer is called
    | ProducerStep
    | WorkerStep
    | SpuriousWakeup                                      // g_cond_wait may return without a signal
    | StopperStep

  /** Fewer than 2^31 pushes, as long as the sequence numbers are meant to last. */
  predicate Enabled(s: State, a: Action) {
    match a
    case Push(data, _, _) => s.c.p == PIdle && s.c.writeSeq + 1 < SEQ_LIMIT
    case ProducerStep => s.c.p != PIdle && (s.c.p == PLock ==> s.c.lock == Nobody) && ProducerSafe(s.c, s.m)
    case WorkerStep =>
      && s.c.w != WExit && s.c.w != WBlocked
      && (s.c.w == WLock || s.c.w == WReacquire ==> s.c.lock == Nobody) && WorkerSafe(s.c, s.m)
    case SpuriousWakeup => s.c.w == WBlocked
    case StopperStep =>
      && s.c.c != CDone && (s.c.c == CLock ==> s.c.lock == Nobody) && (s.c.c == CJoin ==> s.c.w == WExit)
  }

  /** Data that does not fit is refused before any shared access. */
  function Called(s: State, data: seq<Byte>, timestamp: nat, epoch: nat): State {
    if |data| > CAPACITY then s
    else State(s.c.(p := PScan(0)),
               s.m.(data := data, timestamp := timestamp, epoch := epoch, atStart := BusySet(s.m)))
  }

  function Do(s: State, a: Action): State
    requires Enabled(s, a)
  {
    match a
    case Push(data, timestamp, epoch) => Called(s, data, timestamp, epoch)
    case ProducerStep => State(ProducerControl(s.c, ProducerHit(s.c, s.m)), ProducerMemory(s.c, s.m))
    case WorkerStep => State(WorkerControl(s.c, WorkerHit(s.c, s.m)), WorkerMemory(s.c, s.m))
    case SpuriousWakeup => s.(c := s.c.(w := WReacquire))
    case StopperStep => s.(c := StopperControl(s.c))
  }

  function Start(): State {
    State(
      Control(PIdle, 0, 0, WLock, 0, false, CIdle, Nobody, false, 0, 0, 0, 0),
      Memory(seq(FRAMES, _ => ZERO_FRAME), seq(SLOTS, _ => ZERO_ITEM), 0, 0, [], 0, 0, ZERO_ITEM, [],
             seq(FRAMES, _ => Free), [], [], {}))
  }
}
