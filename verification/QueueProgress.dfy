/**
  What one push and one stop come to, and how soon an accepted item is delivered,
  in every interleaving of the queue machine.
 */
module QueueProgress {
  import opened FrameModel
  import opened RingModel
  import opened QueueSteps
  import opened QueueControl
  import opened QueueData
  import opened QueueProof
  import opened QueueTheorems

  // ---- one push ----

  predicate NoPush(acts: seq<Action>) {
    forall i | 0 <= i < |acts| :: !acts[i].Push?
  }

  /** The producer is about to load read_seq, and sixteen items are unread. */
  predicate SeesFull(s: State, a: Action) {
    a == ProducerStep && s.c.p == PLoadRead && s.c.writeSeq == s.c.readSeq + SLOTS
  }

  /** Some step of the run does. */
  predicate SawFull(s: State, acts: seq<Action>)
    requires CanRun(s, acts)
    decreases |acts|
  {
    acts != [] && (SeesFull(s, acts[0]) || SawFull(Do(s, acts[0]), acts[1..]))
  }

  /** Between the call and the load of read_seq. */
  predicate Asking(p: ProducerPc) {
    p.PScan? || p.PCopy? || p in {PLen, PHolders, PNumber, PStamp, PCursor, PLoadRead}
  }

  /** What the rest of a push publishes, `full` being what it will find if it has still to look. */
  function StillPublishes(c: Control, full: bool, current: Delivery): seq<Delivery> {
    if Asking(c.p) then (if full then [] else [current])
    else if c.p == PLoadWrite then (if c.writeSeq >= c.pRead + SLOTS then [] else [current])
    else if Writing(c.p) then [current]
    else []
  }

  lemma {:induction false} OthersLeaveProducer(s: State, a: Action)
    requires Enabled(s, a) && a != ProducerStep && !a.Push?
    ensures var c, d := s.c, Do(s, a).c; d.p == c.p && d.pRead == c.pRead && d.writeSeq == c.writeSeq
  {
  }

  lemma {:induction false} ProducerDecides(c: Control, hit: bool, full: bool, current: Delivery)
    requires SeqOk(c) && c.p != PIdle && c.p != PNoFrame && (c.p.PScan? && !hit ==> c.p.k + 1 < FRAMES)
    requires c.p == PLoadRead ==> (full <==> c.writeSeq == c.readSeq + SLOTS)
    requires !Asking(c.p) ==> !full
    ensures StillPublishes(c, full, current)
            == (if c.p == PPublish then [current] else [])
               + StillPublishes(ProducerControl(c, hit), full && c.p != PLoadRead, current)
    ensures Asking(ProducerControl(c, hit).p) ==> Asking(c.p) && c.p != PLoadRead
  {
  }

  /** The scan of a push in a sound state is not at its end. */
  lemma ScanHasMore(s: State)
    requires Inv(s) && Enabled(s, ProducerStep)
    ensures s.c.p != PNoFrame
    ensures s.c.p.PScan? && !ProducerHit(s.c, s.m) ==> s.c.p.k + 1 < FRAMES
  {
    if s.c.p.PScan? && !ProducerHit(s.c, s.m) {
      ScanGoesOn(s.c, s.m);
    }
  }

  lemma {:induction false} FullOnlyWhileAsking(s: State, acts: seq<Action>)
    requires CanRun(s, acts) && NoPush(acts) && !Asking(s.c.p)
    ensures !SawFull(s, acts)
    decreases |acts|
  {
    if acts != [] {
      assert acts[0] != Push([], 0, 0);
      if acts[0] != ProducerStep {
        OthersLeaveProducer(s, acts[0]);
      }
      FullOnlyWhileAsking(Do(s, acts[0]), acts[1..]);
    }
  }

  lemma {:induction false} StepOfPush(s: State, a: Action, later: bool, current: Delivery)
    requires Inv(s) && Enabled(s, a) && !a.Push?
    requires !Asking(s.c.p) || SeesFull(s, a) ==> !later
    requires a == ProducerStep && s.c.p == PLoadRead ==> !later
    ensures StillPublishes(s.c, SeesFull(s, a) || later, current)
            == PublishedBy(s, a, current) + StillPublishes(Do(s, a).c, later, current)
  {
    if a == ProducerStep {
      ScanHasMore(s);
      ProducerDecides(s.c, ProducerHit(s.c, s.m), SeesFull(s, a) || later, current);
    } else {
      OthersLeaveProducer(s, a);
    }
  }

  /** Once read_seq has been loaded it is not loaded again. */
  lemma {:induction false} LoadedOnce(s: State, acts: seq<Action>)
    requires Inv(s) && CanRun(s, acts) && NoPush(acts) && acts != []
    ensures !Asking(s.c.p) ==> !SawFull(Do(s, acts[0]), acts[1..])
    ensures acts[0] == ProducerStep && s.c.p == PLoadRead ==> !SawFull(Do(s, acts[0]), acts[1..])
  {
    if !Asking(s.c.p) {
      FullOnlyWhileAsking(s, acts);
    } else if acts[0] == ProducerStep && s.c.p == PLoadRead {
      FullOnlyWhileAsking(Do(s, acts[0]), acts[1..]);
    }
  }

  lemma {:induction false} RestOfPush(s: State, acts: seq<Action>, current: Delivery)
    requires Inv(s) && CanRun(s, acts) && NoPush(acts) && RunOf(s, acts).c.p == PIdle
    ensures Accepted(s, acts, current) == StillPublishes(s.c, SawFull(s, acts), current)
    decreases |acts|
  {
    if acts != [] {
      var t := Do(s, acts[0]);
      StepKeeps(s, acts[0]);
      RestOfPush(t, acts[1..], current);
      LoadedOnce(s, acts);
      StepOfPush(s, acts[0], SawFull(t, acts[1..]), current);
    }
  }

  lemma PushBegins(s: State, push: Action)
    requires push.Push? && |push.data| <= CAPACITY && Enabled(s, push)
    ensures Asking(Do(s, push).c.p)
  {
  }

  /**
    In every interleaving, a push of data that fits, run to its end, publishes
    exactly its bytes with their epoch and timestamp, or nothing if and only if it
    loaded read_seq while sixteen items were unread.
   */
  lemma {:induction false} PushPublishesUnlessFull(s: State, push: Action, acts: seq<Action>, current: Delivery)
    requires Reachable(s) && push.Push? && |push.data| <= CAPACITY
    requires CanRun(s, [push] + acts) && NoPush(acts) && RunOf(s, [push] + acts).c.p == PIdle
    ensures Accepted(s, [push] + acts, current)
            == if SawFull(s, [push] + acts) then [] else [Delivery(push.data, push.epoch, push.timestamp)]
  {
    ReachableHolds(s);
    assert ([push] + acts)[1..] == acts;
    StepKeeps(s, push);
    PushBegins(s, push);
    RestOfPush(Do(s, push), acts, Delivery(push.data, push.epoch, push.timestamp));
  }

  /** A push of more than 256 bytes publishes nothing and leaves the queue as it is. */
  lemma OversizedIsRefused(s: State, push: Action)
    requires push.Push? && |push.data| > CAPACITY && Enabled(s, push)
    ensures Do(s, push) == s
  {
  }

  /** An idle producer can always be called, below the limit of the sequence numbers. */
  lemma PushCanBegin(s: State, push: Action)
    requires push.Push?
    ensures Enabled(s, push) <==> s.c.p == PIdle && s.c.writeSeq + 1 < SEQ_LIMIT
  {
  }

  // ---- the worker delivers soon ----

  /** More than the worker's steps from any place to the next delivery while something is undelivered. */
  const SOON := 340

  function ToDelivery(w: WorkerPc): nat {
    match w
    case WDoneBusy => 339
    case WDoneDec => 338
    case WDoneClear(f) => if f < FRAME_FIELDS then 337 - f else 333
    case WDoneFree => 332
    case WEnter => 331
    case WBlocked => 330
    case WReacquire => 330
    case WLock => 330
    case WTestStop => 329
    case WTestRead => 328
    case WTestWrite => 327
    case WReadStop => 326
    case WUnlock => 325
    case WStopRead => 324
    case WStopWrite => 323
    case WTakeRead => 322
    case WTakeWrite => 321
    case WCopy(f) => if f < FIELDS then 320 - f else 310
    case WZero(f) => if f < FIELDS then 309 - f else 302
    case WAdvance => 301
    case WGetBusy => 300
    case WGetLen => 299
    case WRead(j) => if j <= CAPACITY then 1 + CAPACITY - j else 1
    case WExit => 0
  }

  /** Something accepted has not been given to the callback yet. */
  predicate Waits(c: Control) {
    c.readSeq != c.writeSeq || Undelivered(c.w)
  }

  lemma {:induction false} WaitsMeans(c: Control, m: Memory)
    requires DataInv(c, m) && LogOk(c, m)
    ensures Waits(c) <==> |m.delivered| < |m.accepted|
  {
  }

  lemma {:induction false} WorkerComesCloser(c: Control, hit: bool)
    requires SeqOk(c) && Waits(c) && c.w != WExit && c.w != WBlocked
    requires c.w == WGetBusy || c.w == WGetLen ==> hit
    requires c.w.WRead? ==> hit && c.w.j < CAPACITY
    ensures ToDelivery(WorkerControl(c, hit).w) < ToDelivery(c.w)
  {
  }

  lemma {:induction false} OthersKeepDistance(s: State, a: Action)
    requires Enabled(s, a) && a != WorkerStep
    ensures ToDelivery(Do(s, a).c.w) == ToDelivery(s.c.w) && Do(s, a).m.delivered == s.m.delivered
  {
  }

  lemma {:induction false} StepDeliversOrComesCloser(s: State, a: Action)
    requires Inv(s) && Enabled(s, a) && |s.m.delivered| < |s.m.accepted|
    ensures var t := Do(s, a);
            || |t.m.delivered| > |s.m.delivered|
            || (t.m.delivered == s.m.delivered && One(a == WorkerStep) + ToDelivery(t.c.w) <= ToDelivery(s.c.w))
  {
    WaitsMeans(s.c, s.m);
    if a != WorkerStep {
      OthersKeepDistance(s, a);
    } else if s.c.w.WRead? && s.c.w.j >= s.m.local.slice.len {
      assert |Do(s, a).m.delivered| == |s.m.delivered| + 1;
    } else {
      if s.c.w == WGetBusy || s.c.w == WGetLen {
        WorkerFindsFrame(s.c, s.m);
      }
      WorkerDeliversNothing(s.c, s.m);
      assert s.c.w.WRead? ==> s.c.w.j < CAPACITY;
      WorkerComesCloser(s.c, WorkerHit(s.c, s.m));
    }
  }

  lemma {:induction false} DeliveredGrows(s: State, acts: seq<Action>)
    requires CanRun(s, acts)
    ensures |RunOf(s, acts).m.delivered| >= |s.m.delivered|
    decreases |acts|
  {
    if acts != [] {
      DeliveredGrows(Do(s, acts[0]), acts[1..]);
    }
  }

  lemma {:induction false} RunDeliversOrComesCloser(s: State, acts: seq<Action>)
    requires Inv(s) && CanRun(s, acts) && |s.m.delivered| < |s.m.accepted|
    ensures var t := RunOf(s, acts);
            || |t.m.delivered| > |s.m.delivered|
            || WorkerSteps(acts) + ToDelivery(t.c.w) <= ToDelivery(s.c.w)
    decreases |acts|
  {
    if acts != [] {
      var t := Do(s, acts[0]);
      StepKeeps(s, acts[0]);
      StepLogs(s, acts[0]);
      StepDeliversOrComesCloser(s, acts[0]);
      if |t.m.delivered| > |s.m.delivered| {
        DeliveredGrows(t, acts[1..]);
      } else {
        RunDeliversOrComesCloser(t, acts[1..]);
      }
    }
  }

  /** In every interleaving, while something accepted is undelivered the worker delivers within 340 of its own steps. */
  lemma DeliveredSoon(s: State, acts: seq<Action>)
    requires Reachable(s) && CanRun(s, acts) && |s.m.delivered| < |s.m.accepted| && WorkerSteps(acts) >= SOON
    ensures |RunOf(s, acts).m.delivered| > |s.m.delivered|
  {
    ReachableHolds(s);
    RunDeliversOrComesCloser(s, acts);
  }

  // ---- one stop ----

  /** The steps that a call of stop still has before it. */
  function StopSteps(c: StopperPc): nat {
    match c
    case CIdle => 6
    case CLock => 5
    case CSet => 4
    case CSignal => 3
    case CUnlock => 2
    case CJoin => 1
    case CDone => 0
  }

  lemma OthersLeaveStop(s: State, a: Action)
    requires Enabled(s, a) && a != StopperStep
    ensures Do(s, a).c.c == s.c.c
  {
  }

  lemma StopStep(s: State, a: Action)
    requires Enabled(s, a)
    ensures StopSteps(Do(s, a).c.c) + One(a == StopperStep) == StopSteps(s.c.c)
  {
    if a != StopperStep {
      OthersLeaveStop(s, a);
    }
  }

  lemma StopWaitsFor(s: State)
    requires ControlInv(s.c)
    ensures s.c.c != CDone && !Enabled(s, StopperStep) ==> s.c.lock != Nobody || (s.c.stop && s.c.w != WExit)
    ensures s.c.c == CDone ==> s.c.stop && s.c.w == WExit
  {
  }

  /**
    A stop is a call of six steps that no other thread adds to or takes from. It is
    held up only by the lock and by the worker's return; once over, the request
    stands and the worker has returned.
   */
  lemma {:induction false} StopIsSixSteps(s: State, a: Action)
    requires Reachable(s) && Enabled(s, a)
    ensures StopSteps(Do(s, a).c.c) + One(a == StopperStep) == StopSteps(s.c.c)
    ensures s.c.c != CDone && !Enabled(s, StopperStep) ==> s.c.lock != Nobody || (s.c.stop && s.c.w != WExit)
    ensures s.c.c == CDone ==> s.c.stop && s.c.w == WExit
  {
    StopStep(s, a);
    ReachableHolds(s);
    StopWaitsFor(s);
  }
}
