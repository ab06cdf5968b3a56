/**
  One runtime flow of src/mb-runtime.c in sequence: pushing copied bytes, the
  worker's drain loop, dropping what is pending, and the counters.
 */
module RuntimeFlow {
  import opened Bytes
  import opened Sets
  import opened Wrappers
  import opened FrameModel
  import opened RingModel
  import opened SharedPool

  function DeliveryOf(p: GoodPool, it: Item): Delivery {
    Delivery(match Contents(p, it.slice) case Some(b) => b case None => [], it.epoch, it.timestamp)
  }

  function Deliveries(p: GoodPool, q: seq<Item>): (ds: seq<Delivery>)
    ensures |ds| == |q| && forall i | 0 <= i < |q| :: ds[i] == DeliveryOf(p, q[i])
  {
    seq(|q|, i requires 0 <= i < |q| => DeliveryOf(p, q[i]))
  }

  /** Between calls no reference is held outside the ring. */
  function Resting(p: GoodPool, r: GoodRing): World {
    World(p, [r], multiset{})
  }

  // ---- a free frame always exists ----

  function Ids(q: seq<Item>): set<nat> {
    set i | 0 <= i < |q| :: q[i].slice.id
  }

  lemma {:induction false} IdsAtMost(q: seq<Item>)
    ensures |Ids(q)| <= |q|
  {
    if q != [] {
      var n := |q| - 1;
      IdsAtMost(q[..n]);
      assert Ids(q) == Ids(q[..n]) + {q[n].slice.id} by {
        forall x | x in Ids(q) ensures x in Ids(q[..n]) + {q[n].slice.id} {
          var i :| 0 <= i < |q| && q[i].slice.id == x;
          assert i < n ==> q[..n][i].slice.id == x;
        }
        forall x | x in Ids(q[..n]) ensures x in Ids(q) {
          var i :| 0 <= i < n && q[..n][i].slice.id == x;
          assert q[i].slice.id == x;
        }
      }
    }
  }

  lemma {:induction false} UsesZero(q: seq<Item>, id: nat)
    requires id !in Ids(q)
    ensures Uses(q, id) == 0
  {
    if q != [] {
      assert q[0].slice.id in Ids(q);
      forall x | x in Ids(q[1..]) ensures x in Ids(q) {
        var i :| 0 <= i < |q[1..]| && q[1..][i].slice.id == x;
        assert q[i + 1].slice.id == x;
      }
      UsesZero(q[1..], id);
    }
  }

  lemma OneRing(r: GoodRing, id: nat)
    ensures RingUses([r], id) == Uses(Queued(r), id)
  {
    assert [r][1..] == [];
  }

  /** 16 queued items leave a frame free, so data that fits always gets one. */
  lemma {:induction false} PoolNeverRunsOut(p: GoodPool, r: GoodRing, data: seq<Byte>)
    requires Inv(Resting(p, r))
    ensures CanMake(p, data) <==> |data| <= CAPACITY
  {
    MakeFindsAnyFree(p, data);
    var q := Queued(r);
    IdsAtMost(q);
    if Upto(FRAMES) <= Ids(q) {
      SubsetSize(Upto(FRAMES), Ids(q));
      assert false;
    }
    var id :| id in Upto(FRAMES) && id !in Ids(q);
    UsesZero(q, id);
    OneRing(r, id);
    assert References(Resting(p, r), id) == 0;
    assert !p.frames[id].busy;
  }

  // ---- the effect of a push and of one turn of the worker ----

  lemma {:induction false} DeliveriesSurvive(w: World, pool: GoodPool)
    requires Readable(w) && |w.rings| == 1
    requires forall id | 0 <= id < FRAMES && RingUses(w.rings, id) > 0 ::
               pool.frames[id].len == w.pool.frames[id].len && pool.frames[id].payload == w.pool.frames[id].payload
               && (w.pool.frames[id].busy ==> pool.frames[id].busy)
    ensures Deliveries(pool, Queued(w.rings[0])) == Deliveries(w.pool, Queued(w.rings[0]))
  {
    var q := Queued(w.rings[0]);
    forall i | 0 <= i < |q| ensures DeliveryOf(pool, q[i]) == DeliveryOf(w.pool, q[i]) {
      QueuedHasReference(w, 0, i);
      assert CanHold(w.pool, Queued(w.rings[0])[i].slice);
    }
  }

  /** Claiming a frame and pushing it: one item more in the ring, every count right. */
  lemma {:induction false} PushKeepsResting(p: GoodPool, r: GoodRing, data: seq<Byte>, timestamp: nat, epoch: nat)
    requires Inv(Resting(p, r)) && CanMake(p, data) && Shaped(Made(p, data, timestamp))
    requires r.writeSeq + 1 < SEQ_LIMIT && |Queued(r)| < SLOTS
    ensures var s := Slice(NextFree(p), 0, |data|); var r' := Pushed(r, s, timestamp, epoch);
            && SliceOk(s) && CanPush(r, s) && RingOk(r') && Inv(Resting(Made(p, data, timestamp), r'))
            && Queued(r') == Queued(r) + [Item(s, r.numberNext, timestamp, epoch, 0)]
  {
    var w := Resting(p, r);
    var p', s := Made(p, data, timestamp), Slice(NextFree(p), 0, |data|);
    MakeStores(p, data, timestamp);
    MakeKeeps(w, data, timestamp);
    var w1 := After(w, Make(data, timestamp));
    PushOwnedKeeps(w1, 0, s, timestamp, epoch);
    PushAppends(r, s, timestamp, epoch);
    var r' := Pushed(r, s, timestamp, epoch);
    assert After(w1, PushOwned(0, s, timestamp, epoch)) == Resting(p', r') by {
      assert [r][0 := r'] == [r'];
    }
  }

  /** Claiming a free frame leaves what is queued as it reads. */
  lemma {:induction false} ClaimKeepsDeliveries(p: GoodPool, r: GoodRing, data: seq<Byte>, timestamp: nat)
    requires Inv(Resting(p, r)) && CanMake(p, data) && Shaped(Made(p, data, timestamp))
    ensures Deliveries(Made(p, data, timestamp), Queued(r)) == Deliveries(p, Queued(r))
  {
    MakeStores(p, data, timestamp);
    assert References(Resting(p, r), NextFree(p)) == 0;
    DeliveriesSurvive(Resting(p, r), Made(p, data, timestamp));
  }

  /** Claiming a frame and pushing it: a new delivery at the end, the others unchanged. */
  lemma {:induction false} PushDelivers(p: GoodPool, r: GoodRing, data: seq<Byte>, timestamp: nat, epoch: nat)
    requires Inv(Resting(p, r)) && CanMake(p, data) && Shaped(Made(p, data, timestamp))
    requires r.writeSeq + 1 < SEQ_LIMIT && |Queued(r)| < SLOTS
    ensures var s := Slice(NextFree(p), 0, |data|); var r' := Pushed(r, s, timestamp, epoch);
            var p' := Made(p, data, timestamp);
            && SliceOk(s) && CanPush(r, s) && RingOk(r') && Inv(Resting(p', r'))
            && Deliveries(p', Queued(r')) == Deliveries(p, Queued(r)) + [Delivery(data, epoch, timestamp)]
  {
    PushKeepsResting(p, r, data, timestamp, epoch);
    ClaimKeepsDeliveries(p, r, data, timestamp);
    MakeStores(p, data, timestamp);
    var it := Item(Slice(NextFree(p), 0, |data|), r.numberNext, timestamp, epoch, 0);
    assert DeliveryOf(Made(p, data, timestamp), it) == Delivery(data, epoch, timestamp);
  }

  /** Claiming a frame and giving it back when the ring is full: nothing queued changes. */
  lemma {:induction false} FullRingUndone(p: GoodPool, r: GoodRing, data: seq<Byte>, timestamp: nat, epoch: nat)
    requires Inv(Resting(p, r)) && CanMake(p, data) && Shaped(Made(p, data, timestamp)) && |Queued(r)| == SLOTS
    ensures var s := Slice(NextFree(p), 0, |data|); var p' := Released(Made(p, data, timestamp), s);
            var r' := Pushed(r, s, timestamp, epoch);
            && Shaped(p') && RingOk(r') && Inv(Resting(p', r'))
            && Deliveries(p', Queued(r')) == Deliveries(p, Queued(r))
  {
    var w := Resting(p, r);
    var s := Slice(NextFree(p), 0, |data|);
    MakeStores(p, data, timestamp);
    MakeKeeps(w, data, timestamp);
    var w1 := After(w, Make(data, timestamp));
    DoneKeeps(w1, s);
    var w2 := After(w1, Done(s));
    var p' := Released(Made(p, data, timestamp), s);
    assert w2.callers == multiset{} && w2 == Resting(p', r);
    QueueUnchangedByFailure(r, s, timestamp, epoch);
    var r' := Pushed(r, s, timestamp, epoch);
    FailedPushKeeps(w2, 0, r');
    assert w2.rings[0 := r'] == [r'];
    assert References(w, NextFree(p)) == 0;
    DeliveriesSurvive(w, p');
  }

  lemma {:induction false} TurnKeeps(p: GoodPool, r: GoodRing)
    requires Inv(Resting(p, r)) && Queued(r) != []
    ensures var s := Queued(r)[0].slice;
            CanHold(p, s) && Shaped(Released(p, s)) && RingOk(Taken(r)) && Inv(Resting(Released(p, s), Taken(r)))
  {
    var w := Resting(p, r);
    assert CanHold(w.pool, Queued(w.rings[0])[0].slice);
    DropKeeps(w, 0);
    RingsKept(r, NO_SLICE, 0, 0);
    assert [r][0 := Taken(r)] == [Taken(r)];
    assert After(w, Drop(0)) == Resting(Released(p, Queued(r)[0].slice), Taken(r));
  }

  /** While the taken item is in the worker's hands, the others are readable and so they are afterwards. */
  lemma {:induction false} OthersSurvive(p: GoodPool, r: GoodRing, s: Slice)
    requires Inv(Resting(p, r)) && Queued(r) != [] && s == Queued(r)[0].slice
    requires Shaped(Released(p, s)) && RingOk(Taken(r))
    ensures Deliveries(Released(p, s), Queued(Taken(r))) == Deliveries(p, Queued(Taken(r)))
  {
    var w := Resting(p, r);
    TakeKeeps(w, 0);
    var t := After(w, Take(0));
    assert t.rings == [Taken(r)];
    forall id | 0 <= id < FRAMES && RingUses(t.rings, id) > 0
      ensures Released(p, s).frames[id].len == p.frames[id].len
      ensures Released(p, s).frames[id].payload == p.frames[id].payload
      ensures p.frames[id].busy ==> Released(p, s).frames[id].busy
    {
      assert p.frames[id].holders == References(t, id);
    }
    DeliveriesSurvive(t, Released(p, s));
  }

  /** Taking the oldest item and giving its frame back: the other deliveries are unchanged. */
  lemma {:induction false} TurnDelivers(p: GoodPool, r: GoodRing)
    requires Inv(Resting(p, r)) && Queued(r) != []
    ensures var it := Queued(r)[0]; var p' := Released(p, it.slice); var r' := Taken(r);
            && it == r.items[Slot(r.readSeq)]
            && Shaped(p') && RingOk(r') && Inv(Resting(p', r'))
            && CanHold(p, it.slice)
            && Deliveries(p, Queued(r)) == [DeliveryOf(p, it)] + Deliveries(p', Queued(r'))
  {
    TurnKeeps(p, r);
    OthersSurvive(p, r, Queued(r)[0].slice);
    assert QueuedAt(r, 0) == Queued(r)[0];
    DeliveriesSplit(p, r);
  }

  lemma {:induction false} DeliveriesSplit(p: GoodPool, r: GoodRing)
    requires Queued(r) != [] && RingOk(Taken(r))
    ensures Deliveries(p, Queued(r)) == [DeliveryOf(p, Queued(r)[0])] + Deliveries(p, Queued(Taken(r)))
  {
    TakeRemovesOldest(r);
  }

  // ---- a flow as a value ----

  /** The pool, the ring and all counters of a flow; `attempts` and `oversize` count calls for the proofs. */
  datatype Flow = Flow(pool: GoodPool, ring: GoodRing, pushed: nat, consumed: nat, dropped: nat, failures: nat,
                       delivered: seq<Delivery>, attempts: nat, oversize: nat)

  /** What is waiting to be delivered, oldest first. */
  function Waiting(f: Flow): seq<Delivery> {
    Deliveries(f.pool, Queued(f.ring))
  }

  /** Every attempt was pushed or failed; every pushed item was consumed, dropped from the ring or still waits. */
  predicate Balanced(f: Flow) {
    && f.attempts == f.pushed + f.failures
    && f.pushed == f.consumed + f.ring.dropped + |Waiting(f)|
    && f.dropped == f.ring.dropped + f.oversize
    && f.failures == f.ring.overflow + f.oversize
  }

  ghost predicate FlowOk(f: Flow) {
    Inv(Resting(f.pool, f.ring)) && Balanced(f)
  }

  /** A frame for the data, and room for its item. */
  predicate CanAccept(p: GoodPool, r: GoodRing, data: seq<Byte>) {
    CanMake(p, data) && CanPush(r, Slice(NextFree(p), 0, |data|))
  }

  /** The pool after an attempt: a frame claimed for an item that does not fit the ring is given back. */
  function TriedPool(p: GoodPool, r: GoodRing, data: seq<Byte>, timestamp: nat): GoodPool {
    var s := Slice(NextFree(p), 0, |data|);
    ShapesKept(p, data, timestamp, s);
    ShapesKept(Made(p, data, timestamp), [], 0, s);
    if CanMake(p, data) && !CanPush(r, s) then Released(Made(p, data, timestamp), s) else Made(p, data, timestamp)
  }

  function TriedRing(p: GoodPool, r: GoodRing, data: seq<Byte>, timestamp: nat, epoch: nat): GoodRing
    requires r.writeSeq + 1 < SEQ_LIMIT
  {
    var s := Slice(NextFree(p), 0, |data|);
    RingsKept(r, s, timestamp, epoch);
    if CanMake(p, data) then Pushed(r, s, timestamp, epoch) else r
  }

  function Pushing(f: Flow, data: seq<Byte>, timestamp: nat, epoch: nat): Flow
    requires f.ring.writeSeq + 1 < SEQ_LIMIT
  {
    var g := f.(attempts := f.attempts + 1);
    if |data| > CAPACITY then
      g.(failures := f.failures + 1, dropped := f.dropped + 1, oversize := f.oversize + 1)
    else
      var tried := g.(pool := TriedPool(f.pool, f.ring, data, timestamp),
                      ring := TriedRing(f.pool, f.ring, data, timestamp, epoch));
      if CanAccept(f.pool, f.ring, data) then tried.(pushed := f.pushed + 1) else tried.(failures := f.failures + 1)
  }

  predicate Empty(f: Flow) {
    f.ring.readSeq == f.ring.writeSeq
  }

  function Oldest(f: Flow): Item {
    f.ring.items[Slot(f.ring.readSeq)]
  }

  /** The worker takes the oldest item, hands it over and gives the frame back. */
  function Turned(f: Flow): Flow
    requires !Empty(f)
  {
    var it := Oldest(f);
    ShapesKept(f.pool, [], 0, it.slice);
    f.(pool := Released(f.pool, it.slice), ring := Taken(f.ring), consumed := f.consumed + 1,
       delivered := if CanHold(f.pool, it.slice) then f.delivered + [DeliveryOf(f.pool, it)] else f.delivered)
  }

  function Discarded(f: Flow): Flow
    requires !Empty(f)
  {
    var it := Oldest(f);
    ShapesKept(f.pool, [], 0, it.slice);
    f.(pool := Released(f.pool, it.slice), ring := Taken(f.ring).(dropped := f.ring.dropped + 1),
       dropped := f.dropped + 1)
  }

  lemma EmptyMeansNothingWaits(f: Flow)
    ensures Empty(f) <==> Waiting(f) == []
  {
  }

  /** Data that fits is refused only by a full ring; what is accepted waits behind everything else. */
  lemma {:induction false} PushMeans(f: Flow, data: seq<Byte>, timestamp: nat, epoch: nat)
    requires FlowOk(f) && f.ring.writeSeq + 1 < SEQ_LIMIT
    ensures var g := Pushing(f, data, timestamp, epoch); var ok := |data| <= CAPACITY && |Waiting(f)| < SLOTS;
            && FlowOk(g) && g.delivered == f.delivered
            && g.pushed == f.pushed + (if ok then 1 else 0)
            && Waiting(g) == (if ok then Waiting(f) + [Delivery(data, epoch, timestamp)] else Waiting(f))
  {
    if |data| <= CAPACITY {
      PoolNeverRunsOut(f.pool, f.ring, data);
      MakeStores(f.pool, data, timestamp);
      if |Queued(f.ring)| < SLOTS {
        PushDelivers(f.pool, f.ring, data, timestamp, epoch);
      } else {
        FullRingUndone(f.pool, f.ring, data, timestamp, epoch);
      }
    }
  }

  /** A turn hands over the oldest waiting delivery, with its bytes, epoch and timestamp. */
  lemma {:induction false} TurnMeans(f: Flow)
    requires FlowOk(f) && !Empty(f)
    ensures var g := Turned(f);
            && FlowOk(g) && Waiting(f) != [] && Waiting(g) == Waiting(f)[1..]
            && g.delivered == f.delivered + [Waiting(f)[0]]
  {
    TurnDelivers(f.pool, f.ring);
    EmptyMeansNothingWaits(f);
  }

  lemma {:induction false} DiscardMeans(f: Flow)
    requires FlowOk(f) && !Empty(f)
    ensures var g := Discarded(f);
            FlowOk(g) && Waiting(f) != [] && Waiting(g) == Waiting(f)[1..] && g.delivered == f.delivered
  {
    TurnDelivers(f.pool, f.ring);
    EmptyMeansNothingWaits(f);
    var r := Taken(f.ring);
    SameQueue(r, r.(dropped := f.ring.dropped + 1));
    ResetDropped(Released(f.pool, Oldest(f).slice), r, r.(dropped := f.ring.dropped + 1));
  }

  lemma SameQueue(a: GoodRing, b: GoodRing)
    requires a.items == b.items && a.readSeq == b.readSeq && a.writeSeq == b.writeSeq
    ensures Queued(a) == Queued(b)
  {
    forall i | 0 <= i < |Queued(a)| ensures Queued(a)[i] == Queued(b)[i] {
      assert QueuedAt(a, i) == QueuedAt(b, i);
    }
  }

  lemma {:induction false} ResetDropped(p: GoodPool, a: GoodRing, b: GoodRing)
    requires Inv(Resting(p, a)) && Queued(a) == Queued(b)
    ensures Inv(Resting(p, b))
  {
    FailedPushKeeps(Resting(p, a), 0, b);
    assert [a][0 := b] == [b];
  }

  // ---- sequences of calls ----

  datatype Call = Push(data: seq<Byte>, timestamp: nat, epoch: nat) | Consume | DropOldest

  function Do(f: Flow, c: Call): Flow
    requires c.Push? ==> f.ring.writeSeq + 1 < SEQ_LIMIT
  {
    match c
    case Push(data, timestamp, epoch) => Pushing(f, data, timestamp, epoch)
    case Consume => if Empty(f) then f else Turned(f)
    case DropOldest => if Empty(f) then f else Discarded(f)
  }

  ghost predicate IsRun(f: Flow, calls: seq<Call>)
    decreases |calls|
  {
    calls != [] ==>
      && (calls[0].Push? ==> f.ring.writeSeq + 1 < SEQ_LIMIT)
      && IsRun(Do(f, calls[0]), calls[1..])
  }

  function End(f: Flow, calls: seq<Call>): Flow
    requires IsRun(f, calls)
    decreases |calls|
  {
    if calls == [] then f else End(Do(f, calls[0]), calls[1..])
  }

  /** The delivery that an accepted push promises. */
  function PromisedBy(f: Flow, c: Call): seq<Delivery>
    requires c.Push? ==> f.ring.writeSeq + 1 < SEQ_LIMIT
  {
    if c.Push? && Do(f, c).pushed > f.pushed then [Delivery(c.data, c.epoch, c.timestamp)] else []
  }

  /** The deliveries that the run's accepted pushes promise, in order. */
  function Promised(f: Flow, calls: seq<Call>): seq<Delivery>
    requires IsRun(f, calls)
    decreases |calls|
  {
    if calls == [] then [] else PromisedBy(f, calls[0]) + Promised(Do(f, calls[0]), calls[1..])
  }

  lemma {:induction false} CallKeeps(f: Flow, c: Call)
    requires FlowOk(f) && (c.Push? ==> f.ring.writeSeq + 1 < SEQ_LIMIT)
    ensures FlowOk(Do(f, c))
  {
    match c
    case Push(data, timestamp, epoch) => PushMeans(f, data, timestamp, epoch);
    case Consume => if !Empty(f) { TurnMeans(f); }
    case DropOldest => if !Empty(f) { DiscardMeans(f); }
  }

  /**
    Over any sequence of pushes, worker turns and drops: attempts are pushed or
    failed, pushed items are consumed, dropped or still waiting, and pushes fail
    only for oversize data or a full ring.
   */
  lemma {:induction false} EveryRunBalances(f: Flow, calls: seq<Call>)
    requires FlowOk(f) && IsRun(f, calls)
    ensures FlowOk(End(f, calls))
    decreases |calls|
  {
    if calls != [] {
      CallKeeps(f, calls[0]);
      EveryRunBalances(Do(f, calls[0]), calls[1..]);
    }
  }

  // ---- what becomes of accepted items ----

  /** An item that has left the queue: handed to the callback, or lost to a drop. */
  datatype Fate = Fate(delivery: Delivery, handed: bool)

  function FateBy(f: Flow, c: Call): seq<Fate> {
    if c.Push? || Empty(f) then [] else [Fate(Waiting(f)[0], c.Consume?)]
  }

  /** What has left the queue during a run, in order. */
  function Fates(f: Flow, calls: seq<Call>): seq<Fate>
    requires IsRun(f, calls)
    decreases |calls|
  {
    if calls == [] then [] else FateBy(f, calls[0]) + Fates(Do(f, calls[0]), calls[1..])
  }

  function Items(fates: seq<Fate>): seq<Delivery> {
    if fates == [] then [] else [fates[0].delivery] + Items(fates[1..])
  }

  function Handed(fates: seq<Fate>): seq<Delivery> {
    if fates == [] then [] else (if fates[0].handed then [fates[0].delivery] else []) + Handed(fates[1..])
  }

  lemma {:induction false} ItemsConcat(a: seq<Fate>, b: seq<Fate>)
    ensures Items(a + b) == Items(a) + Items(b)
  {
    if a == [] {
      assert a + b == b;
    } else {
      assert (a + b)[1..] == a[1..] + b;
      ItemsConcat(a[1..], b);
      Associate([a[0].delivery], Items(a[1..]), Items(b));
    }
  }

  lemma {:induction false} HandedConcat(a: seq<Fate>, b: seq<Fate>)
    ensures Handed(a + b) == Handed(a) + Handed(b)
  {
    if a == [] {
      assert a + b == b;
    } else {
      assert (a + b)[1..] == a[1..] + b;
      HandedConcat(a[1..], b);
      Associate(if a[0].handed then [a[0].delivery] else [], Handed(a[1..]), Handed(b));
    }
  }

  lemma {:induction false} OneFate(x: Fate)
    ensures Items([x]) == [x.delivery] && Handed([x]) == if x.handed then [x.delivery] else []
  {
    assert [x][1..] == [];
  }

  lemma OldestLeaves(waiting: seq<Delivery>, handed: bool)
    requires waiting != []
    ensures Items([Fate(waiting[0], handed)]) + waiting[1..] == waiting
    ensures Handed([Fate(waiting[0], handed)]) == if handed then [waiting[0]] else []
  {
    OneFate(Fate(waiting[0], handed));
  }

  lemma {:induction false} PushDecides(f: Flow, c: Call)
    requires FlowOk(f) && c.Push? && f.ring.writeSeq + 1 < SEQ_LIMIT
    ensures Items(FateBy(f, c)) + Waiting(Do(f, c)) == Waiting(f) + PromisedBy(f, c)
    ensures Do(f, c).delivered == f.delivered + Handed(FateBy(f, c))
  {
    PushMeans(f, c.data, c.timestamp, c.epoch);
  }

  lemma {:induction false} TurnDecides(f: Flow)
    requires FlowOk(f)
    ensures Items(FateBy(f, Consume)) + Waiting(Do(f, Consume)) == Waiting(f) + PromisedBy(f, Consume)
    ensures Do(f, Consume).delivered == f.delivered + Handed(FateBy(f, Consume))
  {
    if !Empty(f) {
      TurnMeans(f);
      OldestLeaves(Waiting(f), true);
    }
  }

  lemma {:induction false} DropDecides(f: Flow)
    requires FlowOk(f)
    ensures Items(FateBy(f, DropOldest)) + Waiting(Do(f, DropOldest)) == Waiting(f) + PromisedBy(f, DropOldest)
    ensures Do(f, DropOldest).delivered == f.delivered + Handed(FateBy(f, DropOldest))
  {
    if !Empty(f) {
      DiscardMeans(f);
      OldestLeaves(Waiting(f), false);
    }
  }

  lemma {:induction false} CallDecides(f: Flow, c: Call)
    requires FlowOk(f) && (c.Push? ==> f.ring.writeSeq + 1 < SEQ_LIMIT)
    ensures Items(FateBy(f, c)) + Waiting(Do(f, c)) == Waiting(f) + PromisedBy(f, c)
    ensures Do(f, c).delivered == f.delivered + Handed(FateBy(f, c))
  {
    match c
    case Push(_, _, _) => PushDecides(f, c);
    case Consume => TurnDecides(f);
    case DropOldest => DropDecides(f);
  }

  lemma {:induction false} RunConserves(f: Flow, calls: seq<Call>)
    requires FlowOk(f) && IsRun(f, calls)
    ensures Items(Fates(f, calls)) + Waiting(End(f, calls)) == Waiting(f) + Promised(f, calls)
    decreases |calls|
  {
    if calls != [] {
      var g := Do(f, calls[0]);
      var now, later := FateBy(f, calls[0]), Fates(g, calls[1..]);
      CallKeeps(f, calls[0]);
      CallDecides(f, calls[0]);
      RunConserves(g, calls[1..]);
      ItemsConcat(now, later);
      JoinConserved(Waiting(f), PromisedBy(f, calls[0]), Items(now), Waiting(g),
                    Promised(g, calls[1..]), Items(later), Waiting(End(g, calls[1..])));
    }
  }

  lemma {:induction false} RunHandsOver(f: Flow, calls: seq<Call>)
    requires FlowOk(f) && IsRun(f, calls)
    ensures End(f, calls).delivered == f.delivered + Handed(Fates(f, calls))
    decreases |calls|
  {
    if calls != [] {
      var g := Do(f, calls[0]);
      var now, later := FateBy(f, calls[0]), Fates(g, calls[1..]);
      CallKeeps(f, calls[0]);
      CallDecides(f, calls[0]);
      RunHandsOver(g, calls[1..]);
      HandedConcat(now, later);
      Associate(f.delivered, Handed(now), Handed(later));
    }
  }

  /**
    Over any pushes, worker turns and drops: the items that have left the queue,
    handed over or dropped, in order, and then those that still wait, are exactly
    the accepted ones in order; the callback was given exactly those handed over.
   */
  lemma EveryRunKeepsOrder(f: Flow, calls: seq<Call>)
    requires FlowOk(f) && IsRun(f, calls)
    ensures Items(Fates(f, calls)) + Waiting(End(f, calls)) == Waiting(f) + Promised(f, calls)
    ensures End(f, calls).delivered == f.delivered + Handed(Fates(f, calls))
  {
    RunConserves(f, calls);
    RunHandsOver(f, calls);
  }

  lemma {:induction false} NoDropsNoLoss(f: Flow, calls: seq<Call>)
    requires IsRun(f, calls) && forall i | 0 <= i < |calls| :: !calls[i].DropOldest?
    ensures Handed(Fates(f, calls)) == Items(Fates(f, calls))
    decreases |calls|
  {
    if calls != [] {
      NoDropsNoLoss(Do(f, calls[0]), calls[1..]);
      ItemsConcat(FateBy(f, calls[0]), Fates(Do(f, calls[0]), calls[1..]));
      HandedConcat(FateBy(f, calls[0]), Fates(Do(f, calls[0]), calls[1..]));
      if FateBy(f, calls[0]) != [] {
        OneFate(FateBy(f, calls[0])[0]);
      }
    }
  }

  /** Without drops, what was and will be delivered is exactly what was accepted, in order. */
  lemma {:induction false} EveryRunDeliversInOrder(f: Flow, calls: seq<Call>)
    requires FlowOk(f) && IsRun(f, calls)
    requires forall i | 0 <= i < |calls| :: !calls[i].DropOldest?
    ensures var g := End(f, calls);
            g.delivered + Waiting(g) == f.delivered + Waiting(f) + Promised(f, calls)
  {
    EveryRunKeepsOrder(f, calls);
    NoDropsNoLoss(f, calls);
    Associate(f.delivered, Items(Fates(f, calls)), Waiting(End(f, calls)));
    Associate(f.delivered, Waiting(f), Promised(f, calls));
  }

  lemma HandOver(sofar: seq<Delivery>, left: seq<Delivery>)
    ensures left != [] ==> (sofar + [left[0]]) + left[1..] == sofar + left
  {
  }

  // ---- the object ----

  class RuntimeFlow {
    const pool: FramePool
    const ring: SliceRing
    var pushed: nat
    var consumed: nat
    var dropped: nat
    var pushFailures: nat

    /** The sink behind the consume callback. */
    var delivered: seq<Delivery>

    ghost var attempts: nat
    ghost var oversize: nat

    ghost predicate Valid()
      reads this, pool, pool.frame, ring, ring.item
    {
      ring.pool == pool && ring.Valid()
    }

    ghost function Value(): Flow
      requires Valid()
      reads this, pool, pool.frame, ring, ring.item
    {
      Flow(pool.Value(), ring.Value(), pushed, consumed, dropped, pushFailures, delivered, attempts, oversize)
    }

    constructor ()
      ensures Valid() && FlowOk(Value()) && Waiting(Value()) == [] && delivered == []
      ensures fresh(pool) && fresh(pool.frame) && fresh(ring) && fresh(ring.item)
    {
      var p := new FramePool();
      var r := new SliceRing(p);
      pool, ring := p, r;
      pushed, consumed, dropped, pushFailures := 0, 0, 0, 0;
      delivered, attempts, oversize := [], 0, 0;
      new;
      FreshWorldCounts([ring.Value()]);
    }

    /** Copy into a frame, push, and undo the copy when the ring is full. */
    method TryPush(data: seq<Byte>, timestamp: nat, epoch: nat) returns (ok: bool)
      requires Valid() && ring.writeSeq + 1 < SEQ_LIMIT
      modifies pool, pool.frame, ring, ring.item
      ensures Valid() && (ok <==> CanAccept(old(pool.Value()), old(ring.Value()), data))
      ensures pool.Value() == TriedPool(old(pool.Value()), old(ring.Value()), data, timestamp)
      ensures ring.Value() == TriedRing(old(pool.Value()), old(ring.Value()), data, timestamp, epoch)
    {
      var made, slice := pool.Make(data, timestamp);
      if !made {
        return false;
      }
      ok := ring.PushItem(slice, timestamp, epoch);
      if !ok {
        var undone := pool.Done(slice);
      }
    }

    /** Data that no frame can hold is counted as failed and dropped. */
    method RefuseOversize()
      requires Valid()
      modifies this
      ensures Valid()
      ensures Value() == old(Value()).(attempts := old(attempts) + 1, failures := old(pushFailures) + 1,
                                       dropped := old(dropped) + 1, oversize := old(oversize) + 1)
    {
      attempts := attempts + 1;
      pushFailures := pushFailures + 1;
      dropped := dropped + 1;
      oversize := oversize + 1;
    }

    method CountAttempt(ok: bool)
      requires Valid()
      modifies this
      ensures Valid()
      ensures Value() == if ok then old(Value()).(attempts := old(attempts) + 1, pushed := old(pushed) + 1)
                         else old(Value()).(attempts := old(attempts) + 1, failures := old(pushFailures) + 1)
    {
      attempts := attempts + 1;
      if !ok {
        pushFailures := pushFailures + 1;
        return;
      }
      pushed := pushed + 1;
    }

    method PushBytesWithEpoch(data: seq<Byte>, timestamp: nat, epoch: nat) returns (ok: bool)
      requires Valid() && ring.writeSeq + 1 < SEQ_LIMIT
      modifies this, pool, pool.frame, ring, ring.item
      ensures Valid() && Value() == Pushing(old(Value()), data, timestamp, epoch)
      ensures ok <==> pushed == old(pushed) + 1
    {
      if |data| > CAPACITY {
        RefuseOversize();
        return false;
      }
      ok := TryPush(data, timestamp, epoch);
      CountAttempt(ok);
    }

    /** One turn of the worker's inner loop. */
    method Turn() returns (ok: bool)
      requires Valid()
      modifies this, pool, pool.frame, ring, ring.item
      ensures Valid() && (ok <==> !Empty(old(Value())))
      ensures Value() == if ok then Turned(old(Value())) else old(Value())
    {
      var it;
      ok, it := ring.Take();
      if !ok {
        return;
      }
      var bytes := pool.Get(it.slice);
      consumed := consumed + 1;
      match bytes {
        case Some(b) => delivered := delivered + [Delivery(b, it.epoch, it.timestamp)];
        case None =>
      }
      ring.ItemDone(it);
    }

    /** A turn hands over the oldest waiting delivery, if there is one. */
    method ConsumeOne() returns (ok: bool)
      requires Valid() && FlowOk(Value())
      modifies this, pool, pool.frame, ring, ring.item
      ensures Valid() && FlowOk(Value())
      ensures ok <==> old(Waiting(Value())) != []
      ensures Waiting(Value()) == if ok then old(Waiting(Value()))[1..] else old(Waiting(Value()))
      ensures delivered == old(delivered) + if ok then [old(Waiting(Value()))[0]] else []
    {
      ghost var f := Value();
      EmptyMeansNothingWaits(f);
      if !Empty(f) {
        TurnMeans(f);
      }
      ok := Turn();
    }

    /** The drain loop hands over everything that is waiting, in order. */
    method Drain()
      requires Valid() && FlowOk(Value())
      modifies this, pool, pool.frame, ring, ring.item
      ensures Valid() && FlowOk(Value()) && Waiting(Value()) == []
      ensures delivered == old(delivered) + old(Waiting(Value()))
    {
      ghost var all := delivered + Waiting(Value());
      var more := true;
      while more
        invariant Valid() && FlowOk(Value())
        invariant delivered + Waiting(Value()) == all
        invariant !more ==> Waiting(Value()) == []
        decreases |Waiting(Value())|, more
      {
        ghost var sofar, left := delivered, Waiting(Value());
        more := ConsumeOne();
        HandOver(sofar, left);
      }
    }

    method DropOne() returns (ok: bool)
      requires Valid()
      modifies this, pool, pool.frame, ring, ring.item
      ensures Valid() && (ok <==> !Empty(old(Value())))
      ensures Value() == if ok then Discarded(old(Value())) else old(Value())
    {
      ok := ring.Drop();
      if ok {
        dropped := dropped + 1;
      }
    }

    /** Everything pending is dropped and counted; nothing is delivered. */
    method DropPending()
      requires Valid() && FlowOk(Value())
      modifies this, pool, pool.frame, ring, ring.item
      ensures Valid() && FlowOk(Value()) && Waiting(Value()) == []
      ensures delivered == old(delivered) && dropped == old(dropped) + |old(Waiting(Value()))|
    {
      var more := true;
      while more
        invariant Valid() && FlowOk(Value()) && delivered == old(delivered)
        invariant dropped + |Waiting(Value())| == old(dropped) + |old(Waiting(Value()))|
        invariant !more ==> Waiting(Value()) == []
        decreases |Waiting(Value())|, more
      {
        EmptyMeansNothingWaits(Value());
        if !Empty(Value()) {
          DiscardMeans(Value());
        }
        more := DropOne();
      }
    }
  }
}
