/**
  Several rings over one pool of frames, used in sequence: reference counts are
  exact, and nothing readable is ever freed.
 */
module SharedPool {
  import opened Bytes
  import opened FrameModel
  import opened RingModel

  type GoodRing = r: Ring | RingOk(r) witness Ring(seq(SLOTS, _ => ZERO_ITEM), 0, 0, 0, 0, 0, 0, 0)
  type GoodPool = p: Pool | Shaped(p) witness Pool(seq(FRAMES, _ => ZERO_FRAME), 0, 0, 0, 0, 0, 0)

  /** `callers` counts the references held outside the rings, by frame. */
  datatype World = World(pool: GoodPool, rings: seq<GoodRing>, callers: multiset<nat>)

  // ---- counting references ----

  function Uses(q: seq<Item>, id: nat): nat {
    if q == [] then 0 else (if q[0].slice.id == id then 1 else 0) + Uses(q[1..], id)
  }

  function RingUses(rings: seq<GoodRing>, id: nat): nat {
    if rings == [] then 0 else Uses(Queued(rings[0]), id) + RingUses(rings[1..], id)
  }

  function Busy(frames: seq<Frame>): nat {
    if frames == [] then 0 else (if frames[0].busy then 1 else 0) + Busy(frames[1..])
  }

  lemma {:induction false} UsesConcat(a: seq<Item>, b: seq<Item>, id: nat)
    ensures Uses(a + b, id) == Uses(a, id) + Uses(b, id)
  {
    if a == [] {
      assert a + b == b;
    } else {
      assert (a + b)[1..] == a[1..] + b;
      UsesConcat(a[1..], b, id);
    }
  }

  lemma UsesOne(it: Item, id: nat)
    ensures Uses([it], id) == if it.slice.id == id then 1 else 0
  {
    assert [it][1..] == [];
  }

  lemma {:induction false} UsesPositive(q: seq<Item>, i: nat)
    requires i < |q|
    ensures Uses(q, q[i].slice.id) > 0
  {
    if i > 0 {
      UsesPositive(q[1..], i - 1);
    }
  }

  lemma {:induction false} RingUsesUpdate(rings: seq<GoodRing>, k: nat, r: GoodRing, id: nat)
    requires k < |rings|
    ensures RingUses(rings[k := r], id) + Uses(Queued(rings[k]), id) == RingUses(rings, id) + Uses(Queued(r), id)
  {
    if k > 0 {
      assert rings[k := r][1..] == rings[1..][k - 1 := r];
      RingUsesUpdate(rings[1..], k - 1, r, id);
    } else {
      assert rings[k := r][1..] == rings[1..];
    }
  }

  lemma {:induction false} RingUsesAtLeast(rings: seq<GoodRing>, k: nat, id: nat)
    requires k < |rings|
    ensures RingUses(rings, id) >= Uses(Queued(rings[k]), id)
  {
    if k > 0 {
      RingUsesAtLeast(rings[1..], k - 1, id);
    }
  }

  lemma {:induction false} BusyUpdate(frames: seq<Frame>, i: nat, f: Frame)
    requires i < |frames|
    ensures Busy(frames[i := f]) + (if frames[i].busy then 1 else 0) == Busy(frames) + (if f.busy then 1 else 0)
  {
    if i > 0 {
      assert frames[i := f][1..] == frames[1..][i - 1 := f];
      BusyUpdate(frames[1..], i - 1, f);
    } else {
      assert frames[i := f][1..] == frames[1..];
    }
  }

  lemma {:induction false} BusyAtMost(frames: seq<Frame>)
    ensures Busy(frames) <= |frames|
  {
    if frames != [] {
      BusyAtMost(frames[1..]);
    }
  }

  // ---- the invariant ----

  /** Queued items that refer to the frame, plus references held by callers. */
  function References(w: World, id: nat): nat {
    w.callers[id] + RingUses(w.rings, id)
  }

  ghost predicate Counted(w: World) {
    && (forall id | 0 <= id < FRAMES ::
          w.pool.frames[id].holders == References(w, id) && (w.pool.frames[id].busy <==> References(w, id) > 0))
    && w.pool.occupied == Busy(w.pool.frames)
  }

  /** Every queued item can be read. */
  ghost predicate Readable(w: World) {
    forall k, i | 0 <= k < |w.rings| && 0 <= i < |Queued(w.rings[k])| :: CanHold(w.pool, Queued(w.rings[k])[i].slice)
  }

  ghost predicate Inv(w: World) {
    Counted(w) && Readable(w)
  }

  // ---- steps ----

  datatype Step =
    | Make(data: seq<Byte>, timestamp: nat)
    | Hold(slice: Slice)
    | Done(slice: Slice)
    | PushOwned(k: nat, slice: Slice, timestamp: nat, epoch: nat)
    | PushShared(k: nat, slice: Slice, timestamp: nat, epoch: nat)
    | Take(k: nat)
    | Drop(k: nat)

  /** What the interface demands: rings that are not worn out, and references given back or away only by holders. */
  predicate Enabled(w: World, step: Step) {
    match step
    case Make(_, _) => true
    case Hold(_) => true
    case Done(s) => SliceOk(s) ==> w.callers[s.id] > 0
    case PushOwned(k, s, _, _) =>
      && k < |w.rings| && w.rings[k].writeSeq + 1 < SEQ_LIMIT
      && (SliceOk(s) ==> w.callers[s.id] > 0 && s.off + s.len <= w.pool.frames[s.id].len)
    case PushShared(k, _, _, _) => k < |w.rings| && w.rings[k].writeSeq + 1 < SEQ_LIMIT
    case Take(k) => k < |w.rings|
    case Drop(k) => k < |w.rings|
  }

  lemma ShapesKept(p: GoodPool, data: seq<Byte>, timestamp: nat, s: Slice)
    ensures Shaped(Made(p, data, timestamp)) && Shaped(Held(p, s)) && Shaped(Released(p, s))
  {
    if CanMake(p, data) {
      MakeStores(p, data, timestamp);
    }
  }

  lemma RingsKept(r: GoodRing, s: Slice, timestamp: nat, epoch: nat)
    ensures RingOk(Taken(r))
    ensures r.writeSeq + 1 < SEQ_LIMIT ==> RingOk(Pushed(r, s, timestamp, epoch))
  {
  }

  function After(w: World, step: Step): World
    requires Enabled(w, step)
  {
    match step
    case Make(data, timestamp) =>
      ShapesKept(w.pool, data, timestamp, NO_SLICE);
      w.(pool := Made(w.pool, data, timestamp),
         callers := if CanMake(w.pool, data) then w.callers + multiset{NextFree(w.pool)} else w.callers)
    case Hold(s) =>
      ShapesKept(w.pool, [], 0, s);
      w.(pool := Held(w.pool, s), callers := if CanHold(w.pool, s) then w.callers + multiset{s.id} else w.callers)
    case Done(s) =>
      ShapesKept(w.pool, [], 0, s);
      w.(pool := Released(w.pool, s),
         callers := if CanRelease(w.pool, s) then w.callers - multiset{s.id} else w.callers)
    case PushOwned(k, s, timestamp, epoch) =>
      RingsKept(w.rings[k], s, timestamp, epoch);
      w.(rings := w.rings[k := Pushed(w.rings[k], s, timestamp, epoch)],
         callers := if CanPush(w.rings[k], s) then w.callers - multiset{s.id} else w.callers)
    case PushShared(k, s, timestamp, epoch) =>
      RingsKept(w.rings[k], s, timestamp, epoch);
      ShapesKept(w.pool, [], 0, s);
      ShapesKept(Held(w.pool, s), [], 0, s);
      w.(pool := SharedPushPool(w.pool, w.rings[k], s),
         rings := w.rings[k := SharedPushRing(w.pool, w.rings[k], s, timestamp, epoch)])
    case Take(k) =>
      RingsKept(w.rings[k], NO_SLICE, 0, 0);
      w.(rings := w.rings[k := Taken(w.rings[k])],
         callers := if Queued(w.rings[k]) == [] then w.callers
                    else w.callers + multiset{Queued(w.rings[k])[0].slice.id})
    case Drop(k) =>
      RingsKept(w.rings[k], NO_SLICE, 0, 0);
      if Queued(w.rings[k]) == [] then w
      else
        var s := Queued(w.rings[k])[0].slice;
        ShapesKept(w.pool, [], 0, s);
        w.(pool := Released(w.pool, s), rings := w.rings[k := Taken(w.rings[k])])
  }

  // ---- one step at a time ----

  lemma QueuedHasReference(w: World, k: nat, i: nat)
    requires k < |w.rings| && i < |Queued(w.rings[k])|
    ensures RingUses(w.rings, Queued(w.rings[k])[i].slice.id) > 0
  {
    UsesPositive(Queued(w.rings[k]), i);
    RingUsesAtLeast(w.rings, k, Queued(w.rings[k])[i].slice.id);
  }

  /** Queued items stay readable while the frames they refer to keep their length and stay busy. */
  lemma {:induction false} ReadableIn(w: World, pool: GoodPool)
    requires Readable(w)
    requires forall id | 0 <= id < FRAMES && RingUses(w.rings, id) > 0 ::
               pool.frames[id].len == w.pool.frames[id].len && (w.pool.frames[id].busy ==> pool.frames[id].busy)
    ensures Readable(w.(pool := pool))
  {
    forall k, i | 0 <= k < |w.rings| && 0 <= i < |Queued(w.rings[k])|
      ensures CanHold(pool, Queued(w.rings[k])[i].slice)
    {
      QueuedHasReference(w, k, i);
      assert CanHold(w.pool, Queued(w.rings[k])[i].slice);
    }
  }

  /** One frame changes together with the callers' references to it. */
  lemma {:induction false} CountedIn(w: World, id: nat, f: Frame, pool: GoodPool, callers: multiset<nat>)
    requires Counted(w) && id < FRAMES && pool.frames == w.pool.frames[id := f]
    requires forall j: nat | j != id :: callers[j] == w.callers[j]
    requires f.holders == callers[id] + RingUses(w.rings, id) && (f.busy <==> f.holders > 0)
    requires pool.occupied + (if w.pool.frames[id].busy then 1 else 0) == w.pool.occupied + (if f.busy then 1 else 0)
    ensures Counted(World(pool, w.rings, callers))
  {
    BusyUpdate(w.pool.frames, id, f);
  }

  lemma {:induction false} MakeKeeps(w: World, data: seq<Byte>, timestamp: nat)
    requires Inv(w)
    ensures Inv(After(w, Make(data, timestamp)))
  {
    if CanMake(w.pool, data) {
      var id := NextFree(w.pool);
      MakeStores(w.pool, data, timestamp);
      var w' := After(w, Make(data, timestamp));
      assert References(w, id) == 0;
      BusyUpdate(w.pool.frames, id, w'.pool.frames[id]);
      BusyAtMost(w'.pool.frames);
      CountedIn(w, id, w'.pool.frames[id], w'.pool, w'.callers);
      ReadableIn(w, w'.pool);
    }
  }

  lemma {:induction false} HoldKeeps(w: World, s: Slice)
    requires Inv(w)
    ensures Inv(After(w, Hold(s)))
  {
    if CanHold(w.pool, s) {
      var w' := After(w, Hold(s));
      assert w.pool.frames[s.id].holders == References(w, s.id);
      CountedIn(w, s.id, w'.pool.frames[s.id], w'.pool, w'.callers);
      ReadableIn(w, w'.pool);
    }
  }

  lemma {:induction false} DoneKeeps(w: World, s: Slice)
    requires Inv(w) && Enabled(w, Done(s))
    ensures Inv(After(w, Done(s)))
  {
    if CanRelease(w.pool, s) {
      var w' := After(w, Done(s));
      assert w.pool.frames[s.id].holders == References(w, s.id);
      BusyCounts(w.pool.frames, s.id);
      CountedIn(w, s.id, w'.pool.frames[s.id], w'.pool, w'.callers);
      ReadableIn(w, w'.pool);
    }
  }

  lemma {:induction false} BusyCounts(frames: seq<Frame>, i: nat)
    requires i < |frames| && frames[i].busy
    ensures Busy(frames) > 0
  {
    if i > 0 {
      BusyCounts(frames[1..], i - 1);
    }
  }

  /** A push moves one reference of the frame into the ring. */
  lemma {:induction false} PushMoves(w: World, k: nat, s: Slice, timestamp: nat, epoch: nat, id: nat)
    requires k < |w.rings| && CanPush(w.rings[k], s) && w.rings[k].writeSeq + 1 < SEQ_LIMIT
    ensures RingOk(Pushed(w.rings[k], s, timestamp, epoch))
    ensures RingUses(w.rings[k := Pushed(w.rings[k], s, timestamp, epoch)], id)
         == RingUses(w.rings, id) + if s.id == id then 1 else 0
  {
    var r := w.rings[k];
    var it := Item(s, r.numberNext, timestamp, epoch, 0);
    PushAppends(r, s, timestamp, epoch);
    UsesConcat(Queued(r), [it], id);
    UsesOne(it, id);
    RingUsesUpdate(w.rings, k, Pushed(r, s, timestamp, epoch), id);
  }

  lemma {:induction false} UnchangedQueue(w: World, k: nat, r: GoodRing, id: nat)
    requires k < |w.rings| && Queued(r) == Queued(w.rings[k])
    ensures RingUses(w.rings[k := r], id) == RingUses(w.rings, id)
  {
    RingUsesUpdate(w.rings, k, r, id);
  }

  /** After a push, what is queued is what was queued, and perhaps the new slice. */
  lemma {:induction false} ReadableAfterPush(w: World, pool: GoodPool, k: nat, s: Slice, timestamp: nat, epoch: nat)
    requires k < |w.rings| && CanPush(w.rings[k], s) && w.rings[k].writeSeq + 1 < SEQ_LIMIT
    requires Readable(w) && CanHold(pool, s) && (forall t | CanHold(w.pool, t) :: CanHold(pool, t))
    requires RingOk(Pushed(w.rings[k], s, timestamp, epoch))
    ensures Readable(World(pool, w.rings[k := Pushed(w.rings[k], s, timestamp, epoch)], w.callers))
  {
    PushAppends(w.rings[k], s, timestamp, epoch);
    var rings' := w.rings[k := Pushed(w.rings[k], s, timestamp, epoch)];
    forall j, i | 0 <= j < |rings'| && 0 <= i < |Queued(rings'[j])|
      ensures CanHold(pool, Queued(rings'[j])[i].slice)
    {
      if j != k || i < |Queued(w.rings[k])| {
        assert CanHold(w.pool, Queued(w.rings[j])[i].slice);
      }
    }
  }

  lemma {:induction false} FailedPushKeeps(w: World, k: nat, r: GoodRing)
    requires Inv(w) && k < |w.rings| && Queued(r) == Queued(w.rings[k])
    ensures Inv(w.(rings := w.rings[k := r]))
  {
    forall id: nat ensures RingUses(w.rings[k := r], id) == RingUses(w.rings, id) {
      UnchangedQueue(w, k, r, id);
    }
  }

  lemma QueueUnchangedByFailure(r: GoodRing, s: Slice, timestamp: nat, epoch: nat)
    requires !CanPush(r, s)
    ensures RingOk(Pushed(r, s, timestamp, epoch)) && Queued(Pushed(r, s, timestamp, epoch)) == Queued(r)
  {
    var r' := Pushed(r, s, timestamp, epoch);
    forall i | 0 <= i < |Queued(r)| ensures Queued(r')[i] == Queued(r)[i] {
      assert QueuedAt(r', i) == QueuedAt(r, i);
    }
  }

  lemma {:induction false} PushOwnedKeeps(w: World, k: nat, s: Slice, timestamp: nat, epoch: nat)
    requires Inv(w) && Enabled(w, PushOwned(k, s, timestamp, epoch))
    ensures Inv(After(w, PushOwned(k, s, timestamp, epoch)))
  {
    if CanPush(w.rings[k], s) {
      forall id: nat
        ensures RingUses(After(w, PushOwned(k, s, timestamp, epoch)).rings, id)
             == RingUses(w.rings, id) + if s.id == id then 1 else 0
      {
        PushMoves(w, k, s, timestamp, epoch, id);
      }
      assert References(w, s.id) > 0;
      ReadableAfterPush(w, w.pool, k, s, timestamp, epoch);
    } else {
      QueueUnchangedByFailure(w.rings[k], s, timestamp, epoch);
      FailedPushKeeps(w, k, Pushed(w.rings[k], s, timestamp, epoch));
    }
  }

  /** A failed shared push leaves every frame and every count of the pool as it was. */
  lemma {:induction false} FailedSharedPushIsNeutral(w: World, k: nat, s: Slice, timestamp: nat, epoch: nat)
    requires Inv(w) && Enabled(w, PushShared(k, s, timestamp, epoch))
    requires !(CanHold(w.pool, s) && CanPush(w.rings[k], s))
    ensures var w' := After(w, PushShared(k, s, timestamp, epoch));
            && w'.pool == w.pool && w'.callers == w.callers
            && (forall j | 0 <= j < |w.rings| :: Queued(w'.rings[j]) == Queued(w.rings[j]))
  {
    if CanHold(w.pool, s) {
      assert w.pool.frames[s.id].holders == References(w, s.id);
      ReleaseUndoesHold(w.pool, s);
      QueueUnchangedByFailure(w.rings[k], s, timestamp, epoch);
    }
  }

  lemma {:induction false} PushSharedKeeps(w: World, k: nat, s: Slice, timestamp: nat, epoch: nat)
    requires Inv(w) && Enabled(w, PushShared(k, s, timestamp, epoch))
    ensures Inv(After(w, PushShared(k, s, timestamp, epoch)))
  {
    var w' := After(w, PushShared(k, s, timestamp, epoch));
    if CanHold(w.pool, s) && CanPush(w.rings[k], s) {
      HoldKeeps(w, s);
      var h := After(w, Hold(s));
      assert CanHold(h.pool, s);
      PushOwnedKeeps(h, k, s, timestamp, epoch);
      var p := After(h, PushOwned(k, s, timestamp, epoch));
      assert p.callers == w'.callers;
      assert p == w';
    } else {
      FailedSharedPushIsNeutral(w, k, s, timestamp, epoch);
      FailedPushKeeps(w, k, w'.rings[k]);
      assert w' == w.(rings := w.rings[k := w'.rings[k]]);
    }
  }

  lemma {:induction false} TakeMoves(w: World, k: nat, id: nat)
    requires k < |w.rings| && Queued(w.rings[k]) != []
    ensures RingOk(Taken(w.rings[k]))
    ensures RingUses(w.rings[k := Taken(w.rings[k])], id) + (if Queued(w.rings[k])[0].slice.id == id then 1 else 0)
         == RingUses(w.rings, id)
  {
    var r := w.rings[k];
    TakeRemovesOldest(r);
    UsesConcat([Queued(r)[0]], Queued(Taken(r)), id);
    UsesOne(Queued(r)[0], id);
    RingUsesUpdate(w.rings, k, Taken(r), id);
  }

  lemma {:induction false} ReadableAfterTake(w: World, k: nat)
    requires Readable(w) && k < |w.rings| && Queued(w.rings[k]) != [] && RingOk(Taken(w.rings[k]))
    ensures Readable(w.(rings := w.rings[k := Taken(w.rings[k])]))
  {
    TakeRemovesOldest(w.rings[k]);
    var rings' := w.rings[k := Taken(w.rings[k])];
    forall j, i | 0 <= j < |rings'| && 0 <= i < |Queued(rings'[j])|
      ensures CanHold(w.pool, Queued(rings'[j])[i].slice)
    {
      var i' := if j == k then i + 1 else i;
      assert Queued(w.rings[j])[i'] == Queued(rings'[j])[i];
      assert CanHold(w.pool, Queued(w.rings[j])[i'].slice);
    }
  }

  lemma {:induction false} TakeKeeps(w: World, k: nat)
    requires Inv(w) && k < |w.rings|
    ensures Inv(After(w, Take(k)))
  {
    var r := w.rings[k];
    if Queued(r) == [] {
      assert Taken(r) == r && w.rings[k := r] == w.rings;
    } else {
      var w' := After(w, Take(k));
      forall id: nat ensures References(w', id) == References(w, id) {
        TakeMoves(w, k, id);
      }
      ReadableAfterTake(w, k);
      assert Readable(w');
    }
  }

  /** Dropping is taking and then giving the reference back. */
  lemma {:induction false} DropKeeps(w: World, k: nat)
    requires Inv(w) && k < |w.rings|
    ensures Inv(After(w, Drop(k)))
  {
    if Queued(w.rings[k]) != [] {
      var s := Queued(w.rings[k])[0].slice;
      assert CanHold(w.pool, s);
      TakeKeeps(w, k);
      var t := After(w, Take(k));
      DoneKeeps(t, s);
      assert After(t, Done(s)).callers == w.callers;
      assert After(t, Done(s)) == After(w, Drop(k));
    }
  }

  lemma {:induction false} StepKeeps(w: World, step: Step)
    requires Inv(w) && Enabled(w, step)
    ensures Inv(After(w, step))
  {
    match step
    case Make(data, timestamp) => MakeKeeps(w, data, timestamp);
    case Hold(s) => HoldKeeps(w, s);
    case Done(s) => DoneKeeps(w, s);
    case PushOwned(k, s, timestamp, epoch) => PushOwnedKeeps(w, k, s, timestamp, epoch);
    case PushShared(k, s, timestamp, epoch) => PushSharedKeeps(w, k, s, timestamp, epoch);
    case Take(k) => TakeKeeps(w, k);
    case Drop(k) => DropKeeps(w, k);
  }

  ghost predicate IsRun(w: World, steps: seq<Step>)
    decreases |steps|
  {
    steps != [] ==> Enabled(w, steps[0]) && IsRun(After(w, steps[0]), steps[1..])
  }

  function End(w: World, steps: seq<Step>): World
    requires IsRun(w, steps)
    decreases |steps|
  {
    if steps == [] then w else End(After(w, steps[0]), steps[1..])
  }

  /**
    With any number of rings over one pool, after any calls: each frame's holder
    count is the number of queued items that refer to it plus the references held
    by callers, a frame is busy exactly when that is positive, `occupied` is the
    number of busy frames, and every queued item can still be read.
   */
  lemma {:induction false} CountsAreExact(w: World, steps: seq<Step>)
    requires Inv(w) && IsRun(w, steps)
    ensures Inv(End(w, steps))
    decreases |steps|
  {
    if steps != [] {
      StepKeeps(w, steps[0]);
      CountsAreExact(After(w, steps[0]), steps[1..]);
    }
  }

  /** Fresh rings over a fresh pool satisfy the invariant. */
  lemma {:induction false} FreshWorldCounts(rings: seq<GoodRing>)
    requires forall k | 0 <= k < |rings| :: rings[k].readSeq == rings[k].writeSeq
    ensures Inv(World(Pool(seq(FRAMES, _ => ZERO_FRAME), 0, 0, 0, 0, 0, 0), rings, multiset{}))
  {
    forall id: nat ensures RingUses(rings, id) == 0 {
      NoUses(rings, id);
    }
    NoneBusy(seq(FRAMES, _ => ZERO_FRAME));
  }

  lemma {:induction false} NoUses(rings: seq<GoodRing>, id: nat)
    requires forall k | 0 <= k < |rings| :: rings[k].readSeq == rings[k].writeSeq
    ensures RingUses(rings, id) == 0
  {
    if rings != [] {
      NoUses(rings[1..], id);
      assert Queued(rings[0]) == [];
    }
  }

  lemma {:induction false} NoneBusy(frames: seq<Frame>)
    requires forall i | 0 <= i < |frames| :: !frames[i].busy
    ensures Busy(frames) == 0
  {
    if frames != [] {
      NoneBusy(frames[1..]);
    }
  }
}
