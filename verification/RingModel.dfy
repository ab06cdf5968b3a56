/** The ring of 16 slice items of src/mb-slice-ring.c. */
module RingModel {
  import opened Bytes
  import opened FrameModel

  const SLOTS := 16

  /** Sequence numbers are signed 32-bit; a ring is used for fewer than 2^31 pushes. */
  const SEQ_LIMIT := 0x8000_0000

  datatype Item = Item(slice: Slice, number: nat, timestamp: nat, epoch: nat, flags: nat)

  const ZERO_ITEM := Item(Slice(0, 0, 0), 0, 0, 0, 0)

  /** What the consume callback is given for an item. */
  datatype Delivery = Delivery(bytes: seq<Byte>, epoch: nat, timestamp: nat)

  /** All fields of a ring. */
  datatype Ring = Ring(items: seq<Item>, readSeq: nat, writeSeq: nat, numberNext: nat,
                       pushed: nat, taken: nat, dropped: nat, overflow: nat)

  predicate RingOk(r: Ring) {
    |r.items| == SLOTS && r.readSeq <= r.writeSeq <= r.readSeq + SLOTS && r.writeSeq < SEQ_LIMIT
  }

  function Slot(n: nat): (i: nat)
    ensures i < SLOTS
  {
    n % SLOTS
  }

  /** The i-th item from the read end. */
  function QueuedAt(r: Ring, i: nat): Item
    requires RingOk(r)
  {
    r.items[Slot(r.readSeq + i)]
  }

  /** The queued items, oldest first. */
  function Queued(r: Ring): (q: seq<Item>)
    requires RingOk(r)
    ensures |q| == r.writeSeq - r.readSeq
    ensures forall i | 0 <= i < |q| :: q[i] == QueuedAt(r, i)
  {
    seq(r.writeSeq - r.readSeq, i requires 0 <= i < r.writeSeq - r.readSeq => QueuedAt(r, i))
  }

  predicate CanPush(r: Ring, s: Slice)
    requires RingOk(r)
  {
    SliceOk(s) && r.writeSeq - r.readSeq < SLOTS
  }

  function Pushed(r: Ring, s: Slice, timestamp: nat, epoch: nat): Ring
    requires RingOk(r)
  {
    if !SliceOk(s) then r
    else if !CanPush(r, s) then r.(overflow := r.overflow + 1)
    else r.(items := r.items[Slot(r.writeSeq) := Item(s, r.numberNext, timestamp, epoch, 0)],
            writeSeq := r.writeSeq + 1, numberNext := r.numberNext + 1, pushed := r.pushed + 1)
  }

  function Taken(r: Ring): Ring
    requires RingOk(r)
  {
    if r.readSeq == r.writeSeq then r
    else r.(items := r.items[Slot(r.readSeq) := ZERO_ITEM], readSeq := r.readSeq + 1, taken := r.taken + 1)
  }

  lemma SlotsDiffer(a: nat, b: nat)
    requires a < b < a + SLOTS
    ensures Slot(a) != Slot(b)
  {
  }

  /** A push that succeeds appends at the end; nothing already queued is overwritten. */
  lemma PushAppends(r: Ring, s: Slice, timestamp: nat, epoch: nat)
    requires RingOk(r) && CanPush(r, s) && r.writeSeq + 1 < SEQ_LIMIT
    ensures var r' := Pushed(r, s, timestamp, epoch);
            RingOk(r') && Queued(r') == Queued(r) + [Item(s, r.numberNext, timestamp, epoch, 0)]
  {
    var r' := Pushed(r, s, timestamp, epoch);
    forall i | 0 <= i < r.writeSeq - r.readSeq ensures QueuedAt(r', i) == QueuedAt(r, i) {
      SlotsDiffer(r.readSeq + i, r.writeSeq);
    }
  }

  /** A take removes the oldest item and disturbs no other. */
  lemma TakeRemovesOldest(r: Ring)
    requires RingOk(r) && r.readSeq != r.writeSeq
    ensures RingOk(Taken(r)) && Queued(r) == [r.items[Slot(r.readSeq)]] + Queued(Taken(r))
  {
    var r' := Taken(r);
    var q, q' := Queued(r), Queued(r');
    forall i | 0 < i < |q| ensures q[i] == q'[i - 1] {
      SlotsDiffer(r.readSeq, r.readSeq + i);
      assert q'[i - 1] == QueuedAt(r', i - 1);
      assert r'.readSeq + (i - 1) == r.readSeq + i;
    }
    assert q == [q[0]] + q';
  }

  class SliceRing {
    const pool: FramePool
    const item: array<Item>
    var readSeq: nat
    var writeSeq: nat
    var numberNext: nat
    var pushed: nat
    var taken: nat
    var dropped: nat
    var overflow: nat

    ghost function Value(): Ring
      reads this, item
    {
      Ring(item[..], readSeq, writeSeq, numberNext, pushed, taken, dropped, overflow)
    }

    ghost predicate Valid()
      reads this, item, pool, pool.frame
    {
      RingOk(Value()) && pool.Valid()
    }

    constructor (pool: FramePool)
      requires pool.Valid()
      ensures Valid() && this.pool == pool && fresh(item)
      ensures Value() == Ring(seq(SLOTS, _ => ZERO_ITEM), 0, 0, 0, 0, 0, 0, 0)
    {
      this.pool := pool;
      item := new Item[SLOTS](_ => ZERO_ITEM);
      readSeq, writeSeq, numberNext, pushed, taken, dropped, overflow := 0, 0, 0, 0, 0, 0, 0;
      new;
      assert item[..] == seq(SLOTS, _ => ZERO_ITEM);
    }

    /** The number of queued items, clamped to 0..16 as the source does. */
    method CountFromSeq(r: nat, w: nat) returns (count: nat)
      ensures r <= w <= r + SLOTS ==> count == w - r
      ensures count <= SLOTS
    {
      var c := w - r;
      if c < 0 {
        return 0;
      }
      if c > SLOTS {
        return SLOTS;
      }
      return c;
    }

    method PushItem(slice: Slice, timestamp: nat, epoch: nat) returns (ok: bool)
      requires Valid() && writeSeq + 1 < SEQ_LIMIT
      modifies this, item
      ensures Valid() && Value() == Pushed(old(Value()), slice, timestamp, epoch)
      ensures ok <==> CanPush(old(Value()), slice)
    {
      if !SliceOk(slice) {
        return false;
      }
      var count := CountFromSeq(readSeq, writeSeq);
      if count >= SLOTS {
        overflow := overflow + 1;
        return false;
      }
      item[Slot(writeSeq)] := Item(slice, numberNext, timestamp, epoch, 0);
      assert item[..] == old(item[..])[Slot(writeSeq) := Item(slice, numberNext, timestamp, epoch, 0)];
      numberNext := numberNext + 1;
      pushed := pushed + 1;
      writeSeq := writeSeq + 1;
      return true;
    }

    /** A shared push takes a reference of its own, and gives it back when the ring is full. */
    method PushShared(slice: Slice, timestamp: nat, epoch: nat) returns (ok: bool)
      requires Valid() && writeSeq + 1 < SEQ_LIMIT
      modifies this, item, pool, pool.frame
      ensures Valid()
      ensures ok <==> CanHold(old(pool.Value()), slice) && CanPush(old(Value()), slice)
      ensures pool.Value() == SharedPushPool(old(pool.Value()), old(Value()), slice)
      ensures Value() == SharedPushRing(old(pool.Value()), old(Value()), slice, timestamp, epoch)
    {
      var held := pool.Hold(slice);
      if !held {
        return false;
      }
      ok := PushItem(slice, timestamp, epoch);
      if !ok {
        var undone := pool.Done(slice);
      }
    }

    method Take() returns (ok: bool, out: Item)
      requires Valid()
      modifies this, item
      ensures Valid() && Value() == Taken(old(Value()))
      ensures ok <==> old(readSeq) != old(writeSeq)
      ensures ok ==> out == old(item[Slot(readSeq)])
    {
      out := ZERO_ITEM;
      if readSeq == writeSeq {
        return false, out;
      }
      var i := Slot(readSeq);
      out := item[i];
      item[i] := ZERO_ITEM;
      assert item[..] == old(item[..])[i := ZERO_ITEM];
      taken := taken + 1;
      readSeq := readSeq + 1;
      ok := true;
    }

    /** Gives back the reference of a taken item. */
    method ItemDone(it: Item)
      requires Valid()
      modifies pool, pool.frame
      ensures Valid() && pool.Value() == Released(old(pool.Value()), it.slice)
    {
      var ok := pool.Done(it.slice);
    }

    method Drop() returns (ok: bool)
      requires Valid()
      modifies this, item, pool, pool.frame
      ensures Valid()
      ensures ok <==> old(readSeq) != old(writeSeq)
      ensures ok ==> Value() == Taken(old(Value())).(dropped := old(dropped) + 1)
      ensures ok ==> pool.Value() == Released(old(pool.Value()), old(item[Slot(readSeq)]).slice)
      ensures !ok ==> Value() == old(Value()) && pool.Value() == old(pool.Value())
    {
      var it;
      ok, it := Take();
      if ok {
        ItemDone(it);
        dropped := dropped + 1;
      }
    }

    method IsEmpty() returns (empty: bool)
      requires Valid()
      ensures empty <==> Queued(Value()) == []
    {
      empty := readSeq == writeSeq;
    }

    method Count() returns (count: nat)
      requires Valid()
      ensures count == |Queued(Value())|
    {
      count := CountFromSeq(readSeq, writeSeq);
    }
  }

  // ---- the shared push as functions ----

  function SharedPushPool(p: Pool, r: Ring, s: Slice): Pool
    requires Shaped(p) && RingOk(r)
  {
    if CanHold(p, s) && CanPush(r, s) then Held(p, s)
    else if CanHold(p, s) then Released(Held(p, s), s)
    else p
  }

  function SharedPushRing(p: Pool, r: Ring, s: Slice, timestamp: nat, epoch: nat): Ring
    requires Shaped(p) && RingOk(r)
  {
    if CanHold(p, s) then Pushed(r, s, timestamp, epoch) else r
  }
}
