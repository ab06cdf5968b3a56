/** The pool of reference-counted frames of src/mb-frame-model.c. */
module FrameModel {
  import opened Bytes
  import opened Wrappers

  const FRAMES := 32
  const CAPACITY := 256
  const INVALID := 0xFFFF

  datatype Slice = Slice(id: nat, off: nat, len: nat)

  datatype Frame = Frame(payload: seq<Byte>, len: nat, busy: bool, holders: int, number: nat, timestamp: nat)

  /** All fields of a pool. */
  datatype Pool = Pool(frames: seq<Frame>, next: nat, occupied: nat, occupiedMax: nat,
                       numberNext: nat, allocs: nat, empties: nat)

  const ZERO_FRAME := Frame(seq(CAPACITY, _ => 0), 0, false, 0, 0, 0)

  const NO_SLICE := Slice(INVALID, 0, 0)

  predicate SliceOk(s: Slice) {
    s.id != INVALID && s.id < FRAMES && s.off <= CAPACITY && s.len <= CAPACITY && s.off + s.len <= CAPACITY
  }

  /** The shape every pool keeps: 32 frames of 256 bytes and a cursor among them. */
  predicate Shaped(p: Pool) {
    && |p.frames| == FRAMES && p.next < FRAMES
    && forall i | 0 <= i < FRAMES :: |p.frames[i].payload| == CAPACITY && p.frames[i].len <= CAPACITY
  }

  // ---- the operations as functions ----

  /** The frame a cyclic scan from `next` looks at in a given step. */
  function At(next: nat, step: nat): nat {
    (next + step) % FRAMES
  }

  /** The step at which a cyclic scan from `next` meets a free frame, or 32. */
  function Scan(frames: seq<Frame>, next: nat, step: nat): (r: nat)
    requires |frames| == FRAMES && step <= FRAMES
    ensures step <= r <= FRAMES
    ensures r < FRAMES ==> !frames[At(next, r)].busy
    ensures forall k | step <= k < r :: frames[At(next, k)].busy
    decreases FRAMES - step
  {
    if step == FRAMES || !frames[At(next, step)].busy then step else Scan(frames, next, step + 1)
  }

  function Filled(f: Frame, data: seq<Byte>, number: nat, timestamp: nat): Frame
    requires |data| <= |f.payload|
  {
    Frame(data + f.payload[|data|..], |data|, true, 1, number, timestamp)
  }

  function Claimed(p: Pool, id: nat, data: seq<Byte>, timestamp: nat): Pool
    requires Shaped(p) && id < FRAMES && |data| <= CAPACITY
  {
    var occupied := if p.occupied < FRAMES then p.occupied + 1 else p.occupied;
    Pool(p.frames[id := Filled(p.frames[id], data, p.numberNext, timestamp)], At(id, 1),
         occupied, if occupied > p.occupiedMax then occupied else p.occupiedMax,
         p.numberNext + 1, p.allocs + 1, p.empties)
  }

  predicate CanMake(p: Pool, data: seq<Byte>)
    requires Shaped(p)
  {
    |data| <= CAPACITY && Scan(p.frames, p.next, 0) < FRAMES
  }

  /** The frame that a successful call claims. */
  function NextFree(p: Pool): (id: nat)
    requires Shaped(p)
    ensures id < FRAMES
  {
    At(p.next, Scan(p.frames, p.next, 0))
  }

  function Made(p: Pool, data: seq<Byte>, timestamp: nat): Pool
    requires Shaped(p)
  {
    if CanMake(p, data) then Claimed(p, NextFree(p), data, timestamp)
    else if |data| > CAPACITY then p
    else p.(empties := p.empties + 1)
  }

  predicate CanHold(p: Pool, s: Slice)
    requires Shaped(p)
  {
    SliceOk(s) && p.frames[s.id].busy && s.off + s.len <= p.frames[s.id].len
  }

  function Held(p: Pool, s: Slice): Pool
    requires Shaped(p)
  {
    if CanHold(p, s) then p.(frames := p.frames[s.id := p.frames[s.id].(holders := p.frames[s.id].holders + 1)]) else p
  }

  predicate CanRelease(p: Pool, s: Slice)
    requires Shaped(p)
  {
    SliceOk(s) && p.frames[s.id].busy
  }

  /** One reference fewer; the last one frees the frame. */
  function Released(p: Pool, s: Slice): Pool
    requires Shaped(p)
  {
    if !CanRelease(p, s) then p
    else
      var f := p.frames[s.id];
      if f.holders == 1 then
        p.(frames := p.frames[s.id := Frame(f.payload, 0, false, 0, 0, 0)],
           occupied := if p.occupied > 0 then p.occupied - 1 else 0)
      else
        p.(frames := p.frames[s.id := f.(holders := f.holders - 1)])
  }

  function Contents(p: Pool, s: Slice): Option<seq<Byte>>
    requires Shaped(p)
  {
    if CanHold(p, s) then Some(p.frames[s.id].payload[s.off..s.off + s.len]) else None
  }

  // ---- what the functions mean ----

  lemma ScanCovers(next: nat, id: nat)
    requires next < FRAMES && id < FRAMES
    ensures exists k | 0 <= k < FRAMES :: At(next, k) == id
  {
    assert At(next, if id >= next then id - next else id + FRAMES - next) == id;
  }

  /** A frame is handed out exactly when the data fits and some frame is free: the scan misses none. */
  lemma {:induction false} MakeFindsAnyFree(p: Pool, data: seq<Byte>)
    requires Shaped(p)
    ensures CanMake(p, data) <==> |data| <= CAPACITY && exists id | 0 <= id < FRAMES :: !p.frames[id].busy
  {
    var step := Scan(p.frames, p.next, 0);
    if id :| 0 <= id < FRAMES && !p.frames[id].busy {
      ScanCovers(p.next, id);
      var k :| 0 <= k < FRAMES && At(p.next, k) == id;
      assert !(k < step);
    }
  }

  lemma ClaimStores(p: Pool, id: nat, data: seq<Byte>, timestamp: nat)
    requires Shaped(p) && id < FRAMES && |data| <= CAPACITY
    ensures Shaped(Claimed(p, id, data, timestamp))
    ensures Contents(Claimed(p, id, data, timestamp), Slice(id, 0, |data|)) == Some(data)
  {
    var f := Filled(p.frames[id], data, p.numberNext, timestamp);
    assert f.payload[0..0 + |data|] == data;
  }

  /** The slice returned reads back as the data, from a frame that was free; no other frame is touched. */
  lemma {:induction false} MakeStores(p: Pool, data: seq<Byte>, timestamp: nat)
    requires Shaped(p) && CanMake(p, data)
    ensures var q, id := Made(p, data, timestamp), NextFree(p);
            && Shaped(q) && Contents(q, Slice(id, 0, |data|)) == Some(data)
            && !p.frames[id].busy && q.frames[id].busy && q.frames[id].holders == 1
            && forall i | 0 <= i < FRAMES && i != id :: q.frames[i] == p.frames[i]
  {
    ClaimStores(p, NextFree(p), data, timestamp);
  }

  /** Exactly the slices inside the data can be read, each as its part of the data; number, time and cursor move on. */
  lemma {:induction false} SlicesOfMade(p: Pool, data: seq<Byte>, timestamp: nat, off: nat, len: nat)
    requires Shaped(p) && CanMake(p, data)
    ensures var q, id := Made(p, data, timestamp), NextFree(p);
            && Shaped(q)
            && Contents(q, Slice(id, off, len)) == (if off + len <= |data| then Some(data[off..off + len]) else None)
            && q.frames[id].number == p.numberNext && q.frames[id].timestamp == timestamp
            && q.numberNext == p.numberNext + 1 && q.allocs == p.allocs + 1 && q.empties == p.empties
            && q.next == (id + 1) % FRAMES
  {
    ClaimStores(p, NextFree(p), data, timestamp);
    var f := Made(p, data, timestamp).frames[NextFree(p)];
    assert f.payload[..|data|] == data;
    if off + len <= |data| {
      assert f.payload[off..off + len] == f.payload[..|data|][off..off + len];
    }
  }

  lemma {:induction false} ReleaseUndoesHold(p: Pool, s: Slice)
    requires Shaped(p) && (SliceOk(s) && p.frames[s.id].busy ==> p.frames[s.id].holders > 0)
    requires CanHold(p, s)
    ensures Shaped(Held(p, s)) && Released(Held(p, s), s) == p
  {
  }

  // ---- the object ----

  class FramePool {
    const frame: array<Frame>
    var next: nat
    var occupied: nat
    var occupiedMax: nat
    var numberNext: nat
    var allocCount: nat
    var emptyCount: nat

    ghost function Value(): Pool
      reads this, frame
    {
      Pool(frame[..], next, occupied, occupiedMax, numberNext, allocCount, emptyCount)
    }

    ghost predicate Valid()
      reads this, frame
    {
      Shaped(Value())
    }

    constructor ()
      ensures Valid() && Value() == Pool(seq(FRAMES, _ => ZERO_FRAME), 0, 0, 0, 0, 0, 0)
      ensures fresh(frame)
    {
      frame := new Frame[FRAMES](_ => ZERO_FRAME);
      next, occupied, occupiedMax, numberNext, allocCount, emptyCount := 0, 0, 0, 0, 0, 0;
      new;
      assert frame[..] == seq(FRAMES, _ => ZERO_FRAME);
    }

    method Make(data: seq<Byte>, timestamp: nat) returns (ok: bool, slice: Slice)
      requires Valid()
      modifies this, frame
      ensures Valid() && Value() == Made(old(Value()), data, timestamp)
      ensures ok <==> CanMake(old(Value()), data)
      ensures slice == if ok then Slice(NextFree(old(Value())), 0, |data|) else NO_SLICE
    {
      slice := NO_SLICE;
      if |data| > CAPACITY {
        return false, slice;
      }
      var step := 0;
      while step < FRAMES && frame[At(next, step)].busy
        invariant 0 <= step <= FRAMES
        invariant Scan(frame[..], next, 0) == Scan(frame[..], next, step)
      {
        step := step + 1;
      }
      if step < FRAMES {
        var id := At(next, step);
        Fill(id, data, timestamp);
        return true, Slice(id, 0, |data|);
      }
      emptyCount := emptyCount + 1;
      return false, slice;
    }

    /** The claimed frame is filled and the counters move on. */
    method Fill(id: nat, data: seq<Byte>, timestamp: nat)
      requires Valid() && id < FRAMES && |data| <= CAPACITY
      modifies this, frame
      ensures Valid() && Value() == Claimed(old(Value()), id, data, timestamp)
    {
      var f := frame[id].(busy := true);
      f := f.(payload := data + f.payload[|data|..], len := |data|);
      f := f.(holders := 1, number := numberNext, timestamp := timestamp);
      frame[id] := f;
      assert frame[..] == old(frame[..])[id := f];
      numberNext := numberNext + 1;
      next := At(id, 1);
      allocCount := allocCount + 1;
      if occupied < FRAMES {
        occupied := occupied + 1;
      }
      if occupied > occupiedMax {
        occupiedMax := occupied;
      }
    }

    method Hold(slice: Slice) returns (ok: bool)
      requires Valid()
      modifies frame
      ensures Valid() && Value() == Held(old(Value()), slice)
      ensures ok <==> CanHold(old(Value()), slice)
    {
      if !SliceOk(slice) {
        return false;
      }
      if !frame[slice.id].busy {
        return false;
      }
      if slice.off + slice.len > frame[slice.id].len {
        return false;
      }
      var f := frame[slice.id].(holders := frame[slice.id].holders + 1);
      frame[slice.id] := f;
      assert frame[..] == old(frame[..])[slice.id := f];
      return true;
    }

    method Done(slice: Slice) returns (ok: bool)
      requires Valid()
      modifies this, frame
      ensures Valid() && Value() == Released(old(Value()), slice)
      ensures ok <==> CanRelease(old(Value()), slice)
    {
      if !SliceOk(slice) {
        return false;
      }
      if !frame[slice.id].busy {
        return false;
      }
      var f := frame[slice.id].(holders := frame[slice.id].holders - 1);
      if f.holders == 0 {
        f := f.(len := 0, number := 0, timestamp := 0);
        f := f.(busy := false);
        if occupied > 0 {
          occupied := occupied - 1;
        }
      }
      frame[slice.id] := f;
      assert frame[..] == old(frame[..])[slice.id := f];
      return true;
    }

    method Get(slice: Slice) returns (bytes: Option<seq<Byte>>)
      requires Valid()
      ensures bytes == Contents(Value(), slice)
    {
      if !SliceOk(slice) {
        return None;
      }
      if !frame[slice.id].busy {
        return None;
      }
      if slice.off + slice.len > frame[slice.id].len {
        return None;
      }
      return Some(frame[slice.id].payload[slice.off..slice.off + slice.len]);
    }
  }
}
