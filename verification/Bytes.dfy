/** Bytes, sequences of bytes, and the few sequence facts shared by the MIDI modules. */
module Bytes {

  type Byte = b: int | 0 <= b < 0x100

  predicate IsData(b: Byte) {
    b < 0x80
  }

  /** System Real Time status bytes (MIDI 1.0 Detailed Specification, Data Format). */
  predicate IsRealtime(b: Byte) {
    b >= 0xF8
  }

  /** Data or System Real Time: the only bytes that may stand inside a message. */
  predicate IsInner(b: Byte) {
    IsData(b) || IsRealtime(b)
  }

  predicate AllData(bs: seq<Byte>) {
    forall i | 0 <= i < |bs| :: IsData(bs[i])
  }

  predicate AllInner(bs: seq<Byte>) {
    forall i | 0 <= i < |bs| :: IsInner(bs[i])
  }

  /** The data bytes of a byte string, in order. */
  function DataOf(bs: seq<Byte>): (r: seq<Byte>)
    ensures AllData(r)
    ensures |r| <= |bs|
  {
    if bs == [] then []
    else if IsData(bs[0]) then [bs[0]] + DataOf(bs[1..])
    else DataOf(bs[1..])
  }

  /** The System Real Time bytes of a byte string, in order. */
  function RealtimeOf(bs: seq<Byte>): (r: seq<Byte>)
    ensures forall i | 0 <= i < |r| :: IsRealtime(r[i])
  {
    if bs == [] then []
    else if IsRealtime(bs[0]) then [bs[0]] + RealtimeOf(bs[1..])
    else RealtimeOf(bs[1..])
  }

  lemma {:induction false} DataOfConcat(a: seq<Byte>, b: seq<Byte>)
    ensures DataOf(a + b) == DataOf(a) + DataOf(b)
  {
    if a == [] {
      assert a + b == b;
    } else {
      assert (a + b)[1..] == a[1..] + b;
      DataOfConcat(a[1..], b);
    }
  }

  lemma {:induction false} DataOfAllData(a: seq<Byte>)
    requires AllData(a)
    ensures DataOf(a) == a
  {
    if a != [] {
      DataOfAllData(a[1..]);
      assert a == [a[0]] + a[1..];
    }
  }

  lemma {:induction false} RealtimeOfConcat(a: seq<Byte>, b: seq<Byte>)
    ensures RealtimeOf(a + b) == RealtimeOf(a) + RealtimeOf(b)
  {
    if a == [] {
      assert a + b == b;
    } else {
      assert (a + b)[1..] == a[1..] + b;
      RealtimeOfConcat(a[1..], b);
    }
  }

  lemma {:induction false} RealtimeOfData(data: seq<Byte>)
    requires AllData(data)
    ensures RealtimeOf(data) == []
  {
    if data != [] {
      RealtimeOfData(data[1..]);
    }
  }

  lemma Associate<T>(a: seq<T>, b: seq<T>, c: seq<T>)
    ensures (a + b) + c == a + (b + c)
  {
  }

  /** Two stages that each put out what they held and took in, in order, do so together. */
  lemma JoinConserved<T>(held0: seq<T>, in1: seq<T>, out1: seq<T>, held1: seq<T>,
                         in2: seq<T>, out2: seq<T>, held2: seq<T>)
    requires out1 + held1 == held0 + in1
    requires out2 + held2 == held1 + in2
    ensures (out1 + out2) + held2 == held0 + (in1 + in2)
  {
    Associate(out1, out2, held2);
    Associate(out1, held1, in2);
    Associate(held0, in1, in2);
  }

  function Concat<T>(parts: seq<seq<T>>): seq<T> {
    if parts == [] then [] else parts[0] + Concat(parts[1..])
  }

  lemma {:induction false} ConcatAppend<T>(a: seq<seq<T>>, b: seq<seq<T>>)
    ensures Concat(a + b) == Concat(a) + Concat(b)
  {
    if a == [] {
      assert a + b == b;
    } else {
      assert (a + b)[1..] == a[1..] + b;
      ConcatAppend(a[1..], b);
    }
  }

  lemma ConcatSnoc<T>(a: seq<seq<T>>, x: seq<T>)
    ensures Concat(a + [x]) == Concat(a) + x
  {
    ConcatAppend(a, [x]);
    assert Concat([x]) == x + Concat([x][1..]) == x;
  }
}
