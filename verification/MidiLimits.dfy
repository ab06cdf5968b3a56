/**
  Where the decoder is narrower than the BLE-MIDI packet format and than the
  project's own fragmentation notes: exactly which packed packets it understands.
 */
module MidiLimits {
  import opened Bytes
  import opened BleMidiPacket
  import opened MidiAutomaton
  import opened MidiStream
  import opened MidiTransport

  predicate IsChannel(status: Byte) {
    0x80 <= status < 0xF0
  }

  ghost predicate DataFor(status: Byte, data: seq<Byte>) {
    IsChannel(status) && |data| == FamilyLength(status) && AllData(data)
  }

  /** The first message of the packet, then one more byte `x` where the decoder wants a timestamp. */
  lemma AfterFirstMessage(last: Byte, t: Timestamp, status: Byte, data: seq<Byte>, rest: seq<Byte>)
    requires LastOk(last) && DataFor(status, data)
    ensures var c := Run(Config(Quiet(status), AwaitTimestamp, [status] + data), rest);
            Decode(Quiet(last), PacketOf(t, [status] + data + rest))
              == Decoded(c.state, c.out, if c.mode == Aborted then Resync else Ok)
  {
    var it := ShortItem(status, data, false);
    DataOfAllData(data);
    RealtimeOfData(data);
    ItemWhole(it, last);
    DecodePacketOf(Quiet(last), t, [status] + data + rest);
    RunConcat(Config(Quiet(last), AwaitFirst, []), [status] + data, rest);
    assert [] + [status] + data == [status] + data;
  }

  /** Data bytes behind a timestamp, under running status `status`. */
  lemma RunningMessage(status: Byte, data: seq<Byte>, out: seq<Byte>)
    requires DataFor(status, data)
    ensures Run(Config(Quiet(status), AwaitFirst, out), data)
         == Config(Quiet(status), AwaitTimestamp, out + [status] + data)
  {
    var it := ShortItem(status, data, true);
    DataOfAllData(data);
    RealtimeOfData(data);
    ItemWhole(it, status);
    RunOut(Config(Quiet(status), AwaitFirst, []), data, out);
    assert out + [] == out;
    assert out + ([] + [status] + data) == out + [status] + data;
  }

  /** A byte in front of the data of a complete second message is understood exactly when it is no data byte. */
  lemma ByteBeforeSecondMessage(last: Byte, t: Timestamp, status: Byte, d1: seq<Byte>, x: Byte, d2: seq<Byte>)
    requires LastOk(last) && DataFor(status, d1) && DataFor(status, d2)
    ensures var d := Decode(Quiet(last), PacketOf(t, [status] + d1 + ([x] + d2)));
            && (d.result == Ok && d.out == [status] + d1 + [status] + d2 <==> !IsData(x))
            && (IsData(x) ==> d == Decoded(IDLE, [status] + d1, Resync))
  {
    AfterFirstMessage(last, t, status, d1, [x] + d2);
    var c := Config(Quiet(status), AwaitTimestamp, [status] + d1);
    assert ([x] + d2)[1..] == d2;
    assert Run(c, [x] + d2) == Run(Step(c, x), d2);
    if IsData(x) {
      RunAborted(Step(c, x), d2);
    } else {
      RunningMessage(status, d2, [status] + d1);
    }
  }

  // ---- running status that begins inside a packet ----

  /** Without a timestamp the decoder resets at the first data byte of the second message. */
  lemma SecondWithoutTimestamp(last: Byte, t: Timestamp, status: Byte, d1: seq<Byte>, a: seq<Byte>)
    requires LastOk(last) && DataFor(status, d1) && a != [] && IsData(a[0])
    ensures Decode(Quiet(last), PacketOf(t, [status] + d1 + a)) == Decoded(IDLE, [status] + d1, Resync)
  {
    AfterFirstMessage(last, t, status, d1, a);
    var c := Config(Quiet(status), AwaitTimestamp, [status] + d1);
    RunAborted(Step(c, a[0]), a[1..]);
  }

  /** Behind a timestamp `x` the rest of the packet is decoded as in a packet of its own. */
  lemma SecondBehindTimestamp(last: Byte, t: Timestamp, status: Byte, d1: seq<Byte>, x: Byte, a: seq<Byte>)
    requires LastOk(last) && DataFor(status, d1) && !IsData(x) && a != []
    ensures var d := Decode(Quiet(status), PacketOf(t, a));
            Decode(Quiet(last), PacketOf(t, [status] + d1 + ([x] + a)))
              == Decoded(d.state, [status] + d1 + d.out, d.result)
  {
    AfterFirstMessage(last, t, status, d1, [x] + a);
    var c := Config(Quiet(status), AwaitTimestamp, [status] + d1);
    assert ([x] + a)[1..] == a;
    assert Run(c, [x] + a) == Run(Step(c, x), a);
    RunOut(Config(Quiet(status), AwaitFirst, []), a, [status] + d1);
    assert [status] + d1 + [] == [status] + d1;
    DecodePacketOf(Quiet(status), t, a);
  }

  /**
    A packet holds a complete channel message and the beginning `a` of a second one
    under running status, whose other bytes follow in any packets; real time bytes
    may stand inside it. Both are understood if and only if a timestamp byte stands
    in front of the second. Without one the first packet is cut off there and the
    decoder reset.
   */
  lemma RunningStatusNeedsTimestamp(last: Byte, t: Timestamp, status: Byte, d1: seq<Byte>, lead: seq<Byte>,
                                    tail: seq<Byte>, a: seq<Byte>, chunks: seq<Chunk>)
    requires LastOk(last) && DataFor(status, d1) && Sendable(ShortItem(status, tail, true), status)
    requires a != [] && NonEmptyChunks(chunks) && a + Joined(chunks) == tail
    requires |lead| <= 1 && (lead != [] ==> !IsData(lead[0]))
    ensures var first := PacketOf(t, [status] + d1 + (lead + a));
            var r := DecodeAll(Quiet(last), [first] + Packets(chunks));
            var both := [status] + d1 + Expanded(ShortItem(status, tail, true));
            && (AllResultsOk(r.results) && r.out == both <==> lead != [])
            && (lead == [] ==> Decode(Quiet(last), first) == Decoded(IDLE, [status] + d1, Resync))
  {
    var first := PacketOf(t, [status] + d1 + (lead + a));
    DecodeFirst(Quiet(last), first, Packets(chunks));
    if lead == [] {
      assert a[0] == tail[0];
      assert lead + a == a;
      SecondWithoutTimestamp(last, t, status, d1, a);
      assert DecodeAll(Quiet(last), [first] + Packets(chunks)).results[0] == Resync;
    } else {
      assert lead == [lead[0]];
      SecondBehindTimestamp(last, t, status, d1, lead[0], a);
      WholeSecond(status, t, tail, a, chunks);
      var d := Decode(Quiet(status), PacketOf(t, a));
      Associate([status] + d1, d.out, DecodeAll(d.state, Packets(chunks)).out);
    }
  }

  lemma WholeSecond(status: Byte, t: Timestamp, tail: seq<Byte>, a: seq<Byte>, chunks: seq<Chunk>)
    requires LastOk(status) && Sendable(ShortItem(status, tail, true), status)
    requires a != [] && NonEmptyChunks(chunks) && a + Joined(chunks) == tail
    ensures var d := Decode(Quiet(status), PacketOf(t, a)); var r := DecodeAll(d.state, Packets(chunks));
            && d.result == Ok && AllResultsOk(r.results)
            && d.out + r.out == Expanded(ShortItem(status, tail, true))
  {
    var all := [Chunk(t, a)] + chunks;
    assert all[1..] == chunks;
    SegmentationIndependence(ShortItem(status, tail, true), status, all);
    DecodeFirst(Quiet(status), PacketOf(t, a), Packets(chunks));
    var results := DecodeAll(Quiet(status), Packets(all)).results;
    assert results[0] == Ok;
    assert results[1..] == DecodeAll(Decode(Quiet(status), PacketOf(t, a)).state, Packets(chunks)).results;
  }

  /** An idle decoder rejects a data byte. */
  lemma LoneDataByte(t: Timestamp, b: Byte)
    requires IsData(b)
    ensures DecodeAll(IDLE, [PacketOf(t, [b])]) == Received(IDLE, [], [Resync])
  {
    var q := PacketOf(t, [b]);
    DecodePacketOf(IDLE, t, [b]);
    DecodeFirst(IDLE, q, []);
    assert [q] == [q] + [];
    assert Run(Config(IDLE, AwaitFirst, []), [b]) == Run(Config(IDLE, Aborted, []), [b][1..]);
  }

  /** 90 3C 7F 40 in one packet and 7F in the next: an instance without a timestamp. */
  lemma DocumentedFirstPacket()
    ensures Decode(IDLE, PacketOf(0, [0x90, 0x3C, 0x7F, 0x40])) == Decoded(IDLE, [0x90, 0x3C, 0x7F], Resync)
  {
    var chunks := [Chunk(1, [0x7F])];
    var d1: seq<Byte>, a: seq<Byte>, tail: seq<Byte> := [0x3C, 0x7F], [0x40], [0x40, 0x7F];
    assert chunks[1..] == [] && Joined(chunks) == [0x7F];
    DataOfAllData(tail);
    RunningStatusNeedsTimestamp(0, 0, 0x90, d1, [], tail, a, chunks);
    assert [0x90] + d1 + ([] + a) == [0x90, 0x3C, 0x7F, 0x40];
    assert [0x90] + d1 == [0x90, 0x3C, 0x7F];
  }

  /** The example of the fragmentation notes yields one message and two resyncs. */
  lemma DocumentedRunningStatusExampleFails()
    ensures var r := DecodeAll(IDLE, [PacketOf(0, [0x90, 0x3C, 0x7F, 0x40]), PacketOf(1, [0x7F])]);
            r.out == [0x90, 0x3C, 0x7F] && r.results == [Resync, Resync]
  {
    var p, q := PacketOf(0, [0x90, 0x3C, 0x7F, 0x40]), PacketOf(1, [0x7F]);
    DocumentedFirstPacket();
    LoneDataByte(1, 0x7F);
    DecodeFirst(IDLE, p, [q]);
    assert [p, q] == [p] + [q];
  }

  /**
    Two channel messages behind one timestamp: the decoder takes the second
    status for a timestamp, so it understands them exactly when the statuses are
    equal. A note-off behind a note-on comes out as another note-on.
   */
  lemma PackedPairExactlyWhenSameStatus(last: Byte, t: Timestamp, s1: Byte, d1: seq<Byte>, s2: Byte, d2: seq<Byte>)
    requires LastOk(last) && DataFor(s1, d1) && DataFor(s2, d2)
    ensures var d := Decode(Quiet(last), PacketOf(t, [s1] + d1 + ([s2] + d2)));
            d.result == Ok && d.out == [s1] + d1 + [s2] + d2 <==> s1 == s2
  {
    var d := Decode(Quiet(last), PacketOf(t, [s1] + d1 + ([s2] + d2)));
    if |d1| == |d2| {
      ByteBeforeSecondMessage(last, t, s1, d1, s2, d2);
      assert ([s1] + d1 + [s1] + d2)[1 + |d1|] == s1;
      assert ([s1] + d1 + [s2] + d2)[1 + |d1|] == s2;
    } else {
      AfterFirstMessage(last, t, s1, d1, [s2] + d2);
      var c := Config(Quiet(s1), AwaitTimestamp, [s1] + d1);
      assert ([s2] + d2)[1..] == d2;
      var f := Step(c, s2);
      assert Run(c, [s2] + d2) == Run(f, d2);
      if |d1| == 2 {
        assert d2 == [d2[0]];
        assert Run(f, d2) == Run(Step(f, d2[0]), d2[1..]) == Step(f, d2[0]);
        assert d.out == [s1] + d1;
      } else {
        assert d2 == [d2[0]] + [d2[1]];
        RunningMessage(s1, [d2[0]], [s1] + d1);
        RunSnoc(f, [d2[0]], d2[1]);
        assert d.result == Resync;
      }
    }
  }

  /**
    The packet format puts a timestamp byte before the F7 that ends a SysEx. The
    decoder understands such a packet exactly when that timestamp is itself F7.
   */
  lemma TimestampBeforeEndOfSysEx(last: Byte, t: Timestamp, body: seq<Byte>, x: Byte)
    requires AllData(body) && !IsData(x)
    ensures var d := Decode(Quiet(last), PacketOf(t, [0xF0] + body + [x, 0xF7]));
            d.result == Ok && d.out == [0xF0] + body + [0xF7] <==> x == 0xF7
  {
    var c := Config(Quiet(last), AwaitFirst, []);
    var w := [0xF0] + body;
    assert w[1..] == body;
    SysExRun(Step(c, 0xF0), body);
    DecodePacketOf(Quiet(last), t, w + [x, 0xF7]);
    RunConcat(c, w, [x, 0xF7]);
    var m := Run(c, w);
    assert m == Config(State(0, 0, [], 0, true), InSysEx, w);
    assert [x, 0xF7] == [x] + [0xF7];
    RunSnoc(m, [x], 0xF7);
    assert Run(m, [x]) == Run(Step(m, x), [x][1..]) == Step(m, x);
    if IsRealtime(x) {
      assert |Decode(Quiet(last), PacketOf(t, w + [x, 0xF7])).out| == |w| + 2;
    }
  }

  // ---- several messages, each behind its own timestamp ----

  /** The items of one packet, each with a timestamp byte in front. */
  function Stamped(items: seq<Item>, stamps: seq<Byte>): seq<Byte>
    requires |items| == |stamps|
  {
    if items == [] then [] else [stamps[0]] + Wire(items[0]) + Stamped(items[1..], stamps[1..])
  }

  lemma StampedItem(it: Item, last: Byte, stamp: Byte, out: seq<Byte>)
    requires Sendable(it, last) && LastOk(last) && !IsData(stamp)
    ensures Run(Config(Quiet(last), AwaitTimestamp, out), [stamp] + Wire(it))
         == Config(Quiet(StatusAfter(it, last)), AwaitTimestamp, out + Expanded(it))
  {
    ItemWhole(it, last);
    RunOut(Config(Quiet(last), AwaitFirst, []), Wire(it), out);
    assert out + [] == out;
    assert ([stamp] + Wire(it))[1..] == Wire(it);
  }

  lemma {:induction false} StampedRun(items: seq<Item>, stamps: seq<Byte>, last: Byte, out: seq<Byte>)
    requires |items| == |stamps| && AllSendable(items, last) && LastOk(last)
    requires forall i | 0 <= i < |stamps| :: !IsData(stamps[i])
    ensures Run(Config(Quiet(last), AwaitTimestamp, out), Stamped(items, stamps))
         == Config(Quiet(StatusAfterAll(items, last)), AwaitTimestamp, out + ExpandedAll(items))
    decreases |items|
  {
    if items == [] {
      assert out + [] == out;
    } else {
      var now, later := [stamps[0]] + Wire(items[0]), Stamped(items[1..], stamps[1..]);
      ItemWhole(items[0], last);
      StampedItem(items[0], last, stamps[0], out);
      RunConcat(Config(Quiet(last), AwaitTimestamp, out), now, later);
      StampedRun(items[1..], stamps[1..], StatusAfter(items[0], last), out + Expanded(items[0]));
      Associate(out, Expanded(items[0]), ExpandedAll(items[1..]));
    }
  }

  /**
    A packet of any messages, each behind its own timestamp byte, with statuses
    dropped where the sender may, is decoded to the fully expanded list.
   */
  lemma StampedPacket(header: Byte, items: seq<Item>, stamps: seq<Byte>, last: Byte)
    requires !IsData(header) && items != [] && |items| == |stamps| && AllSendable(items, last) && LastOk(last)
    requires forall i | 0 <= i < |stamps| :: !IsData(stamps[i])
    ensures Decode(Quiet(last), [header] + Stamped(items, stamps))
         == Decoded(Quiet(StatusAfterAll(items, last)), ExpandedAll(items), Ok)
  {
    ItemWhole(items[0], last);
    StampedRun(items, stamps, last, []);
    var packet := [header] + Stamped(items, stamps);
    assert packet[1..] == Stamped(items, stamps);
    assert [] + ExpandedAll(items) == ExpandedAll(items);
  }

  // ---- running status after a lost item ----

  /**
    A sender drops the status `sent`, but the receiver remembers `known`, the item
    that changed it having been lost: the receiver understands the item if and only
    if the two are the same.
   */
  lemma LostStatusChange(known: Byte, t: Timestamp, sent: Byte, data: seq<Byte>)
    requires IsChannel(known) && DataFor(sent, data)
    ensures var d := Decode(Quiet(known), PacketOf(t, data));
            d.result == Ok && d.out == [sent] + data <==> known == sent
  {
    DecodePacketOf(Quiet(known), t, data);
    var c := Config(Quiet(known), AwaitFirst, []);
    StatusDataLenIsFamilyLength(known);
    if FamilyLength(known) == |data| {
      RunningMessage(known, data, []);
      assert [] + [known] + data == [known] + data;
      assert ([known] + data)[0] == known && ([sent] + data)[0] == sent;
    } else if |data| == 1 {
      assert data == [data[0]] && data[1..] == [];
      assert Run(c, data) == Step(c, data[0]);
      assert Run(c, data).out == [];
    } else {
      assert data == [data[0]] + [data[1]];
      RunningMessage(known, [data[0]], []);
      RunSnoc(c, [data[0]], data[1]);
    }
  }
}
