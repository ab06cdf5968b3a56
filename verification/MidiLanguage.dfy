/**
  The packets that the decoder accepts between messages, as a grammar that knows
  nothing of its states: messages each behind a timestamp, the last one possibly
  unfinished. What it emits for them, and that going on in another packet is the
  same as going on in this one.
 */
module MidiLanguage {
  import opened Bytes
  import opened BleMidiPacket
  import opened MidiAutomaton
  import opened MidiStream
  import opened MidiTransport
  import opened MidiLimits

  /** The beginning of a message, short of its end. */
  ghost predicate Begun(part: seq<Byte>, last: Byte) {
    exists it :: Sendable(it, last) && part < Wire(it)
  }

  /** Messages with their timestamps, then possibly a timestamp and the beginning of one more message. */
  datatype Reading = Reading(items: seq<Item>, stamps: seq<Byte>, tail: seq<Byte>)

  ghost predicate Reads(bytes: seq<Byte>, last: Byte, r: Reading) {
    && |r.items| == |r.stamps| && AllSendable(r.items, last)
    && (forall i | 0 <= i < |r.stamps| :: !IsData(r.stamps[i]))
    && (r.tail != [] ==> !IsData(r.tail[0]) && Begun(r.tail[1..], StatusAfterAll(r.items, last)))
    && bytes == Stamped(r.items, r.stamps) + r.tail
  }

  /** An unfinished SysEx is passed on as it comes; of a short message only its real time bytes. */
  function PartOut(part: seq<Byte>): seq<Byte> {
    if part != [] && part[0] == 0xF0 then part else RealtimeOf(part)
  }

  function ReadOut(r: Reading): seq<Byte> {
    ExpandedAll(r.items) + if r.tail == [] then [] else PartOut(r.tail[1..])
  }

  // ---- what the grammar allows is accepted ----

  lemma StatusIsNoRealtime(status: Byte, tail: seq<Byte>)
    requires FamilyLength(status) > 0
    ensures RealtimeOf([status] + tail) == RealtimeOf(tail) && status != 0xF0
  {
    assert ([status] + tail)[1..] == tail;
  }

  lemma ShortPart(it: Item, last: Byte, part: seq<Byte>)
    requires it.ShortItem? && Sendable(it, last) && LastOk(last) && [] < part < Wire(it)
    ensures var c := Run(Config(Quiet(last), AwaitFirst, []), part); InProgress(c) && c.out == PartOut(part)
  {
    var n := |part|;
    if it.dropped {
      assert part == it.tail[..n];
      RunningPrefix(it.status, it.tail, n);
    } else {
      assert part == [it.status] + it.tail[..n - 1];
      ShortPrefix(last, it.status, it.tail, n - 1);
      StatusIsNoRealtime(it.status, it.tail[..n - 1]);
    }
    ItemWhole(it, last);
    assert part == Wire(it)[..n];
  }

  lemma SysExPart(body: seq<Byte>, last: Byte, part: seq<Byte>)
    requires AllInner(body) && [] < part < Wire(SysExItem(body))
    ensures var c := Run(Config(Quiet(last), AwaitFirst, []), part); InProgress(c) && c.out == PartOut(part)
  {
    var n := |part| - 1;
    assert part == [0xF0] + body[..n];
    assert part[1..] == body[..n];
    SysExRun(Step(Config(Quiet(last), AwaitFirst, []), 0xF0), body[..n]);
  }

  lemma BegunRun(part: seq<Byte>, last: Byte)
    requires Begun(part, last) && LastOk(last)
    ensures var c := Run(Config(Quiet(last), AwaitFirst, []), part);
            c.mode != Aborted && c.out == PartOut(part) && (part != [] ==> InProgress(c))
  {
    if part != [] {
      var it :| Sendable(it, last) && part < Wire(it);
      if it.ShortItem? {
        ShortPart(it, last, part);
      } else if it.SysExItem? {
        SysExPart(it.body, last, part);
      }
    }
  }

  lemma {:induction false} LastStaysOk(items: seq<Item>, last: Byte)
    requires AllSendable(items, last) && LastOk(last)
    ensures LastOk(StatusAfterAll(items, last))
    decreases |items|
  {
    if items != [] {
      ItemWhole(items[0], last);
      LastStaysOk(items[1..], StatusAfter(items[0], last));
    }
  }

  lemma {:induction false} ReadingIsAccepted(bytes: seq<Byte>, last: Byte, r: Reading)
    requires Reads(bytes, last, r) && LastOk(last)
    ensures var c := Run(Config(Quiet(last), AwaitTimestamp, []), bytes);
            && c.mode != Aborted && c.out == ReadOut(r)
            && (|r.tail| > 1 ==> InProgress(c))
  {
    var l := StatusAfterAll(r.items, last);
    StampedRun(r.items, r.stamps, last, []);
    RunConcat(Config(Quiet(last), AwaitTimestamp, []), Stamped(r.items, r.stamps), r.tail);
    var out := [] + ExpandedAll(r.items);
    assert out == ExpandedAll(r.items);
    if r.tail == [] {
      assert out + [] == out;
    } else {
      LastStaysOk(r.items, last);
      BegunRun(r.tail[1..], l);
      RunOut(Config(Quiet(l), AwaitFirst, []), r.tail[1..], out);
      assert out + [] == out;
    }
  }

  // ---- what is accepted the grammar allows ----

  /** The beginning of a SysEx: only inner bytes, or `n` of them and then its end. */
  lemma {:induction false} SysExUnit(c: Config, t: seq<Byte>) returns (n: nat)
    requires c.mode == InSysEx && Run(c, t).mode != Aborted
    ensures n <= |t| && AllInner(t[..n]) && (n < |t| ==> t[n] == 0xF7)
    decreases |t|
  {
    if t == [] {
      n := 0;
    } else if IsInner(t[0]) {
      var m := SysExUnit(Step(c, t[0]), t[1..]);
      n := m + 1;
      assert t[..n] == [t[0]] + t[1..][..m];
    } else {
      n := 0;
      if t[0] != 0xF7 {
        RunAborted(Step(c, t[0]), t[1..]);
      }
    }
  }

  /** The rest of a short message: `n` bytes that complete it, or too few data bytes. */
  lemma {:induction false} ShortUnit(c: Config, t: seq<Byte>) returns (whole: bool, n: nat)
    requires c.mode == InPending && c.state.expected <= 2 && |c.state.data| < c.state.expected
    requires Run(c, t).mode != Aborted
    ensures var need := c.state.expected - |c.state.data|;
            if whole then 0 < n <= |t| && AllInner(t[..n]) && |DataOf(t[..n])| == need && IsData(t[n - 1])
            else AllInner(t) && |DataOf(t)| < need
    decreases |t|
  {
    whole, n := false, 0;
    if t != [] {
      if !IsInner(t[0]) {
        RunAborted(Step(c, t[0]), t[1..]);
        assert false;
      } else if IsData(t[0]) && |c.state.data| + 1 == c.state.expected {
        whole, n := true, 1;
        assert t[..1] == [t[0]] && [t[0]][1..] == [];
      } else {
        var m;
        whole, m := ShortUnit(Step(c, t[0]), t[1..]);
        n := m + 1;
        if whole {
          assert t[..n] == [t[0]] + t[1..][..m] && t[..n][1..] == t[1..][..m];
        }
      }
    }
  }

  /** Any beginning with too few data bytes can be completed. */
  lemma PadShort(status: Byte, t: seq<Byte>, dropped: bool, last: Byte) returns (it: Item)
    requires FamilyLength(status) > 0 && AllInner(t) && |DataOf(t)| < FamilyLength(status)
    requires dropped ==> status == last && status < 0xF0 && t != [] && IsData(t[0])
    ensures Sendable(it, last) && it.ShortItem? && it.status == status && it.dropped == dropped && t < it.tail
  {
    var pad: seq<Byte> := if FamilyLength(status) - |DataOf(t)| == 1 then [0] else [0, 0];
    assert AllData(pad);
    DataOfAllData(pad);
    DataOfConcat(t, pad);
    it := ShortItem(status, t + pad, dropped);
  }

  lemma WholeIsSendable(status: Byte, t: seq<Byte>, n: nat, dropped: bool, last: Byte)
    requires 0 < n <= |t| && AllInner(t[..n]) && IsData(t[n - 1])
    requires FamilyLength(status) > 0 && |DataOf(t[..n])| == FamilyLength(status)
    requires dropped ==> status == last && status < 0xF0 && IsData(t[0])
    ensures Sendable(ShortItem(status, t[..n], dropped), last)
  {
  }

  /** What stands behind a timestamp: a whole message first, or the beginning of one to the end. */
  ghost predicate Unit(bytes: seq<Byte>, last: Byte, whole: bool, it: Item) {
    if whole then Sendable(it, last) && Wire(it) <= bytes else Begun(bytes, last)
  }

  lemma SysExFirst(last: Byte, bytes: seq<Byte>) returns (whole: bool, it: Item)
    requires bytes != [] && bytes[0] == 0xF0 && Run(Config(Quiet(last), AwaitFirst, []), bytes).mode != Aborted
    ensures Unit(bytes, last, whole, it)
  {
    var t := bytes[1..];
    var n := SysExUnit(Step(Config(Quiet(last), AwaitFirst, []), 0xF0), t);
    it := SysExItem(t[..n]);
    whole := n < |t|;
    if whole {
      assert bytes[..n + 2] == Wire(it);
    } else {
      assert Sendable(it, last) && bytes == [0xF0] + t[..n];
    }
  }

  lemma StatusFirst(last: Byte, bytes: seq<Byte>) returns (whole: bool, it: Item)
    requires bytes != [] && FamilyLength(bytes[0]) > 0 && LastOk(last)
    requires Run(Config(Quiet(last), AwaitFirst, []), bytes).mode != Aborted
    ensures Unit(bytes, last, whole, it)
  {
    var status, t := bytes[0], bytes[1..];
    StatusDataLenIsFamilyLength(status);
    var n;
    whole, n := ShortUnit(Step(Config(Quiet(last), AwaitFirst, []), status), t);
    if whole {
      it := ShortItem(status, t[..n], false);
      WholeIsSendable(status, t, n, false, last);
      assert bytes[..n + 1] == Wire(it);
    } else {
      it := PadShort(status, t, false, last);
      assert bytes == [status] + t;
    }
  }

  lemma DataFirst(last: Byte, bytes: seq<Byte>) returns (whole: bool, it: Item)
    requires bytes != [] && IsData(bytes[0]) && LastOk(last)
    requires Run(Config(Quiet(last), AwaitFirst, []), bytes).mode != Aborted
    ensures Unit(bytes, last, whole, it)
  {
    var c := Config(Quiet(last), AwaitFirst, []);
    StatusDataLenIsFamilyLength(last);
    if FamilyLength(last) == 0 {
      RunAborted(Step(c, bytes[0]), bytes[1..]);
      assert false;
    }
    var p := Config(State(last, last, [], FamilyLength(last), false), InPending, []);
    assert Step(c, bytes[0]) == Step(p, bytes[0]);
    var n;
    whole, n := ShortUnit(p, bytes);
    if whole {
      it := ShortItem(last, bytes[..n], true);
      WholeIsSendable(last, bytes, n, true, last);
      assert bytes[..n] == Wire(it);
    } else {
      it := PadShort(last, bytes, true, last);
    }
  }

  lemma FirstUnit(last: Byte, bytes: seq<Byte>) returns (whole: bool, it: Item)
    requires LastOk(last) && Run(Config(Quiet(last), AwaitFirst, []), bytes).mode != Aborted
    ensures Unit(bytes, last, whole, it)
  {
    it := OneByte(0xF8);
    if bytes == [] {
      whole := false;
      assert Sendable(it, last) && bytes < Wire(it);
      return;
    }
    var b := bytes[0];
    if b == 0xF0 {
      whole, it := SysExFirst(last, bytes);
    } else if IsData(b) {
      whole, it := DataFirst(last, bytes);
    } else if FamilyLength(b) > 0 {
      whole, it := StatusFirst(last, bytes);
    } else {
      StatusDataLenIsFamilyLength(b);
      whole, it := true, OneByte(b);
      if !IsRealtime(b) && b != 0xF6 {
        RunAborted(Step(Config(Quiet(last), AwaitFirst, []), b), bytes[1..]);
        assert false;
      }
      assert bytes[..1] == Wire(it);
    }
  }

  /** The run behind a whole message goes on as from between messages. */
  lemma AfterUnit(last: Byte, stamp: Byte, it: Item, rest: seq<Byte>)
    requires LastOk(last) && Sendable(it, last) && !IsData(stamp)
    ensures Run(Config(Quiet(last), AwaitTimestamp, []), [stamp] + Wire(it) + rest).mode
         == Run(Config(Quiet(StatusAfter(it, last)), AwaitTimestamp, []), rest).mode
  {
    StampedItem(it, last, stamp, []);
    RunConcat(Config(Quiet(last), AwaitTimestamp, []), [stamp] + Wire(it), rest);
    var out := [] + Expanded(it);
    RunOut(Config(Quiet(StatusAfter(it, last)), AwaitTimestamp, []), rest, out);
    assert out + [] == out;
  }

  lemma BehindStamp(last: Byte, bytes: seq<Byte>)
    requires bytes != [] && Run(Config(Quiet(last), AwaitTimestamp, []), bytes).mode != Aborted
    ensures !IsData(bytes[0]) && Run(Config(Quiet(last), AwaitFirst, []), bytes[1..]).mode != Aborted
  {
    if IsData(bytes[0]) {
      RunAborted(Step(Config(Quiet(last), AwaitTimestamp, []), bytes[0]), bytes[1..]);
    }
  }

  /** A whole message in front comes off, and the rest is shorter. */
  lemma TakeUnit(last: Byte, bytes: seq<Byte>, it: Item) returns (rest: seq<Byte>)
    requires LastOk(last) && bytes != [] && !IsData(bytes[0]) && Sendable(it, last) && Wire(it) <= bytes[1..]
    requires Run(Config(Quiet(last), AwaitTimestamp, []), bytes).mode != Aborted
    ensures bytes == [bytes[0]] + Wire(it) + rest && LastOk(StatusAfter(it, last))
    ensures Run(Config(Quiet(StatusAfter(it, last)), AwaitTimestamp, []), rest).mode != Aborted
  {
    rest := bytes[1..][|Wire(it)|..];
    assert bytes == [bytes[0]] + Wire(it) + rest;
    AfterUnit(last, bytes[0], it, rest);
    ItemWhole(it, last);
  }

  lemma {:induction false} Read(last: Byte, bytes: seq<Byte>) returns (r: Reading)
    requires LastOk(last) && Run(Config(Quiet(last), AwaitTimestamp, []), bytes).mode != Aborted
    ensures Reads(bytes, last, r)
    decreases |bytes|
  {
    r := Reading([], [], bytes);
    assert Stamped([], []) + bytes == bytes;
    if bytes != [] {
      BehindStamp(last, bytes);
      var whole, it := FirstUnit(last, bytes[1..]);
      if whole {
        var rest := TakeUnit(last, bytes, it);
        var q := Read(StatusAfter(it, last), rest);
        r := Reading([it] + q.items, [bytes[0]] + q.stamps, q.tail);
        ReadsMore(last, bytes[0], it, rest, q);
      }
    }
  }

  lemma ReadsMore(last: Byte, stamp: Byte, it: Item, rest: seq<Byte>, q: Reading)
    requires Sendable(it, last) && !IsData(stamp) && Reads(rest, StatusAfter(it, last), q)
    ensures Reads([stamp] + Wire(it) + rest, last, Reading([it] + q.items, [stamp] + q.stamps, q.tail))
  {
    var r := Reading([it] + q.items, [stamp] + q.stamps, q.tail);
    assert r.items[1..] == q.items && r.stamps[1..] == q.stamps;
    Associate([stamp] + Wire(it), Stamped(q.items, q.stamps), q.tail);
  }

  // ---- the theorems ----

  /**
    Between messages the decoder accepts a packet if and only if it can be read as
    messages, each behind a timestamp and with statuses dropped where MIDI allows,
    and possibly the beginning of one more.
   */
  lemma {:induction false} AcceptedExactly(last: Byte, packet: seq<Byte>)
    requires LastOk(last) && |packet| >= 3 && !IsData(packet[0])
    ensures Decode(Quiet(last), packet).result == Ok <==> exists r :: Reads(packet[1..], last, r)
  {
    if Decode(Quiet(last), packet).result == Ok {
      var r := Read(last, packet[1..]);
    } else if r :| Reads(packet[1..], last, r) {
      ReadingIsAccepted(packet[1..], last, r);
    }
  }

  /** However it is read, the output is the expanded messages and what is passed on of the last one. */
  lemma {:induction false} ReadingIsTheOutput(last: Byte, packet: seq<Byte>, r: Reading)
    requires LastOk(last) && |packet| >= 3 && !IsData(packet[0]) && Reads(packet[1..], last, r)
    ensures Decode(Quiet(last), packet).out == ReadOut(r)
  {
    ReadingIsAccepted(packet[1..], last, r);
  }

  lemma DecodeIs(s: State, header: Byte, bytes: seq<Byte>)
    requires !IsData(header) && |bytes| >= 2
    ensures var c := Run(Config(s, AwaitTimestamp, []), bytes);
            Decode(s, [header] + bytes) == Decoded(c.state, c.out, if c.mode == Aborted then Resync else Ok)
  {
    assert ([header] + bytes)[1..] == bytes;
  }

  lemma {:induction false} CutInside(s: State, header: Byte, bytes: seq<Byte>, t: Timestamp, more: seq<Byte>)
    requires !IsData(header) && |bytes| >= 2 && InProgress(Run(Config(s, AwaitTimestamp, []), bytes)) && more != []
    ensures var first := Decode(s, [header] + bytes);
            var second := Decode(first.state, PacketOf(t, more));
            && first.result == Ok
            && Decode(s, [header] + bytes + more) == Decoded(second.state, first.out + second.out, second.result)
  {
    var c := Config(s, AwaitTimestamp, []);
    DecodeIs(s, header, bytes);
    assert [header] + bytes + more == [header] + (bytes + more);
    DecodeIs(s, header, bytes + more);
    RunConcat(c, bytes, more);
    DecodePacketOf(Run(c, bytes).state, t, more);
    RestOfMessagePart(Run(c, bytes), more);
  }

  /**
    A packet that ends inside a message may be cut there: two packets, the second
    with any timestamp, leave the same state, give the same output and are accepted
    or rejected as the uncut one is.
   */
  lemma {:induction false} GoingOnInAnotherPacket(last: Byte, header: Byte, bytes: seq<Byte>, r: Reading,
                                                  t: Timestamp, more: seq<Byte>)
    requires LastOk(last) && !IsData(header) && Reads(bytes, last, r) && |r.tail| > 1 && more != []
    ensures var first := Decode(Quiet(last), [header] + bytes);
            var second := Decode(first.state, PacketOf(t, more));
            && first.result == Ok
            && Decode(Quiet(last), [header] + bytes + more)
               == Decoded(second.state, first.out + second.out, second.result)
  {
    ReadingIsAccepted(bytes, last, r);
    assert |bytes| >= |r.tail|;
    CutInside(Quiet(last), header, bytes, t, more);
  }
}
