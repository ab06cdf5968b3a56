/**
  What every stream of packets, well formed or not, makes the decoder emit:
  complete MIDI messages and at most one unfinished System Exclusive, with no
  data byte lost, repeated or reordered.
 */
module MidiStream {
  import opened Bytes
  import opened MidiAutomaton

  // ---- the message grammar of the MIDI 1.0 Detailed Specification, Data Format ----

  datatype Message =
    | Single(b: Byte)                          // system real time or tune request
    | Short(status: Byte, data: seq<Byte>)     // channel or system common message with data
    | SysEx(body: seq<Byte>)                   // F0, body, F7; real time bytes may stand in the body

  /** Data bytes that belong to a status, by message family. */
  function FamilyLength(status: Byte): nat {
    var family := status / 16;
    if family in {0x8, 0x9, 0xA, 0xB, 0xE} || status == 0xF2 then 2
    else if family in {0xC, 0xD} || status in {0xF1, 0xF3} then 1
    else 0
  }

  ghost predicate Complete(m: Message) {
    match m
    case Single(b) => IsRealtime(b) || b == 0xF6
    case Short(status, data) => |data| > 0 && |data| == FamilyLength(status) && AllData(data)
    case SysEx(body) => AllInner(body)
  }

  function Encode(m: Message): seq<Byte> {
    match m
    case Single(b) => [b]
    case Short(status, data) => [status] + data
    case SysEx(body) => [0xF0] + body + [0xF7]
  }

  function EncodeAll(ms: seq<Message>): seq<Byte> {
    if ms == [] then [] else Encode(ms[0]) + EncodeAll(ms[1..])
  }

  /** An unfinished System Exclusive: F0 and then only bytes that may stand inside it. */
  predicate Unfinished(tail: seq<Byte>) {
    |tail| > 0 && tail[0] == 0xF0 && AllInner(tail[1..])
  }

  ghost predicate AllComplete(ms: seq<Message>) {
    forall i | 0 <= i < |ms| :: Complete(ms[i])
  }

  /** `out` is complete messages `ms`, and then an unfinished SysEx exactly when `open`. */
  ghost predicate Parses(out: seq<Byte>, ms: seq<Message>, tail: seq<Byte>, open: bool) {
    && AllComplete(ms)
    && out == EncodeAll(ms) + tail
    && (if open then Unfinished(tail) else tail == [])
  }

  ghost predicate WellFormed(out: seq<Byte>, open: bool) {
    exists ms, tail :: Parses(out, ms, tail, open)
  }

  lemma StatusDataLenIsFamilyLength(status: Byte)
    ensures StatusDataLen(status) > 0 <==> FamilyLength(status) > 0
    ensures StatusDataLen(status) > 0 ==> StatusDataLen(status) == FamilyLength(status)
    ensures StatusDataLen(status) == 0 <==> IsRealtime(status) || status == 0xF6 || status == 0xF7
  {
  }

  lemma {:induction false} EncodeAllSnoc(ms: seq<Message>, m: Message)
    ensures EncodeAll(ms + [m]) == EncodeAll(ms) + Encode(m)
  {
    if ms == [] {
      assert [] + [m] == [m];
      assert EncodeAll([m]) == Encode(m) + EncodeAll([m][1..]) == Encode(m);
    } else {
      assert (ms + [m])[1..] == ms[1..] + [m];
      EncodeAllSnoc(ms[1..], m);
      assert Encode(ms[0]) + (EncodeAll(ms[1..]) + Encode(m)) == Encode(ms[0]) + EncodeAll(ms[1..]) + Encode(m);
    }
  }

  lemma CompleteSnoc(ms: seq<Message>, m: Message)
    requires AllComplete(ms) && Complete(m)
    ensures AllComplete(ms + [m])
  {
  }

  lemma WholeParses(ms: seq<Message>)
    requires AllComplete(ms)
    ensures Parses(EncodeAll(ms), ms, [], false)
  {
    assert EncodeAll(ms) + [] == EncodeAll(ms);
  }

  lemma AddMessage(out: seq<Byte>, m: Message)
    requires WellFormed(out, false) && Complete(m)
    ensures WellFormed(out + Encode(m), false)
  {
    var ms, tail :| Parses(out, ms, tail, false);
    assert out == EncodeAll(ms);
    EncodeAllSnoc(ms, m);
    CompleteSnoc(ms, m);
    WholeParses(ms + [m]);
  }

  lemma OpenSysEx(out: seq<Byte>)
    requires WellFormed(out, false)
    ensures WellFormed(out + [0xF0], true)
  {
    var ms, tail :| Parses(out, ms, tail, false);
    assert Parses(out + [0xF0], ms, [0xF0], true);
  }

  lemma ExtendSysEx(out: seq<Byte>, b: Byte)
    requires WellFormed(out, true) && IsInner(b)
    ensures WellFormed(out + [b], true)
  {
    var ms, tail :| Parses(out, ms, tail, true);
    assert (tail + [b])[1..] == tail[1..] + [b];
    assert Parses(out + [b], ms, tail + [b], true);
  }

  lemma CloseSysEx(out: seq<Byte>)
    requires WellFormed(out, true)
    ensures WellFormed(out + [0xF7], false)
  {
    var ms, tail :| Parses(out, ms, tail, true);
    var m := SysEx(tail[1..]);
    assert tail + [0xF7] == Encode(m);
    EncodeAllSnoc(ms, m);
    CompleteSnoc(ms, m);
    assert Parses(out + [0xF7], ms + [m], [], false);
  }

  // ---- reachable decoder states ----

  predicate StateOk(s: State) {
    && (s.running == 0 || 0x80 <= s.running < 0xF0)
    && (s.pendingStatus == 0 ==> s.data == [] && s.expected == 0)
    && (s.pendingStatus != 0 ==>
         && FamilyLength(s.pendingStatus) > 0 && s.expected == FamilyLength(s.pendingStatus)
         && |s.data| < s.expected && AllData(s.data) && !s.sysex)
    && (s.sysex ==> s.running == 0)
  }

  predicate ModeOk(s: State, mode: Mode) {
    && (mode == InPending ==> s.pendingStatus != 0)
    && (mode == InSysEx ==> s.sysex)
  }

  /** Invariant of one packet; a reset (mode Aborted) ends the stretch that `out` describes. */
  ghost predicate StreamInv(c: Config) {
    && StateOk(c.state) && ModeOk(c.state, c.mode)
    && (c.mode == Aborted ==> c.state == IDLE && (WellFormed(c.out, false) || WellFormed(c.out, true)))
    && (c.mode != Aborted ==> WellFormed(c.out, c.state.sysex))
  }

  lemma PendingByteKeepsStream(c: Config, b: Byte)
    requires StateOk(c.state) && c.state.pendingStatus != 0 && WellFormed(c.out, c.state.sysex)
    ensures StreamInv(PendingByte(c, b))
  {
    var s := c.state;
    if IsRealtime(b) {
      AddMessage(c.out, Single(b));
    } else if IsData(b) && |s.data| + 1 == s.expected {
      var m := Short(s.pendingStatus, s.data + [b]);
      AddMessage(c.out, m);
      assert c.out + Encode(m) == c.out + [s.pendingStatus] + s.data + [b];
    }
  }

  lemma SysExByteKeepsStream(c: Config, b: Byte)
    requires StateOk(c.state) && c.state.sysex && WellFormed(c.out, true)
    ensures StreamInv(SysExByte(c, b))
  {
    if b == 0xF7 {
      CloseSysEx(c.out);
    } else if IsInner(b) {
      ExtendSysEx(c.out, b);
    }
  }

  lemma FirstByteKeepsStream(c: Config, b: Byte)
    requires StateOk(c.state) && !c.state.sysex && c.state.pendingStatus == 0 && WellFormed(c.out, false)
    ensures StreamInv(FirstByte(c, b))
  {
    var s := c.state;
    StatusDataLenIsFamilyLength(b);
    StatusDataLenIsFamilyLength(s.running);
    if IsData(b) {
      if s.running >= 0x80 {
        PendingByteKeepsStream(
          c.(state := s.(pendingStatus := s.running, data := [], expected := StatusDataLen(s.running))), b);
      }
    } else if b == 0xF0 {
      OpenSysEx(c.out);
    } else if StatusDataLen(b) == 0 && b != 0xF7 {
      AddMessage(c.out, Single(b));
    }
  }

  lemma StepKeepsStream(c: Config, b: Byte)
    requires StreamInv(c)
    ensures StreamInv(Step(c, b))
  {
    match c.mode
    case Aborted =>
    case AwaitTimestamp =>
    case InPending => PendingByteKeepsStream(c, b);
    case InSysEx => SysExByteKeepsStream(c, b);
    case AwaitFirst =>
      if c.state.sysex {
        SysExByteKeepsStream(c, b);
      } else if c.state.pendingStatus != 0 {
        PendingByteKeepsStream(c, b);
      } else {
        FirstByteKeepsStream(c, b);
      }
  }

  lemma {:induction false} RunKeepsStream(c: Config, bs: seq<Byte>)
    requires StreamInv(c)
    ensures StreamInv(Run(c, bs))
    decreases |bs|
  {
    if bs != [] {
      StepKeepsStream(c, bs[0]);
      RunKeepsStream(Step(c, bs[0]), bs[1..]);
    }
  }

  // ---- whole runs of arbitrary packets ----

  /** Emitted bytes cut at the resets: `closed` stretches ended by a reset, and the current one. */
  datatype Stretches = Stretches(state: State, closed: seq<seq<Byte>>, current: seq<Byte>)

  function Receive(r: Stretches, packet: seq<Byte>): Stretches {
    var d := Decode(r.state, packet);
    if d.result == Resync || d.result == InvalidHeader then
      Stretches(d.state, r.closed + [r.current + d.out], [])
    else
      Stretches(d.state, r.closed, r.current + d.out)
  }

  function ReceiveAll(r: Stretches, packets: seq<seq<Byte>>): Stretches
    decreases |packets|
  {
    if packets == [] then r else ReceiveAll(Receive(r, packets[0]), packets[1..])
  }

  ghost predicate StretchesOk(r: Stretches) {
    && StateOk(r.state)
    && WellFormed(r.current, r.state.sysex)
    && forall i | 0 <= i < |r.closed| :: WellFormed(r.closed[i], false) || WellFormed(r.closed[i], true)
  }

  lemma ReceiveKeeps(r: Stretches, packet: seq<Byte>)
    requires StretchesOk(r)
    ensures StretchesOk(Receive(r, packet))
  {
    assert Parses([], [], [], false);
    if |packet| < 3 {
      assert r.current + [] == r.current;
    } else if packet[0] < 0x80 {
      assert r.current + [] == r.current;
    } else {
      var c := Config(r.state, AwaitTimestamp, r.current);
      RunKeepsStream(c, packet[1..]);
      RunOut(c.(out := []), packet[1..], r.current);
      assert c == c.(out := r.current + []);
    }
  }

  /**
    Any packets at all, in any order: what was emitted since the last reset is
    complete messages followed by one unfinished SysEx exactly when one is open,
    and every stretch that a reset cut off was such a stream too.
   */
  lemma {:induction false} EveryRunIsWellFormed(r: Stretches, packets: seq<seq<Byte>>)
    requires StretchesOk(r)
    ensures StretchesOk(ReceiveAll(r, packets))
    decreases |packets|
  {
    if packets != [] {
      ReceiveKeeps(r, packets[0]);
      EveryRunIsWellFormed(Receive(r, packets[0]), packets[1..]);
    }
  }

  lemma FreshDecoderRunsAreWellFormed(packets: seq<seq<Byte>>)
    ensures StretchesOk(ReceiveAll(Stretches(IDLE, [], []), packets))
  {
    assert Parses([], [], [], false);
    EveryRunIsWellFormed(Stretches(IDLE, [], []), packets);
  }

  /** Nothing is dropped by cutting: the stretches joined again are the whole output. */
  lemma {:induction false} StretchesAreTheOutput(r: Stretches, packets: seq<seq<Byte>>)
    ensures var e := ReceiveAll(r, packets); var d := DecodeAll(r.state, packets);
            e.state == d.state && Concat(e.closed) + e.current == Concat(r.closed) + r.current + d.out
    decreases |packets|
  {
    if packets == [] {
    } else {
      var d := Decode(r.state, packets[0]);
      var n := Receive(r, packets[0]);
      StretchesAreTheOutput(n, packets[1..]);
      var rest := DecodeAll(d.state, packets[1..]);
      ConcatSnoc(r.closed, r.current + d.out);
      assert Concat(n.closed) + n.current == Concat(r.closed) + r.current + d.out;
      assert Concat(r.closed) + r.current + d.out + rest.out == Concat(r.closed) + r.current + (d.out + rest.out);
    }
  }

  /** A reset forgets everything: after it, output depends only on the later packets. */
  lemma ResetForgets(s: State, before: seq<seq<Byte>>, bad: seq<Byte>, after: seq<seq<Byte>>)
    requires Decode(DecodeAll(s, before).state, bad).result in {Resync, InvalidHeader}
    ensures var anew := DecodeAll(IDLE, after); var all := DecodeAll(s, before + [bad] + after);
            && all.state == anew.state
            && all.out == DecodeAll(s, before + [bad]).out + anew.out
            && all.results == DecodeAll(s, before + [bad]).results + anew.results
  {
    DecodeAllConcat(s, before, [bad]);
    var d := DecodeAll(s, before).state;
    assert DecodeAll(d, [bad]).state == Decode(d, bad).state by {
      assert [bad][1..] == [];
    }
    DecodeAllConcat(s, before + [bad], after);
    AbortedIsIdle(d, bad);
  }

  lemma AbortedIsIdle(s: State, packet: seq<Byte>)
    requires Decode(s, packet).result in {Resync, InvalidHeader}
    ensures Decode(s, packet).state == IDLE
  {
    if packet[0] >= 0x80 {
      RunAbortIdle(Config(s, AwaitTimestamp, []), packet[1..]);
    }
  }

  lemma {:induction false} RunAbortIdle(c: Config, bs: seq<Byte>)
    requires c.mode == Aborted ==> c.state == IDLE
    ensures Run(c, bs).mode == Aborted ==> Run(c, bs).state == IDLE
    decreases |bs|
  {
    if bs != [] {
      RunAbortIdle(Step(c, bs[0]), bs[1..]);
    }
  }

  // ---- conservation of data bytes ----

  /** Data bytes already handed out, then those still held back in a pending message. */
  function Accounted(c: Config): seq<Byte> {
    DataOf(c.out) + c.state.data
  }

  lemma {:induction false} DataOfOne(b: Byte)
    ensures DataOf([b]) == if IsData(b) then [b] else []
  {
    assert [b][1..] == [];
  }

  lemma {:induction false} DataOfMessage(status: Byte, data: seq<Byte>)
    requires !IsData(status) && AllData(data)
    ensures DataOf([status] + data) == data
  {
    DataOfConcat([status], data);
    DataOfOne(status);
    DataOfAllData(data);
  }

  lemma {:induction false} PendingByteConservesData(c: Config, b: Byte)
    requires !IsData(c.state.pendingStatus) && AllData(c.state.data) && PendingByte(c, b).mode != Aborted
    ensures Accounted(PendingByte(c, b)) == Accounted(c) + DataOf([b])
  {
    var s, n := c.state, PendingByte(c, b);
    DataOfOne(b);
    if IsRealtime(b) {
      DataOfConcat(c.out, [b]);
    } else if n.mode == InPending {
      assert DataOf(c.out) + (s.data + [b]) == Accounted(c) + [b];
    } else {
      var message := [s.pendingStatus] + (s.data + [b]);
      assert n.out == c.out + message;
      DataOfConcat(c.out, message);
      DataOfMessage(s.pendingStatus, s.data + [b]);
      assert DataOf(c.out) + (s.data + [b]) == Accounted(c) + [b];
    }
  }

  lemma {:induction false} SysExByteConservesData(c: Config, b: Byte)
    requires c.state.data == [] && SysExByte(c, b).mode != Aborted
    ensures Accounted(SysExByte(c, b)) == Accounted(c) + DataOf([b])
  {
    DataOfConcat(c.out, [b]);
  }

  lemma {:induction false} FirstByteConservesData(c: Config, b: Byte)
    requires c.state.data == [] && FirstByte(c, b).mode != Aborted
    ensures Accounted(FirstByte(c, b)) == Accounted(c) + DataOf([b])
  {
    var s := c.state;
    DataOfOne(b);
    DataOfConcat(c.out, [b]);
    if IsData(b) {
      var c' := c.(state := s.(pendingStatus := s.running, data := [], expected := StatusDataLen(s.running)));
      PendingByteConservesData(c', b);
    }
  }

  lemma {:induction false} StepKeepsState(c: Config, b: Byte)
    requires StateOk(c.state) && ModeOk(c.state, c.mode)
    ensures StateOk(Step(c, b).state) && ModeOk(Step(c, b).state, Step(c, b).mode)
  {
    StatusDataLenIsFamilyLength(b);
    StatusDataLenIsFamilyLength(c.state.running);
  }

  lemma {:induction false} StepConservesData(c: Config, b: Byte)
    requires StateOk(c.state) && ModeOk(c.state, c.mode) && Step(c, b).mode != Aborted
    ensures Accounted(Step(c, b)) == Accounted(c) + DataOf([b])
  {
    DataOfOne(b);
    match c.mode
    case AwaitTimestamp =>
    case InPending => PendingByteConservesData(c, b);
    case InSysEx => SysExByteConservesData(c, b);
    case AwaitFirst =>
      if c.state.sysex {
        SysExByteConservesData(c, b);
      } else if c.state.pendingStatus != 0 {
        PendingByteConservesData(c, b);
      } else {
        FirstByteConservesData(c, b);
      }
  }

  lemma {:induction false} RunConservesData(c: Config, bs: seq<Byte>)
    requires StateOk(c.state) && ModeOk(c.state, c.mode) && Run(c, bs).mode != Aborted
    ensures StateOk(Run(c, bs).state)
    ensures Accounted(Run(c, bs)) == Accounted(c) + DataOf(bs)
    decreases |bs|
  {
    if bs != [] {
      if Step(c, bs[0]).mode == Aborted {
        RunAborted(Step(c, bs[0]), bs[1..]);
      }
      StepKeepsState(c, bs[0]);
      StepConservesData(c, bs[0]);
      RunConservesData(Step(c, bs[0]), bs[1..]);
      DataOfConcat([bs[0]], bs[1..]);
      assert [bs[0]] + bs[1..] == bs;
    }
  }

  lemma {:induction false} HeaderHoldsNoData(packet: seq<Byte>)
    requires packet != [] && !IsData(packet[0])
    ensures DataOf(packet) == DataOf(packet[1..])
  {
    DataOfConcat([packet[0]], packet[1..]);
    DataOfOne(packet[0]);
    assert [packet[0]] + packet[1..] == packet;
  }

  /** The data bytes of an accepted packet, none lost, repeated or reordered. */
  lemma {:induction false} PacketConservesData(s: State, packet: seq<Byte>)
    requires StateOk(s) && Decode(s, packet).result == Ok
    ensures var d := Decode(s, packet);
            StateOk(d.state) && DataOf(d.out) + d.state.data == s.data + DataOf(packet)
  {
    var c := Config(s, AwaitTimestamp, []);
    RunConservesData(c, packet[1..]);
    HeaderHoldsNoData(packet);
    assert Accounted(c) == s.data;
  }

  lemma AllOk(s: State, packets: seq<seq<Byte>>)
    requires packets != []
    requires forall i | 0 <= i < |packets| :: DecodeAll(s, packets).results[i] == Ok
    ensures Decode(s, packets[0]).result == Ok
    ensures var rest := DecodeAll(Decode(s, packets[0]).state, packets[1..]);
            forall i | 0 <= i < |packets[1..]| :: rest.results[i] == Ok
  {
    assert DecodeAll(s, packets).results[0] == Ok;
    var rest := DecodeAll(Decode(s, packets[0]).state, packets[1..]);
    forall i | 0 <= i < |packets[1..]| ensures rest.results[i] == Ok {
      assert DecodeAll(s, packets).results[i + 1] == Ok;
    }
  }

  /** Over any run without a reset, every data byte received is emitted or still pending, in order. */
  lemma {:induction false} RunConservesAllData(s: State, packets: seq<seq<Byte>>)
    requires StateOk(s)
    requires forall i | 0 <= i < |packets| :: DecodeAll(s, packets).results[i] == Ok
    ensures var r := DecodeAll(s, packets);
            StateOk(r.state) && DataOf(r.out) + r.state.data == s.data + DataOf(Concat(packets))
    decreases |packets|
  {
    if packets == [] {
      assert DecodeAll(s, packets) == Received(s, [], []);
    } else {
      AllOk(s, packets);
      var d := Decode(s, packets[0]);
      var r := DecodeAll(d.state, packets[1..]);
      PacketConservesData(s, packets[0]);
      RunConservesAllData(d.state, packets[1..]);
      DataOfConcat(d.out, r.out);
      DataOfConcat(packets[0], Concat(packets[1..]));
      JoinConserved(s.data, DataOf(packets[0]), DataOf(d.out), d.state.data,
                    DataOf(Concat(packets[1..])), DataOf(r.out), r.state.data);
    }
  }
}
