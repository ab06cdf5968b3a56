/**
  Sending single MIDI messages over BLE-MIDI packets and receiving them again:
  segmentation independence, real time bytes in between, running status.
 */
module MidiTransport {
  import opened Bytes
  import opened BleMidiPacket
  import opened MidiAutomaton
  import opened MidiStream

  // ---- cutting a byte string into packets ----

  /** Chunks that are all non-empty, each with a timestamp. */
  datatype Chunk = Chunk(timestamp: Timestamp, midi: seq<Byte>)

  ghost predicate NonEmptyChunks(chunks: seq<Chunk>) {
    forall i | 0 <= i < |chunks| :: chunks[i].midi != []
  }

  function Joined(chunks: seq<Chunk>): seq<Byte> {
    if chunks == [] then [] else chunks[0].midi + Joined(chunks[1..])
  }

  function Packets(chunks: seq<Chunk>): (ps: seq<seq<Byte>>)
    ensures |ps| == |chunks|
  {
    if chunks == [] then []
    else [PacketOf(chunks[0].timestamp, chunks[0].midi)] + Packets(chunks[1..])
  }

  ghost predicate AllResultsOk(results: seq<Result>) {
    forall i | 0 <= i < |results| :: results[i] == Ok
  }

  /** A message has begun and is not complete. */
  predicate InProgress(c: Config) {
    || (c.mode == InPending && c.state.pendingStatus != 0 && !c.state.sysex)
    || (c.mode == InSysEx && c.state.sysex)
  }

  /** From `c`, the bytes `w` are one message: only the last of them may complete it. */
  ghost predicate OneMessage(c: Config, w: seq<Byte>) {
    forall k | 0 < k < |w| :: InProgress(Run(c, w[..k]))
  }

  /** The packet boundary is invisible to a message in progress. */
  lemma ResumeAfterBoundary(c: Config, w: seq<Byte>)
    requires InProgress(c) && w != []
    ensures Run(c.(mode := AwaitFirst), w) == Run(c, w)
  {
  }

  lemma DecodePacketOf(s: State, timestamp: Timestamp, midi: seq<Byte>)
    requires midi != []
    ensures var c := Run(Config(s, AwaitFirst, []), midi);
            Decode(s, PacketOf(timestamp, midi))
              == Decoded(c.state, c.out, if c.mode == Aborted then Resync else Ok)
  {
    var p := PacketOf(timestamp, midi);
    assert p[1..] == [TimeByte(timestamp)] + midi;
    assert p[1..][1..] == midi;
  }

  lemma OneMessageSuffix(c: Config, w: seq<Byte>, n: nat)
    requires OneMessage(c, w) && 0 < n < |w|
    ensures OneMessage(Run(c, w[..n]), w[n..]) && InProgress(Run(c, w[..n]))
  {
    forall k | 0 < k < |w[n..]| ensures InProgress(Run(Run(c, w[..n]), w[n..][..k])) {
      RunConcat(c, w[..n], w[n..][..k]);
      assert w[..n] + w[n..][..k] == w[..n + k];
    }
  }

  /** Results of the first packet and of the others, joined. */
  lemma DecodeFirst(s: State, p: seq<Byte>, ps: seq<seq<Byte>>)
    ensures var d := Decode(s, p); var r := DecodeAll(d.state, ps);
            DecodeAll(s, [p] + ps) == Received(r.state, d.out + r.out, [d.result] + r.results)
  {
    assert ([p] + ps)[1..] == ps;
  }

  /**
    Segmentation independence: however the bytes of one message are cut into
    packets, the decoder ends in the same state with the same output as if they
    had come in one piece.
   */
  lemma {:induction false} CutAnywhere(c: Config, w: seq<Byte>, chunks: seq<Chunk>)
    requires c.mode == AwaitFirst && c.out == []
    requires w != [] && OneMessage(c, w) && Run(c, w).mode != Aborted
    requires NonEmptyChunks(chunks) && Joined(chunks) == w
    ensures var r := DecodeAll(c.state, Packets(chunks));
            r.state == Run(c, w).state && r.out == Run(c, w).out && AllResultsOk(r.results)
    decreases |chunks|
  {
    var a := chunks[0].midi;
    var rest := w[|a|..];
    assert rest == Joined(chunks[1..]);
    DecodePacketOf(c.state, chunks[0].timestamp, a);
    DecodeFirst(c.state, PacketOf(chunks[0].timestamp, a), Packets(chunks[1..]));
    assert a == w[..|a|];
    if rest == [] {
      assert a == w;
      EmptyTail(chunks[1..]);
    } else {
      OneMessageSuffix(c, w, |a|);
      var mid := Run(c, a);
      RunConcat(c, a, rest);
      assert a + rest == w;
      var c' := Config(mid.state, AwaitFirst, []);
      RestOfMessage(mid, rest);
      CutAnywhere(c', rest, chunks[1..]);
    }
  }

  lemma EmptyTail(chunks: seq<Chunk>)
    requires NonEmptyChunks(chunks) && Joined(chunks) == []
    ensures chunks == []
  {
  }

  lemma RestOfMessage(mid: Config, rest: seq<Byte>)
    requires InProgress(mid) && OneMessage(mid, rest) && rest != []
    ensures var c' := Config(mid.state, AwaitFirst, []);
            && OneMessage(c', rest)
            && Run(mid, rest).state == Run(c', rest).state
            && Run(mid, rest).mode == Run(c', rest).mode
            && Run(mid, rest).out == mid.out + Run(c', rest).out
  {
    var c' := Config(mid.state, AwaitFirst, []);
    RestOfMessagePart(mid, rest);
    forall k | 0 < k < |rest| ensures InProgress(Run(c', rest[..k])) {
      RestOfMessagePart(mid, rest[..k]);
    }
  }

  lemma RestOfMessagePart(mid: Config, part: seq<Byte>)
    requires InProgress(mid) && part != []
    ensures var c' := Config(mid.state, AwaitFirst, []);
            Run(mid, part) == Run(c', part).(out := mid.out + Run(c', part).out)
  {
    ResumeAfterBoundary(mid, part);
    RunOut(Config(mid.state, AwaitFirst, []), part, mid.out);
    assert mid.out + [] == mid.out;
  }

  // ---- what a sender puts on the wire ----

  /** One transmitted message. `tail` and `body` may hold real time bytes strictly inside the message. */
  datatype Item =
    | OneByte(b: Byte)
    | ShortItem(status: Byte, tail: seq<Byte>, dropped: bool)   // `dropped`: sent under running status
    | SysExItem(body: seq<Byte>)

  /** `last` is the channel status both ends remember, 0 when there is none. */
  ghost predicate Sendable(it: Item, last: Byte) {
    match it
    case OneByte(b) => IsRealtime(b) || b == 0xF6
    case ShortItem(status, tail, dropped) =>
      && FamilyLength(status) > 0
      && |DataOf(tail)| == FamilyLength(status)
      && AllInner(tail) && IsData(tail[|tail| - 1])
      && (dropped ==> status == last && status < 0xF0 && IsData(tail[0]))
    case SysExItem(body) => AllInner(body)
  }

  /** MIDI 1.0 running status: channel messages set it, real time leaves it, everything else clears it. */
  function StatusAfter(it: Item, last: Byte): Byte {
    match it
    case OneByte(b) => if IsRealtime(b) then last else 0
    case ShortItem(status, _, _) => if status < 0xF0 then status else 0
    case SysExItem(_) => 0
  }

  function Wire(it: Item): seq<Byte> {
    match it
    case OneByte(b) => [b]
    case ShortItem(status, tail, dropped) => if dropped then tail else [status] + tail
    case SysExItem(body) => [0xF0] + body + [0xF7]
  }

  /** The full message; real time bytes overtake a short message and keep their place in a SysEx. */
  function Expanded(it: Item): seq<Byte> {
    match it
    case OneByte(b) => [b]
    case ShortItem(status, tail, _) => RealtimeOf(tail) + [status] + DataOf(tail)
    case SysExItem(body) => [0xF0] + body + [0xF7]
  }

  /** Between messages: nothing pending, no SysEx open. */
  function Quiet(last: Byte): State {
    State(last, 0, [], 0, false)
  }

  predicate LastOk(last: Byte) {
    last == 0 || 0x80 <= last < 0xF0
  }

  // ---- one message in one piece ----

  lemma {:induction false} PendingRun(c: Config, t: seq<Byte>)
    requires c.mode == InPending && AllInner(t) && c.state.expected <= 2
    requires |c.state.data| + |DataOf(t)| < c.state.expected
    ensures Run(c, t) == Config(c.state.(data := c.state.data + DataOf(t)), InPending, c.out + RealtimeOf(t))
    decreases |t|
  {
    if t == [] {
      assert c.state.data + [] == c.state.data && c.out + [] == c.out;
    } else {
      PendingRun(Step(c, t[0]), t[1..]);
      Associate(c.out, [t[0]], RealtimeOf(t[1..]));
      Associate(c.state.data, [t[0]], DataOf(t[1..]));
    }
  }

  lemma {:induction false} SysExRun(c: Config, t: seq<Byte>)
    requires c.mode == InSysEx && AllInner(t)
    ensures Run(c, t) == c.(out := c.out + t)
    decreases |t|
  {
    if t == [] {
      assert c.out + [] == c.out;
    } else {
      SysExRun(Step(c, t[0]), t[1..]);
      assert c.out + [t[0]] + t[1..] == c.out + t;
    }
  }

  /** Where the automaton stands after the proper, non-empty prefix of a short message that holds `t` of its tail. */
  function MidShort(last: Byte, status: Byte, t: seq<Byte>): Config {
    Config(State(last, status, DataOf(t), FamilyLength(status), false), InPending, RealtimeOf(t))
  }

  lemma SplitLast(tail: seq<Byte>)
    requires tail != [] && IsData(tail[|tail| - 1])
    ensures var t := tail[..|tail| - 1]; var b := tail[|tail| - 1];
            tail == t + [b] && DataOf(tail) == DataOf(t) + [b] && RealtimeOf(tail) == RealtimeOf(t)
  {
    var t, b := tail[..|tail| - 1], tail[|tail| - 1];
    DataOfConcat(t, [b]);
    RealtimeOfConcat(t, [b]);
    assert tail == t + [b];
    assert [b][1..] == [];
    assert RealtimeOf([b]) == RealtimeOf([]);
  }

  lemma DataOfPrefix(tail: seq<Byte>, k: nat)
    requires k < |tail| && IsData(tail[|tail| - 1])
    ensures |DataOf(tail[..k])| < |DataOf(tail)|
  {
    SplitLast(tail);
    var t := tail[..|tail| - 1];
    DataOfConcat(t[..k], t[k..]);
    assert t == t[..k] + t[k..] && t[..k] == tail[..k];
  }

  /** A short message sent with its status, up to any point before its last byte. */
  lemma ShortPrefix(last: Byte, status: Byte, tail: seq<Byte>, k: nat)
    requires Sendable(ShortItem(status, tail, false), last) && LastOk(last)
    requires k < |tail|
    ensures Run(Config(Quiet(last), AwaitFirst, []), [status] + tail[..k])
         == MidShort(StatusAfter(ShortItem(status, tail, false), last), status, tail[..k])
  {
    StatusDataLenIsFamilyLength(status);
    DataOfPrefix(tail, k);
    var c := Config(Quiet(last), AwaitFirst, []);
    assert ([status] + tail[..k])[1..] == tail[..k];
    PendingRun(Step(c, status), tail[..k]);
  }

  /** The same under running status: the first byte is a data byte. */
  lemma RunningPrefix(status: Byte, tail: seq<Byte>, k: nat)
    requires Sendable(ShortItem(status, tail, true), status) && LastOk(status)
    requires 0 < k < |tail|
    ensures Run(Config(Quiet(status), AwaitFirst, []), tail[..k]) == MidShort(status, status, tail[..k])
  {
    StatusDataLenIsFamilyLength(status);
    DataOfPrefix(tail, k);
    var c := Config(Quiet(status), AwaitFirst, []);
    var p := Config(State(status, status, [], FamilyLength(status), false), InPending, []);
    assert Step(c, tail[0]) == Step(p, tail[0]);
    assert Run(c, tail[..k]) == Run(p, tail[..k]);
    PendingRun(p, tail[..k]);
  }

  lemma ShortComplete(last: Byte, status: Byte, tail: seq<Byte>)
    requires Sendable(ShortItem(status, tail, false), last)
    ensures Step(MidShort(last, status, tail[..|tail| - 1]), tail[|tail| - 1])
         == Config(Quiet(last), AwaitTimestamp, Expanded(ShortItem(status, tail, false)))
  {
    SplitLast(tail);
    var t := tail[..|tail| - 1];
    Associate(RealtimeOf(t) + [status], DataOf(t), [tail[|tail| - 1]]);
  }

  lemma ShortWhole(it: Item, last: Byte)
    requires it.ShortItem? && Sendable(it, last) && LastOk(last)
    ensures var c := Config(Quiet(last), AwaitFirst, []);
            && OneMessage(c, Wire(it))
            && Run(c, Wire(it)) == Config(Quiet(StatusAfter(it, last)), AwaitTimestamp, Expanded(it))
  {
    var ShortItem(status, tail, dropped) := it;
    var c := Config(Quiet(last), AwaitFirst, []);
    var w := Wire(it);
    var n := |tail| - 1;
    SplitLast(tail);
    forall k | 0 < k < |w| ensures InProgress(Run(c, w[..k])) {
      if dropped {
        RunningPrefix(status, tail, k);
      } else {
        assert w[..k] == [status] + tail[..k - 1];
        ShortPrefix(last, status, tail, k - 1);
      }
    }
    ShortComplete(StatusAfter(it, last), status, tail);
    if dropped {
      if n == 0 {
        RunningOneByte(status, tail);
      } else {
        RunningPrefix(status, tail, n);
        RunSnoc(c, tail[..n], tail[n]);
      }
    } else {
      ShortPrefix(last, status, tail, n);
      RunSnoc(c, [status] + tail[..n], tail[n]);
      assert w == [status] + tail[..n] + [tail[n]];
    }
  }

  lemma RunningOneByte(status: Byte, tail: seq<Byte>)
    requires Sendable(ShortItem(status, tail, true), status) && LastOk(status) && |tail| == 1
    ensures Run(Config(Quiet(status), AwaitFirst, []), tail)
         == Config(Quiet(status), AwaitTimestamp, Expanded(ShortItem(status, tail, true)))
  {
    StatusDataLenIsFamilyLength(status);
    assert tail == [tail[0]] && tail[1..] == [];
    assert DataOf(tail) == [tail[0]] && RealtimeOf(tail) == [];
  }

  lemma SysExWhole(body: seq<Byte>, last: Byte)
    requires AllInner(body)
    ensures var c := Config(Quiet(last), AwaitFirst, []); var w := Wire(SysExItem(body));
            && OneMessage(c, w)
            && Run(c, w) == Config(Quiet(0), AwaitTimestamp, w)
  {
    var c := Config(Quiet(last), AwaitFirst, []);
    var w := Wire(SysExItem(body));
    forall k | 0 < k < |w|
      ensures Run(c, w[..k]) == Config(State(0, 0, [], 0, true), InSysEx, w[..k])
    {
      assert w[..k] == [0xF0] + body[..k - 1];
      assert w[..k][1..] == body[..k - 1];
      SysExRun(Step(c, 0xF0), body[..k - 1]);
    }
    var n := |w| - 1;
    assert w == w[..n] + [0xF7];
    RunSnoc(c, w[..n], 0xF7);
  }

  lemma ItemWhole(it: Item, last: Byte)
    requires Sendable(it, last) && LastOk(last)
    ensures LastOk(StatusAfter(it, last)) && Wire(it) != []
    ensures var c := Config(Quiet(last), AwaitFirst, []);
            && OneMessage(c, Wire(it))
            && Run(c, Wire(it)) == Config(Quiet(StatusAfter(it, last)), AwaitTimestamp, Expanded(it))
  {
    match it
    case OneByte(b) =>
      var c := Config(Quiet(last), AwaitFirst, []);
      assert Run(c, [b]) == Run(Step(c, b), [b][1..]) == Step(c, b);
    case ShortItem(status, tail, dropped) => ShortWhole(it, last);
    case SysExItem(body) => SysExWhole(body, last);
  }

  /**
    One message, short or System Exclusive of any length, with real time bytes
    strictly inside it, cut into any non-empty chunks: decoded from quiet to the
    message and those real time bytes, and back to quiet.
   */
  lemma SegmentationIndependence(it: Item, last: Byte, chunks: seq<Chunk>)
    requires Sendable(it, last) && LastOk(last)
    requires NonEmptyChunks(chunks) && Joined(chunks) == Wire(it)
    ensures var r := DecodeAll(Quiet(last), Packets(chunks));
            r.state == Quiet(StatusAfter(it, last)) && r.out == Expanded(it) && AllResultsOk(r.results)
  {
    ItemWhole(it, last);
    CutAnywhere(Config(Quiet(last), AwaitFirst, []), Wire(it), chunks);
  }

  // ---- lists of messages ----

  ghost predicate AllSendable(items: seq<Item>, last: Byte)
    decreases |items|
  {
    items != [] ==> Sendable(items[0], last) && AllSendable(items[1..], StatusAfter(items[0], last))
  }

  function StatusAfterAll(items: seq<Item>, last: Byte): Byte
    decreases |items|
  {
    if items == [] then last else StatusAfterAll(items[1..], StatusAfter(items[0], last))
  }

  function ExpandedAll(items: seq<Item>): seq<Byte> {
    if items == [] then [] else Expanded(items[0]) + ExpandedAll(items[1..])
  }

  /** Each item in packets of its own, cut as the sender likes. */
  ghost predicate CutsOf(items: seq<Item>, cuts: seq<seq<Chunk>>) {
    && |cuts| == |items|
    && forall i | 0 <= i < |items| :: NonEmptyChunks(cuts[i]) && Joined(cuts[i]) == Wire(items[i])
  }

  function AllPackets(cuts: seq<seq<Chunk>>): seq<seq<Byte>> {
    if cuts == [] then [] else Packets(cuts[0]) + AllPackets(cuts[1..])
  }

  /**
    Running status: whatever statuses the sender drops where it may, whatever
    real time messages it sends in between, and however it cuts each message,
    the receiver puts out the fully expanded list and rejects nothing.
   */
  lemma {:induction false} RunningStatusStream(items: seq<Item>, last: Byte, cuts: seq<seq<Chunk>>)
    requires AllSendable(items, last) && LastOk(last) && CutsOf(items, cuts)
    ensures var r := DecodeAll(Quiet(last), AllPackets(cuts));
            && r.state == Quiet(StatusAfterAll(items, last))
            && r.out == ExpandedAll(items)
            && AllResultsOk(r.results)
    decreases |items|
  {
    if items == [] {
      assert cuts == [];
    } else {
      assert NonEmptyChunks(cuts[0]) && Joined(cuts[0]) == Wire(items[0]);
      var next := StatusAfter(items[0], last);
      SegmentationIndependence(items[0], last, cuts[0]);
      ItemWhole(items[0], last);
      assert CutsOf(items[1..], cuts[1..]) by {
        forall i | 0 <= i < |items[1..]|
          ensures NonEmptyChunks(cuts[1..][i]) && Joined(cuts[1..][i]) == Wire(items[1..][i])
        {
          assert NonEmptyChunks(cuts[i + 1]) && Joined(cuts[i + 1]) == Wire(items[i + 1]);
        }
      }
      RunningStatusStream(items[1..], next, cuts[1..]);
      DecodeAllConcat(Quiet(last), Packets(cuts[0]), AllPackets(cuts[1..]));
    }
  }
}
