/**
  A flat, one-byte-at-a-time automaton for BLE-MIDI reception.

  The decoder of src/mb-ble-midi.c is written as loops nested in loops that
  share one index. This module says the same thing without loops: a mode, a
  state that survives packet boundaries, and what one byte does to them.
  BleMidiDecoder proves the nested loops equal to it.
 */
module MidiAutomaton {
  import opened Bytes

  /** Number of data bytes after a status; -1 not a usable status, -2 SysEx. */
  function StatusDataLen(status: Byte): int {
    if status < 0x80 then -1
    else if status <= 0xBF then 2
    else if status <= 0xDF then 1
    else if status <= 0xEF then 2
    else if status == 0xF1 || status == 0xF3 then 1
    else if status == 0xF2 then 2
    else if 0xF6 <= status <= 0xFF then 0
    else if status == 0xF0 then -2
    else -1
  }

  /** What the decoder remembers between packets; `data` is the received part of the pending message. */
  datatype State = State(running: Byte, pendingStatus: Byte, data: seq<Byte>, expected: Byte, sysex: bool)

  const IDLE := State(0, 0, [], 0, false)

  datatype Mode = AwaitTimestamp | AwaitFirst | InPending | InSysEx | Aborted

  datatype Config = Config(state: State, mode: Mode, out: seq<Byte>)

  datatype Result = Ok | Ignored | InvalidHeader | Resync

  function Abort(c: Config): Config {
    Config(IDLE, Aborted, c.out)
  }

  function PendingByte(c: Config, b: Byte): Config {
    var s := c.state;
    if IsRealtime(b) then c.(mode := InPending, out := c.out + [b])
    else if !IsData(b) || |s.data| >= 2 then Abort(c)
    else if |s.data| + 1 == s.expected then
      Config(s.(pendingStatus := 0, data := [], expected := 0), AwaitTimestamp,
             c.out + [s.pendingStatus] + s.data + [b])
    else
      Config(s.(data := s.data + [b]), InPending, c.out)
  }

  function SysExByte(c: Config, b: Byte): Config {
    if b == 0xF7 then Config(c.state.(sysex := false), AwaitTimestamp, c.out + [b])
    else if IsInner(b) then c.(mode := InSysEx, out := c.out + [b])
    else Abort(c)
  }

  /** A byte behind a timestamp while no message is in progress. */
  function FirstByte(c: Config, b: Byte): Config {
    var s := c.state;
    if IsData(b) then
      if s.running >= 0x80 && StatusDataLen(s.running) > 0 then
        PendingByte(c.(state := s.(pendingStatus := s.running, data := [], expected := StatusDataLen(s.running))), b)
      else Abort(c)
    else if IsRealtime(b) then c.(mode := AwaitTimestamp, out := c.out + [b])
    else if b == 0xF0 then Config(s.(running := 0, sysex := true), InSysEx, c.out + [b])
    else if b == 0xF7 || StatusDataLen(b) < 0 then Abort(c)
    else
      var s' := s.(running := if b < 0xF0 then b else 0);
      if StatusDataLen(b) == 0 then Config(s', AwaitTimestamp, c.out + [b])
      else Config(s'.(pendingStatus := b, data := [], expected := StatusDataLen(b)), InPending, c.out)
  }

  function Step(c: Config, b: Byte): Config {
    match c.mode
    case Aborted => c
    case AwaitTimestamp => if IsData(b) then Abort(c) else c.(mode := AwaitFirst)
    case InPending => PendingByte(c, b)
    case InSysEx => SysExByte(c, b)
    case AwaitFirst =>
      if c.state.sysex then SysExByte(c, b)
      else if c.state.pendingStatus != 0 then PendingByte(c, b)
      else FirstByte(c, b)
  }

  function Run(c: Config, bytes: seq<Byte>): Config
    decreases |bytes|
  {
    if bytes == [] then c else Run(Step(c, bytes[0]), bytes[1..])
  }

  datatype Decoded = Decoded(state: State, out: seq<Byte>, result: Result)

  /** One packet: header byte, then the automaton over everything after it. */
  function Decode(s: State, packet: seq<Byte>): Decoded {
    if |packet| < 3 then Decoded(s, [], Ignored)
    else if packet[0] < 0x80 then Decoded(IDLE, [], InvalidHeader)
    else
      var c := Run(Config(s, AwaitTimestamp, []), packet[1..]);
      Decoded(c.state, c.out, if c.mode == Aborted then Resync else Ok)
  }

  /** A run of packets: the last state, all bytes emitted, one result per packet. */
  datatype Received = Received(state: State, out: seq<Byte>, results: seq<Result>)

  function DecodeAll(s: State, packets: seq<seq<Byte>>): (r: Received)
    ensures |r.results| == |packets|
    decreases |packets|
  {
    if packets == [] then Received(s, [], [])
    else
      var d := Decode(s, packets[0]);
      var r := DecodeAll(d.state, packets[1..]);
      Received(r.state, d.out + r.out, [d.result] + r.results)
  }

  // ---- how runs compose ----

  lemma RunUnroll(c: Config, p: seq<Byte>, i: nat)
    requires i < |p|
    ensures Run(c, p[i..]) == Run(Step(c, p[i]), p[i + 1..])
  {
    assert p[i..][1..] == p[i + 1..];
  }

  lemma {:induction false} RunConcat(c: Config, a: seq<Byte>, b: seq<Byte>)
    ensures Run(c, a + b) == Run(Run(c, a), b)
    decreases |a|
  {
    if a == [] {
      assert a + b == b;
    } else {
      assert (a + b)[1..] == a[1..] + b;
      RunConcat(Step(c, a[0]), a[1..], b);
    }
  }

  lemma RunSnoc(c: Config, a: seq<Byte>, b: Byte)
    ensures Run(c, a + [b]) == Step(Run(c, a), b)
  {
    RunConcat(c, a, [b]);
    assert Run(Run(c, a), [b]) == Run(Step(Run(c, a), b), [b][1..]);
  }

  lemma {:induction false} RunAborted(c: Config, bs: seq<Byte>)
    requires c.mode == Aborted
    ensures Run(c, bs) == c
    decreases |bs|
  {
    if bs != [] {
      RunAborted(c, bs[1..]);
    }
  }

  /** What was emitted before does not influence what is emitted next. */
  lemma StepOut(c: Config, b: Byte, before: seq<Byte>)
    ensures Step(c.(out := before + c.out), b) == Step(c, b).(out := before + Step(c, b).out)
  {
    var s := c.state;
    assert before + c.out + [b] == before + (c.out + [b]);
    assert before + c.out + [s.pendingStatus] + s.data + [b] == before + (c.out + [s.pendingStatus] + s.data + [b]);
    assert before + c.out + [s.running] + [] + [b] == before + (c.out + [s.running] + [] + [b]);
  }

  lemma {:induction false} RunOut(c: Config, bs: seq<Byte>, before: seq<Byte>)
    ensures Run(c.(out := before + c.out), bs) == Run(c, bs).(out := before + Run(c, bs).out)
    decreases |bs|
  {
    if bs != [] {
      StepOut(c, bs[0], before);
      RunOut(Step(c, bs[0]), bs[1..], before);
    }
  }

  lemma {:induction false} DecodeAllConcat(s: State, ps: seq<seq<Byte>>, qs: seq<seq<Byte>>)
    ensures var a := DecodeAll(s, ps); var b := DecodeAll(a.state, qs);
            DecodeAll(s, ps + qs) == Received(b.state, a.out + b.out, a.results + b.results)
    decreases |ps|
  {
    if ps == [] {
      assert ps + qs == qs;
    } else {
      assert (ps + qs)[1..] == ps[1..] + qs;
      var d := Decode(s, ps[0]);
      DecodeAllConcat(d.state, ps[1..], qs);
      var a := DecodeAll(d.state, ps[1..]);
      var b := DecodeAll(a.state, qs);
      assert d.out + (a.out + b.out) == d.out + a.out + b.out;
      assert [d.result] + (a.results + b.results) == [d.result] + a.results + b.results;
    }
  }
}
