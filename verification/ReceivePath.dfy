/**
  The receive side of a device in src/mb-daemon.c: the fence check of a queued
  item, the decoder, and the panic after a lost frame.
 */
module ReceivePath {
  import opened Bytes
  import opened Words
  import opened MidiStream
  import A = MidiAutomaton
  import D = Dataplane
  import F = Fence
  import B = BleMidiDecoder

  // ---- the panic ----

  const CHANNELS := 16

  /** Sustain off, all sound off, all notes off and a centred pitch bend on one channel. */
  function PanicMessages(ch: nat): seq<Message>
    requires ch < CHANNELS
  {
    [Short(0xB0 + ch, [64, 0]), Short(0xB0 + ch, [120, 0]), Short(0xB0 + ch, [123, 0]), Short(0xE0 + ch, [0x00, 0x40])]
  }

  /** The panic on the first `n` channels. */
  function PanicTo(n: nat): seq<Message>
    requires n <= CHANNELS
  {
    if n == 0 then [] else PanicTo(n - 1) + PanicMessages(n - 1)
  }

  const PANIC := EncodeAll(PanicTo(CHANNELS))

  lemma {:induction false} EncodeAllConcat(a: seq<Message>, b: seq<Message>)
    ensures EncodeAll(a + b) == EncodeAll(a) + EncodeAll(b)
  {
    if a == [] {
      assert a + b == b;
    } else {
      assert (a + b)[1..] == a[1..] + b;
      EncodeAllConcat(a[1..], b);
      assert Encode(a[0]) + (EncodeAll(a[1..]) + EncodeAll(b)) == Encode(a[0]) + EncodeAll(a[1..]) + EncodeAll(b);
    }
  }

  lemma {:induction false} PanicIsComplete(n: nat)
    requires n <= CHANNELS
    ensures AllComplete(PanicTo(n))
  {
    if n > 0 {
      PanicIsComplete(n - 1);
      var a, b := PanicTo(n - 1), PanicMessages(n - 1);
      forall i | 0 <= i < |a + b| ensures Complete((a + b)[i]) {
        if i >= |a| {
          assert (a + b)[i] == b[i - |a|];
        }
      }
    }
  }

  lemma ChannelBytes(ch: nat)
    requires ch < CHANNELS
    ensures EncodeAll(PanicMessages(ch))
         == [0xB0 + ch, 64, 0] + [0xB0 + ch, 120, 0] + [0xB0 + ch, 123, 0] + [0xE0 + ch, 0x00, 0x40]
  {
    var ms := PanicMessages(ch);
    var a, b, c, d := ms[0], ms[1], ms[2], ms[3];
    EncodeAllSnoc([], a);
    EncodeAllSnoc([a], b);
    EncodeAllSnoc([a, b], c);
    EncodeAllSnoc([a, b, c], d);
    assert [] + [a] == [a] && [a] + [b] == [a, b] && [a, b] + [c] == [a, b, c] && [a, b, c] + [d] == ms;
  }

  // ---- packets one after another ----

  /** The decoder and every byte given to ALSA. */
  datatype Rx = Rx(decoder: A.State, out: seq<Byte>)

  function Fed(r: Rx, packet: seq<Byte>): Rx {
    var d := A.Decode(r.decoder, packet);
    Rx(d.state, r.out + d.out + if d.result == A.Resync || d.result == A.InvalidHeader then PANIC else [])
  }

  function FedAll(r: Rx, packets: seq<seq<Byte>>): Rx {
    if packets == [] then r else Fed(FedAll(r, packets[..|packets| - 1]), packets[|packets| - 1])
  }

  /** Every stretch that a reset closed, each followed by a panic, and then the current one. */
  function WithPanics(r: Stretches): seq<Byte> {
    Silenced(r.closed) + r.current
  }

  function Silenced(closed: seq<seq<Byte>>): seq<Byte> {
    if closed == [] then [] else Silenced(closed[..|closed| - 1]) + closed[|closed| - 1] + PANIC
  }

  lemma {:induction false} ReceiveAllSnoc(r: Stretches, packets: seq<seq<Byte>>, p: seq<Byte>)
    ensures ReceiveAll(r, packets + [p]) == Receive(ReceiveAll(r, packets), p)
    decreases |packets|
  {
    if packets == [] {
      assert packets + [p] == [p];
      assert ReceiveAll(r, [p]) == ReceiveAll(Receive(r, p), [p][1..]);
    } else {
      assert (packets + [p])[1..] == packets[1..] + [p];
      ReceiveAllSnoc(Receive(r, packets[0]), packets[1..], p);
    }
  }

  /**
    What ALSA is given, for any packets at all: stretches of complete messages,
    each one that a lost frame cut off followed by a panic on all channels.
   */
  lemma {:induction false} AlsaSeesStretchesAndPanics(packets: seq<seq<Byte>>)
    ensures var e := ReceiveAll(Stretches(A.IDLE, [], []), packets); var r := FedAll(Rx(A.IDLE, []), packets);
            StretchesOk(e) && r == Rx(e.state, WithPanics(e))
  {
    if packets == [] {
      assert Parses([], [], [], false);
    } else {
      var n := |packets| - 1;
      var before, p := packets[..n], packets[n];
      AlsaSeesStretchesAndPanics(before);
      ReceiveAllSnoc(Stretches(A.IDLE, [], []), before, p);
      assert packets == before + [p];
      SilencedStep(ReceiveAll(Stretches(A.IDLE, [], []), before), p);
      ReceiveKeeps(ReceiveAll(Stretches(A.IDLE, [], []), before), p);
    }
  }

  /** The panic itself is complete messages. */
  lemma PanicIsWellFormed()
    ensures WellFormed(PANIC, false)
  {
    PanicIsComplete(CHANNELS);
    WholeParses(PanicTo(CHANNELS));
  }

  lemma SilencedStep(e: Stretches, p: seq<Byte>)
    ensures WithPanics(Receive(e, p)) == Fed(Rx(e.state, WithPanics(e)), p).out
  {
    var d := A.Decode(e.state, p);
    var cut := e.current + d.out;
    assert (e.closed + [cut])[..|e.closed|] == e.closed;
    assert Silenced(e.closed) + cut == Silenced(e.closed) + e.current + d.out;
  }

  lemma PanicIsNotEmpty()
    ensures PANIC != []
  {
    EncodeAllConcat(PanicTo(CHANNELS - 1), PanicMessages(CHANNELS - 1));
    ChannelBytes(CHANNELS - 1);
  }

  /** Something of the packet has been emitted, is held back, or has reset the decoder. */
  predicate Marked(c: A.Config) {
    c.out != [] || c.state.pendingStatus != 0 || c.mode == A.Aborted
  }

  lemma {:induction false} RunKeepsMark(c: A.Config, bs: seq<Byte>)
    requires Marked(c)
    ensures Marked(A.Run(c, bs))
    decreases |bs|
  {
    if bs != [] {
      RunKeepsMark(A.Step(c, bs[0]), bs[1..]);
    }
  }

  /** The packets an idle decoder passes over without a trace are exactly those too short to be looked at. */
  lemma {:induction false} OnlyShortPacketsDoNothing(packet: seq<Byte>)
    ensures Fed(Rx(A.IDLE, []), packet) == Rx(A.IDLE, []) <==> |packet| < 3
  {
    PanicIsNotEmpty();
    if |packet| >= 3 && packet[0] >= 0x80 {
      var c := A.Config(A.IDLE, A.AwaitTimestamp, []);
      var bs := packet[1..];
      A.RunUnroll(c, bs, 0);
      assert bs[0..] == bs;
      A.RunUnroll(A.Step(c, bs[0]), bs, 1);
      var d := A.Step(A.Step(c, bs[0]), bs[1]);
      assert Marked(d);
      RunKeepsMark(d, bs[2..]);
    }
  }

  // ---- the object ----

  /** A device on its receive side; the decoder's sink is the ALSA byte encoder. */
  class Receiver {
    const dev: D.DeviceRuntime
    const decoder: B.Decoder

    ghost predicate Valid()
      reads this, decoder
    {
      decoder.Valid()
    }

    ghost function Value(): Rx
      requires Valid()
      reads this, decoder, decoder.pendingData
    {
      Rx(decoder.View(), decoder.emitted)
    }

    constructor (dev: D.DeviceRuntime)
      ensures Valid() && this.dev == dev && Value() == Rx(A.IDLE, [])
      ensures fresh(decoder) && fresh(decoder.pendingData)
    {
      this.dev := dev;
      decoder := new B.Decoder();
    }

    method EmitController(ch: nat, controller: Byte)
      requires Valid() && ch < CHANNELS
      modifies decoder
      ensures Valid() && Value() == Rx(old(Value()).decoder, old(Value()).out + [0xB0 + ch, controller, 0])
    {
      decoder.EmitByte(0xB0 + ch);
      decoder.EmitByte(controller);
      decoder.EmitByte(0);
    }

    method EmitChannelPanic(ch: nat)
      requires Valid() && ch < CHANNELS
      modifies decoder
      ensures Valid() && Value() == Rx(old(Value()).decoder, old(Value()).out + EncodeAll(PanicMessages(ch)))
    {
      ghost var before := decoder.emitted;
      EmitController(ch, 64);
      EmitController(ch, 120);
      EmitController(ch, 123);
      decoder.EmitByte(0xE0 + ch);
      decoder.EmitByte(0x00);
      decoder.EmitByte(0x40);
      ChannelBytes(ch);
      assert decoder.emitted == before
        + ([0xB0 + ch, 64, 0] + [0xB0 + ch, 120, 0] + [0xB0 + ch, 123, 0] + [0xE0 + ch, 0x00, 0x40]);
    }

    method EmitPanic()
      requires Valid()
      modifies decoder
      ensures Valid() && Value() == Rx(old(Value()).decoder, old(Value()).out + PANIC)
    {
      ghost var before := decoder.emitted;
      var ch := 0;
      while ch < CHANNELS
        invariant 0 <= ch <= CHANNELS
        invariant Valid() && Value() == Rx(old(Value()).decoder, before + EncodeAll(PanicTo(ch)))
      {
        EmitChannelPanic(ch);
        EncodeAllConcat(PanicTo(ch), PanicMessages(ch));
        Associate(before, EncodeAll(PanicTo(ch)), EncodeAll(PanicMessages(ch)));
        ch := ch + 1;
      }
    }

    method DecodePacket(packet: seq<Byte>)
      requires Valid()
      modifies decoder, decoder.pendingData
      ensures Valid() && Value() == Fed(old(Value()), packet)
    {
      if |packet| < 3 {
        return;
      }
      var result := decoder.DecodePacket(packet);
      if result == A.InvalidHeader {
        decoder.Reset();
        EmitPanic();
      } else if result == A.Resync {
        EmitPanic();
      }
    }

    /** One queued item: decoded when the fence accepts it, otherwise dropped without a trace. */
    method Consume(packet: seq<Byte>, epoch: U64Int, timestamp: nat) returns (dropped: bool)
      requires Valid()
      modifies decoder, decoder.pendingData
      ensures Valid()
      ensures dropped <==> !F.Accepted(dev.FenceValue(), epoch, timestamp)
      ensures Value() == if dropped then old(Value()) else Fed(old(Value()), packet)
    {
      var accepted := dev.FenceAccept(epoch, timestamp);
      if !accepted {
        return true;
      }
      DecodePacket(packet);
      return false;
    }
  }
}
