/** What the panic of src/mb-daemon.c does to an instrument that plays it. */
module Panic {
  import opened Bytes
  import opened MidiStream
  import opened ReceivePath

  /** One MIDI channel of an instrument: the notes that sound, the sustain pedal, the pitch bend. */
  datatype Channel = Channel(notes: set<Byte>, sustain: bool, bend: nat)

  const CENTRE := 0x2000
  const SILENT := Channel({}, false, CENTRE)

  /** A channel message, as the MIDI 1.0 Detailed Specification has it (Channel Voice and Channel Mode Messages). */
  function Hears(c: Channel, family: nat, a: Byte, b: Byte): Channel {
    if family == 0x9 && b > 0 then c.(notes := c.notes + {a})
    else if family == 0x8 || family == 0x9 then c.(notes := c.notes - {a})
    else if family == 0xB && a == 64 then c.(sustain := b >= 64)
    else if family == 0xB && (a == 120 || (a == 123 && !c.sustain)) then c.(notes := {})
    else if family == 0xE then c.(bend := a + 0x80 * b)
    else c
  }

  function Play(y: seq<Channel>, m: Message): (z: seq<Channel>)
    requires |y| == CHANNELS
    ensures |z| == CHANNELS
  {
    if m.Short? && 0x80 <= m.status < 0xF0 && |m.data| == 2 then
      y[m.status % 16 := Hears(y[m.status % 16], m.status / 16, m.data[0], m.data[1])]
    else y
  }

  function PlayAll(y: seq<Channel>, ms: seq<Message>): (z: seq<Channel>)
    requires |y| == CHANNELS
    ensures |z| == CHANNELS
    decreases |ms|
  {
    if ms == [] then y else PlayAll(Play(y, ms[0]), ms[1..])
  }

  lemma {:induction false} PlayConcat(y: seq<Channel>, a: seq<Message>, b: seq<Message>)
    requires |y| == CHANNELS
    ensures PlayAll(y, a + b) == PlayAll(PlayAll(y, a), b)
    decreases |a|
  {
    if a == [] {
      assert a + b == b;
    } else {
      assert (a + b)[1..] == a[1..] + b;
      PlayConcat(Play(y, a[0]), a[1..], b);
    }
  }

  lemma FourMessages(y: seq<Channel>, a: Message, b: Message, c: Message, d: Message)
    requires |y| == CHANNELS
    ensures PlayAll(y, [a, b, c, d]) == Play(Play(Play(Play(y, a), b), c), d)
  {
    assert [a, b, c, d][1..] == [b, c, d] && [b, c, d][1..] == [c, d] && [c, d][1..] == [d] && [d][1..] == [];
    var z := Play(Play(y, a), b);
    assert PlayAll(y, [a, b, c, d]) == PlayAll(Play(y, a), [b, c, d]) == PlayAll(z, [c, d]);
    assert PlayAll(z, [c, d]) == PlayAll(Play(z, c), [d]) == PlayAll(Play(Play(z, c), d), []);
  }

  lemma {:induction false} ChannelIsSilenced(y: seq<Channel>, ch: nat)
    requires |y| == CHANNELS && ch < CHANNELS
    ensures PlayAll(y, PanicMessages(ch)) == y[ch := SILENT]
  {
    var ms := PanicMessages(ch);
    assert ms == [ms[0], ms[1], ms[2], ms[3]];
    FourMessages(y, ms[0], ms[1], ms[2], ms[3]);
    assert (0xB0 + ch) % 16 == ch == (0xE0 + ch) % 16 && (0xB0 + ch) / 16 == 0xB && (0xE0 + ch) / 16 == 0xE;
  }

  lemma {:induction false} ChannelsAreSilenced(y: seq<Channel>, n: nat)
    requires |y| == CHANNELS && n <= CHANNELS
    ensures forall ch | 0 <= ch < CHANNELS :: PlayAll(y, PanicTo(n))[ch] == if ch < n then SILENT else y[ch]
  {
    if n > 0 {
      ChannelsAreSilenced(y, n - 1);
      PlayConcat(y, PanicTo(n - 1), PanicMessages(n - 1));
      ChannelIsSilenced(PlayAll(y, PanicTo(n - 1)), n - 1);
    }
  }

  /**
    Whatever an instrument has been playing, after the panic no note sounds on any
    of its sixteen channels, no pedal is held and every pitch bend is centred.
   */
  lemma PanicSilences(y: seq<Channel>)
    requires |y| == CHANNELS
    ensures EncodeAll(PanicTo(CHANNELS)) == PANIC
    ensures forall ch | 0 <= ch < CHANNELS :: PlayAll(y, PanicTo(CHANNELS))[ch] == SILENT
  {
    ChannelsAreSilenced(y, CHANNELS);
  }
}
