/** Building one BLE-MIDI packet: header byte, timestamp byte, MIDI bytes (src/mb-ble-midi.c). */
module BleMidiPacket {
  import opened Bytes

  const PACKET_MAX := 20
  const MIDI_PER_PACKET := PACKET_MAX - 2

  /** A 16-bit unsigned timestamp; only its low 13 bits are sent. */
  type Timestamp = t: int | 0 <= t < 0x1_0000

  function Header(timestamp: Timestamp): (b: Byte)
    ensures !IsData(b)
  {
    0x80 + (timestamp % 0x2000) / 0x80
  }

  function TimeByte(timestamp: Timestamp): (b: Byte)
    ensures !IsData(b)
  {
    0x80 + timestamp % 0x80
  }

  function PacketOf(timestamp: Timestamp, midi: seq<Byte>): (p: seq<Byte>)
    ensures |p| == |midi| + 2
  {
    [Header(timestamp), TimeByte(timestamp)] + midi
  }

  /** A receiver can take every packet apart again: 13 bits of time and the MIDI bytes. */
  lemma PacketRoundTrip(timestamp: Timestamp, midi: seq<Byte>)
    ensures var p := PacketOf(timestamp, midi);
            p[2..] == midi && (p[0] as int - 0x80) * 0x80 + (p[1] as int - 0x80) == timestamp % 0x2000
  {
    assert (timestamp % 0x2000) % 0x80 == timestamp % 0x80;
  }

  method MakePacket(timestamp: Timestamp, midi: seq<Byte>, out: array<Byte>, capacity: nat)
    returns (ok: bool, outLen: nat)
    requires capacity <= out.Length
    modifies out
    ensures ok <==> midi != [] && |midi| + 2 <= capacity
    ensures ok ==> outLen <= capacity && out[..outLen] == PacketOf(timestamp, midi)
    ensures ok ==> out[outLen..] == old(out[..])[outLen..]
    ensures !ok ==> outLen == 0 && out[..] == old(out[..])
  {
    outLen := 0;
    if |midi| == 0 || |midi| + 2 > capacity {
      return false, 0;
    }
    var ts := timestamp % 0x2000;
    out[0] := 0x80 + (ts / 0x80) % 0x40;
    out[1] := 0x80 + ts % 0x80;
    var k := 0;
    while k < |midi|
      invariant 0 <= k <= |midi|
      invariant out[0] == Header(timestamp) && out[1] == TimeByte(timestamp)
      invariant out[2..k + 2] == midi[..k]
      invariant forall j | k + 2 <= j < out.Length :: out[j] == old(out[j])
    {
      out[k + 2] := midi[k];
      k := k + 1;
    }
    outLen := |midi| + 2;
    assert out[..outLen] == PacketOf(timestamp, midi) by {
      assert out[2..outLen] == midi;
      assert out[..outLen] == [out[0], out[1]] + out[2..outLen];
    }
    ok := true;
  }
}
