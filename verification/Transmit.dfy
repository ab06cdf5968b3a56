/** The chunked transmit loop of src/mb-daemon.c, and transmission end to end. */
module Transmit {
  import opened Bytes
  import opened BleMidiPacket
  import opened MidiAutomaton
  import opened MidiStream
  import opened MidiTransport

  function Min(a: nat, b: nat): nat {
    if a < b then a else b
  }

  function ChunkCount(midi: seq<Byte>): nat {
    (|midi| + MIDI_PER_PACKET - 1) / MIDI_PER_PACKET
  }

  /** The k-th cut of at most 18 MIDI bytes. */
  function ChunkAt(midi: seq<Byte>, k: nat): (c: seq<Byte>)
    requires k < ChunkCount(midi)
    ensures 0 < |c| <= MIDI_PER_PACKET
  {
    midi[MIDI_PER_PACKET * k..Min(MIDI_PER_PACKET * (k + 1), |midi|)]
  }

  /** `sent` are the packets of the first cuts of `midi`, in order and nothing else. */
  ghost predicate Wrote(midi: seq<Byte>, clock: nat -> Timestamp, sent: seq<seq<Byte>>) {
    && |sent| <= ChunkCount(midi)
    && forall k | 0 <= k < |sent| :: |sent[k]| <= PACKET_MAX && sent[k] == PacketOf(clock(k), ChunkAt(midi, k))
  }

  /** Chunk `k` goes out: the fence is open at its check and its write succeeds. */
  predicate GoesOut(fenceOpen: nat -> bool, writeOk: nat -> bool, k: nat) {
    fenceOpen(k + 1) && writeOk(k)
  }

  /** Nothing outside stops the item: the fence stays open at every check and every write succeeds. */
  ghost predicate Undisturbed(midi: seq<Byte>, hasPath: bool, fenceOpen: nat -> bool, writeOk: nat -> bool) {
    fenceOpen(0) && hasPath && forall k | 0 <= k < ChunkCount(midi) :: GoesOut(fenceOpen, writeOk, k)
  }

  lemma NextChunk(midi: seq<Byte>, k: nat, off: nat)
    requires off == Min(MIDI_PER_PACKET * k, |midi|) < |midi|
    ensures k < ChunkCount(midi)
    ensures var chunk := Min(MIDI_PER_PACKET, |midi| - off);
            midi[off..off + chunk] == ChunkAt(midi, k) && off + chunk == Min(MIDI_PER_PACKET * (k + 1), |midi|)
  {
  }

  lemma WroteNext(midi: seq<Byte>, clock: nat -> Timestamp, sent: seq<seq<Byte>>, packet: seq<Byte>)
    requires Wrote(midi, clock, sent) && |sent| < ChunkCount(midi)
    requires packet == PacketOf(clock(|sent|), ChunkAt(midi, |sent|))
    ensures Wrote(midi, clock, sent + [packet])
  {
  }

  lemma AllChunksSent(midi: seq<Byte>, n: nat)
    requires n <= ChunkCount(midi)
    ensures Min(MIDI_PER_PACKET * n, |midi|) == |midi| <==> n == ChunkCount(midi)
  {
  }

  /** The first `n` chunks went out. */
  ghost predicate FirstWentOut(fenceOpen: nat -> bool, writeOk: nat -> bool, n: nat) {
    forall k | 0 <= k < n :: GoesOut(fenceOpen, writeOk, k)
  }

  /** How the loop can end, `sent` chunks having gone out. */
  ghost predicate Ended(midi: seq<Byte>, hasPath: bool, fenceOpen: nat -> bool, writeOk: nat -> bool,
                        sent: nat, ok: bool, writeFailed: bool) {
    && sent <= ChunkCount(midi) && FirstWentOut(fenceOpen, writeOk, sent)
    && (ok <==> sent == ChunkCount(midi))
    && (midi != [] && !(fenceOpen(0) && hasPath) ==> sent == 0 && !writeFailed)
    && (ok ==> !writeFailed)
    && (!ok && fenceOpen(0) && hasPath ==> !GoesOut(fenceOpen, writeOk, sent) && (writeFailed <==> fenceOpen(sent + 1)))
  }

  lemma EndedMeans(midi: seq<Byte>, hasPath: bool, fenceOpen: nat -> bool, writeOk: nat -> bool,
                   sent: nat, ok: bool, writeFailed: bool)
    requires Ended(midi, hasPath, fenceOpen, writeOk, sent, ok, writeFailed)
    ensures ok <==> midi == [] || Undisturbed(midi, hasPath, fenceOpen, writeOk)
    ensures writeFailed <==> midi != [] && fenceOpen(0) && hasPath && !ok && fenceOpen(sent + 1)
    ensures writeFailed ==> !writeOk(sent)
  {
    if midi != [] {
      assert ChunkCount(midi) > 0;
      if !ok && fenceOpen(0) && hasPath {
        assert sent < ChunkCount(midi) && !GoesOut(fenceOpen, writeOk, sent);
      }
    }
  }

  /** One turn of the loop: the packet of the chunk at `off`. */
  method BuildPacket(midi: seq<Byte>, off: nat, ghost k: nat, timestamp: Timestamp)
    returns (packet: seq<Byte>, chunk: nat)
    requires off == Min(MIDI_PER_PACKET * k, |midi|) < |midi|
    ensures k < ChunkCount(midi) && packet == PacketOf(timestamp, ChunkAt(midi, k))
    ensures off + chunk == Min(MIDI_PER_PACKET * (k + 1), |midi|) && chunk > 0
  {
    chunk := |midi| - off;
    if chunk > MIDI_PER_PACKET {
      chunk := MIDI_PER_PACKET;
    }
    NextChunk(midi, k, off);
    var buffer := new Byte[PACKET_MAX](_ => 0);
    var made, packetLen := MakePacket(timestamp, midi[off..off + chunk], buffer, PACKET_MAX);
    assert made;
    packet := buffer[..packetLen];
  }

  /**
    `fenceOpen(0)` is the check on entry and `fenceOpen(k + 1)` the one before
    chunk k; `writeOk(k)` is the outcome of the k-th GATT write. `sent` are the
    packets whose write succeeded, `writeFailed` whether a write failure was reported.
   */
  method WritePacket(midi: seq<Byte>, hasPath: bool, fenceOpen: nat -> bool,
                     clock: nat -> Timestamp, writeOk: nat -> bool)
    returns (ok: bool, sent: seq<seq<Byte>>, writeFailed: bool)
    ensures Wrote(midi, clock, sent)
    ensures ok <==> midi == [] || Undisturbed(midi, hasPath, fenceOpen, writeOk)
    ensures ok <==> |sent| == ChunkCount(midi)
    ensures writeFailed <==> midi != [] && fenceOpen(0) && hasPath && !ok && fenceOpen(|sent| + 1)
    ensures writeFailed ==> !writeOk(|sent|)
    ensures FirstWentOut(fenceOpen, writeOk, |sent|) && (sent != [] ==> fenceOpen(0) && hasPath)
  {
    ok, sent, writeFailed := SendChunks(midi, hasPath, fenceOpen, clock, writeOk);
    EndedMeans(midi, hasPath, fenceOpen, writeOk, |sent|, ok, writeFailed);
  }

  /** The early returns and the loop. */
  method SendChunks(midi: seq<Byte>, hasPath: bool, fenceOpen: nat -> bool,
                    clock: nat -> Timestamp, writeOk: nat -> bool)
    returns (ok: bool, sent: seq<seq<Byte>>, writeFailed: bool)
    ensures Wrote(midi, clock, sent)
    ensures Ended(midi, hasPath, fenceOpen, writeOk, |sent|, ok, writeFailed)
  {
    sent, writeFailed := [], false;
    if |midi| == 0 {
      return true, [], false;
    }
    if !fenceOpen(0) || !hasPath {
      return false, [], false;
    }
    var off := 0;
    ok := true;
    while off < |midi|
      invariant 0 <= off <= |midi|
      invariant Wrote(midi, clock, sent)
      invariant off == Min(MIDI_PER_PACKET * |sent|, |midi|)
      invariant FirstWentOut(fenceOpen, writeOk, |sent|)
      decreases |midi| - off
    {
      if !fenceOpen(|sent| + 1) {
        AllChunksSent(midi, |sent|);
        return false, sent, false;
      }
      var packet, chunk := BuildPacket(midi, off, |sent|, clock(|sent|));
      if !writeOk(|sent|) {
        return false, sent, true;
      }
      WroteNext(midi, clock, sent, packet);
      sent := sent + [packet];
      off := off + chunk;
    }
    AllChunksSent(midi, |sent|);
  }

  // ---- the bytes that went out ----

  /** The MIDI bytes of packets: what follows header and timestamp. */
  function Payload(sent: seq<seq<Byte>>): seq<Byte> {
    if sent == [] then []
    else Payload(sent[..|sent| - 1]) + (if |sent[|sent| - 1]| >= 2 then sent[|sent| - 1][2..] else [])
  }

  lemma {:induction false} PayloadIsPrefix(midi: seq<Byte>, clock: nat -> Timestamp, sent: seq<seq<Byte>>)
    requires Wrote(midi, clock, sent)
    ensures Payload(sent) == midi[..Min(MIDI_PER_PACKET * |sent|, |midi|)]
    decreases |sent|
  {
    if sent != [] {
      var n := |sent| - 1;
      assert Wrote(midi, clock, sent[..n]);
      PayloadIsPrefix(midi, clock, sent[..n]);
      CountBounds(midi);
      assert sent[n] == PacketOf(clock(n), ChunkAt(midi, n));
      assert sent[n][2..] == ChunkAt(midi, n);
      PrefixGrows(midi, MIDI_PER_PACKET * n, Min(MIDI_PER_PACKET * (n + 1), |midi|));
    }
  }

  /** The bytes written for an item are always a prefix of it, cut at a multiple of 18 or whole. */
  lemma {:induction false} WrittenIsPrefix(midi: seq<Byte>, clock: nat -> Timestamp, sent: seq<seq<Byte>>)
    requires Wrote(midi, clock, sent)
    ensures Payload(sent) == midi[..Min(MIDI_PER_PACKET * |sent|, |midi|)]
    ensures Payload(sent) == midi <==> |sent| == ChunkCount(midi)
  {
    PayloadIsPrefix(midi, clock, sent);
    AllChunksSent(midi, |sent|);
    var n := Min(MIDI_PER_PACKET * |sent|, |midi|);
    assert |midi[..n]| == n;
  }

  lemma PrefixGrows(s: seq<Byte>, a: nat, b: nat)
    requires a <= b <= |s|
    ensures s[..a] + s[a..b] == s[..b]
  {
  }

  lemma CountBounds(midi: seq<Byte>)
    ensures |midi| <= MIDI_PER_PACKET * ChunkCount(midi) < |midi| + MIDI_PER_PACKET
  {
  }

  // ---- end to end ----

  function CutFrom(midi: seq<Byte>, clock: nat -> Timestamp, k: nat): (cs: seq<Chunk>)
    requires k <= ChunkCount(midi)
    ensures |cs| == ChunkCount(midi) - k
    decreases ChunkCount(midi) - k
  {
    if k == ChunkCount(midi) then []
    else [Chunk(clock(k), ChunkAt(midi, k))] + CutFrom(midi, clock, k + 1)
  }

  lemma {:induction false} CutIsWhole(midi: seq<Byte>, clock: nat -> Timestamp, k: nat)
    requires k <= ChunkCount(midi)
    ensures NonEmptyChunks(CutFrom(midi, clock, k))
    ensures Joined(CutFrom(midi, clock, k)) == midi[Min(MIDI_PER_PACKET * k, |midi|)..]
    decreases ChunkCount(midi) - k
  {
    if k < ChunkCount(midi) {
      CutIsWhole(midi, clock, k + 1);
      assert CutFrom(midi, clock, k)[1..] == CutFrom(midi, clock, k + 1);
    }
  }

  lemma {:induction false} SentIsCut(midi: seq<Byte>, clock: nat -> Timestamp, sent: seq<seq<Byte>>, k: nat)
    requires Wrote(midi, clock, sent) && |sent| == ChunkCount(midi) && k <= |sent|
    ensures sent[k..] == Packets(CutFrom(midi, clock, k))
    decreases |sent| - k
  {
    if k < |sent| {
      SentIsCut(midi, clock, sent, k + 1);
      var cs := CutFrom(midi, clock, k);
      assert cs[1..] == CutFrom(midi, clock, k + 1);
      assert sent[k..] == [sent[k]] + sent[k + 1..];
    }
  }

  function AsItem(m: Message): Item {
    match m
    case Single(b) => OneByte(b)
    case Short(status, data) => ShortItem(status, data, false)
    case SysEx(body) => SysExItem(body)
  }

  function AsItems(ms: seq<Message>): (items: seq<Item>)
    ensures |items| == |ms| && forall i | 0 <= i < |ms| :: items[i] == AsItem(ms[i])
  {
    if ms == [] then [] else [AsItem(ms[0])] + AsItems(ms[1..])
  }

  lemma MessageIsSendable(m: Message, last: Byte)
    requires Complete(m)
    ensures Sendable(AsItem(m), last) && Wire(AsItem(m)) == Encode(m) && Expanded(AsItem(m)) == Encode(m)
    ensures LastOk(last) ==> LastOk(StatusAfter(AsItem(m), last))
  {
    if m.Short? {
      DataOfAllData(m.data);
      RealtimeOfData(m.data);
    }
  }

  lemma {:induction false} MessagesAreSendable(ms: seq<Message>, last: Byte)
    requires forall i | 0 <= i < |ms| :: Complete(ms[i])
    ensures AllSendable(AsItems(ms), last) && ExpandedAll(AsItems(ms)) == EncodeAll(ms)
    decreases |ms|
  {
    if ms != [] {
      MessageIsSendable(ms[0], last);
      assert AsItems(ms)[1..] == AsItems(ms[1..]);
      MessagesAreSendable(ms[1..], StatusAfter(AsItem(ms[0]), last));
    }
  }

  /** What the worker wrote for a list of queued items, every write having succeeded. */
  ghost predicate WroteAll(items: seq<Item>, clocks: seq<nat -> Timestamp>, sent: seq<seq<seq<Byte>>>) {
    && |clocks| == |sent| == |items|
    && forall i | 0 <= i < |items| ::
         Wrote(Wire(items[i]), clocks[i], sent[i]) && |sent[i]| == ChunkCount(Wire(items[i]))
  }

  /** The cuts the worker made, as chunk lists. */
  function CutsFor(items: seq<Item>, clocks: seq<nat -> Timestamp>): (cuts: seq<seq<Chunk>>)
    requires |clocks| == |items|
    ensures |cuts| == |items| && forall i | 0 <= i < |items| :: cuts[i] == CutFrom(Wire(items[i]), clocks[i], 0)
  {
    if items == [] then [] else [CutFrom(Wire(items[0]), clocks[0], 0)] + CutsFor(items[1..], clocks[1..])
  }

  lemma {:induction false} SentPackets(items: seq<Item>, clocks: seq<nat -> Timestamp>, sent: seq<seq<seq<Byte>>>)
    requires WroteAll(items, clocks, sent)
    ensures Concat(sent) == AllPackets(CutsFor(items, clocks))
    decreases |items|
  {
    if items != [] {
      assert Wrote(Wire(items[0]), clocks[0], sent[0]) && |sent[0]| == ChunkCount(Wire(items[0]));
      SentIsCut(Wire(items[0]), clocks[0], sent[0], 0);
      assert sent[0][0..] == sent[0];
      assert WroteAll(items[1..], clocks[1..], sent[1..]) by {
        forall i | 0 <= i < |items[1..]|
          ensures Wrote(Wire(items[1..][i]), clocks[1..][i], sent[1..][i])
          ensures |sent[1..][i]| == ChunkCount(Wire(items[1..][i]))
        {
          assert Wrote(Wire(items[i + 1]), clocks[i + 1], sent[i + 1]);
        }
      }
      SentPackets(items[1..], clocks[1..], sent[1..]);
      assert CutsFor(items, clocks)[1..] == CutsFor(items[1..], clocks[1..]);
    } else {
      assert sent == [];
    }
  }

  /**
    End to end: for any list of queued single messages, with repeated channel
    statuses dropped as MIDI allows, when no write fails, a decoder starting idle
    turns the packets back into exactly the fully expanded messages.
   */
  lemma TransmitRoundTrip(items: seq<Item>, clocks: seq<nat -> Timestamp>, sent: seq<seq<seq<Byte>>>)
    requires AllSendable(items, 0) && WroteAll(items, clocks, sent)
    ensures DecodeAll(IDLE, Concat(sent)).out == ExpandedAll(items)
    ensures DecodeAll(IDLE, Concat(sent)).state == Quiet(StatusAfterAll(items, 0))
    ensures AllResultsOk(DecodeAll(IDLE, Concat(sent)).results)
  {
    SentPackets(items, clocks, sent);
    var cuts := CutsFor(items, clocks);
    assert CutsOf(items, cuts) by {
      forall i | 0 <= i < |items| ensures NonEmptyChunks(cuts[i]) && Joined(cuts[i]) == Wire(items[i]) {
        CutIsWhole(Wire(items[i]), clocks[i], 0);
        assert Wire(items[i])[0..] == Wire(items[i]);
      }
    }
    RunningStatusStream(items, 0, cuts);
  }

  /** When every message is queued with its status, the packets decode to exactly their concatenation. */
  lemma WholeMessagesRoundTrip(ms: seq<Message>, clocks: seq<nat -> Timestamp>, sent: seq<seq<seq<Byte>>>)
    requires forall i | 0 <= i < |ms| :: Complete(ms[i])
    requires WroteAll(AsItems(ms), clocks, sent)
    ensures DecodeAll(IDLE, Concat(sent)).out == EncodeAll(ms)
    ensures AllResultsOk(DecodeAll(IDLE, Concat(sent)).results)
  {
    MessagesAreSendable(ms, 0);
    TransmitRoundTrip(AsItems(ms), clocks, sent);
  }
}
