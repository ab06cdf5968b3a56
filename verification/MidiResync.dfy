/**
  What a rejected packet leaves behind: exactly the output of its accepted part,
  in an idle decoder, with nothing closed, completed or invented.
 */
module MidiResync {
  import opened Bytes
  import opened BleMidiPacket
  import opened MidiAutomaton
  import opened MidiStream
  import opened MidiTransport

  // ---- the accepted part ----

  lemma AbortIsSilent(c: Config, b: Byte)
    requires c.mode != Aborted && Step(c, b).mode == Aborted
    ensures Step(c, b) == Config(IDLE, Aborted, c.out)
  {
  }

  lemma {:induction false} RejectedAt(c: Config, bs: seq<Byte>) returns (n: nat)
    requires c.mode != Aborted && Run(c, bs).mode == Aborted
    ensures n < |bs| && Run(c, bs[..n]).mode != Aborted
    ensures Run(c, bs) == Config(IDLE, Aborted, Run(c, bs[..n]).out)
    ensures forall k | n < k <= |bs| :: Run(c, bs[..k]).mode == Aborted
    decreases |bs|
  {
    var last := |bs| - 1;
    assert bs == bs[..last] + [bs[last]];
    RunSnoc(c, bs[..last], bs[last]);
    if Run(c, bs[..last]).mode != Aborted {
      n := last;
      AbortIsSilent(Run(c, bs[..last]), bs[last]);
      assert bs[..|bs|] == bs;
    } else {
      n := RejectedAt(c, bs[..last]);
      assert bs[..last][..n] == bs[..n];
      forall k | n < k <= |bs| ensures Run(c, bs[..k]).mode == Aborted {
        if k < |bs| {
          assert bs[..last][..k] == bs[..k];
        } else {
          assert bs[..k] == bs;
        }
      }
    }
  }

  lemma OneTimestamp(s: State, b: Byte)
    ensures Run(Config(s, AwaitTimestamp, []), [b]).out == []
  {
    assert [b][1..] == [];
  }

  /**
    For every state: a packet that ends in Resync has emitted exactly what its
    longest part that is not rejected emits, and the decoder is idle again.
   */
  lemma {:induction false} ResyncKeepsAcceptedPart(s: State, packet: seq<Byte>) returns (n: nat)
    requires Decode(s, packet).result == Resync
    ensures n < |packet| && Decode(s, packet[..n]).result in {Ok, Ignored}
    ensures forall k | n < k <= |packet| :: Decode(s, packet[..k]).result == Resync
    ensures Decode(s, packet) == Decoded(IDLE, Decode(s, packet[..n]).out, Resync)
  {
    var c, bs := Config(s, AwaitTimestamp, []), packet[1..];
    var m := RejectedAt(c, bs);
    n := if m == 0 then 2 else m + 1;
    forall k | 0 < k <= |packet| ensures packet[..k][1..] == bs[..k - 1] {
    }
    if m == 1 {
      assert bs[..1] == [bs[0]];
      OneTimestamp(s, bs[0]);
    }
    forall k | n < k <= |packet| ensures Decode(s, packet[..k]).result == Resync {
      assert Run(c, bs[..k - 1]).mode == Aborted;
    }
  }

  /** A packet too short or without a header byte emits nothing; only the latter forgets what was pending. */
  lemma UnreadableIsSilent(s: State, packet: seq<Byte>)
    requires |packet| < 3 || IsData(packet[0])
    ensures Decode(s, packet) == if |packet| < 3 then Decoded(s, [], Ignored) else Decoded(IDLE, [], InvalidHeader)
  {
  }

  // ---- a message cut off by a status byte ----

  lemma CutOff(s: State, t: Timestamp, body: seq<Byte>, b: Byte, rest: seq<Byte>, c: Config)
    requires body != [] ==> Run(Config(s, AwaitFirst, []), body) == c
    requires body == [] ==> c == Config(s, AwaitFirst, [])
    requires c.mode != Aborted && Step(c, b).mode == Aborted
    ensures Decode(s, PacketOf(t, body + [b] + rest)) == Decoded(IDLE, c.out, Resync)
  {
    DecodePacketOf(s, t, body + [b] + rest);
    RunConcat(Config(s, AwaitFirst, []), body + [b], rest);
    RunSnoc(Config(s, AwaitFirst, []), body, b);
    AbortIsSilent(c, b);
    RunAborted(Step(c, b), rest);
  }

  /**
    With a SysEx open, a status byte other than its end or real time resets the
    decoder; the receiver has got the bytes before it, and no end of SysEx.
   */
  lemma OpenSysExIsCutOff(s: State, t: Timestamp, body: seq<Byte>, b: Byte, rest: seq<Byte>)
    requires s.sysex && AllInner(body) && !IsInner(b) && b != 0xF7
    ensures Decode(s, PacketOf(t, body + [b] + rest)) == Decoded(IDLE, body, Resync)
  {
    if body == [] {
      CutOff(s, t, body, b, rest, Config(s, AwaitFirst, []));
    } else {
      var c := Config(s, InSysEx, []);
      SysExRun(c, body);
      assert Step(c, body[0]) == Step(c.(mode := AwaitFirst), body[0]);
      assert [] + body == body;
      CutOff(s, t, body, b, rest, Config(s, InSysEx, body));
    }
  }

  /** A short message cut off by any status byte but real time: only the real time bytes were emitted. */
  lemma ShortMessageIsCutOff(s: State, t: Timestamp, body: seq<Byte>, b: Byte, rest: seq<Byte>)
    requires StateOk(s) && s.pendingStatus != 0 && AllInner(body) && !IsInner(b)
    requires |s.data| + |DataOf(body)| < s.expected
    ensures Decode(s, PacketOf(t, body + [b] + rest)) == Decoded(IDLE, RealtimeOf(body), Resync)
  {
    if body == [] {
      CutOff(s, t, body, b, rest, Config(s, AwaitFirst, []));
    } else {
      var c := Config(s, InPending, []);
      PendingRun(c, body);
      assert Step(c, body[0]) == Step(c.(mode := AwaitFirst), body[0]);
      assert [] + RealtimeOf(body) == RealtimeOf(body);
      CutOff(s, t, body, b, rest, Config(s.(data := s.data + DataOf(body)), InPending, RealtimeOf(body)));
    }
  }

  // ---- no invented end of SysEx ----

  function Ends(bs: seq<Byte>): nat {
    multiset(bs)[0xF7]
  }

  lemma EndsConcat(a: seq<Byte>, b: seq<Byte>)
    ensures Ends(a + b) == Ends(a) + Ends(b)
  {
  }

  lemma {:induction false} PendingInventsNoEnd(c: Config, b: Byte)
    requires c.state.pendingStatus != 0xF7 && AllData(c.state.data)
    ensures Ends(PendingByte(c, b).out) <= Ends(c.out) + Ends([b])
  {
    var s := c.state;
    EndsConcat(c.out, [b]);
    var message := [s.pendingStatus] + s.data + [b];
    EndsConcat(c.out, message);
    assert c.out + message == c.out + [s.pendingStatus] + s.data + [b];
    EndsConcat([s.pendingStatus] + s.data, [b]);
  }

  lemma {:induction false} StepInventsNoEnd(c: Config, b: Byte)
    requires StateOk(c.state) && ModeOk(c.state, c.mode)
    ensures Ends(Step(c, b).out) <= Ends(c.out) + Ends([b])
  {
    var s := c.state;
    EndsConcat(c.out, [b]);
    if c.mode == InPending || (c.mode == AwaitFirst && !s.sysex && s.pendingStatus != 0) {
      PendingInventsNoEnd(c, b);
    } else if c.mode == AwaitFirst && !s.sysex && StatusDataLen(s.running) > 0 {
      PendingInventsNoEnd(
        c.(state := s.(pendingStatus := s.running, data := [], expected := StatusDataLen(s.running))), b);
    }
  }

  lemma {:induction false} RunInventsNoEnd(c: Config, bs: seq<Byte>)
    requires StateOk(c.state) && ModeOk(c.state, c.mode)
    ensures StateOk(Run(c, bs).state) && Ends(Run(c, bs).out) <= Ends(c.out) + Ends(bs)
    decreases |bs|
  {
    if bs != [] {
      StepKeepsState(c, bs[0]);
      StepInventsNoEnd(c, bs[0]);
      RunInventsNoEnd(Step(c, bs[0]), bs[1..]);
      EndsConcat([bs[0]], bs[1..]);
      assert [bs[0]] + bs[1..] == bs;
    }
  }

  /** Over any packets, rejected ones included, no more ends of SysEx are emitted than were received. */
  lemma {:induction false} NoEndIsInvented(s: State, packets: seq<seq<Byte>>)
    requires StateOk(s)
    ensures Ends(DecodeAll(s, packets).out) <= Ends(Concat(packets))
    decreases |packets|
  {
    if packets != [] {
      var p := packets[0];
      var d := Decode(s, p);
      if |p| >= 3 && p[0] >= 0x80 {
        RunInventsNoEnd(Config(s, AwaitTimestamp, []), p[1..]);
        EndsConcat([p[0]], p[1..]);
        assert [p[0]] + p[1..] == p;
      }
      NoEndIsInvented(d.state, packets[1..]);
      EndsConcat(d.out, DecodeAll(d.state, packets[1..]).out);
      EndsConcat(p, Concat(packets[1..]));
    }
  }
}
