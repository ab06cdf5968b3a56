/**
  The receive worker and the session thread of src/mb-daemon.c side by side: what
  ALSA is given in one streaming period, and when it stems from that period alone.
 */
module ReceivePeriods {
  import opened Bytes
  import opened ReceivePath
  import opened Words
  import opened Wrappers
  import A = MidiAutomaton
  import D = Dataplane
  import F = Fence
  import S = Session

  /**
    `resetDue` while the session thread has closed the fence and not yet reset
    the decoder; `checked` is the item the worker has let through the fence and
    not yet decoded. `packets` and `given` record what was let through, and what
    ALSA was given, since the last opening.
   */
  datatype System = System(
    dev: D.Device, decoder: A.State, resetDue: bool, checked: Option<seq<Byte>>,
    packets: seq<seq<Byte>>, given: seq<Byte>)

  datatype Step =
    | Event(e: S.Event, now: nat)
    | Reset
    | Check(epoch: U64Int, timestamp: nat, packet: seq<Byte>)
    | Decode

  predicate Enabled(s: System, step: Step) {
    match step
    case Event(_, _) => !s.resetDue
    case Reset => s.resetDue
    case Check(_, _, _) => s.checked.None?
    case Decode => s.checked.Some?
  }

  function After(s: System, step: Step): System
    requires Enabled(s, step)
  {
    match step
    case Event(e, now) =>
      var d := D.Handle(s.dev, e, now);
      if !s.dev.fence.streaming && d.fence.streaming then s.(dev := d, packets := [], given := [])
      else s.(dev := d, resetDue := s.dev.fence.streaming && !d.fence.streaming)
    case Reset => s.(decoder := A.IDLE, resetDue := false)
    case Check(epoch, timestamp, packet) =>
      if F.Accepted(s.dev.fence, epoch, timestamp) then s.(checked := Some(packet), packets := s.packets + [packet])
      else s
    case Decode =>
      var r := Fed(Rx(s.decoder, s.given), s.checked.value);
      s.(decoder := r.decoder, given := r.out, checked := None)
  }

  function Start(auto: bool): System {
    System(D.Run(auto, []), A.IDLE, false, None, [], [])
  }

  /** What a fresh decoder makes of packets. */
  function FromIdle(packets: seq<seq<Byte>>): Rx {
    FedAll(Rx(A.IDLE, []), packets)
  }

  /** The packets of this period that the worker is through with; an item let through earlier is not among them. */
  function Decoded(s: System): seq<seq<Byte>> {
    if s.checked.Some? && s.packets != [] then s.packets[..|s.packets| - 1] else s.packets
  }

  /** Decoder and output are what a fresh decoder makes of this period's own packets. */
  predicate OwnPacketsOnly(s: System) {
    Rx(s.decoder, s.given) == FromIdle(Decoded(s))
  }

  /** An item long enough to be decoded is between the fence check and the decoder. */
  predicate Caught(s: System) {
    s.checked.Some? && |s.checked.value| >= 3
  }

  /** The fence is open exactly in STREAMING, and a reset is due only behind a closed fence. */
  predicate Coupled(s: System) {
    (s.dev.fence.streaming <==> s.dev.session.state == S.STREAMING) && (s.resetDue ==> !s.dev.fence.streaming)
  }

  // ---- runs without a caught item ----

  ghost predicate Clean(s: System) {
    && (s.dev.fence.streaming ==>
          && OwnPacketsOnly(s)
          && (s.checked.Some? && s.packets != [] ==> s.packets[|s.packets| - 1] == s.checked.value)
          && (s.packets == [] ==> !Caught(s)))
    && (!s.dev.fence.streaming && !s.resetDue ==> s.decoder == A.IDLE && !Caught(s))
    && (s.resetDue ==> !s.dev.fence.streaming)
  }

  lemma FromIdleSnoc(packets: seq<seq<Byte>>, p: seq<Byte>)
    ensures FromIdle(packets + [p]) == Fed(FromIdle(packets), p)
  {
    assert (packets + [p])[..|packets|] == packets;
  }

  lemma ShortPacketDoesNothing(r: Rx, p: seq<Byte>)
    requires |p| < 3
    ensures Fed(r, p) == r
  {
    assert r.out + [] + [] == r.out;
  }

  lemma {:induction false} DecodeKeepsClean(s: System)
    requires Clean(s) && s.checked.Some?
    ensures Clean(After(s, Decode))
  {
    if !Caught(s) {
      ShortPacketDoesNothing(Rx(s.decoder, s.given), s.checked.value);
    }
    if s.dev.fence.streaming && s.packets != [] {
      FromIdleSnoc(Decoded(s), s.checked.value);
      assert s.packets == Decoded(s) + [s.checked.value];
    }
  }

  /** Cleanness survives every step but a reset that finds a caught item. */
  lemma {:induction false} StepKeepsClean(s: System, step: Step)
    requires Clean(s) && Enabled(s, step) && (step == Reset ==> !Caught(s))
    ensures Clean(After(s, step))
  {
    match step
    case Event(e, now) =>
    case Reset =>
    case Check(epoch, timestamp, packet) =>
      if F.Accepted(s.dev.fence, epoch, timestamp) {
        assert Decoded(After(s, step)) == Decoded(s);
      }
    case Decode => DecodeKeepsClean(s);
  }

  /** A run in which no reset finds a caught item. */
  ghost predicate OrderlyRun(s: System, steps: seq<Step>)
    decreases |steps|
  {
    steps != [] ==> && Enabled(s, steps[0]) && (steps[0] == Reset ==> !Caught(s))
                    && OrderlyRun(After(s, steps[0]), steps[1..])
  }

  function End(s: System, steps: seq<Step>): System
    requires OrderlyRun(s, steps)
    decreases |steps|
  {
    if steps == [] then s else End(After(s, steps[0]), steps[1..])
  }

  lemma {:induction false} RunKeepsClean(s: System, steps: seq<Step>)
    requires Clean(s) && OrderlyRun(s, steps)
    ensures Clean(End(s, steps))
    decreases |steps|
  {
    if steps != [] {
      StepKeepsClean(s, steps[0]);
      RunKeepsClean(After(s, steps[0]), steps[1..]);
    }
  }

  /**
    Every streaming period starts clean: over all runs of session events and
    receive steps in which no reset finds a caught item, what ALSA has been given
    since the last opening is what a fresh decoder makes of the items let through
    and decoded since then, and nothing else.
   */
  lemma PeriodsStartClean(auto: bool, steps: seq<Step>)
    requires OrderlyRun(Start(auto), steps)
    ensures End(Start(auto), steps).dev.fence.streaming ==> OwnPacketsOnly(End(Start(auto), steps))
  {
    RunKeepsClean(Start(auto), steps);
  }

  // ---- any runs ----

  ghost predicate Leads(s: System, steps: seq<Step>, t: System)
    decreases |steps|
  {
    if steps == [] then s == t else Enabled(s, steps[0]) && Leads(After(s, steps[0]), steps[1..], t)
  }

  lemma LeadsFirst(s: System, step: Step, steps: seq<Step>, t: System)
    requires Enabled(s, step) && Leads(After(s, step), steps, t)
    ensures Leads(s, [step] + steps, t)
  {
    assert ([step] + steps)[1..] == steps;
  }

  lemma {:induction false} LeadsSnoc(s: System, steps: seq<Step>, t: System, step: Step)
    requires Leads(s, steps, t) && Enabled(t, step)
    ensures Leads(s, steps + [step], After(t, step))
    decreases |steps|
  {
    if steps == [] {
      assert steps + [step] == [step];
      assert [step][1..] == [];
    } else {
      assert (steps + [step])[1..] == steps[1..] + [step];
      LeadsSnoc(After(s, steps[0]), steps[1..], t, step);
    }
  }

  lemma {:induction false} LeadsOn(s: System, steps: seq<Step>, t: System, more: seq<Step>, u: System)
    requires Leads(s, steps, t) && Leads(t, more, u)
    ensures Leads(s, steps + more, u)
    decreases |more|
  {
    if more == [] {
      assert steps + more == steps;
    } else {
      LeadsSnoc(s, steps, t, more[0]);
      LeadsOn(s, steps + [more[0]], After(t, more[0]), more[1..], u);
      assert steps + [more[0]] + more[1..] == steps + more;
    }
  }

  lemma {:induction false} StepKeepsCoupled(s: System, step: Step)
    requires Coupled(s) && Enabled(s, step)
    ensures Coupled(After(s, step))
  {
  }

  /** Whatever happens, caught items included. */
  lemma {:induction false} EveryRunIsCoupled(s: System, steps: seq<Step>, t: System)
    requires Coupled(s) && Leads(s, steps, t)
    ensures Coupled(t)
    decreases |steps|
  {
    if steps != [] {
      StepKeepsCoupled(s, steps[0]);
      EveryRunIsCoupled(After(s, steps[0]), steps[1..], t);
    }
  }

  // ---- the next period ----

  predicate Closes(s: System, step: Step)
    requires Enabled(s, step)
  {
    s.dev.fence.streaming && !After(s, step).dev.fence.streaming
  }

  /** A run on which no period closes: with the fence closed at first, it ends before or in the next period. */
  ghost predicate NextPeriod(s: System, steps: seq<Step>, t: System)
    decreases |steps|
  {
    if steps == [] then s == t
    else Enabled(s, steps[0]) && !Closes(s, steps[0]) && NextPeriod(After(s, steps[0]), steps[1..], t)
  }

  lemma {:induction false} NextPeriodOn(s: System, steps: seq<Step>, t: System, step: Step)
    requires NextPeriod(s, steps, t) && Enabled(t, step) && !Closes(t, step)
    ensures NextPeriod(s, steps + [step], After(t, step))
    decreases |steps|
  {
    if steps == [] {
      assert steps + [step] == [step];
      assert [step][1..] == [];
    } else {
      assert (steps + [step])[1..] == steps[1..] + [step];
      NextPeriodOn(After(s, steps[0]), steps[1..], t, step);
    }
  }

  lemma {:induction false} NextPeriodLeads(s: System, steps: seq<Step>, t: System)
    requires NextPeriod(s, steps, t)
    ensures Leads(s, steps, t)
    decreases |steps|
  {
    if steps != [] {
      NextPeriodLeads(After(s, steps[0]), steps[1..], t);
    }
  }

  lemma {:induction false} UncaughtStep(s: System, step: Step)
    requires Clean(s) && (s.resetDue ==> !Caught(s)) && Enabled(s, step) && !Closes(s, step)
    ensures Clean(After(s, step)) && (After(s, step).resetDue ==> !Caught(After(s, step)))
  {
    StepKeepsClean(s, step);
  }

  lemma {:induction false} UncaughtRun(s: System, steps: seq<Step>, t: System)
    requires Clean(s) && (s.resetDue ==> !Caught(s)) && NextPeriod(s, steps, t)
    ensures Clean(t)
    decreases |steps|
  {
    if steps != [] {
      UncaughtStep(s, steps[0]);
      UncaughtRun(After(s, steps[0]), steps[1..], t);
    }
  }

  /** The way back to STREAMING from any state that is not STREAMING. */
  function WayUp(i: nat): S.Event {
    if i == 0 then S.CmdDisconnect else if i == 1 then S.CmdConnect else if i == 2 then S.Connected
    else if i == 3 then S.ServicesResolved else if i == 4 then S.CharFound
    else if i == 5 then S.AlsaReady else S.NotifyOk
  }

  predicate OnTheWay(state: S.State, i: nat) {
    if i == 0 then state != S.STREAMING else if i == 1 then state == S.IDLE else if i == 2 then state == S.CONNECTING
    else if i == 3 then state == S.WAIT_SERVICES else if i == 4 then state == S.BINDING_MIDI
    else if i == 5 then state == S.CREATING_ALSA else if i == 6 then state == S.ENABLING_NOTIFY
    else state == S.STREAMING
  }

  lemma {:induction false} WayUpStep(u: System, i: nat)
    requires i < 7 && OnTheWay(u.dev.session.state, i) && !u.dev.fence.streaming && !u.resetDue
    ensures var v := After(u, Event(WayUp(i), 0));
            && OnTheWay(v.dev.session.state, i + 1) && (v.dev.fence.streaming <==> i == 6)
            && !v.resetDue && v.decoder == u.decoder && v.checked == u.checked
            && (i == 6 ==> v.packets == [] && v.given == [])
  {
    assert OnTheWay(S.After(u.dev.session, WayUp(i)).state, i + 1);
  }

  /** Reopening, with the decoder and the checked item as they are. */
  lemma {:induction false} Reopen(s: System, steps: seq<Step>, t: System) returns (more: seq<Step>, u: System)
    requires NextPeriod(s, steps, t) && Coupled(t) && !t.dev.fence.streaming && !t.resetDue
    ensures NextPeriod(s, more, u) && Coupled(u) && u.dev.fence.streaming && !u.resetDue
    ensures u.decoder == t.decoder && u.checked == t.checked && u.packets == [] && u.given == []
  {
    more, u := steps, t;
    var i := 0;
    while i < 7
      invariant 0 <= i <= 7
      invariant NextPeriod(s, more, u) && Coupled(u) && OnTheWay(u.dev.session.state, i) && !u.resetDue
      invariant u.decoder == t.decoder && u.checked == t.checked
      invariant u.dev.fence.streaming <==> i == 7
      invariant i == 7 ==> u.packets == [] && u.given == []
    {
      var step := Event(WayUp(i), 0);
      WayUpStep(u, i);
      StepKeepsCoupled(u, step);
      NextPeriodOn(s, more, u, step);
      more, u := more + [step], After(u, step);
      i := i + 1;
    }
  }

  /** Decoded after reopening, the old item's bytes are given to ALSA in a period that has let nothing through yet. */
  lemma {:induction false} OldBytesReachNextPeriod(s: System) returns (steps: seq<Step>, t: System)
    requires Coupled(s) && s.resetDue && s.checked.Some?
    ensures NextPeriod(s, steps, t) && t.dev.fence.streaming && t.packets == [] && t.checked.None?
    ensures Rx(t.decoder, t.given) == Fed(Rx(A.IDLE, []), s.checked.value)
  {
    NextPeriodOn(s, [], s, Reset);
    assert [] + [Reset] == [Reset];
    StepKeepsCoupled(s, Reset);
    var more, u := Reopen(s, [Reset], After(s, Reset));
    NextPeriodOn(s, more, u, Decode);
    steps, t := more + [Decode], After(u, Decode);
  }

  /** Decoded before reopening, the old item shapes the decoder of a period that has let nothing through yet. */
  lemma {:induction false} StaleItemReachesNextPeriod(s: System) returns (steps: seq<Step>, t: System)
    requires Coupled(s) && s.resetDue && s.checked.Some?
    ensures NextPeriod(s, steps, t) && t.dev.fence.streaming && t.packets == [] && t.checked.None?
    ensures Rx(t.decoder, t.given) == Rx(A.Decode(A.IDLE, s.checked.value).state, [])
  {
    var clean := After(s, Reset);
    NextPeriodOn(s, [], s, Reset);
    NextPeriodOn(s, [Reset], clean, Decode);
    assert [] + [Reset] == [Reset];
    StepKeepsCoupled(s, Reset);
    StepKeepsCoupled(clean, Decode);
    steps, t := Reopen(s, [Reset] + [Decode], After(clean, Decode));
  }

  /** The next period can be entered in a way that leaves something foreign in the decoder or in what ALSA is given. */
  ghost predicate SpoiledBy(s: System, steps: seq<Step>, t: System) {
    NextPeriod(s, steps, t) && t.dev.fence.streaming && !OwnPacketsOnly(t)
  }

  /**
    Exactly which items spoil the next period: when a period has closed, the next
    one can hold something that does not stem from its own packets if and only if
    an item of three bytes or more is between the fence check and the decoder.
   */
  lemma {:induction false} NextPeriodSpoiledExactlyWhenCaught(s: System)
    requires Coupled(s) && s.resetDue
    ensures (exists steps, t :: SpoiledBy(s, steps, t)) <==> Caught(s)
  {
    if Caught(s) {
      var steps, t := OldBytesReachNextPeriod(s);
      OnlyShortPacketsDoNothing(s.checked.value);
      assert SpoiledBy(s, steps, t);
    } else {
      forall steps, t | NextPeriod(s, steps, t) && t.dev.fence.streaming ensures OwnPacketsOnly(t) {
        UncaughtRun(s, steps, t);
      }
    }
  }

  /** From a fresh device: any item can be let through, its period closed around it, and it reaches the next one. */
  lemma {:induction false} EveryItemCanBeCaught(auto: bool, packet: seq<Byte>) returns (steps: seq<Step>, t: System)
    ensures Leads(Start(auto), steps, t) && t.dev.fence.streaming && t.packets == [] && t.checked.None?
    ensures Rx(t.decoder, t.given) == Fed(Rx(A.IDLE, []), packet)
  {
    var s := Start(auto);
    var up, open := Reopen(s, [], s);
    var check := Check(open.dev.fence.epoch, open.dev.fence.closedAt + 1, packet);
    var through := After(open, check);
    var lost := Event(S.Disconnected, 0);
    StepKeepsCoupled(open, check);
    StepKeepsCoupled(through, lost);
    var more, u := OldBytesReachNextPeriod(After(through, lost));
    NextPeriodLeads(s, up, open);
    NextPeriodLeads(After(through, lost), more, u);
    LeadsFirst(through, lost, more, u);
    LeadsFirst(open, check, [lost] + more, u);
    LeadsOn(s, up, open, [check] + ([lost] + more), u);
    steps, t := up + ([check] + ([lost] + more)), u;
  }

  lemma DecodeFive(a: Byte, b: Byte, c: Byte, d: Byte, e: Byte)
    ensures var s := A.Config(A.IDLE, A.AwaitTimestamp, []);
            A.Run(s, [a, b, c, d]) == A.Step(A.Step(A.Step(A.Step(s, a), b), c), d)
    ensures [e, a, b, c, d][1..] == [a, b, c, d]
  {
    var s := A.Config(A.IDLE, A.AwaitTimestamp, []);
    var p := [a, b, c, d];
    A.RunUnroll(s, p, 0);
    assert p[0..] == p;
    A.RunUnroll(A.Step(s, a), p, 1);
    A.RunUnroll(A.Step(A.Step(s, a), b), p, 2);
    A.RunUnroll(A.Step(A.Step(A.Step(s, a), b), c), p, 3);
    assert p[4..] == [];
  }

  lemma {:induction false} WholeSysExPacket()
    ensures A.Decode(A.IDLE, [0x80, 0x80, 0xF0, 0x01, 0xF7]) == A.Decoded(A.IDLE, [0xF0, 0x01, 0xF7], A.Ok)
  {
    var packet: seq<Byte> := [0x80, 0x80, 0xF0, 0x01, 0xF7];
    DecodeFive(0x80, 0xF0, 0x01, 0xF7, 0x80);
    assert packet[1..] == [0x80, 0xF0, 0x01, 0xF7];
  }

  /** A whole SysEx of the old period is given to ALSA in the new one, though it leaves the decoder idle. */
  lemma {:induction false} OldSysExReachesAlsa(auto: bool) returns (steps: seq<Step>, t: System)
    ensures Leads(Start(auto), steps, t) && t.dev.fence.streaming && t.packets == [] && t.checked.None?
    ensures t.decoder == A.IDLE && t.given == [0xF0, 0x01, 0xF7]
  {
    var packet: seq<Byte> := [0x80, 0x80, 0xF0, 0x01, 0xF7];
    steps, t := EveryItemCanBeCaught(auto, packet);
    WholeSysExPacket();
  }

  /** One note-on whose velocity is still to come is enough: the next period would open with it pending. */
  lemma HalfNoteStaysPending()
    ensures A.Decode(A.IDLE, [0x80, 0x80, 0x90, 0x3C]).state == A.State(0x90, 0x90, [0x3C], 2, false)
  {
    var c := A.Config(A.IDLE, A.AwaitTimestamp, []);
    var p: seq<Byte> := [0x80, 0x90, 0x3C];
    A.RunUnroll(c, p, 0);
    assert p[0..] == p;
    A.RunUnroll(A.Step(c, p[0]), p, 1);
    A.RunUnroll(A.Step(A.Step(c, p[0]), p[1]), p, 2);
    assert p[3..] == [];
    var packet: seq<Byte> := [0x80, 0x80, 0x90, 0x3C];
    assert packet[1..] == p;
  }
}
