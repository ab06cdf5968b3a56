/**
  What an event does to a session after any run, said by its meaning and not by
  the transition table: losses of the link, failures, commands, events that come
  at the wrong time, and the way back to STREAMING.
 */
module SessionLaws {
  import opened Wrappers
  import opened Session
  import opened SessionTraces

  /** The session after a run, and after one more event. */
  function Next(auto: bool, ops: seq<Op>, e: Event): View {
    Run(auto, ops + [Ev(e)])
  }

  lemma NextIsStep(auto: bool, ops: seq<Op>, e: Event)
    ensures Next(auto, ops, e) == Step(Run(auto, ops), Ev(e)) && FlagsOk(Run(auto, ops))
    ensures Run(auto, ops).autoReconnect == auto
  {
    RunSnoc(auto, ops, Ev(e));
    FlagsInEveryRun(auto, ops);
  }

  // ---- the link is lost ----

  /** The link is lost, cannot be made, or cannot be used. */
  predicate LosesLink(s: State, e: Event) {
    || e == NotifyFailed || e == GattWriteFailed
    || (e == Disconnected && (s == CONNECTING || OnLink(s)))
    || (e == Timeout && s in {CONNECTING, WAIT_SERVICES, ENABLING_NOTIFY})
    || (e == ConnectFailed && s == CONNECTING)
  }

  function LossError(s: State, e: Event): Error
    requires LosesLink(s, e)
  {
    match e
    case NotifyFailed => NOTIFY_FAILED
    case GattWriteFailed => GATT_WRITE_FAILED
    case Disconnected => if s == CONNECTING then CONNECT_FAILED else DISCONNECTED
    case ConnectFailed => CONNECT_FAILED
    case Timeout =>
      if s == CONNECTING then CONNECT_TIMEOUT else if s == WAIT_SERVICES then SERVICES_TIMEOUT else NOTIFY_TIMEOUT
  }

  /** Only a connection that could not be made costs the ALSA port. */
  predicate KeepsPort(s: State, e: Event) {
    s != CONNECTING || e in {NotifyFailed, GattWriteFailed}
  }

  /**
    After any run, a loss of the link leads to RECONNECTING, or to ERROR with
    reconnecting switched off, with an error of its own; what was learnt about the
    link is forgotten, and the ALSA port kept unless no connection was made.
   */
  lemma {:induction false} LossIsRetried(auto: bool, ops: seq<Op>, e: Event)
    requires LosesLink(Run(auto, ops).state, e)
    ensures var v := Run(auto, ops); var keep := KeepsPort(v.state, e);
            Next(auto, ops, e)
            == View(if auto then RECONNECTING else ERROR, LossError(v.state, e), false, false, false, None, None, None,
                    if keep then v.alsaPort else -1, keep && v.alsaReady, auto, v.reconnects)
  {
    NextIsStep(auto, ops, e);
  }

  // ---- failures that no retry can mend ----

  /** A failure that ends in ERROR whatever the reconnect setting. */
  predicate Fails(s: State, e: Event) {
    || e in {Fatal, RuntimeFailed, AdapterOff, ServiceNotFound, CharNotFound, AlsaFailed}
    || (e in {AlsaIoFailed, AlsaDecodeFailed} && s != STREAMING)
    || (e in {ConnectFailed, Timeout} && !LosesLink(s, e))
  }

  function FailureError(e: Event): Error {
    match e
    case RuntimeFailed => RUNTIME_FAILED
    case AdapterOff => ADAPTER_POWERED_OFF
    case ServiceNotFound => SERVICE_NOT_FOUND
    case CharNotFound => CHAR_NOT_FOUND
    case AlsaFailed => ALSA_FAILED
    case AlsaIoFailed => ALSA_IO_FAILED
    case AlsaDecodeFailed => ALSA_DECODE_FAILED
    case ConnectFailed => CONNECT_FAILED
    case _ => INTERNAL
  }

  /** Such a failure changes state and error only; without the adapter everything but the setting is forgotten. */
  lemma {:induction false} FailureEndsInError(auto: bool, ops: seq<Op>, e: Event)
    requires Fails(Run(auto, ops).state, e)
    ensures var v := Run(auto, ops);
            Next(auto, ops, e)
            == (if e == AdapterOff then Start(auto).(reconnects := v.reconnects) else v)
                 .(state := ERROR, error := FailureError(e))
  {
    NextIsStep(auto, ops, e);
  }

  /** While STREAMING an ALSA failure is noted and nothing else happens. */
  lemma {:induction false} StreamingToleratesAlsa(auto: bool, ops: seq<Op>, e: Event)
    requires Run(auto, ops).state == STREAMING && e in {AlsaIoFailed, AlsaDecodeFailed}
    ensures Next(auto, ops, e) == Run(auto, ops).(error := FailureError(e))
  {
    NextIsStep(auto, ops, e);
  }

  // ---- commands ----

  /** The user's two commands leave a session like a new one, but for the count of reconnects. */
  lemma {:induction false} CommandsEndSession(auto: bool, ops: seq<Op>, e: Event)
    requires e == CmdForget || e == CmdDisconnect
    ensures Next(auto, ops, e) == Start(auto).(reconnects := Run(auto, ops).reconnects)
  {
    NextIsStep(auto, ops, e);
  }

  /** A restart from ERROR forgets port and binding first. */
  lemma {:induction false} RestartForgets(auto: bool, ops: seq<Op>, e: Event)
    requires Run(auto, ops).state == ERROR && e in {CmdScan, CmdConnect}
    ensures Next(auto, ops, e)
         == Start(auto).(state := if e == CmdScan then SCANNING else CONNECTING,
                         reconnects := Run(auto, ops).reconnects)
  {
    NextIsStep(auto, ops, e);
  }

  /** From rest a scan or a connect changes state and error only; a connect while waiting counts as the timer does. */
  lemma {:induction false} BeginsKeepRest(auto: bool, ops: seq<Op>, e: Event)
    requires Run(auto, ops).state in {IDLE, SCANNING, RECONNECTING} && e in {CmdScan, CmdConnect}
    requires e == CmdScan ==> Run(auto, ops).state == IDLE
    ensures var v := Run(auto, ops);
            Next(auto, ops, e)
            == v.(state := if e == CmdScan then SCANNING else CONNECTING, error := NONE,
                  reconnects := if v.state == RECONNECTING then (v.reconnects + 1) % 0x1_0000_0000 else v.reconnects)
  {
    NextIsStep(auto, ops, e);
  }

  // ---- events at the wrong time ----

  /** The states in which an event of the ordinary course, or a disconnect, is expected. */
  function ExpectedIn(e: Event): set<State> {
    match e
    case CmdScan => {IDLE, ERROR}
    case DeviceFound => {SCANNING}
    case CmdConnect => {IDLE, SCANNING, ERROR, RECONNECTING}
    case ReconnectTimer => {RECONNECTING}
    case Connected => {CONNECTING}
    case ServicesResolved => {WAIT_SERVICES}
    case CharFound => {BINDING_MIDI}
    case AlsaReady => {CREATING_ALSA}
    case NotifyOk => {ENABLING_NOTIFY}
    case Disconnected => {CONNECTING, WAIT_SERVICES, BINDING_MIDI, CREATING_ALSA, ENABLING_NOTIFY, STREAMING}
    case _ => {}
  }

  predicate Unexpected(s: State, e: Event) {
    ExpectedIn(e) != {} && s !in ExpectedIn(e)
  }

  /** An event at the wrong time changes the error field and nothing else; no other event leaves that error behind. */
  lemma {:induction false} WrongTimeChangesErrorOnly(auto: bool, ops: seq<Op>, e: Event)
    ensures var v := Run(auto, ops); var w := Next(auto, ops, e);
            && (Unexpected(v.state, e) ==> w == v.(error := INVALID_TRANSITION))
            && (!Unexpected(v.state, e) && e != DeviceFound ==> w.error != INVALID_TRANSITION)
            && (e == DeviceFound && v.state == SCANNING ==> w == v)
  {
    NextIsStep(auto, ops, e);
    WrongTime(Run(auto, ops), e);
  }

  lemma {:induction false} WrongTime(v: View, e: Event)
    ensures Unexpected(v.state, e) <==> !Accepts(v, e)
    ensures !Unexpected(v.state, e) && e != DeviceFound ==> After(v, e).error != INVALID_TRANSITION
  {
    match e
    case CmdScan => assert IDLE in ExpectedIn(e);
    case DeviceFound => assert SCANNING in ExpectedIn(e);
    case CmdConnect => assert IDLE in ExpectedIn(e);
    case ReconnectTimer => assert RECONNECTING in ExpectedIn(e);
    case Connected => assert CONNECTING in ExpectedIn(e);
    case ServicesResolved => assert WAIT_SERVICES in ExpectedIn(e);
    case CharFound => assert BINDING_MIDI in ExpectedIn(e);
    case AlsaReady => assert CREATING_ALSA in ExpectedIn(e);
    case NotifyOk => assert ENABLING_NOTIFY in ExpectedIn(e);
    case Disconnected => assert CONNECTING in ExpectedIn(e);
    case _ =>
  }

  // ---- which events lead to which state ----

  /** The events that lead into `to` from another state. */
  predicate Enters(s: State, auto: bool, e: Event, to: State) {
    match to
    case IDLE => e == CmdForget || e == CmdDisconnect
    case SCANNING => e == CmdScan && (s == IDLE || s == ERROR)
    case CONNECTING =>
      (e == CmdConnect && s in {IDLE, SCANNING, ERROR, RECONNECTING}) || (e == ReconnectTimer && s == RECONNECTING)
    case WAIT_SERVICES => e == Connected && s == CONNECTING
    case BINDING_MIDI => e == ServicesResolved && s == WAIT_SERVICES
    case CREATING_ALSA => e == CharFound && s == BINDING_MIDI
    case ENABLING_NOTIFY => e == AlsaReady && s == CREATING_ALSA
    case STREAMING => e == NotifyOk && s == ENABLING_NOTIFY
    case RECONNECTING => auto && LosesLink(s, e)
    case ERROR => Fails(s, e) || (!auto && LosesLink(s, e))
  }

  /** The events that leave every state as it is. */
  predicate Stays(s: State, e: Event) {
    || Unexpected(s, e) || (e == DeviceFound && s == SCANNING)
    || (e in {AlsaIoFailed, AlsaDecodeFailed} && s == STREAMING)
  }

  /** The state that `e` leads to is one that it enters. */
  predicate Arrives(s: State, auto: bool, e: Event, to: State) {
    if Stays(s, e) then to == s else Enters(s, auto, e, to)
  }

  lemma {:induction false} LossArrives(v: View, e: Event)
    requires LosesLink(v.state, e)
    ensures Arrives(v.state, v.autoReconnect, e, After(v, e).state)
  {
    assert After(v, e).state == if v.autoReconnect then RECONNECTING else ERROR;
  }

  lemma {:induction false} FailureArrives(v: View, e: Event)
    requires Fails(v.state, e)
    ensures Arrives(v.state, v.autoReconnect, e, After(v, e).state)
  {
    assert After(v, e).state == ERROR;
  }

  lemma {:induction false} OthersArrive(v: View, e: Event)
    requires !LosesLink(v.state, e) && !Fails(v.state, e) && !Unexpected(v.state, e)
    ensures Arrives(v.state, v.autoReconnect, e, After(v, e).state)
  {
  }

  lemma {:induction false} ViewArrives(v: View, e: Event)
    ensures Arrives(v.state, v.autoReconnect, e, After(v, e).state)
  {
    if LosesLink(v.state, e) {
      LossArrives(v, e);
    } else if Fails(v.state, e) {
      FailureArrives(v, e);
    } else if Unexpected(v.state, e) {
      WrongTime(v, e);
    } else {
      OthersArrive(v, e);
    }
  }

  lemma {:induction false} LossArrivesOnce(s: State, auto: bool, e: Event, to: State)
    requires Arrives(s, auto, e, to) && LosesLink(s, e)
    ensures to == if auto then RECONNECTING else ERROR
  {
  }

  lemma {:induction false} FailureArrivesOnce(s: State, auto: bool, e: Event, to: State)
    requires Arrives(s, auto, e, to) && Fails(s, e)
    ensures to == ERROR
  {
  }

  lemma {:induction false} OthersArriveOnce(s: State, auto: bool, e: Event, a: State, b: State)
    requires Arrives(s, auto, e, a) && Arrives(s, auto, e, b) && !LosesLink(s, e) && !Fails(s, e)
    ensures a == b
  {
  }

  /** No event enters two states. */
  lemma {:induction false} ArrivesOnce(s: State, auto: bool, e: Event, a: State, b: State)
    requires Arrives(s, auto, e, a) && Arrives(s, auto, e, b)
    ensures a == b
  {
    if LosesLink(s, e) {
      LossArrivesOnce(s, auto, e, a);
      LossArrivesOnce(s, auto, e, b);
    } else if Fails(s, e) {
      FailureArrivesOnce(s, auto, e, a);
      FailureArrivesOnce(s, auto, e, b);
    } else {
      OthersArriveOnce(s, auto, e, a, b);
    }
  }

  /** After any run: where each event leads, state by state, RECONNECTING by the losses of the link alone. */
  lemma {:induction false} EnteredExactly(auto: bool, ops: seq<Op>, e: Event, to: State)
    ensures Next(auto, ops, e).state == to <==> Arrives(Run(auto, ops).state, auto, e, to)
  {
    NextIsStep(auto, ops, e);
    ViewArrives(Run(auto, ops), e);
    if Arrives(Run(auto, ops).state, auto, e, to) {
      ArrivesOnce(Run(auto, ops).state, auto, e, to, Next(auto, ops, e).state);
    }
  }

  // ---- the way back ----

  function Climb(begin: Event): seq<Op> {
    [Ev(begin), Ev(Connected), Ev(ServicesResolved), Ev(CharFound), Ev(AlsaReady), Ev(NotifyOk)]
  }

  /** A port that is not there yet is number 0. */
  function PortOf(v: View): int {
    if v.alsaPort < 0 then 0 else v.alsaPort
  }

  /** What each rung changes. */
  lemma RungEffects(v: View)
    ensures v.state == CONNECTING ==>
              After(v, Connected) == v.(state := WAIT_SERVICES, error := NONE, connected := true)
    ensures v.state == WAIT_SERVICES ==>
              After(v, ServicesResolved) == v.(state := BINDING_MIDI, error := NONE, resolved := true)
    ensures v.state == BINDING_MIDI ==> After(v, CharFound) == v.(state := CREATING_ALSA, error := NONE)
    ensures v.state == CREATING_ALSA ==>
              After(v, AlsaReady)
              == v.(state := ENABLING_NOTIFY, error := NONE, alsaReady := true, alsaPort := PortOf(v))
    ensures v.state == ENABLING_NOTIFY ==>
              After(v, NotifyOk) == v.(state := STREAMING, error := NONE, notify := true)
  {
  }

  lemma {:induction false} Rungs(v: View)
    requires v.state == CONNECTING
    ensures After(After(After(After(After(v, Connected), ServicesResolved), CharFound), AlsaReady), NotifyOk)
         == v.(state := STREAMING, error := NONE, connected := true, resolved := true, notify := true,
               alsaReady := true, alsaPort := PortOf(v))
  {
    RungEffects(v);
    RungEffects(v.(state := WAIT_SERVICES, error := NONE, connected := true));
    var r := v.(state := BINDING_MIDI, error := NONE, connected := true, resolved := true);
    RungEffects(r);
    RungEffects(r.(state := CREATING_ALSA));
    RungEffects(r.(state := ENABLING_NOTIFY, alsaReady := true, alsaPort := PortOf(v)));
  }

  lemma {:induction false} RunOfClimb(auto: bool, ops: seq<Op>, begin: Event)
    ensures Run(auto, ops + Climb(begin))
         == After(After(After(After(After(Next(auto, ops, begin),
                  Connected), ServicesResolved), CharFound), AlsaReady), NotifyOk)
  {
    var o1 := ops + [Ev(begin)];
    var o2, o3 := o1 + [Ev(Connected)], o1 + [Ev(Connected)] + [Ev(ServicesResolved)];
    var o4, o5 := o3 + [Ev(CharFound)], o3 + [Ev(CharFound)] + [Ev(AlsaReady)];
    RunSnoc(auto, o1, Ev(Connected));
    RunSnoc(auto, o2, Ev(ServicesResolved));
    RunSnoc(auto, o3, Ev(CharFound));
    RunSnoc(auto, o4, Ev(AlsaReady));
    RunSnoc(auto, o5, Ev(NotifyOk));
    assert ops + Climb(begin) == o5 + [Ev(NotifyOk)];
  }

  lemma {:induction false} ClimbEnds(auto: bool, ops: seq<Op>, begin: Event)
    requires Next(auto, ops, begin).state == CONNECTING
    ensures var b := Next(auto, ops, begin);
            Run(auto, ops + Climb(begin))
            == b.(state := STREAMING, error := NONE, connected := true, resolved := true, notify := true,
                  alsaReady := true, alsaPort := PortOf(b))
  {
    RunOfClimb(auto, ops, begin);
    Rungs(Next(auto, ops, begin));
  }

  /** The timer counts and changes nothing else but state and error. */
  lemma {:induction false} TimerCounts(auto: bool, ops: seq<Op>)
    requires Run(auto, ops).state == RECONNECTING
    ensures var v := Run(auto, ops);
            Next(auto, ops, ReconnectTimer)
            == v.(state := CONNECTING, error := NONE, reconnects := (v.reconnects + 1) % 0x1_0000_0000)
  {
    NextIsStep(auto, ops, ReconnectTimer);
  }

  lemma StreamingHasPort(ops: seq<Op>)
    requires Run(true, ops).state == STREAMING
    ensures Run(true, ops).alsaPort >= 0
  {
    FlagsInEveryRun(true, ops);
  }

  lemma {:induction false} LossWhileStreaming(ops: seq<Op>, e: Event)
    requires Run(true, ops).state == STREAMING && LosesLink(STREAMING, e)
    ensures var v, w := Run(true, ops), Next(true, ops, e);
            w.state == RECONNECTING && w.alsaPort == v.alsaPort >= 0 && w.reconnects == v.reconnects
  {
    StreamingHasPort(ops);
    LossIsRetried(true, ops, e);
  }

  /** STREAMING without an error, on ALSA port `port`, after `n` reconnects. */
  predicate StreamsAgain(v: View, port: int, n: nat) {
    && v.state == STREAMING && v.error == NONE && v.connected && v.resolved && v.notify && v.alsaReady
    && v.alsaPort == port && v.reconnects == n % 0x1_0000_0000
  }

  lemma StreamsAgainAfter(b: View, w: View, port: nat, n: nat)
    requires b.alsaPort == port && b.reconnects == n % 0x1_0000_0000
    requires w == b.(state := STREAMING, error := NONE, connected := true, resolved := true, notify := true,
                     alsaReady := true, alsaPort := PortOf(b))
    ensures StreamsAgain(w, port, n)
  {
  }

  lemma {:induction false} TimerAndClimb(ops: seq<Op>, port: nat, n: nat)
    requires Run(true, ops).state == RECONNECTING && Run(true, ops).alsaPort == port && Run(true, ops).reconnects == n
    ensures StreamsAgain(Run(true, ops + Climb(ReconnectTimer)), port, n + 1)
  {
    var b, w := Next(true, ops, ReconnectTimer), Run(true, ops + Climb(ReconnectTimer));
    assert b.state == CONNECTING && b.alsaPort == port && b.reconnects == (n + 1) % 0x1_0000_0000 by {
      TimerCounts(true, ops);
    }
    ClimbEnds(true, ops, ReconnectTimer);
    StreamsAgainAfter(b, w, port, n + 1);
  }

  /**
    A link lost while STREAMING, then the timer and the five rungs: STREAMING again,
    on the same ALSA port, with one more reconnect counted modulo 2^32.
   */
  lemma {:induction false} LossAndRecovery(ops: seq<Op>, e: Event)
    requires Run(true, ops).state == STREAMING && LosesLink(STREAMING, e)
    ensures var v := Run(true, ops);
            StreamsAgain(Run(true, ops + [Ev(e)] + Climb(ReconnectTimer)), v.alsaPort, v.reconnects + 1)
  {
    LossWhileStreaming(ops, e);
    TimerAndClimb(ops + [Ev(e)], Run(true, ops).alsaPort, Run(true, ops).reconnects);
  }

  /** From every state at rest, in ERROR or waiting to reconnect, a connect and the five rungs lead to STREAMING. */
  lemma {:induction false} ConnectStreams(auto: bool, ops: seq<Op>)
    requires Run(auto, ops).state in {IDLE, SCANNING, ERROR, RECONNECTING}
    ensures Run(auto, ops + Climb(CmdConnect)).state == STREAMING
  {
    EnteredExactly(auto, ops, CmdConnect, CONNECTING);
    ClimbEnds(auto, ops, CmdConnect);
  }

  // ---- counting reconnects ----

  /** The times a wait for reconnecting has ended in another attempt. */
  function Retries(auto: bool, ops: seq<Op>): nat {
    if ops == [] then 0
    else
      var n := |ops| - 1;
      Retries(auto, ops[..n])
      + if Run(auto, ops[..n]).state == RECONNECTING && ops[n].Ev? && Begins(ops[n].event) then 1 else 0
  }

  lemma {:induction false} RetriesAreCounted(auto: bool, ops: seq<Op>)
    ensures Run(auto, ops).reconnects == Retries(auto, ops) % 0x1_0000_0000
  {
    if ops != [] {
      var n := |ops| - 1;
      RetriesAreCounted(auto, ops[..n]);
      CountStep(Run(auto, ops[..n]), ops[n], Retries(auto, ops[..n]));
    }
  }

  lemma {:induction false} CountAfter(v: View, e: Event)
    ensures After(v, e).reconnects == if v.state == RECONNECTING && Begins(e)
                                      then (v.reconnects + 1) % 0x1_0000_0000 else v.reconnects
  {
    RetryMoves(v.state, v.autoReconnect, e);
    if Table(v.state, v.autoReconnect, e).Go? {
      EffectCounts(v, Table(v.state, v.autoReconnect, e).effect);
    }
  }

  lemma RetryMoves(s: State, auto: bool, e: Event)
    ensures var m := Table(s, auto, e);
            m.Go? && m.effect == CountRetry <==> s == RECONNECTING && Begins(e)
  {
  }

  lemma EffectCounts(v: View, effect: Effect)
    ensures ApplyEffect(v, effect).reconnects
         == if effect == CountRetry then (v.reconnects + 1) % 0x1_0000_0000 else v.reconnects
  {
  }

  lemma {:induction false} CountStep(v: View, op: Op, n: nat)
    requires v.reconnects == n % 0x1_0000_0000
    ensures Step(v, op).reconnects
         == (n + if v.state == RECONNECTING && op.Ev? && Begins(op.event) then 1 else 0) % 0x1_0000_0000
  {
    if op.Ev? {
      CountAfter(v, op.event);
    }
  }
}
