/** What holds of a session after any sequence of events and calls, starting from a fresh one. */
module SessionTraces {
  import opened Session

  /** What the daemon does to a session; ALSA ports it sets while the device is configured are not negative. */
  datatype Op =
    | Ev(event: Event)
    | Bind(service: string, characteristic: string, uuid: string)
    | Port(port: nat)

  function Step(v: View, op: Op): View {
    match op
    case Ev(e) => After(v, e)
    case Bind(service, characteristic, uuid) => Bound(v, service, characteristic, uuid)
    case Port(port) => v.(alsaPort := port, alsaReady := true)
  }

  function Start(auto: bool): View {
    FRESH.(autoReconnect := auto)
  }

  function Run(auto: bool, ops: seq<Op>): View {
    if ops == [] then Start(auto) else Step(Run(auto, ops[..|ops| - 1]), ops[|ops| - 1])
  }

  // ---- flags ----

  predicate FlagsOk(v: View) {
    && (v.state != ERROR ==>
         && (v.connected <==> OnLink(v.state))
         && (v.resolved <==> OnLink(v.state) && v.state != WAIT_SERVICES)
         && (v.notify <==> v.state == STREAMING))
    && (v.alsaReady <==> v.alsaPort >= 0)
    && (v.state in {ENABLING_NOTIFY, STREAMING} ==> v.alsaReady)
    && (!v.autoReconnect ==> v.state != RECONNECTING)
  }

  /** Which effects go with which arrows of the table. */
  lemma {:induction false} ArrowShapes(s: State, auto: bool, e: Event)
    requires Table(s, auto, e).Go?
    ensures var Go(to, _, effect) := Table(s, auto, e);
            || to == ERROR
            || (effect in {DropLink, DropAll} && !OnLink(to))
            || (effect in {Keep, CountRetry} && s != ERROR && !OnLink(s) && !OnLink(to))
            || (s == BINDING_MIDI && to == CREATING_ALSA && effect == Keep && e == CharFound)
            || (s == CONNECTING && to == WAIT_SERVICES && effect == LinkUp)
            || (s == WAIT_SERVICES && to == BINDING_MIDI && effect == GattUp)
            || (s == CREATING_ALSA && to == ENABLING_NOTIFY && effect == PortUp)
            || (s == ENABLING_NOTIFY && to == STREAMING && effect == NotifyUp)
    ensures var Go(to, _, effect) := Table(s, auto, e);
            && (to == ERROR ==> effect in {Keep, DropLink, DropAll})
            && (!auto ==> to != RECONNECTING)
  {
  }

  lemma {:induction false} StepKeepsFlags(v: View, op: Op)
    requires FlagsOk(v)
    ensures FlagsOk(Step(v, op)) && Step(v, op).autoReconnect == v.autoReconnect
  {
    if op.Ev? && Table(v.state, v.autoReconnect, op.event).Go? {
      ArrowShapes(v.state, v.autoReconnect, op.event);
      GoKeepsFlags(v, Table(v.state, v.autoReconnect, op.event));
    }
  }

  lemma {:induction false} GoKeepsFlags(v: View, m: Move)
    requires FlagsOk(v) && m.Go?
    requires || m.to == ERROR
             || (m.effect in {DropLink, DropAll} && !OnLink(m.to))
             || (m.effect in {Keep, CountRetry} && v.state != ERROR && !OnLink(v.state) && !OnLink(m.to))
             || (v.state == BINDING_MIDI && m.to == CREATING_ALSA && m.effect == Keep)
             || (v.state == CONNECTING && m.to == WAIT_SERVICES && m.effect == LinkUp)
             || (v.state == WAIT_SERVICES && m.to == BINDING_MIDI && m.effect == GattUp)
             || (v.state == CREATING_ALSA && m.to == ENABLING_NOTIFY && m.effect == PortUp)
             || (v.state == ENABLING_NOTIFY && m.to == STREAMING && m.effect == NotifyUp)
    requires (m.to == ERROR ==> m.effect in {Keep, DropLink, DropAll}) && (!v.autoReconnect ==> m.to != RECONNECTING)
    ensures FlagsOk(ApplyEffect(v, m.effect).(state := m.to, error := m.error))
  {
  }

  /**
    Outside ERROR the link flags hold in exactly the states from WAIT_SERVICES,
    BINDING_MIDI and STREAMING on; with reconnecting switched off, RECONNECTING
    is never reached.
   */
  lemma {:induction false} FlagsInEveryRun(auto: bool, ops: seq<Op>)
    ensures FlagsOk(Run(auto, ops)) && Run(auto, ops).autoReconnect == auto
  {
    if ops != [] {
      FlagsInEveryRun(auto, ops[..|ops| - 1]);
      StepKeepsFlags(Run(auto, ops[..|ops| - 1]), ops[|ops| - 1]);
    }
  }

  // ---- ready to stream ----

  /** STREAMING means ready, as documented, exactly when a characteristic path is bound. */
  lemma ReadyExactlyWhenBound(auto: bool, ops: seq<Op>)
    requires Run(auto, ops).state == STREAMING
    ensures StreamingReady(Run(auto, ops)) <==> Run(auto, ops).charPath.Some?
  {
    FlagsInEveryRun(auto, ops);
  }

  lemma {:induction false} RunSnoc(auto: bool, ops: seq<Op>, op: Op)
    ensures Run(auto, ops + [op]) == Step(Run(auto, ops), op)
  {
    assert (ops + [op])[..|ops|] == ops;
  }

  lemma {:induction false} RunGo(auto: bool, ops: seq<Op>, e: Event, to: State, effect: Effect)
    requires forall a :: Table(Run(auto, ops).state, a, e) == Go(to, NONE, effect)
    requires effect != DropLink && effect != DropAll
    ensures var v := Run(auto, ops + [Ev(e)]); v.state == to && v.charPath == Run(auto, ops).charPath
  {
    RunSnoc(auto, ops, Ev(e));
    assert Table(Run(auto, ops).state, Run(auto, ops).autoReconnect, e) == Go(to, NONE, effect);
  }

  lemma {:induction false} UpToBinding(auto: bool, ops: seq<Op>)
    requires Run(auto, ops).state == IDLE
    ensures var v := Run(auto, ops + [Ev(CmdConnect)] + [Ev(Connected)] + [Ev(ServicesResolved)]);
            v.state == BINDING_MIDI && v.charPath == Run(auto, ops).charPath
  {
    RunGo(auto, ops, CmdConnect, CONNECTING, Keep);
    RunGo(auto, ops + [Ev(CmdConnect)], Connected, WAIT_SERVICES, LinkUp);
    RunGo(auto, ops + [Ev(CmdConnect)] + [Ev(Connected)], ServicesResolved, BINDING_MIDI, GattUp);
  }

  lemma {:induction false} UpToStreaming(auto: bool, ops: seq<Op>)
    requires Run(auto, ops).state == BINDING_MIDI
    ensures var v := Run(auto, ops + [Ev(CharFound)] + [Ev(AlsaReady)] + [Ev(NotifyOk)]);
            v.state == STREAMING && v.charPath == Run(auto, ops).charPath
  {
    RunGo(auto, ops, CharFound, CREATING_ALSA, Keep);
    RunGo(auto, ops + [Ev(CharFound)], AlsaReady, ENABLING_NOTIFY, PortUp);
    RunGo(auto, ops + [Ev(CharFound)] + [Ev(AlsaReady)], NotifyOk, STREAMING, NotifyUp);
  }

  /**
    The machine itself does not ask for the binding: from every resting session
    without one, six events lead to a STREAMING that is not ready.
   */
  lemma {:induction false} StreamingWithoutBinding(auto: bool, ops: seq<Op>)
    requires Run(auto, ops).state == IDLE && Run(auto, ops).charPath.None?
    ensures var v := Run(auto, ops + [Ev(CmdConnect), Ev(Connected), Ev(ServicesResolved),
                                      Ev(CharFound), Ev(AlsaReady), Ev(NotifyOk)]);
            v.state == STREAMING && !StreamingReady(v)
  {
    var up := ops + [Ev(CmdConnect)] + [Ev(Connected)] + [Ev(ServicesResolved)];
    UpToBinding(auto, ops);
    UpToStreaming(auto, up);
    assert ops + [Ev(CmdConnect), Ev(Connected), Ev(ServicesResolved), Ev(CharFound), Ev(AlsaReady), Ev(NotifyOk)]
        == up + [Ev(CharFound)] + [Ev(AlsaReady)] + [Ev(NotifyOk)];
  }

  /** The daemon's order of calls: a characteristic is bound right before it is announced. */
  predicate BindsFirst(ops: seq<Op>) {
    && (forall i | 0 <= i < |ops| && ops[i].Bind? :: ops[i].characteristic != "")
    && (forall i | 0 <= i < |ops| && ops[i] == Ev(CharFound) :: i > 0 && ops[i - 1].Bind?)
  }

  lemma {:induction false} BoundFromCharFoundOn(auto: bool, ops: seq<Op>)
    requires BindsFirst(ops)
    ensures Run(auto, ops).state in {CREATING_ALSA, ENABLING_NOTIFY, STREAMING} ==> Run(auto, ops).charPath.Some?
    ensures ops != [] && ops[|ops| - 1].Bind? ==> Run(auto, ops).charPath.Some?
  {
    if ops != [] {
      var n := |ops| - 1;
      assert BindsFirst(ops[..n]) by {
        forall i | 0 <= i < n && ops[..n][i] == Ev(CharFound) ensures i > 0 && ops[..n][i - 1].Bind? {
          assert ops[i] == Ev(CharFound);
        }
      }
      BoundFromCharFoundOn(auto, ops[..n]);
      BoundStep(Run(auto, ops[..n]), ops[n]);
      if ops[n] == Ev(CharFound) {
        assert ops[n - 1].Bind? && ops[..n][|ops[..n]| - 1] == ops[n - 1];
      }
    }
  }

  lemma {:induction false} BoundStep(v: View, op: Op)
    requires v.state in {CREATING_ALSA, ENABLING_NOTIFY, STREAMING} || op == Ev(CharFound) ==> v.charPath.Some?
    requires op.Bind? ==> op.characteristic != ""
    ensures Step(v, op).state in {CREATING_ALSA, ENABLING_NOTIFY, STREAMING} ==> Step(v, op).charPath.Some?
    ensures op.Bind? ==> Step(v, op).charPath.Some?
  {
    if op.Ev? && Table(v.state, v.autoReconnect, op.event).Go? {
      ArrowShapes(v.state, v.autoReconnect, op.event);
    }
  }

  /** Called in the daemon's order, STREAMING always means ready to stream. */
  lemma StreamingMeansReady(auto: bool, ops: seq<Op>)
    requires BindsFirst(ops) && Run(auto, ops).state == STREAMING
    ensures StreamingReady(Run(auto, ops))
  {
    BoundFromCharFoundOn(auto, ops);
    ReadyExactlyWhenBound(auto, ops);
  }

  // ---- the way to STREAMING ----

  /** The events that were accepted and not merely noted. */
  function Effective(auto: bool, ops: seq<Op>): seq<Event> {
    if ops == [] then []
    else
      var n := |ops| - 1;
      var v := Run(auto, ops[..n]);
      var before := Effective(auto, ops[..n]);
      if ops[n].Ev? && !Table(v.state, auto, ops[n].event).Reject? && !Table(v.state, auto, ops[n].event).Note?
      then before + [ops[n].event] else before
  }

  function Level(s: State): nat {
    match s
    case CONNECTING => 1
    case WAIT_SERVICES => 2
    case BINDING_MIDI => 3
    case CREATING_ALSA => 4
    case ENABLING_NOTIFY => 5
    case STREAMING => 6
    case _ => 0
  }

  function Rung(k: nat): Event
    requires 1 <= k < 6
  {
    [Connected, ServicesResolved, CharFound, AlsaReady, NotifyOk][k - 1]
  }

  predicate Begins(e: Event) {
    e == CmdConnect || e == ReconnectTimer
  }

  /** The last `n` events are a beginning and the first `n - 1` rungs, in order, with nothing in between. */
  predicate EndsWithClimb(events: seq<Event>, n: nat)
    requires n <= 6
  {
    n > 0 ==> && n <= |events| && Begins(events[|events| - n])
              && forall k | 1 <= k < n :: events[|events| - n + k] == Rung(k)
  }

  lemma ClimbGrows(events: seq<Event>, n: nat)
    requires 1 <= n < 6 && EndsWithClimb(events, n)
    ensures EndsWithClimb(events + [Rung(n)], n + 1)
  {
  }

  /** An accepted event that is not merely noted restarts the climb, goes one rung up, or leaves the ladder. */
  lemma MovesOnTheLadder(v: View, e: Event)
    requires !Table(v.state, v.autoReconnect, e).Reject? && !Table(v.state, v.autoReconnect, e).Note?
    ensures var l, l' := Level(v.state), Level(After(v, e).state);
            l' == 0 || (l' == 1 && Begins(e)) || (1 <= l < 6 && l' == l + 1 && e == Rung(l))
  {
  }

  lemma QuietMoves(v: View, op: Op)
    requires op.Ev? ==> var m := Table(v.state, v.autoReconnect, op.event); m.Reject? || m.Note?
    ensures Step(v, op).state == v.state
  {
  }

  lemma {:induction false} EveryRunClimbs(auto: bool, ops: seq<Op>)
    ensures EndsWithClimb(Effective(auto, ops), Level(Run(auto, ops).state))
  {
    if ops != [] {
      var n := |ops| - 1;
      var v := Run(auto, ops[..n]);
      EveryRunClimbs(auto, ops[..n]);
      FlagsInEveryRun(auto, ops[..n]);
      if Effective(auto, ops) == Effective(auto, ops[..n]) {
        QuietMoves(v, ops[n]);
      } else {
        MovesOnTheLadder(v, ops[n].event);
        if Level(Run(auto, ops).state) > 1 {
          ClimbGrows(Effective(auto, ops[..n]), Level(v.state));
        }
      }
    }
  }

  predicate EndsWithFullClimb(es: seq<Event>) {
    && |es| >= 6 && Begins(es[|es| - 6])
    && es[|es| - 5..] == [Connected, ServicesResolved, CharFound, AlsaReady, NotifyOk]
  }

  lemma SixRungs(es: seq<Event>)
    requires EndsWithClimb(es, 6)
    ensures EndsWithFullClimb(es)
  {
    var n := |es|;
    assert es[n - 5] == Rung(1) && es[n - 4] == Rung(2) && es[n - 3] == Rung(3);
    assert es[n - 2] == Rung(4) && es[n - 1] == Rung(5);
  }

  /**
    Any run that ends in STREAMING has, once rejected and merely noted events are
    left out, this suffix: connect or reconnect timer, connected, services
    resolved, characteristic found, ALSA ready, notify ok.
   */
  lemma StreamingOnlyByTheFullClimb(auto: bool, ops: seq<Op>)
    requires Run(auto, ops).state == STREAMING
    ensures EndsWithFullClimb(Effective(auto, ops))
  {
    EveryRunClimbs(auto, ops);
    SixRungs(Effective(auto, ops));
  }
}
