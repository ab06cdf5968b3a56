/** The MIDI session object of src/mb-session.c and the transition table it follows. */
module Session {
  import opened Wrappers

  datatype State =
    | IDLE | SCANNING | CONNECTING | WAIT_SERVICES | BINDING_MIDI | CREATING_ALSA
    | ENABLING_NOTIFY | STREAMING | RECONNECTING | ERROR

  datatype Error =
    | NONE | ADAPTER_POWERED_OFF | CONNECT_FAILED | CONNECT_TIMEOUT | SERVICES_TIMEOUT
    | SERVICE_NOT_FOUND | CHAR_NOT_FOUND | NOTIFY_FAILED | NOTIFY_TIMEOUT | GATT_WRITE_FAILED
    | ALSA_FAILED | ALSA_IO_FAILED | ALSA_DECODE_FAILED | RUNTIME_FAILED | DISCONNECTED
    | INVALID_TRANSITION | INTERNAL

  datatype Event =
    | CmdScan | CmdConnect | CmdDisconnect | CmdForget
    | DeviceFound | Connected | Disconnected | ServicesResolved | AdapterOff | ConnectFailed
    | ServiceNotFound | CharFound | CharNotFound
    | AlsaReady | AlsaFailed | AlsaIoFailed | AlsaDecodeFailed
    | NotifyOk | NotifyFailed | GattWriteFailed | RuntimeFailed
    | ReconnectTimer | Timeout | Fatal

  /** Everything a session remembers apart from its identity. */
  datatype View = View(
    state: State, error: Error,
    connected: bool, resolved: bool, notify: bool,
    servicePath: Option<string>, charPath: Option<string>, charUuid: Option<string>,
    alsaPort: int, alsaReady: bool,
    autoReconnect: bool, reconnects: nat)

  const FRESH := View(IDLE, NONE, false, false, false, None, None, None, -1, false, true, 0)

  // ---- the transition table ----

  /** How an accepted transition treats what was learnt about the link. */
  datatype Effect =
    | Keep            // nothing but state and error
    | DropLink        // link flags and binding forgotten, ALSA port kept
    | DropAll         // the ALSA port forgotten too
    | LinkUp | GattUp | PortUp | NotifyUp | CountRetry

  datatype Move =
    | Reject                                       // error INVALID_TRANSITION, state kept
    | Ignore                                       // accepted, nothing changes
    | Note(error: Error)                           // accepted, only the error is recorded
    | Go(to: State, error: Error, effect: Effect)

  /** Loss of the link: try again, or give up when reconnecting is switched off. */
  function Lost(autoReconnect: bool, error: Error, effect: Effect): Move {
    Go(if autoReconnect then RECONNECTING else ERROR, error, effect)
  }

  /** Events handled alike, or nearly alike, in every state. */
  predicate IsGlobal(e: Event) {
    e in {CmdForget, CmdDisconnect, Fatal, RuntimeFailed, AdapterOff, ConnectFailed, Timeout, ServiceNotFound,
          CharNotFound, AlsaFailed, NotifyFailed, GattWriteFailed, AlsaIoFailed, AlsaDecodeFailed}
  }

  function Table(s: State, auto: bool, e: Event): Move {
    match e
    case CmdForget => Go(IDLE, NONE, DropAll)
    case CmdDisconnect => Go(IDLE, NONE, DropAll)
    case Fatal => Go(ERROR, INTERNAL, Keep)
    case RuntimeFailed => Go(ERROR, RUNTIME_FAILED, Keep)
    case AdapterOff => Go(ERROR, ADAPTER_POWERED_OFF, DropAll)
    case ServiceNotFound => Go(ERROR, SERVICE_NOT_FOUND, Keep)
    case CharNotFound => Go(ERROR, CHAR_NOT_FOUND, Keep)
    case AlsaFailed => Go(ERROR, ALSA_FAILED, Keep)
    case NotifyFailed => Lost(auto, NOTIFY_FAILED, DropLink)
    case GattWriteFailed => Lost(auto, GATT_WRITE_FAILED, DropLink)
    case ConnectFailed =>
      if s == CONNECTING then Lost(auto, CONNECT_FAILED, DropAll) else Go(ERROR, CONNECT_FAILED, Keep)
    case Timeout =>
      if s == CONNECTING then Lost(auto, CONNECT_TIMEOUT, DropAll)
      else if s == WAIT_SERVICES then Lost(auto, SERVICES_TIMEOUT, DropLink)
      else if s == ENABLING_NOTIFY then Lost(auto, NOTIFY_TIMEOUT, DropLink)
      else Go(ERROR, INTERNAL, Keep)
    case AlsaIoFailed => if s == STREAMING then Note(ALSA_IO_FAILED) else Go(ERROR, ALSA_IO_FAILED, Keep)
    case AlsaDecodeFailed => if s == STREAMING then Note(ALSA_DECODE_FAILED) else Go(ERROR, ALSA_DECODE_FAILED, Keep)
    case CmdScan =>
      if s == IDLE then Go(SCANNING, NONE, Keep) else if s == ERROR then Go(SCANNING, NONE, DropAll) else Reject
    case DeviceFound => if s == SCANNING then Ignore else Reject
    case CmdConnect =>
      if s == IDLE || s == SCANNING then Go(CONNECTING, NONE, Keep)
      else if s == ERROR then Go(CONNECTING, NONE, DropAll)
      else if s == RECONNECTING then Go(CONNECTING, NONE, CountRetry)
      else Reject
    case ReconnectTimer => if s == RECONNECTING then Go(CONNECTING, NONE, CountRetry) else Reject
    case Connected => if s == CONNECTING then Go(WAIT_SERVICES, NONE, LinkUp) else Reject
    case ServicesResolved => if s == WAIT_SERVICES then Go(BINDING_MIDI, NONE, GattUp) else Reject
    case CharFound => if s == BINDING_MIDI then Go(CREATING_ALSA, NONE, Keep) else Reject
    case AlsaReady => if s == CREATING_ALSA then Go(ENABLING_NOTIFY, NONE, PortUp) else Reject
    case NotifyOk => if s == ENABLING_NOTIFY then Go(STREAMING, NONE, NotifyUp) else Reject
    case Disconnected =>
      if s == CONNECTING then Lost(auto, CONNECT_FAILED, DropAll)
      else if OnLink(s) then Lost(auto, DISCONNECTED, DropLink)
      else Reject
  }

  /** From WAIT_SERVICES to STREAMING a Bluetooth link exists. */
  predicate OnLink(s: State) {
    s in {WAIT_SERVICES, BINDING_MIDI, CREATING_ALSA, ENABLING_NOTIFY, STREAMING}
  }

  function ApplyEffect(v: View, effect: Effect): View {
    match effect
    case Keep => v
    case DropLink => Unlinked(v)
    case DropAll => Unlinked(v).(alsaPort := -1, alsaReady := false)
    case LinkUp => v.(connected := true)
    case GattUp => v.(resolved := true)
    case PortUp => v.(alsaReady := true, alsaPort := if v.alsaPort < 0 then 0 else v.alsaPort)
    case NotifyUp => v.(notify := true)
    case CountRetry => v.(reconnects := (v.reconnects + 1) % 0x1_0000_0000)
  }

  function Unlinked(v: View): View {
    v.(connected := false, resolved := false, notify := false,
       servicePath := None, charPath := None, charUuid := None)
  }

  predicate Accepts(v: View, e: Event) {
    Table(v.state, v.autoReconnect, e) != Reject
  }

  function After(v: View, e: Event): View {
    match Table(v.state, v.autoReconnect, e)
    case Reject => v.(error := INVALID_TRANSITION)
    case Ignore => v
    case Note(error) => v.(error := error)
    case Go(to, error, effect) => ApplyEffect(v, effect).(state := to, error := error)
  }

  // ---- the object ----

  class Session {
    var state: State
    var error: Error
    var bluezConnected: bool
    var servicesResolved: bool
    var notifyEnabled: bool
    var midiServicePath: Option<string>
    var midiCharPath: Option<string>
    var midiCharUuid: Option<string>
    var alsaPortId: int
    var alsaReady: bool
    var autoReconnect: bool
    var reconnectAttempts: nat

    ghost function Value(): View
      reads this
    {
      View(state, error, bluezConnected, servicesResolved, notifyEnabled,
           midiServicePath, midiCharPath, midiCharUuid, alsaPortId, alsaReady, autoReconnect, reconnectAttempts)
    }

    constructor ()
      ensures Value() == FRESH
    {
      state, error := IDLE, NONE;
      bluezConnected, servicesResolved, notifyEnabled := false, false, false;
      midiServicePath, midiCharPath, midiCharUuid := None, None, None;
      alsaPortId, alsaReady, autoReconnect, reconnectAttempts := -1, false, true, 0;
    }

    method ResetRuntime(keepAlsaPort: bool)
      modifies this
      ensures Value() == ApplyEffect(old(Value()), if keepAlsaPort then DropLink else DropAll)
    {
      bluezConnected, servicesResolved, notifyEnabled := false, false, false;
      midiServicePath, midiCharPath, midiCharUuid := None, None, None;
      if !keepAlsaPort {
        alsaReady := false;
        alsaPortId := -1;
      }
    }

    method EnterError(e: Error)
      modifies this
      ensures Value() == old(Value()).(state := ERROR, error := e)
    {
      state := ERROR;
      error := e;
    }

    method EnterReconnectingOrError(e: Error, keepAlsaPort: bool)
      modifies this
      ensures Value() == ApplyEffect(old(Value()), if keepAlsaPort then DropLink else DropAll)
                           .(state := if old(autoReconnect) then RECONNECTING else ERROR, error := e)
    {
      ResetRuntime(keepAlsaPort);
      if autoReconnect {
        state := RECONNECTING;
        error := e;
      } else {
        EnterError(e);
      }
    }

    // The handlers that come before the per-state table; `handled` when one of them applied.

    /** The user's commands that end a session. */
    method HandleEndCommand(event: Event) returns (handled: bool)
      modifies this
      ensures handled <==> event in {CmdForget, CmdDisconnect}
      ensures handled ==> Accepts(old(Value()), event)
      ensures Value() == if handled then After(old(Value()), event) else old(Value())
    {
      if event == CmdForget {
        ResetRuntime(false);
        state, error := IDLE, NONE;
        return true;
      }
      if event == CmdDisconnect {
        ResetRuntime(false);
        state, error := IDLE, NONE;
        return true;
      }
      return false;
    }

    /** Failures that always lead to ERROR. */
    method HandleFatal(event: Event) returns (handled: bool)
      modifies this
      ensures handled <==> event in {Fatal, RuntimeFailed, AdapterOff}
      ensures handled ==> Accepts(old(Value()), event)
      ensures Value() == if handled then After(old(Value()), event) else old(Value())
    {
      if event == Fatal {
        EnterError(INTERNAL);
        return true;
      }
      if event == RuntimeFailed {
        EnterError(RUNTIME_FAILED);
        return true;
      }
      if event == AdapterOff {
        ResetRuntime(false);
        EnterError(ADAPTER_POWERED_OFF);
        return true;
      }
      return false;
    }

    /** A connection that could not be made. */
    method HandleConnectFailed(event: Event) returns (handled: bool)
      modifies this
      ensures handled <==> event in {ConnectFailed}
      ensures handled ==> Accepts(old(Value()), event)
      ensures Value() == if handled then After(old(Value()), event) else old(Value())
    {
      if event == ConnectFailed {
        if state == CONNECTING {
          EnterReconnectingOrError(CONNECT_FAILED, false);
        } else {
          EnterError(CONNECT_FAILED);
        }
        return true;
      }
      return false;
    }

    /** A timeout means what the state was waiting for. */
    method HandleTimeout(event: Event) returns (handled: bool)
      modifies this
      ensures handled <==> event in {Timeout}
      ensures handled ==> Accepts(old(Value()), event)
      ensures Value() == if handled then After(old(Value()), event) else old(Value())
    {
      if event == Timeout {
        if state == CONNECTING {
          EnterReconnectingOrError(CONNECT_TIMEOUT, false);
        } else if state == WAIT_SERVICES {
          EnterReconnectingOrError(SERVICES_TIMEOUT, true);
        } else if state == ENABLING_NOTIFY {
          EnterReconnectingOrError(NOTIFY_TIMEOUT, true);
        } else {
          EnterError(INTERNAL);
        }
        return true;
      }
      return false;
    }

    /** Something the bridge needs is missing. */
    method HandleMissing(event: Event) returns (handled: bool)
      modifies this
      ensures handled <==> event in {ServiceNotFound, CharNotFound, AlsaFailed}
      ensures handled ==> Accepts(old(Value()), event)
      ensures Value() == if handled then After(old(Value()), event) else old(Value())
    {
      if event == ServiceNotFound {
        EnterError(SERVICE_NOT_FOUND);
        return true;
      }
      if event == CharNotFound {
        EnterError(CHAR_NOT_FOUND);
        return true;
      }
      if event == AlsaFailed {
        EnterError(ALSA_FAILED);
        return true;
      }
      return false;
    }

    /** Failures of the link in use. */
    method HandleLinkFailure(event: Event) returns (handled: bool)
      modifies this
      ensures handled <==> event in {NotifyFailed, GattWriteFailed}
      ensures handled ==> Accepts(old(Value()), event)
      ensures Value() == if handled then After(old(Value()), event) else old(Value())
    {
      if event == NotifyFailed {
        EnterReconnectingOrError(NOTIFY_FAILED, true);
        return true;
      }
      if event == GattWriteFailed {
        EnterReconnectingOrError(GATT_WRITE_FAILED, true);
        return true;
      }
      return false;
    }

    /** ALSA failures, only noted while streaming. */
    method HandleAlsaFailure(event: Event) returns (handled: bool)
      modifies this
      ensures handled <==> event in {AlsaIoFailed, AlsaDecodeFailed}
      ensures handled ==> Accepts(old(Value()), event)
      ensures Value() == if handled then After(old(Value()), event) else old(Value())
    {
      if event == AlsaIoFailed {
        if state == STREAMING {
          error := ALSA_IO_FAILED;
        } else {
          EnterError(ALSA_IO_FAILED);
        }
        return true;
      }
      if event == AlsaDecodeFailed {
        if state == STREAMING {
          error := ALSA_DECODE_FAILED;
        } else {
          EnterError(ALSA_DECODE_FAILED);
        }
        return true;
      }
      return false;
    }

    /** All of them, in order. */
    method HandleGlobal(event: Event) returns (handled: bool)
      modifies this
      ensures handled <==> IsGlobal(event)
      ensures handled ==> Accepts(old(Value()), event)
      ensures Value() == if handled then After(old(Value()), event) else old(Value())
    {
      handled := HandleEndCommand(event);
      if !handled {
        handled := HandleFatal(event);
      }
      if !handled {
        handled := HandleConnectFailed(event);
      }
      if !handled {
        handled := HandleTimeout(event);
      }
      if !handled {
        handled := HandleMissing(event);
      }
      if !handled {
        handled := HandleLinkFailure(event);
      }
      if !handled {
        handled := HandleAlsaFailure(event);
      }
    }

    // The per-state table, one method per state.

    method HandleIdle(event: Event) returns (ok: bool)
      requires !IsGlobal(event) && state == IDLE
      modifies this
      ensures ok <==> Accepts(old(Value()), event)
      ensures Value() == if ok then After(old(Value()), event) else old(Value())
    {
      if event == CmdScan {
        state, error := SCANNING, NONE;
        return true;
      }
      if event == CmdConnect {
        state, error := CONNECTING, NONE;
        return true;
      }
      return false;
    }

    method HandleScanning(event: Event) returns (ok: bool)
      requires !IsGlobal(event) && state == SCANNING
      modifies this
      ensures ok <==> Accepts(old(Value()), event)
      ensures Value() == if ok then After(old(Value()), event) else old(Value())
    {
      if event == DeviceFound {
        return true;
      }
      if event == CmdConnect {
        state, error := CONNECTING, NONE;
        return true;
      }
      return false;
    }

    method HandleConnecting(event: Event) returns (ok: bool)
      requires !IsGlobal(event) && state == CONNECTING
      modifies this
      ensures ok <==> Accepts(old(Value()), event)
      ensures Value() == if ok then After(old(Value()), event) else old(Value())
    {
      if event == Connected {
        bluezConnected := true;
        state, error := WAIT_SERVICES, NONE;
        return true;
      }
      if event == Disconnected {
        EnterReconnectingOrError(CONNECT_FAILED, false);
        return true;
      }
      return false;
    }

    method HandleWaitServices(event: Event) returns (ok: bool)
      requires !IsGlobal(event) && state == WAIT_SERVICES
      modifies this
      ensures ok <==> Accepts(old(Value()), event)
      ensures Value() == if ok then After(old(Value()), event) else old(Value())
    {
      if event == ServicesResolved {
        servicesResolved := true;
        state, error := BINDING_MIDI, NONE;
        return true;
      }
      if event == Disconnected {
        EnterReconnectingOrError(DISCONNECTED, true);
        return true;
      }
      return false;
    }

    method HandleBindingMidi(event: Event) returns (ok: bool)
      requires !IsGlobal(event) && state == BINDING_MIDI
      modifies this
      ensures ok <==> Accepts(old(Value()), event)
      ensures Value() == if ok then After(old(Value()), event) else old(Value())
    {
      if event == CharFound {
        state, error := CREATING_ALSA, NONE;
        return true;
      }
      if event == Disconnected {
        EnterReconnectingOrError(DISCONNECTED, true);
        return true;
      }
      return false;
    }

    method HandleCreatingAlsa(event: Event) returns (ok: bool)
      requires !IsGlobal(event) && state == CREATING_ALSA
      modifies this
      ensures ok <==> Accepts(old(Value()), event)
      ensures Value() == if ok then After(old(Value()), event) else old(Value())
    {
      if event == AlsaReady {
        alsaReady := true;
        if alsaPortId < 0 {
          alsaPortId := 0;
        }
        state, error := ENABLING_NOTIFY, NONE;
        return true;
      }
      if event == Disconnected {
        EnterReconnectingOrError(DISCONNECTED, true);
        return true;
      }
      return false;
    }

    method HandleEnablingNotify(event: Event) returns (ok: bool)
      requires !IsGlobal(event) && state == ENABLING_NOTIFY
      modifies this
      ensures ok <==> Accepts(old(Value()), event)
      ensures Value() == if ok then After(old(Value()), event) else old(Value())
    {
      if event == NotifyOk {
        notifyEnabled := true;
        state, error := STREAMING, NONE;
        return true;
      }
      if event == Disconnected {
        EnterReconnectingOrError(DISCONNECTED, true);
        return true;
      }
      return false;
    }

    method HandleStreaming(event: Event) returns (ok: bool)
      requires !IsGlobal(event) && state == STREAMING
      modifies this
      ensures ok <==> Accepts(old(Value()), event)
      ensures Value() == if ok then After(old(Value()), event) else old(Value())
    {
      if event == Disconnected {
        EnterReconnectingOrError(DISCONNECTED, true);
        return true;
      }
      return false;
    }

    method HandleReconnecting(event: Event) returns (ok: bool)
      requires !IsGlobal(event) && state == RECONNECTING
      modifies this
      ensures ok <==> Accepts(old(Value()), event)
      ensures Value() == if ok then After(old(Value()), event) else old(Value())
    {
      if event == ReconnectTimer || event == CmdConnect {
        reconnectAttempts := (reconnectAttempts + 1) % 0x1_0000_0000;
        state, error := CONNECTING, NONE;
        return true;
      }
      return false;
    }

    method HandleError(event: Event) returns (ok: bool)
      requires !IsGlobal(event) && state == ERROR
      modifies this
      ensures ok <==> Accepts(old(Value()), event)
      ensures Value() == if ok then After(old(Value()), event) else old(Value())
    {
      if event == CmdConnect {
        ResetRuntime(false);
        state, error := CONNECTING, NONE;
        return true;
      }
      if event == CmdScan {
        ResetRuntime(false);
        state, error := SCANNING, NONE;
        return true;
      }
      return false;
    }

    method HandleInState(event: Event) returns (ok: bool)
      requires !IsGlobal(event)
      modifies this
      ensures ok <==> Accepts(old(Value()), event)
      ensures Value() == if ok then After(old(Value()), event) else old(Value())
    {
      match state {
        case IDLE => ok := HandleIdle(event);
        case SCANNING => ok := HandleScanning(event);
        case CONNECTING => ok := HandleConnecting(event);
        case WAIT_SERVICES => ok := HandleWaitServices(event);
        case BINDING_MIDI => ok := HandleBindingMidi(event);
        case CREATING_ALSA => ok := HandleCreatingAlsa(event);
        case ENABLING_NOTIFY => ok := HandleEnablingNotify(event);
        case STREAMING => ok := HandleStreaming(event);
        case RECONNECTING => ok := HandleReconnecting(event);
        case ERROR => ok := HandleError(event);
      }
    }

    /** Every event in every state does what the table says. */
    method HandleEvent(event: Event) returns (ok: bool)
      modifies this
      ensures Value() == After(old(Value()), event)
      ensures ok <==> Accepts(old(Value()), event)
    {
      ok := HandleGlobal(event);
      if ok {
        return;
      }
      ok := HandleInState(event);
      if !ok {
        error := INVALID_TRANSITION;
      }
    }

    method SetMidiBinding(service: string, characteristic: string, uuid: string)
      modifies this
      ensures Value() == Bound(old(Value()), service, characteristic, uuid)
    {
      midiServicePath := DupOrNull(service);
      midiCharPath := DupOrNull(characteristic);
      midiCharUuid := DupOrNull(uuid);
    }

    method SetAlsaPort(port: int)
      modifies this
      ensures Value() == old(Value()).(alsaPort := port, alsaReady := port >= 0)
    {
      alsaPortId := port;
      alsaReady := port >= 0;
    }

    method IsStreamingReady() returns (ready: bool)
      ensures ready <==> StreamingReady(Value())
    {
      ready := state == STREAMING && bluezConnected && servicesResolved && midiCharPath.Some? &&
               notifyEnabled && alsaReady && alsaPortId >= 0;
    }
  }

  function DupOrNull(s: string): Option<string> {
    if s == "" then None else Some(s)
  }

  function Bound(v: View, service: string, characteristic: string, uuid: string): View {
    v.(servicePath := DupOrNull(service), charPath := DupOrNull(characteristic), charUuid := DupOrNull(uuid))
  }

  /** The documented meaning of STREAMING, as the source tests it. */
  predicate StreamingReady(v: View) {
    v.state == STREAMING && v.connected && v.resolved && v.charPath.Some? &&
    v.notify && v.alsaReady && v.alsaPort >= 0
  }
}
