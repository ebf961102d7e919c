/**
  The serial command session and the dispatcher: the timed unlock, the table of
  verbs, and what each handler asks of the device.
 */
module SerialDispatch {
  import opened Common

  datatype Reason =
    | Ok | NotConnected | Locked | UnknownCommand | BadArgument | BadCredentials | MissingArgument
    | Rejected | PolicyBlocked | ControllerNotInitialized | DiscoveryNotActive | DiscoveryAlreadyActive
    | NoActiveConnection | InvalidVerb | WifiControlDisabled

  /** The calls that change the device. */
  datatype TargetCall =
    | SetLeds(mask: u8)
    | SetReportingMode(mode: u8, continuous: bool)
    | SetAccelerometer(on: bool)
    | RequestStatus
    | SetScan(on: bool)
    | StartDiscovery
    | StopDiscovery
    | DisconnectActive(reason: u8)
    | SetAutoReconnect(on: bool)
    | ClearReconnectCache
    | SetWifiControl(on: bool)
    | SetWifiMode(delivery: u8)
    | SetWifiNetwork(ssid: string, password: string)
    | RestartWifi
    | SetWifiToken(token: string)

  /** The device's answers during one dispatch; `accepts` is what the call that changes it returns. */
  datatype Device = Device(connected: bool, handle: u16, initialized: bool, discovering: bool,
                           tokenMutable: bool, accepts: bool)

  datatype Session = Session(token: Option<string>, unlocked: bool, unlockedAtMs: u32, durationMs: u32)

  datatype Handled = Handled(reason: Reason, calls: seq<TargetCall>)

  datatype Outcome = Outcome(reason: Reason, session: Option<Session>, calls: seq<TargetCall>)

  // ----- argument parsing -----

  function ParseBool(token: string): Option<bool> {
    if token == "on" || token == "true" || token == "1" then Some(true)
    else if token == "off" || token == "false" || token == "0" then Some(false)
    else None
  }

  function DigitValue(c: char): nat {
    if '0' <= c <= '9' then c as nat - '0' as nat
    else if 'a' <= c <= 'f' then c as nat - 'a' as nat + 10
    else if 'A' <= c <= 'F' then c as nat - 'A' as nat + 10
    else 16
  }

  /** The number that a non-empty string of digits spells. */
  function Digits(s: string, base: nat): Option<nat>
    decreases |s|
  {
    if s == "" || DigitValue(s[|s| - 1]) >= base then None
    else if |s| == 1 then Some(DigitValue(s[0]))
    else
      var high := Digits(s[..|s| - 1], base);
      if high.None? then None else Some(high.value * base + DigitValue(s[|s| - 1]))
  }

  function SkipSpace(s: string): string {
    if s != "" && (s[0] == ' ' || 9 <= s[0] as int <= 13) then SkipSpace(s[1..]) else s
  }

  /** A whole token read by strtol, base 16 after `0x` and 10 otherwise, within 0..max. */
  function ParseUint(token: string, max: nat): Option<nat> {
    var isHex := |token| >= 2 && token[0] == '0' && (token[1] == 'x' || token[1] == 'X');
    var body := if isHex then token[2..] else SkipSpace(token);
    var negative := !isHex && body != "" && body[0] == '-';
    var digits := if !isHex && body != "" && (body[0] == '-' || body[0] == '+') then body[1..] else body;
    var v := Digits(digits, if isHex then 16 else 10);
    if v.None? || v.value > max || (negative && v.value > 0) then None else v
  }

  function ParseUint8(token: string): Option<u8> {
    var v := ParseUint(token, 255);
    if v.None? || v.value > 255 then None else Some(v.value)
  }

  function ParseUint16(token: string): Option<u16> {
    var v := ParseUint(token, 65535);
    if v.None? || v.value > 65535 then None else Some(v.value)
  }

  function ParseDelivery(token: string): Option<u8> {
    if token == "rest" then Some(0) else if token == "rest-ws" || token == "rest-websocket" then Some(1) else None
  }

  // ----- why the device said no -----

  function CommandReject(d: Device): Reason {
    if !d.connected then NotConnected else if d.handle == 0 then NoActiveConnection else Rejected
  }

  function StartReject(d: Device): Reason {
    if !d.initialized then ControllerNotInitialized
    else if !d.connected && d.discovering then DiscoveryAlreadyActive
    else Rejected
  }

  function StopReject(d: Device): Reason {
    if !d.initialized then ControllerNotInitialized
    else if !d.discovering then DiscoveryNotActive
    else Rejected
  }

  function DisconnectReject(d: Device): Reason {
    if !d.initialized then ControllerNotInitialized else CommandReject(d)
  }

  // ----- handlers -----

  datatype Verb =
    | VStatus | VLed | VMode | VAccel | VRequestStatus | VScan | VDiscover | VDisconnect | VReconnect
    | VWifiControl | VWifiMode | VWifiSetNetwork | VWifiRestart | VWifiSetToken

  const DISPATCH_TABLE: seq<Verb> :=
    [VStatus, VLed, VMode, VAccel, VRequestStatus, VScan, VDiscover, VDisconnect, VReconnect,
     VWifiControl, VWifiMode, VWifiSetNetwork, VWifiRestart, VWifiSetToken]

  function Name(v: Verb): string {
    match v
    case VStatus => "status"
    case VLed => "led"
    case VMode => "mode"
    case VAccel => "accel"
    case VRequestStatus => "request-status"
    case VScan => "scan"
    case VDiscover => "discover"
    case VDisconnect => "disconnect"
    case VReconnect => "reconnect"
    case VWifiControl => "wifi-control"
    case VWifiMode => "wifi-mode"
    case VWifiSetNetwork => "wifi-set-network"
    case VWifiRestart => "wifi-restart"
    case VWifiSetToken => "wifi-set-token"
  }

  predicate IsPrivileged(verb: string) {
    || verb == "led" || verb == "mode" || verb == "accel" || verb == "scan" || verb == "discover"
    || verb == "disconnect" || verb == "reconnect" || verb == "wifi-control" || verb == "wifi-mode"
    || verb == "wifi-set-network" || verb == "wifi-restart" || verb == "wifi-set-token"
  }

  /** A call on the device, and the reason for its refusal. */
  function Ask(call: TargetCall, d: Device, reject: Reason): Handled {
    Handled(if d.accepts then Ok else reject, [call])
  }

  function Tell(call: TargetCall): Handled {
    Handled(Ok, [call])
  }

  function Refuse(reason: Reason): Handled {
    Handled(reason, [])
  }

  function HandleLed(arg: string, d: Device): Handled {
    var mask := ParseUint8(arg);
    if mask.None? then Refuse(BadArgument)
    else if !d.connected then Refuse(NotConnected)
    else Ask(SetLeds(mask.value), d, CommandReject(d))
  }

  function HandleMode(words: seq<string>, d: Device): Handled
    requires |words| >= 3
  {
    var mode := ParseUint8(words[2]);
    var continuous := if |words| >= 4 then ParseBool(words[3]) else Some(false);
    if mode.None? || continuous.None? then Refuse(BadArgument)
    else if !d.connected then Refuse(NotConnected)
    else Ask(SetReportingMode(mode.value, continuous.value), d, CommandReject(d))
  }

  function HandleDiscover(arg: string, d: Device): Handled {
    if arg == "start" then Ask(StartDiscovery, d, StartReject(d))
    else if arg == "stop" then Ask(StopDiscovery, d, StopReject(d))
    else Refuse(InvalidVerb)
  }

  function HandleDisconnect(words: seq<string>, d: Device): Handled {
    var reason := if |words| >= 3 then ParseUint8(words[2]) else Some(0x16);
    if reason.None? then Refuse(BadArgument)
    else if !d.connected then Refuse(NotConnected)
    else Ask(DisconnectActive(reason.value), d, DisconnectReject(d))
  }

  function HandleReconnect(arg: string): Handled {
    if arg == "clear" then Tell(ClearReconnectCache)
    else if ParseBool(arg).None? then Refuse(BadArgument)
    else Tell(SetAutoReconnect(ParseBool(arg).value))
  }

  function HandleAccel(arg: string, d: Device): Handled {
    var on := ParseBool(arg);
    if on.None? then Refuse(BadArgument) else Ask(SetAccelerometer(on.value), d, CommandReject(d))
  }

  function HandleScan(arg: string): Handled {
    var on := ParseBool(arg);
    if on.None? then Refuse(BadArgument) else Tell(SetScan(on.value))
  }

  function HandleWifiControl(arg: string, d: Device): Handled {
    var on := ParseBool(arg);
    if on.None? then Refuse(BadArgument) else Ask(SetWifiControl(on.value), d, Rejected)
  }

  function HandleWifiMode(arg: string, d: Device): Handled {
    var mode := ParseDelivery(arg);
    if mode.None? then Refuse(BadArgument) else Ask(SetWifiMode(mode.value), d, Rejected)
  }

  /** How many words a verb needs, with "wm" and the verb itself. */
  function WordsNeeded(v: Verb): nat {
    match v
    case VStatus | VRequestStatus | VDisconnect | VWifiRestart => 2
    case VWifiSetNetwork => 4
    case _ => 3
  }

  function HandleVerb(v: Verb, words: seq<string>, d: Device): Handled
    requires |words| >= 2
  {
    if |words| < WordsNeeded(v) then Refuse(MissingArgument)
    else match v
      case VStatus => Refuse(Ok)
      case VLed => HandleLed(words[2], d)
      case VMode => HandleMode(words, d)
      case VAccel => HandleAccel(words[2], d)
      case VRequestStatus =>
        if !d.connected then Refuse(NotConnected) else Ask(RequestStatus, d, CommandReject(d))
      case VScan => HandleScan(words[2])
      case VDiscover => HandleDiscover(words[2], d)
      case VDisconnect => HandleDisconnect(words, d)
      case VReconnect => HandleReconnect(words[2])
      case VWifiControl => HandleWifiControl(words[2], d)
      case VWifiMode => HandleWifiMode(words[2], d)
      case VWifiSetNetwork => Ask(SetWifiNetwork(words[2], words[3]), d, Rejected)
      case VWifiRestart => Ask(RestartWifi, d, WifiControlDisabled)
      case VWifiSetToken =>
        if d.tokenMutable then Ask(SetWifiToken(words[2]), d, Rejected) else Refuse(PolicyBlocked)
  }

  /** The first table entry from the i-th on that carries the verb. */
  function Lookup(verb: string, i: nat): Option<Verb>
    decreases |DISPATCH_TABLE| - i
  {
    if i >= |DISPATCH_TABLE| then None
    else if Name(DISPATCH_TABLE[i]) == verb then Some(DISPATCH_TABLE[i])
    else Lookup(verb, i + 1)
  }

  // ----- session -----

  function SessionLock(s: Session): Session {
    Session(s.token, false, 0, 0)
  }

  function SessionUnlock(s: Session, durationMs: u32, nowMs: u32): Session {
    if durationMs == 0 then SessionLock(s) else Session(s.token, true, nowMs, durationMs)
  }

  predicate IsUnlocked(s: Session, nowMs: u32) {
    s.unlocked && Sub32(nowMs, s.unlockedAtMs) < s.durationMs
  }

  /** The seconds an unlock asks for, 60 unless given. */
  function UnlockSeconds(words: seq<string>): Option<u16> {
    if |words| >= 4 then ParseUint16(words[3]) else Some(60)
  }

  function HandleUnlock(words: seq<string>, session: Option<Session>, nowMs: u32): Outcome {
    if |words| < 3 then Outcome(MissingArgument, session, [])
    else if session.None? then Outcome(Rejected, session, [])
    else if session.value.token != Some(words[2]) then Outcome(BadCredentials, session, [])
    else
      var seconds := UnlockSeconds(words);
      if seconds.None? then Outcome(BadArgument, session, [])
      else Outcome(Ok, Some(SessionUnlock(session.value, seconds.value * 1000 % TWO_32, nowMs)), [])
  }

  /** serialCommandDispatch; `gated` tells that privileged commands need an unlocked session. */
  function Dispatch(words: seq<string>, d: Device, session: Option<Session>, gated: bool, nowMs: u32): Outcome {
    if |words| < 2 then Outcome(UnknownCommand, session, [])
    else if words[1] == "unlock" then HandleUnlock(words, session, nowMs)
    else if gated && IsPrivileged(words[1]) && (session.None? || !IsUnlocked(session.value, nowMs))
    then Outcome(Locked, session, [])
    else
      var v := Lookup(words[1], 0);
      if v.None? then Outcome(UnknownCommand, session, [])
      else
        var h := HandleVerb(v.value, words, d);
        Outcome(h.reason, session, h.calls)
  }

  class SerialCommandSession {
    var token: Option<string>
    var unlockedAtMs: u32
    var unlockDurationMs: u32
    var unlocked: bool

    function View(): Session
      reads this
    {
      Session(token, unlocked, unlockedAtMs, unlockDurationMs)
    }

    constructor ()
      ensures View() == Session(None, false, 0, 0)
    {
      token, unlockedAtMs, unlockDurationMs, unlocked := None, 0, 0, false;
    }

    method SetToken(value: Option<string>)
      modifies this
      ensures View() == old(View()).(token := value)
    {
      token := value;
    }

    method ValidateToken(candidate: string) returns (ok: bool)
      ensures ok <==> View().token == Some(candidate)
    {
      if token.None? {
        return false;
      }
      return candidate == token.value;
    }

    method Lock()
      modifies this
      ensures View() == SessionLock(old(View()))
    {
      unlocked := false;
      unlockedAtMs := 0;
      unlockDurationMs := 0;
    }

    method Unlock(durationMs: u32, nowMs: u32)
      modifies this
      ensures View() == SessionUnlock(old(View()), durationMs, nowMs)
    {
      if durationMs == 0 {
        Lock();
        return;
      }
      unlocked := true;
      unlockedAtMs := nowMs;
      unlockDurationMs := durationMs;
    }

    method Unlocked(nowMs: u32) returns (ok: bool)
      ensures ok <==> IsUnlocked(View(), nowMs)
    {
      if !unlocked {
        return false;
      }
      var elapsed := Sub32(nowMs, unlockedAtMs);
      return elapsed < unlockDurationMs;
    }
  }

  /** The device behind the dispatcher, with the calls it received. */
  class SerialCommandTarget {
    var device: Device
    var calls: seq<TargetCall>

    constructor (device: Device)
      ensures this.device == device && calls == []
    {
      this.device := device;
      calls := [];
    }
  }

  ghost function SessionView(session: SerialCommandSession?): Option<Session>
    reads session
  {
    if session == null then None else Some(session.View())
  }

  method UnlockSession(words: seq<string>, session: SerialCommandSession?, nowMs: u32) returns (reason: Reason)
    modifies session
    ensures Outcome(reason, SessionView(session), []) == HandleUnlock(words, old(SessionView(session)), nowMs)
  {
    if |words| < 3 {
      return MissingArgument;
    }
    if session == null {
      return Rejected;
    }
    var valid := session.ValidateToken(words[2]);
    if !valid {
      return BadCredentials;
    }
    var seconds: u16 := 60;
    if |words| >= 4 {
      var parsed := ParseUint16(words[3]);
      if parsed.None? {
        return BadArgument;
      }
      seconds := parsed.value;
    }
    session.Unlock(seconds * 1000 % TWO_32, nowMs);
    return Ok;
  }

  method SerialCommandDispatch(words: seq<string>, target: SerialCommandTarget, session: SerialCommandSession?,
                               gated: bool, nowMs: u32) returns (reason: Reason)
    modifies target, session
    ensures var o := Dispatch(words, old(target.device), old(SessionView(session)), gated, nowMs);
            reason == o.reason && SessionView(session) == o.session && target.calls == old(target.calls) + o.calls
  {
    if |words| < 2 {
      return UnknownCommand;
    }
    var verb := words[1];
    if verb == "unlock" {
      reason := UnlockSession(words, session, nowMs);
      return;
    }
    if gated && IsPrivileged(verb) {
      if session == null {
        return Locked;
      }
      var open := session.Unlocked(nowMs);
      if !open {
        return Locked;
      }
    }
    for i := 0 to |DISPATCH_TABLE|
      invariant Lookup(verb, i) == Lookup(verb, 0)
      invariant target.calls == old(target.calls) && SessionView(session) == old(SessionView(session))
      invariant target.device == old(target.device)
    {
      if Name(DISPATCH_TABLE[i]) == verb {
        var h := HandleVerb(DISPATCH_TABLE[i], words, target.device);
        target.calls := target.calls + h.calls;
        return h.reason;
      }
    }
    return UnknownCommand;
  }
}
