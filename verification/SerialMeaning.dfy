/**
  What the serial commands mean, told by their words alone: which call on the device
  a command asks for, when it is made, and the answer in every case.
 */
module SerialMeaning {
  import opened Common
  import opened SerialDispatch
  import opened SerialDispatchProperties
  import opened SerialNumbers

  // ----- what words say -----

  predicate SaysBool(w: string, on: bool) {
    if on then w in {"on", "true", "1"} else w in {"off", "false", "0"}
  }

  predicate SaysDelivery(w: string, delivery: u8) {
    if w == "rest" then delivery == 0 else w in {"rest-ws", "rest-websocket"} && delivery == 1
  }

  /** The words, the first of which is "wm", ask for the call; words behind those are ignored. */
  ghost predicate Says(words: seq<string>, call: TargetCall) {
    |words| >= 2 && words[1] == VerbOf(call) && SaysArguments(words, call)
  }

  function VerbOf(call: TargetCall): string {
    match call
    case SetLeds(_) => "led"
    case SetReportingMode(_, _) => "mode"
    case SetAccelerometer(_) => "accel"
    case RequestStatus => "request-status"
    case SetScan(_) => "scan"
    case StartDiscovery => "discover"
    case StopDiscovery => "discover"
    case DisconnectActive(_) => "disconnect"
    case SetAutoReconnect(_) => "reconnect"
    case ClearReconnectCache => "reconnect"
    case SetWifiControl(_) => "wifi-control"
    case SetWifiMode(_) => "wifi-mode"
    case SetWifiNetwork(_, _) => "wifi-set-network"
    case RestartWifi => "wifi-restart"
    case SetWifiToken(_) => "wifi-set-token"
  }

  ghost predicate SaysArguments(words: seq<string>, call: TargetCall)
    requires |words| >= 2
  {
    match call
    case RequestStatus | RestartWifi => true
    case DisconnectActive(reason) => if |words| == 2 then reason == 0x16 else NumberText(words[2], reason)
    case SetWifiNetwork(ssid, password) => |words| >= 4 && words[2] == ssid && words[3] == password
    case _ => |words| >= 3 && SaysThird(words, call)
  }

  ghost predicate SaysThird(words: seq<string>, call: TargetCall)
    requires |words| >= 3
  {
    var w := words[2];
    match call
    case SetLeds(mask) => NumberText(w, mask)
    case SetReportingMode(mode, continuous) =>
      NumberText(w, mode) && if |words| == 3 then !continuous else SaysBool(words[3], continuous)
    case SetAccelerometer(on) => SaysBool(w, on)
    case SetScan(on) => SaysBool(w, on)
    case StartDiscovery => w == "start"
    case StopDiscovery => w == "stop"
    case SetAutoReconnect(on) => SaysBool(w, on)
    case ClearReconnectCache => w == "clear"
    case SetWifiControl(on) => SaysBool(w, on)
    case SetWifiMode(delivery) => SaysDelivery(w, delivery)
    case SetWifiToken(token) => w == token
    case _ => false
  }

  // ----- what is answered -----

  /** Wiimote commands need one connected, and the token can be kept from being changed. */
  predicate Permitted(call: TargetCall, d: Device) {
    match call
    case SetLeds(_) | SetReportingMode(_, _) | RequestStatus | DisconnectActive(_) => d.connected
    case SetWifiToken(_) => d.tokenMutable
    case _ => true
  }

  /** Why the device refused a call. */
  function RefusalOf(call: TargetCall, d: Device): Reason {
    match call
    case SetLeds(_) | SetReportingMode(_, _) | SetAccelerometer(_) | RequestStatus =>
      if !d.connected then NotConnected else if d.handle == 0 then NoActiveConnection else Rejected
    case DisconnectActive(_) =>
      if !d.initialized then ControllerNotInitialized else if d.handle == 0 then NoActiveConnection else Rejected
    case StartDiscovery =>
      if !d.initialized then ControllerNotInitialized
      else if d.discovering && !d.connected then DiscoveryAlreadyActive else Rejected
    case StopDiscovery =>
      if !d.initialized then ControllerNotInitialized else if d.discovering then Rejected else DiscoveryNotActive
    case RestartWifi => WifiControlDisabled
    case _ => Rejected
  }

  predicate NeverRefused(call: TargetCall) {
    call.SetScan? || call.SetAutoReconnect? || call.ClearReconnectCache?
  }

  function Answer(call: TargetCall, d: Device): Handled {
    if !Permitted(call, d) then Handled(if call.SetWifiToken? then PolicyBlocked else NotConnected, [])
    else Handled(if d.accepts || NeverRefused(call) then Ok else RefusalOf(call, d), [call])
  }

  const VERBS: set<string> :=
    {"status", "led", "mode", "accel", "request-status", "scan", "discover", "disconnect", "reconnect",
     "wifi-control", "wifi-mode", "wifi-set-network", "wifi-restart", "wifi-set-token"}

  /** The reason given for words that ask for no call. */
  function NoCallReason(words: seq<string>): Reason
    requires |words| >= 2
  {
    if words[1] !in VERBS then UnknownCommand
    else if words[1] == "status" then Ok
    else if |words| == 2 || (|words| == 3 && words[1] == "wifi-set-network") then MissingArgument
    else if words[1] == "discover" then InvalidVerb
    else BadArgument
  }

  // ----- finding the handler -----

  function VerbFor(call: TargetCall): Verb {
    match call
    case SetLeds(_) => VLed
    case SetReportingMode(_, _) => VMode
    case SetAccelerometer(_) => VAccel
    case RequestStatus => VRequestStatus
    case SetScan(_) => VScan
    case StartDiscovery => VDiscover
    case StopDiscovery => VDiscover
    case DisconnectActive(_) => VDisconnect
    case SetAutoReconnect(_) => VReconnect
    case ClearReconnectCache => VReconnect
    case SetWifiControl(_) => VWifiControl
    case SetWifiMode(_) => VWifiMode
    case SetWifiNetwork(_, _) => VWifiSetNetwork
    case RestartWifi => VWifiRestart
    case SetWifiToken(_) => VWifiSetToken
  }

  lemma NamesDiffer(v: Verb, u: Verb)
    requires Name(v) == Name(u)
    ensures v == u
  {
  }

  lemma InTable(v: Verb)
    ensures v in DISPATCH_TABLE
  {
  }

  lemma {:induction false} LookupFinds(i: nat, j: nat)
    requires i <= j < |DISPATCH_TABLE|
    ensures Lookup(Name(DISPATCH_TABLE[j]), i).Some?
    decreases |DISPATCH_TABLE| - i
  {
    if i < j {
      LookupFinds(i + 1, j);
    }
  }

  lemma LookupIs(v: Verb)
    ensures Lookup(Name(v), 0) == Some(v)
  {
    InTable(v);
    var j :| 0 <= j < |DISPATCH_TABLE| && DISPATCH_TABLE[j] == v;
    LookupFinds(0, j);
    LookupNames(Name(v), 0);
    NamesDiffer(Lookup(Name(v), 0).value, v);
  }

  lemma NamesAreVerbs(v: Verb)
    ensures Name(v) in VERBS
  {
  }

  // ----- reading arguments -----

  lemma BoolRead(w: string, on: bool)
    ensures ParseBool(w) == Some(on) <==> SaysBool(w, on)
  {
  }

  lemma DeliveryRead(w: string, delivery: u8)
    ensures ParseDelivery(w) == Some(delivery) <==> SaysDelivery(w, delivery)
  {
  }

  lemma ByteRead(w: string, n: u8)
    ensures ParseUint8(w) == Some(n) <==> NumberText(w, n)
  {
    NumberRead(w, 255, n);
  }

  // ----- what the handlers do -----

  lemma VerbOfName(call: TargetCall)
    ensures Name(VerbFor(call)) == VerbOf(call)
  {
  }

  predicate IsSwitch(call: TargetCall) {
    call.SetAccelerometer? || call.SetScan? || call.SetAutoReconnect? || call.SetWifiControl?
  }

  lemma SaidSwitch(words: seq<string>, call: TargetCall, d: Device)
    requires Says(words, call) && IsSwitch(call)
    ensures HandleVerb(VerbFor(call), words, d) == Answer(call, d)
  {
    BoolRead(words[2], call.on);
  }

  predicate IsChoice(call: TargetCall) {
    call.StartDiscovery? || call.StopDiscovery? || call.ClearReconnectCache? || call.SetWifiMode? || call.SetWifiToken?
  }

  lemma SaidChoice(words: seq<string>, call: TargetCall, d: Device)
    requires Says(words, call) && IsChoice(call)
    ensures HandleVerb(VerbFor(call), words, d) == Answer(call, d)
  {
    if call.SetWifiMode? {
      DeliveryRead(words[2], call.delivery);
    }
  }

  lemma SaidMode(words: seq<string>, mode: u8, continuous: bool, d: Device)
    requires Says(words, SetReportingMode(mode, continuous))
    ensures HandleVerb(VerbFor(SetReportingMode(mode, continuous)), words, d)
         == Answer(SetReportingMode(mode, continuous), d)
  {
    ByteRead(words[2], mode);
    if |words| > 3 {
      BoolRead(words[3], continuous);
    }
  }

  lemma SaidDisconnect(words: seq<string>, reason: u8, d: Device)
    requires Says(words, DisconnectActive(reason))
    ensures HandleVerb(VerbFor(DisconnectActive(reason)), words, d) == Answer(DisconnectActive(reason), d)
  {
    if |words| > 2 {
      ByteRead(words[2], reason);
    }
  }

  lemma SaidLed(words: seq<string>, mask: u8, d: Device)
    requires Says(words, SetLeds(mask))
    ensures HandleVerb(VerbFor(SetLeds(mask)), words, d) == Answer(SetLeds(mask), d)
  {
    ByteRead(words[2], mask);
  }

  lemma SaidWhole(words: seq<string>, call: TargetCall, d: Device)
    requires Says(words, call) && (call.SetWifiNetwork? || call.RequestStatus? || call.RestartWifi?)
    ensures HandleVerb(VerbFor(call), words, d) == Answer(call, d)
  {
  }

  lemma SaidHandled(words: seq<string>, call: TargetCall, d: Device)
    requires Says(words, call)
    ensures HandleVerb(VerbFor(call), words, d) == Answer(call, d)
  {
    if IsSwitch(call) {
      SaidSwitch(words, call, d);
    } else if IsChoice(call) {
      SaidChoice(words, call, d);
    } else if call.SetLeds? {
      SaidLed(words, call.mask, d);
    } else if call.SetReportingMode? {
      SaidMode(words, call.mode, call.continuous, d);
    } else if call.DisconnectActive? {
      SaidDisconnect(words, call.reason, d);
    } else {
      SaidWhole(words, call, d);
    }
  }

  /** The call that the words of a verb ask for, read by the argument parsers. */
  function Meant(v: Verb, words: seq<string>): Option<TargetCall>
    requires |words| >= 2
  {
    if |words| < WordsNeeded(v) then None
    else match v
      case VStatus => None
      case VRequestStatus => Some(RequestStatus)
      case VWifiRestart => Some(RestartWifi)
      case VWifiSetNetwork => Some(SetWifiNetwork(words[2], words[3]))
      case VWifiSetToken => Some(SetWifiToken(words[2]))
      case VLed =>
        var mask := ParseUint8(words[2]);
        if mask.None? then None else Some(SetLeds(mask.value))
      case VMode =>
        var mode := ParseUint8(words[2]);
        var continuous := if |words| == 3 then Some(false) else ParseBool(words[3]);
        if mode.None? || continuous.None? then None else Some(SetReportingMode(mode.value, continuous.value))
      case VDisconnect =>
        var reason := if |words| == 2 then Some(0x16) else ParseUint8(words[2]);
        if reason.None? then None else Some(DisconnectActive(reason.value))
      case VDiscover =>
        if words[2] == "start" then Some(StartDiscovery) else if words[2] == "stop" then Some(StopDiscovery) else None
      case VWifiMode =>
        var delivery := ParseDelivery(words[2]);
        if delivery.None? then None else Some(SetWifiMode(delivery.value))
      case VReconnect =>
        if words[2] == "clear" then Some(ClearReconnectCache) else MeantSwitch(v, words[2])
      case _ => MeantSwitch(v, words[2])
  }

  function MeantSwitch(v: Verb, w: string): Option<TargetCall> {
    var on := ParseBool(w);
    if on.None? then None
    else match v
      case VAccel => Some(SetAccelerometer(on.value))
      case VScan => Some(SetScan(on.value))
      case VReconnect => Some(SetAutoReconnect(on.value))
      case VWifiControl => Some(SetWifiControl(on.value))
      case _ => None
  }

  lemma MeantIsSaid(v: Verb, words: seq<string>)
    requires |words| >= 2 && words[1] == Name(v) && Meant(v, words).Some?
    ensures Says(words, Meant(v, words).value)
  {
    var call := Meant(v, words).value;
    match call
    case SetLeds(mask) => ByteRead(words[2], mask);
    case SetReportingMode(mode, continuous) =>
      ByteRead(words[2], mode);
      if |words| > 3 {
        BoolRead(words[3], continuous);
      }
    case DisconnectActive(reason) =>
      if |words| > 2 {
        ByteRead(words[2], reason);
      }
    case SetAccelerometer(on) => BoolRead(words[2], on);
    case SetScan(on) => BoolRead(words[2], on);
    case SetAutoReconnect(on) => BoolRead(words[2], on);
    case SetWifiControl(on) => BoolRead(words[2], on);
    case SetWifiMode(delivery) => DeliveryRead(words[2], delivery);
    case _ =>
  }

  lemma NothingMeant(v: Verb, words: seq<string>, d: Device)
    requires |words| >= 2 && words[1] == Name(v) && Meant(v, words).None?
    ensures HandleVerb(v, words, d) == Handled(NoCallReason(words), [])
  {
    NamesAreVerbs(v);
  }

  // ----- the dispatcher -----

  /** The gate lets a verb through: it is off, the verb needs no unlocking, or the session is open. */
  predicate Open(verb: string, session: Option<Session>, gated: bool, nowMs: u32) {
    !gated || verb in {"status", "request-status"} || (session.Some? && IsUnlocked(session.value, nowMs))
  }

  /**
    With the gate open, words that ask for a call make exactly that call, if it is
    permitted, and are answered accordingly; the session stays as it was.
   */
  lemma SaidIsDone(words: seq<string>, call: TargetCall, d: Device, session: Option<Session>, gated: bool, nowMs: u32)
    requires Says(words, call) && Open(words[1], session, gated, nowMs)
    ensures var a := Answer(call, d);
            Dispatch(words, d, session, gated, nowMs) == Outcome(a.reason, session, a.calls)
  {
    VerbOfName(call);
    LookupIs(VerbFor(call));
    SaidHandled(words, call, d);
  }

  /** And words that ask for none make none, and are told why. */
  lemma UnsaidIsTold(words: seq<string>, d: Device, session: Option<Session>, gated: bool, nowMs: u32)
    requires |words| >= 2 && words[1] != "unlock" && Open(words[1], session, gated, nowMs)
    requires forall call :: !Says(words, call)
    ensures Dispatch(words, d, session, gated, nowMs) == Outcome(NoCallReason(words), session, [])
  {
    var v := Lookup(words[1], 0);
    if v.Some? {
      LookupNames(words[1], 0);
      NoneMeant(v.value, words);
      NothingMeant(v.value, words, d);
    } else {
      UnknownVerb(words[1]);
    }
  }

  lemma NoneMeant(v: Verb, words: seq<string>)
    requires |words| >= 2 && words[1] == Name(v) && forall call :: !Says(words, call)
    ensures Meant(v, words) == None
  {
    if Meant(v, words).Some? {
      MeantIsSaid(v, words);
    }
  }

  lemma VerbNamed(verb: string) returns (v: Verb)
    requires verb in VERBS
    ensures Name(v) == verb
  {
    v := if verb == "status" then VStatus
         else if verb == "led" then VLed
         else if verb == "mode" then VMode
         else if verb == "accel" then VAccel
         else if verb == "request-status" then VRequestStatus
         else if verb == "scan" then VScan
         else if verb == "discover" then VDiscover
         else if verb == "disconnect" then VDisconnect
         else if verb == "reconnect" then VReconnect
         else if verb == "wifi-control" then VWifiControl
         else if verb == "wifi-mode" then VWifiMode
         else if verb == "wifi-set-network" then VWifiSetNetwork
         else if verb == "wifi-restart" then VWifiRestart
         else VWifiSetToken;
  }

  lemma UnknownVerb(verb: string)
    requires Lookup(verb, 0).None?
    ensures verb !in VERBS
  {
    if verb in VERBS {
      var v := VerbNamed(verb);
      LookupIs(v);
    }
  }

  lemma GatedVerbs(verb: string)
    requires verb in VERBS
    ensures verb != "unlock" && (IsPrivileged(verb) <==> verb !in {"status", "request-status"})
  {
  }

  /** With the gate closed, every known verb but the two status verbs is answered Locked. */
  lemma ClosedIsLocked(words: seq<string>, d: Device, session: Option<Session>, gated: bool, nowMs: u32)
    requires |words| >= 2 && words[1] in VERBS && !Open(words[1], session, gated, nowMs)
    ensures Dispatch(words, d, session, gated, nowMs) == Outcome(Locked, session, [])
  {
    GatedVerbs(words[1]);
  }

  // ----- unlocking -----

  /** The seconds that an unlock command asks for, at most 65535: 60 unless it names a number. */
  ghost predicate AsksSeconds(words: seq<string>, seconds: nat)
    requires |words| >= 3
  {
    if |words| == 3 then seconds == 60 else seconds <= 65535 && NumberText(words[3], seconds)
  }

  lemma SecondsRead(words: seq<string>, seconds: nat)
    requires |words| >= 3
    ensures UnlockSeconds(words) == Some(seconds) <==> AsksSeconds(words, seconds)
  {
    if |words| > 3 {
      NumberRead(words[3], 65535, seconds);
    }
  }

  /**
    An unlock opens a window of 1000 ms a second, with the configured token and a
    number of seconds that is readable.
   */
  lemma UnlockOpens(words: seq<string>, d: Device, s: Session, gated: bool, nowMs: u32, seconds: nat)
    requires |words| >= 3 && words[1] == "unlock" && s.token == Some(words[2]) && AsksSeconds(words, seconds)
    ensures Dispatch(words, d, Some(s), gated, nowMs)
         == Outcome(Ok, Some(if seconds == 0 then Session(s.token, false, 0, 0)
                             else Session(s.token, true, nowMs, seconds * 1000)), [])
  {
    SecondsRead(words, seconds);
    assert seconds * 1000 < TWO_32;
  }

  /** Any other unlock leaves the session as it was, and is told what is wrong with it. */
  lemma UnlockRefused(words: seq<string>, d: Device, session: Option<Session>, gated: bool, nowMs: u32)
    requires |words| >= 2 && words[1] == "unlock"
    requires |words| >= 3 && session.Some? && session.value.token == Some(words[2]) ==>
               forall seconds :: !AsksSeconds(words, seconds)
    ensures Dispatch(words, d, session, gated, nowMs)
         == Outcome(if |words| == 2 then MissingArgument else if session.None? then Rejected
                    else if session.value.token != Some(words[2]) then BadCredentials else BadArgument, session, [])
  {
    if |words| >= 3 && UnlockSeconds(words).Some? {
      SecondsRead(words, UnlockSeconds(words).value);
    }
  }

  /** Without a number the window is a minute. */
  lemma DefaultWindow(r: Request)
    requires |r.words| == 3
    ensures WindowMs(r) == 60000
  {
  }

  /** With one it is that many seconds, printed in decimal or hexadecimal. */
  lemma PrintedWindow(r: Request, seconds: nat)
    requires |r.words| >= 4 && seconds <= 65535
    requires r.words[3] == Printed(seconds, 10) || r.words[3] == "0x" + Printed(seconds, 16)
    ensures WindowMs(r) == seconds * 1000
  {
    PrintedRead(seconds, 65535);
  }
}
