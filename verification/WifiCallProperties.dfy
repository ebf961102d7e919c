/**
  What each Wi-Fi call leaves, made directly or inside a request and then applied:
  the settings it stores, whether the lifecycle restarts or stops, and what later
  steps keep of it.  Nothing here refers to how a call is defined.
 */
module WifiCallProperties {
  import opened Common
  import opened WifiLifecycle
  import opened WifiLifecycleProperties

  // ----- what one call leaves -----

  /** What a storage of 128 characters holds of `s`. */
  predicate HoldsFirst(stored: string, s: string) {
    stored == if |s| <= 128 then s else s[..128]
  }

  /** Start-up is back at its beginning and the server is down. */
  predicate Cleared(t: State, initializing: bool) {
    var l := t.life;
    && l.phase.stage == StartWifi && !l.phase.ready && l.phase.initializing == initializing
    && !l.network.attempted && !l.network.connected && !l.network.failed && !l.network.layerStarted
    && l.network.startMs == 0
    && !l.routes.staticRoutes && !l.routes.apiRoutes && !l.routes.webSocketRoutes
    && !l.http.serverStarted && !l.http.bindFailed
    && !t.server.started && !Pending(t)
  }

  predicate Untouched(s: State, t: State) {
    t.life == Settled(s).life && t.server == Settled(s).server
  }

  /**
    Credentials are refused when one is empty; else each is stored in its own place,
    and control that is on restarts.
   */
  lemma CredentialsStored(s: State, ssid: string, password: string)
    requires !Pending(s) || s.server.dispatching
    ensures var r := Do(s, SetCredentials(ssid, password));
            var g, t := s.settings, Settled(r.0);
            && (r.1 <==> ssid != "" && password != "")
            && (!r.1 ==> r.0 == s)
            && (r.1 ==>
                  && HoldsFirst(t.settings.ssid, ssid) && HoldsFirst(t.settings.password, password)
                  && t.settings == g.(ssid := t.settings.ssid, password := t.settings.password,
                                      credentialsConfigured := true)
                  && (if g.controlEnabled then Cleared(t, true) else Untouched(s, t)))
  {
  }

  /** Disabling stores the mode, turns control off and stops everything. */
  lemma DisablingStops(s: State, mode: DeliveryMode)
    requires !Pending(s) || s.server.dispatching
    ensures var r := Do(s, Enable(false, mode));
            var t := Settled(r.0);
            r.1 && t.settings == s.settings.(mode := mode, controlEnabled := false) && Cleared(t, false)
  {
  }

  /** Enabling stores the mode and turns control on; it restarts unless control is ready in that mode. */
  lemma EnablingStarts(s: State, mode: DeliveryMode)
    requires !Pending(s) || s.server.dispatching
    ensures var r := Do(s, Enable(true, mode));
            var g, t := s.settings, Settled(r.0);
            && r.1
            && t.settings == g.(mode := mode, controlEnabled := true, wifiEnabled := true,
                                configEnabled := g.configEnabled || !g.wifiEnabled)
            && (if g.controlEnabled && s.life.phase.ready && g.mode == mode then Untouched(s, t) else Cleared(t, true))
  {
  }

  /** The web switch is the same call with the stored mode, and always takes effect. */
  lemma WebSwitch(s: State, on: bool)
    ensures Do(s, WebControl(on)) == (Do(s, Enable(on, s.settings.configMode)).0, true)
  {
  }

  /** A restart is refused unless Wi-Fi and control are on, and changes no setting. */
  lemma RestartRestarts(s: State)
    requires !Pending(s) || s.server.dispatching
    ensures var r := Do(s, Restart);
            var t := Settled(r.0);
            && (r.1 <==> s.settings.wifiEnabled && s.settings.controlEnabled)
            && t.settings == s.settings && (if r.1 then Cleared(t, true) else r.0 == s)
  {
  }

  /** The mode asked for is the mode stored and the mode in use, and control that is on restarts. */
  lemma ModeStored(s: State, mode: DeliveryMode)
    requires !Pending(s) || s.server.dispatching
    ensures var r := Do(s, SetMode(mode));
            var t := Settled(r.0);
            && r.1 && t.settings == s.settings.(configMode := mode, mode := mode)
            && (if s.settings.controlEnabled then Cleared(t, true) else Untouched(s, t))
  {
  }

  /**
    Configuring only ever turns Wi-Fi on and web sockets on, stores credentials that
    come in pairs, puts the stored mode in use, and stops control if Wi-Fi is off.
   */
  lemma ConfigurationMerged(s: State, c: Config)
    requires !Pending(s) || s.server.dispatching
    ensures var g, t := s.settings, Settled(Do(s, Configure(c)).0);
            var h := t.settings;
            && h.configEnabled == (g.configEnabled || c.enabled) && h.wifiEnabled == h.configEnabled
            && h.configMode == (if c.mode == RestAndWebSocket then RestAndWebSocket else g.configMode)
            && h.mode == h.configMode && h.hardware == g.hardware
            && (if c.ssid != "" && c.password != ""
                then HoldsFirst(h.ssid, c.ssid) && HoldsFirst(h.password, c.password)
                else h.ssid == g.ssid && h.password == g.password)
            && (h.credentialsConfigured <==> h.ssid != "" && h.password != "")
            && (if h.wifiEnabled then h.controlEnabled == g.controlEnabled && Untouched(s, t)
                else !h.controlEnabled && Cleared(t, false))
  {
  }

  /** Construction takes everything from the configuration, and starts nothing. */
  lemma InitiallyOff(hardware: bool, c: Config)
    ensures var t := Initial(hardware, c);
            var h := t.settings;
            && h.hardware == hardware && h.wifiEnabled == h.configEnabled == c.enabled
            && h.mode == h.configMode == c.mode && !h.controlEnabled && Cleared(t, false)
            && (if c.ssid != "" && c.password != ""
                then HoldsFirst(h.ssid, c.ssid) && HoldsFirst(h.password, c.password)
                else h.ssid == c.ssid && h.password == c.password)
            && (h.credentialsConfigured <==> c.ssid != "" && c.password != "")
  {
  }

  // ----- the order of one task() -----

  lemma DirectSettles(s: State, call: Call)
    requires !Pending(s) && !s.server.dispatching
    ensures var t := Do(s, call).0; !Pending(t) && !t.server.dispatching
  {
  }

  lemma {:induction false} DirectCallsSettle(s: State, calls: seq<Call>)
    requires !Pending(s) && !s.server.dispatching
    ensures var t := DoAll(s, calls).0; !Pending(t) && !t.server.dispatching
    decreases |calls|
  {
    if calls != [] {
      DirectSettles(s, calls[0]);
      DirectCallsSettle(Do(s, calls[0]).0, calls[1..]);
    }
  }

  lemma StageSettles(s: State, i: Inputs)
    requires !Pending(s) && !s.server.dispatching
    ensures var t := Process(s, i); !Pending(t) && !t.server.dispatching
  {
  }

  lemma RequestSettled(t: State, web: seq<Call>)
    requires !Pending(t) && !t.server.dispatching
    ensures Settled(Dispatch(t, web)) == if t.server.started then DoAll(t, web).0 else t
  {
    DeferralEqualsImmediacy(t, web);
  }

  /**
    A task() with everything that happens in it is what was pending, then its serial
    calls, then a quiet pass and then the calls of its request, each made directly and
    in this order; a server that is down gets no request.
   */
  lemma TaskIsItsCalls(s: State, i: Inputs, serial: seq<Call>, web: seq<Call>)
    requires !s.server.dispatching
    ensures var quiet := Task(DoAll(Settled(s), serial).0, i, [], []);
            Settled(Task(s, i, serial, web)) == if quiet.server.started then DoAll(quiet, web).0 else quiet
  {
    var t := DoAll(Settled(s), serial).0;
    DirectCallsSettle(Settled(s), serial);
    StageSettles(t, i);
    var u := Process(t, i);
    assert Task(t, i, [], []) == u;
    RequestSettled(u, web);
  }

  // ----- credentials stay until others are named -----

  predicate NamesNetwork(call: Call) {
    match call
    case SetCredentials(ssid, password) => ssid != "" && password != ""
    case Configure(c) => c.ssid != "" && c.password != ""
    case _ => false
  }

  predicate NoNetwork(calls: seq<Call>) {
    forall i :: 0 <= i < |calls| ==> !NamesNetwork(calls[i])
  }

  predicate NoNetworkStep(step: Step) {
    match step
    case Direct(call) => !NamesNetwork(call)
    case Tick(_, serial, web) => NoNetwork(serial) && NoNetwork(web)
  }

  predicate SameNetwork(s: State, t: State) {
    t.settings.ssid == s.settings.ssid && t.settings.password == s.settings.password
  }

  lemma EnableKeepsNetwork(s: State, enabled: bool, mode: DeliveryMode)
    ensures SameNetwork(s, EnableControl(s, enabled, mode))
  {
  }

  lemma ConfigureKeepsNetwork(s: State, c: Config)
    requires !NamesNetwork(Configure(c))
    ensures SameNetwork(s, Do(s, Configure(c)).0)
  {
    var t := s.(settings := MergedSettings(s.settings, c));
    EnableKeepsNetwork(t, false, t.settings.mode);
  }

  lemma CallKeepsNetwork(s: State, call: Call)
    requires !NamesNetwork(call)
    ensures SameNetwork(s, Do(s, call).0)
  {
    match call
    case Enable(enabled, mode) => EnableKeepsNetwork(s, enabled, mode);
    case WebControl(on) => EnableKeepsNetwork(s, on, s.settings.configMode);
    case Configure(c) => ConfigureKeepsNetwork(s, c);
    case _ =>
  }

  lemma {:induction false} CallsKeepNetwork(s: State, calls: seq<Call>)
    requires NoNetwork(calls)
    ensures SameNetwork(s, DoAll(s, calls).0)
    decreases |calls|
  {
    if calls != [] {
      CallKeepsNetwork(s, calls[0]);
      CallsKeepNetwork(Do(s, calls[0]).0, calls[1..]);
    }
  }

  lemma StageKeepsNetwork(s: State, i: Inputs)
    ensures SameNetwork(s, Process(s, i))
  {
  }

  lemma StepKeepsNetwork(s: State, step: Step)
    requires NoNetworkStep(step)
    ensures SameNetwork(s, StepState(s, step))
  {
    match step
    case Direct(call) => CallKeepsNetwork(s, call);
    case Tick(inputs, serial, web) =>
      CallsKeepNetwork(ApplyQueued(s), serial);
      var t := DoAll(ApplyQueued(s), serial).0;
      StageKeepsNetwork(t, inputs);
      var u := Process(t, inputs);
      CallsKeepNetwork(u.(server := u.server.(dispatching := true)), web);
  }

  lemma {:induction false} RunKeepsNetwork(s: State, steps: seq<Step>)
    requires forall i :: 0 <= i < |steps| ==> NoNetworkStep(steps[i])
    ensures SameNetwork(s, Run(s, steps))
    decreases |steps|
  {
    if steps != [] {
      StepKeepsNetwork(s, steps[0]);
      RunKeepsNetwork(StepState(s, steps[0]), steps[1..]);
    }
  }

  /**
    Accepted credentials, given directly or by the last call of a request, are those
    in place after every run that names no others.
   */
  lemma CredentialsStay(s: State, ssid: string, password: string, steps: seq<Step>)
    requires !Pending(s) || s.server.dispatching
    requires ssid != "" && password != "" && forall i :: 0 <= i < |steps| ==> NoNetworkStep(steps[i])
    ensures var g := Run(Settled(Do(s, SetCredentials(ssid, password)).0), steps).settings;
            HoldsFirst(g.ssid, ssid) && HoldsFirst(g.password, password)
  {
    CredentialsStored(s, ssid, password);
    RunKeepsNetwork(Settled(Do(s, SetCredentials(ssid, password)).0), steps);
  }

  // ----- control that is off stays off -----

  predicate Enables(call: Call) {
    (call.Enable? && call.enabled) || (call.WebControl? && call.on)
  }

  predicate NoEnabling(calls: seq<Call>) {
    forall i :: 0 <= i < |calls| ==> !Enables(calls[i])
  }

  predicate NoEnablingStep(step: Step) {
    match step
    case Direct(call) => !Enables(call)
    case Tick(_, serial, web) => NoEnabling(serial) && NoEnabling(web)
  }

  /** Control is off, nothing is up, and nothing that is pending will bring it up. */
  predicate Off(s: State) {
    !s.settings.controlEnabled && !s.server.started && !s.life.phase.ready && !s.queued.restart
  }

  lemma CallKeepsOff(s: State, call: Call)
    requires Off(s) && !Enables(call)
    ensures Off(Do(s, call).0)
  {
  }

  lemma {:induction false} CallsKeepOff(s: State, calls: seq<Call>)
    requires Off(s) && NoEnabling(calls)
    ensures Off(DoAll(s, calls).0)
    decreases |calls|
  {
    if calls != [] {
      CallKeepsOff(s, calls[0]);
      CallsKeepOff(Do(s, calls[0]).0, calls[1..]);
    }
  }

  lemma StepKeepsOff(s: State, step: Step)
    requires Off(s) && NoEnablingStep(step)
    ensures Off(StepState(s, step))
  {
    match step
    case Direct(call) => CallKeepsOff(s, call);
    case Tick(inputs, serial, web) => CallsKeepOff(ApplyQueued(s), serial);
  }

  /** Once disabled, control stays off and the server down over every run that does not enable it. */
  lemma {:induction false} OffStaysOff(s: State, steps: seq<Step>)
    requires Off(s) && forall i :: 0 <= i < |steps| ==> NoEnablingStep(steps[i])
    ensures Off(Run(s, steps))
    decreases |steps|
  {
    if steps != [] {
      StepKeepsOff(s, steps[0]);
      OffStaysOff(StepState(s, steps[0]), steps[1..]);
    }
  }

  // ----- when start-up fails -----

  /** The first stage gives up exactly without credentials or with the network name kept for failing. */
  lemma StartFailsIff(s: State, i: Inputs)
    requires Inv(s) && s.settings.controlEnabled && s.life.phase.stage == StartWifi
    ensures var t := Process(s, i);
            && (!t.settings.controlEnabled <==> s.settings.ssid == "" || s.settings.password == ""
                                                || s.settings.ssid == "__fail__")
            && (!t.settings.controlEnabled ==> t.life.network.failed && t.life.phase.stage == StartWifi)
            && (t.settings.controlEnabled ==>
                  t.life.phase.stage == if s.settings.hardware then WaitNetwork else StaticRoutes)
  {
  }

  /** The API stage gives up exactly when the server cannot be started; else the mode decides what follows. */
  lemma ServerFailsIff(s: State, i: Inputs)
    requires Inv(s) && s.settings.controlEnabled && s.life.phase.stage == ApiRoutes
    ensures var t := Process(s, i);
            && (!t.settings.controlEnabled <==> !i.beginOk) && (t.server.started <==> i.beginOk)
            && t.life.routes.apiRoutes && (t.life.http.bindFailed <==> !i.beginOk)
            && (i.beginOk ==>
                  t.life.phase.stage == if s.settings.mode == RestAndWebSocket then WebSocketRoutes else Ready)
  {
  }
}
