/**
  What holds of the Wi-Fi lifecycle over every run: the flags each stage implies,
  putting calls off is the same as making them at once, and how start-up ends.
 */
module WifiLifecycleProperties {
  import opened Common
  import opened WifiLifecycle

  // ----- reachable states -----

  predicate ApiDone(stage: Stage) {
    stage == WebSocketRoutes || stage == Ready
  }

  /** Which flags each start-up stage determines. */
  predicate StageOk(l: Lifecycle) {
    var n, r, h := l.network, l.routes, l.http;
    && (l.phase.ready ==> l.phase.stage == Ready && !l.phase.initializing)
    && (h.bindFailed ==> l.phase.stage == ApiRoutes)
    && (h.serverStarted <==> ApiDone(l.phase.stage))
    && (r.webSocketRoutes ==> l.phase.stage == Ready)
    && (r.apiRoutes <==> ApiDone(l.phase.stage) || h.bindFailed)
    && (r.staticRoutes <==> l.phase.stage == ApiRoutes || ApiDone(l.phase.stage))
    && (n.connected <==> l.phase.stage != StartWifi && l.phase.stage != WaitNetwork)
    && (n.connected ==> !n.failed)
    && (n.layerStarted <==> l.phase.stage != StartWifi)
    && (n.attempted <==> l.phase.stage != StartWifi || n.failed)
  }

  predicate Inv(s: State) {
    var g := s.settings;
    && StageOk(s.life)
    && s.life.http.serverStarted == s.server.started
    && s.server.endsDuringDispatch == 0
    && !(s.queued.stop && s.queued.restart)
    && g.wifiEnabled == g.configEnabled
    && (g.controlEnabled ==> g.wifiEnabled)
    && (g.credentialsConfigured <==> g.ssid != "" && g.password != "")
    && (s.life.phase.stage == WaitNetwork ==> g.hardware)
  }

  /** With nothing queued, the routes registered past the API stage fit the delivery mode. */
  predicate ModeOk(s: State) {
    var webSocket := s.settings.mode == RestAndWebSocket;
    !Pending(s) && ApiDone(s.life.phase.stage) ==>
      && s.settings.controlEnabled
      && (s.life.phase.stage == WebSocketRoutes ==> webSocket)
      && (s.life.phase.stage == Ready ==> (s.life.routes.webSocketRoutes <==> webSocket))
  }

  lemma QueueKeeps(s: State, restart: bool)
    requires Inv(s)
    ensures Inv(Queue(s, restart)) && ModeOk(Queue(s, restart))
    ensures Queue(s, restart).server.dispatching == s.server.dispatching
  {
  }

  lemma EnableKeeps(s: State, enabled: bool, mode: DeliveryMode)
    requires Inv(s)
    ensures Inv(EnableControl(s, enabled, mode))
    ensures EnableControl(s, enabled, mode).server.dispatching == s.server.dispatching
    ensures ModeOk(s) || !enabled ==> ModeOk(EnableControl(s, enabled, mode))
  {
    var t := s.(settings := s.settings.(mode := mode, controlEnabled := enabled));
    if enabled {
      QueueKeeps(t.(settings := t.settings.(wifiEnabled := true, configEnabled := true)), true);
    } else {
      QueueKeeps(t, false);
    }
  }

  /** The mode that `configure()` would leave in use is the one in use already. */
  predicate KeepsMode(g: Settings, config: Config) {
    if config.mode == RestAndWebSocket then g.mode == RestAndWebSocket else g.configMode == g.mode
  }

  /** A `configure()` that comes in time to be noticed, or has nothing to change. */
  predicate CallFits(s: State, call: Call) {
    call.Configure? ==> Pending(s) || !ApiDone(s.life.phase.stage) || KeepsMode(s.settings, call.config)
  }

  lemma CredentialsKeep(s: State, ssid: string, password: string)
    requires Inv(s)
    ensures var t := Do(s, SetCredentials(ssid, password)).0;
            Inv(t) && t.server.dispatching == s.server.dispatching && (ModeOk(s) ==> ModeOk(t))
  {
    if ssid != "" && password != "" {
      QueueKeeps(s.(settings := s.settings.(ssid := Stored(ssid), password := Stored(password),
                                            credentialsConfigured := true)), true);
    }
  }

  lemma SetModeKeeps(s: State, mode: DeliveryMode)
    requires Inv(s)
    ensures var t := Do(s, SetMode(mode)).0;
            Inv(t) && t.server.dispatching == s.server.dispatching && (ModeOk(s) ==> ModeOk(t))
  {
    QueueKeeps(s.(settings := s.settings.(configMode := mode, mode := mode)), true);
  }

  lemma ConfigureKeeps(s: State, config: Config)
    requires Inv(s)
    ensures var t := Do(s, Configure(config)).0;
            Inv(t) && t.server.dispatching == s.server.dispatching
  {
    var t := s.(settings := MergedSettings(s.settings, config));
    if !t.settings.wifiEnabled {
      EnableKeeps(t, false, t.settings.mode);
    }
  }

  /**
    From a state where routes and mode agree, `configure()` keeps them so exactly
    when something is pending, start-up has not passed the API stage, or the mode
    it asks for is the mode in use.
   */
  lemma ConfigureKeepsModeIff(s: State, config: Config)
    requires Inv(s) && ModeOk(s)
    ensures ModeOk(Do(s, Configure(config)).0) <==> CallFits(s, Configure(config))
  {
    assert MergedSettings(s.settings, config).mode == s.settings.mode <==> KeepsMode(s.settings, config);
  }

  lemma DoKeeps(s: State, call: Call)
    requires Inv(s)
    ensures Inv(Do(s, call).0)
    ensures Do(s, call).0.server.dispatching == s.server.dispatching
    ensures ModeOk(s) && CallFits(s, call) ==> ModeOk(Do(s, call).0)
  {
    match call
    case Enable(enabled, mode) => EnableKeeps(s, enabled, mode);
    case WebControl(on) => EnableKeeps(s, on, s.settings.configMode);
    case SetCredentials(ssid, password) => CredentialsKeep(s, ssid, password);
    case Restart => QueueKeeps(s, true);
    case SetMode(mode) => SetModeKeeps(s, mode);
    case Configure(config) =>
      ConfigureKeeps(s, config);
      if ModeOk(s) {
        ConfigureKeepsModeIff(s, config);
      }
  }

  /** Each call fits the state in which it is made. */
  predicate CallsFit(s: State, calls: seq<Call>)
    decreases |calls|
  {
    calls == [] || (CallFits(s, calls[0]) && CallsFit(Do(s, calls[0]).0, calls[1..]))
  }

  lemma {:induction false} DoAllKeeps(s: State, calls: seq<Call>)
    requires Inv(s)
    ensures Inv(DoAll(s, calls).0)
    ensures DoAll(s, calls).0.server.dispatching == s.server.dispatching
    ensures ModeOk(s) && CallsFit(s, calls) ==> ModeOk(DoAll(s, calls).0)
    decreases |calls|
  {
    if calls != [] {
      DoKeeps(s, calls[0]);
      DoAllKeeps(Do(s, calls[0]).0, calls[1..]);
    }
  }

  lemma ApplyQueuedKeeps(s: State)
    requires Inv(s) && !s.server.dispatching
    ensures Inv(ApplyQueued(s)) && !Pending(ApplyQueued(s)) && !ApplyQueued(s).server.dispatching
    ensures ModeOk(s) ==> ModeOk(ApplyQueued(s))
  {
  }

  lemma ApiStageKeeps(s: State, i: Inputs)
    requires Inv(s) && s.settings.controlEnabled && s.life.phase.stage == ApiRoutes
    ensures Inv(RunStage(s, i)) && RunStage(s, i).server.dispatching == s.server.dispatching
    ensures ModeOk(RunStage(s, i))
  {
  }

  lemma StageKeeps(s: State, i: Inputs)
    requires Inv(s) && s.settings.controlEnabled && !s.life.phase.ready
    ensures Inv(RunStage(s, i)) && RunStage(s, i).server.dispatching == s.server.dispatching
    ensures ModeOk(s) ==> ModeOk(RunStage(s, i))
  {
    match s.life.phase.stage
    case StartWifi =>
    case WaitNetwork =>
    case StaticRoutes =>
    case ApiRoutes => ApiStageKeeps(s, i);
    case WebSocketRoutes =>
    case Ready =>
  }

  lemma ProcessKeeps(s: State, i: Inputs)
    requires Inv(s)
    ensures Inv(Process(s, i)) && Process(s, i).server.dispatching == s.server.dispatching
    ensures ModeOk(s) ==> ModeOk(Process(s, i))
  {
    var t := s.(life := s.life.(phase := s.life.phase.(initializing := true)));
    if s.settings.controlEnabled && s.settings.wifiEnabled && !s.life.phase.ready {
      StageKeeps(t, i);
    }
  }

  predicate StepFits(s: State, step: Step) {
    match step
    case Direct(call) => CallFits(s, call)
    case Tick(inputs, serial, web) =>
      CallsFit(ApplyQueued(s), serial) && WebFits(Process(DoAll(ApplyQueued(s), serial).0, inputs), web)
  }

  predicate WebFits(s: State, web: seq<Call>) {
    s.server.started ==> CallsFit(s.(server := s.server.(dispatching := true)), web)
  }

  /** Every `configure()` of the run fits the state in which it is made. */
  predicate RunFits(s: State, steps: seq<Step>)
    decreases |steps|
  {
    steps == [] || (StepFits(s, steps[0]) && RunFits(StepState(s, steps[0]), steps[1..]))
  }

  lemma DispatchKeeps(s: State, web: seq<Call>)
    requires Inv(s) && !s.server.dispatching
    ensures Inv(Dispatch(s, web)) && !Dispatch(s, web).server.dispatching
    ensures ModeOk(s) && WebFits(s, web) ==> ModeOk(Dispatch(s, web))
  {
    DoAllKeeps(s.(server := s.server.(dispatching := true)), web);
  }

  lemma StepKeeps(s: State, step: Step)
    requires Inv(s) && !s.server.dispatching
    ensures Inv(StepState(s, step)) && !StepState(s, step).server.dispatching
    ensures ModeOk(s) && StepFits(s, step) ==> ModeOk(StepState(s, step))
  {
    match step
    case Direct(call) => DoKeeps(s, call);
    case Tick(inputs, serial, web) =>
      ApplyQueuedKeeps(s);
      DoAllKeeps(ApplyQueued(s), serial);
      var t := DoAll(ApplyQueued(s), serial).0;
      ProcessKeeps(t, inputs);
      DispatchKeeps(Process(t, inputs), web);
  }

  lemma {:induction false} RunKeeps(s: State, steps: seq<Step>)
    requires Inv(s) && !s.server.dispatching
    ensures Inv(Run(s, steps)) && !Run(s, steps).server.dispatching
    ensures ModeOk(s) && RunFits(s, steps) ==> ModeOk(Run(s, steps))
    decreases |steps|
  {
    if steps != [] {
      StepKeeps(s, steps[0]);
      RunKeeps(StepState(s, steps[0]), steps[1..]);
    }
  }

  /**
    In every reachable state the stage determines the flags, the started flag is
    the server's own, and the server was never ended under a request; and if every
    `configure()` so far fitted, a ready service with nothing queued has
    web-socket routes exactly when its mode asks for them.
   */
  lemma ReachableStates(hardware: bool, config: Config, steps: seq<Step>)
    ensures var s := Run(Initial(hardware, config), steps);
            && Inv(s)
            && (s.life.phase.ready ==>
                  && s.life.network.connected && !s.life.network.failed
                  && s.life.routes.staticRoutes && s.life.routes.apiRoutes && s.server.started)
            && (RunFits(Initial(hardware, config), steps) && s.life.phase.ready && !Pending(s) ==>
                  (s.life.routes.webSocketRoutes <==> s.settings.mode == RestAndWebSocket))
  {
    RunKeeps(Initial(hardware, config), steps);
  }

  predicate ConfigureFree(step: Step) {
    match step
    case Direct(call) => !call.Configure?
    case Tick(_, serial, web) => NoConfigure(serial) && NoConfigure(web)
  }

  predicate NoConfigure(calls: seq<Call>) {
    forall i :: 0 <= i < |calls| ==> !calls[i].Configure?
  }

  lemma {:induction false} NoConfigureFits(s: State, calls: seq<Call>)
    requires NoConfigure(calls)
    ensures CallsFit(s, calls)
    decreases |calls|
  {
    if calls != [] {
      NoConfigureFits(Do(s, calls[0]).0, calls[1..]);
    }
  }

  /** A run without `configure()` fits, from any state. */
  lemma {:induction false} ConfigureFreeFits(s: State, steps: seq<Step>)
    requires forall i :: 0 <= i < |steps| ==> ConfigureFree(steps[i])
    ensures RunFits(s, steps)
    decreases |steps|
  {
    if steps != [] {
      var step := steps[0];
      if step.Tick? {
        var t := ApplyQueued(s);
        NoConfigureFits(t, step.serial);
        var u := Process(DoAll(t, step.serial).0, step.inputs);
        NoConfigureFits(u.(server := u.server.(dispatching := true)), step.web);
      }
      ConfigureFreeFits(StepState(s, step), steps[1..]);
    }
  }

  const TICK := Tick(Inputs(0, true, true), [], [])

  const HOME := Config(true, RestOnly, "home", "secret")

  function WebSocketStart(): State {
    Do(Initial(false, HOME), Enable(true, RestAndWebSocket)).0
  }

  /** Five polls after being enabled in web-socket mode, the service is ready with those routes. */
  lemma WebSocketService(ins: seq<Inputs>)
    requires ins == seq(5, _ => Inputs(0, true, true))
    ensures var s := Run(WebSocketStart(), Ticks(ins));
            && Inv(s) && s.life.phase.ready && !Pending(s) && s.life.routes.webSocketRoutes
            && s.settings == WebSocketStart().settings
  {
    var s := WebSocketStart();
    assert Starting(s) && StepsLeft(s) == 5;
    ReadyAfter(s, ins);
    RunKeeps(s, Ticks(ins));
    ConfigureFreeFits(s, Ticks(ins));
    TicksKeepSettings(s, ins);
  }

  /** A ready web-socket service, configured again without naming a mode: RestOnly, with the routes still there. */
  lemma ConfigureStrandsRoutes()
    ensures var again := Direct(Configure(Config(true, RestOnly, "", "")));
            var steps := [Direct(Enable(true, RestAndWebSocket)), TICK, TICK, TICK, TICK, TICK, again];
            var s := Run(Initial(false, HOME), steps);
            s.life.phase.ready && !Pending(s) && s.life.routes.webSocketRoutes && s.settings.mode == RestOnly
  {
    var again := Direct(Configure(Config(true, RestOnly, "", "")));
    var ins := seq(5, _ => Inputs(0, true, true));
    var start := [Direct(Enable(true, RestAndWebSocket))];
    WebSocketService(ins);
    assert Ticks(ins) == [TICK, TICK, TICK, TICK, TICK];
    var s := Run(WebSocketStart(), Ticks(ins));
    assert Run(s, [again]) == StepState(s, again);
    RunConcat(WebSocketStart(), Ticks(ins), [again]);
    assert Run(Initial(false, HOME), start) == WebSocketStart();
    RunConcat(Initial(false, HOME), start, Ticks(ins) + [again]);
    assert start + (Ticks(ins) + [again])
        == [Direct(Enable(true, RestAndWebSocket)), TICK, TICK, TICK, TICK, TICK, again];
  }

  // ----- putting calls off -----

  /** What the next task() starts from, once the request is answered. */
  function Settled(s: State): State {
    ApplyQueued(s.(server := s.server.(dispatching := false)))
  }

  predicate Simulates(d: State, i: State) {
    && d.server.dispatching && Settled(d) == i && !Pending(i)
    && (d.queued.stop ==> !d.settings.controlEnabled && !d.queued.restart)
  }

  /** Queueing on both sides, after the same change of settings; a stop turns control off first. */
  lemma QueueSimulates(d: State, i: State, g: Settings, restart: bool)
    requires Simulates(d, i) && (!restart ==> !g.controlEnabled)
    ensures Simulates(Queue(d.(settings := g), restart), Queue(i.(settings := g), restart))
  {
  }

  lemma EnableSimulates(d: State, i: State, enabled: bool, mode: DeliveryMode)
    requires d.server.dispatching && Settled(d) == i && !Pending(i)
    requires d.queued.stop ==> !d.queued.restart && (!d.settings.controlEnabled || !enabled)
    ensures Simulates(EnableControl(d, enabled, mode), EnableControl(i, enabled, mode))
  {
  }

  lemma DoSimulates(d: State, i: State, call: Call)
    requires Simulates(d, i)
    ensures Simulates(Do(d, call).0, Do(i, call).0) && Do(d, call).1 == Do(i, call).1
  {
    match call
    case Enable(enabled, mode) => EnableSimulates(d, i, enabled, mode);
    case WebControl(on) => EnableSimulates(d, i, on, d.settings.configMode);
    case SetCredentials(ssid, password) =>
      var g := d.settings.(ssid := Stored(ssid), password := Stored(password), credentialsConfigured := true);
      QueueSimulates(d, i, g, true);
    case Restart => QueueSimulates(d, i, d.settings, true);
    case SetMode(mode) => QueueSimulates(d, i, d.settings.(configMode := mode, mode := mode), true);
    case Configure(config) =>
      var g := MergedSettings(d.settings, config);
      EnableSimulates(d.(settings := g), i.(settings := g), false, g.mode);
  }

  lemma {:induction false} DoAllSimulates(d: State, i: State, calls: seq<Call>)
    requires Simulates(d, i)
    ensures Simulates(DoAll(d, calls).0, DoAll(i, calls).0) && DoAll(d, calls).1 == DoAll(i, calls).1
    decreases |calls|
  {
    if calls != [] {
      DoSimulates(d, i, calls[0]);
      DoAllSimulates(Do(d, calls[0]).0, Do(i, calls[0]).0, calls[1..]);
    }
  }

  /**
    From any state with nothing queued, calls made while a request is being
    dispatched, once applied, leave the state and return the answers that the
    same calls give outside a dispatch.
   */
  lemma DeferralEqualsImmediacy(s: State, calls: seq<Call>)
    requires !Pending(s) && !s.server.dispatching
    ensures var deferred := DoAll(s.(server := s.server.(dispatching := true)), calls);
            var immediate := DoAll(s, calls);
            Settled(deferred.0) == immediate.0 && deferred.1 == immediate.1
  {
    DoAllSimulates(s.(server := s.server.(dispatching := true)), s, calls);
  }

  // ----- start-up -----

  /** Nothing stands in the way of start-up but time and the network. */
  predicate Starting(s: State) {
    && Inv(s) && !Pending(s) && !s.server.dispatching && !s.life.phase.ready
    && s.settings.controlEnabled && s.settings.credentialsConfigured && s.settings.ssid != MOCK_FAIL_SSID
  }

  function StepsLeft(s: State): nat {
    var afterApi := if s.settings.mode == RestAndWebSocket then 2 else 1;
    match s.life.phase.stage
    case StartWifi => if s.settings.hardware then 4 + afterApi else 3 + afterApi
    case WaitNetwork => 3 + afterApi
    case StaticRoutes => 2 + afterApi
    case ApiRoutes => 1 + afterApi
    case WebSocketRoutes => 2
    case Ready => 1
  }

  function Ticks(ins: seq<Inputs>): seq<Step> {
    seq(|ins|, k requires 0 <= k < |ins| => Tick(ins[k], [], []))
  }

  lemma QuietTask(s: State, i: Inputs)
    requires Inv(s) && !Pending(s) && !s.server.dispatching
    ensures Task(s, i, [], []) == Process(s, i)
  {
  }

  /** Away from the network wait, each task with a working server takes one step of the measure. */
  lemma StartingStep(s: State, i: Inputs)
    requires Starting(s) && i.beginOk && (s.life.phase.stage == WaitNetwork ==> i.linkUp)
    ensures var t := Task(s, i, [], []);
            && t.settings == s.settings
            && (StepsLeft(s) == 1 ==> t.life.phase.ready && !Pending(t))
            && (StepsLeft(s) > 1 ==> Starting(t) && StepsLeft(t) == StepsLeft(s) - 1)
            && (t.life.phase.stage == WaitNetwork ==> s.settings.hardware)
  {
    QuietTask(s, i);
    ProcessKeeps(s, i);
  }

  lemma {:induction false} RunConcat(s: State, a: seq<Step>, b: seq<Step>)
    ensures Run(s, a + b) == Run(Run(s, a), b)
    decreases |a|
  {
    if a == [] {
      assert a + b == b;
    } else {
      assert (a + b)[1..] == a[1..] + b;
      RunConcat(StepState(s, a[0]), a[1..], b);
    }
  }

  lemma {:induction false} ReadyStays(s: State, ins: seq<Inputs>)
    requires Inv(s) && !Pending(s) && !s.server.dispatching && s.life.phase.ready
    ensures Run(s, Ticks(ins)) == s
    decreases |ins|
  {
    if ins != [] {
      QuietTask(s, ins[0]);
      assert Ticks(ins)[1..] == Ticks(ins[1..]);
      ReadyStays(s, ins[1..]);
    }
  }

  /** The native build is ready after exactly StepsLeft quiet tasks, and not before. */
  lemma {:induction false} ReadyAfter(s: State, ins: seq<Inputs>)
    requires Starting(s) && !s.settings.hardware
    requires forall k :: 0 <= k < |ins| ==> ins[k].beginOk
    ensures Run(s, Ticks(ins)).life.phase.ready <==> |ins| >= StepsLeft(s)
    decreases |ins|
  {
    if ins != [] {
      StartingStep(s, ins[0]);
      var t := Task(s, ins[0], [], []);
      assert Ticks(ins)[1..] == Ticks(ins[1..]);
      if StepsLeft(s) == 1 {
        StepKeeps(s, Ticks(ins)[0]);
        ReadyStays(t, ins[1..]);
      } else {
        ReadyAfter(t, ins[1..]);
      }
    }
  }

  lemma {:induction false} TicksKeepSettings(s: State, ins: seq<Inputs>)
    requires Starting(s) && !s.settings.hardware
    requires forall k :: 0 <= k < |ins| ==> ins[k].beginOk
    ensures Run(s, Ticks(ins)).settings == s.settings && !Pending(Run(s, Ticks(ins)))
    decreases |ins|
  {
    if ins != [] {
      StartingStep(s, ins[0]);
      assert Ticks(ins)[1..] == Ticks(ins[1..]);
      if StepsLeft(s) == 1 {
        StepKeeps(s, Ticks(ins)[0]);
        ReadyStays(Task(s, ins[0], [], []), ins[1..]);
      } else {
        TicksKeepSettings(Task(s, ins[0], [], []), ins[1..]);
      }
    }
  }

  /** Enabling control on the native build with credentials set: ready after 4 tasks (REST only) or 5 (web sockets). */
  lemma StartUpLength(s: State, mode: DeliveryMode, ins: seq<Inputs>)
    requires Inv(s) && !Pending(s) && !s.server.dispatching && !s.settings.hardware
    requires s.settings.credentialsConfigured && s.settings.ssid != MOCK_FAIL_SSID
    requires !(s.settings.controlEnabled && s.life.phase.ready && s.settings.mode == mode)
    requires forall k :: 0 <= k < |ins| ==> ins[k].beginOk
    ensures Run(s, [Direct(Enable(true, mode))] + Ticks(ins)).life.phase.ready <==>
            |ins| >= if mode == RestOnly then 4 else 5
  {
    var enable := Direct(Enable(true, mode));
    StepKeeps(s, enable);
    var t := StepState(s, enable);
    assert Run(s, [enable] + Ticks(ins)) == Run(t, Ticks(ins)) by {
      assert ([enable] + Ticks(ins))[1..] == Ticks(ins);
    }
    ReadyAfter(t, ins);
  }

  function At(t: nat, linkUp: bool): Inputs {
    Inputs(t % TWO_32, linkUp, true)
  }

  /** Where a wait stands after a task that comes `elapsed` milliseconds after its start. */
  predicate Waited(u: State, elapsed: nat, linkUp: bool) {
    if linkUp then u.life.phase.stage == StaticRoutes && u.life.network.connected && u.settings.controlEnabled
    else if elapsed >= 15000 then u.life.network.failed && !u.settings.controlEnabled
    else u.life.phase.stage == WaitNetwork && u.settings.controlEnabled
  }

  predicate WaitingSince(s: State, start: nat) {
    Starting(s) && s.life.phase.stage == WaitNetwork && s.life.network.startMs == start % TWO_32
  }

  lemma WaitStep(s: State, start: nat, t: nat, linkUp: bool)
    requires WaitingSince(s, start) && start <= t < start + TWO_32
    ensures var u := Task(s, At(t, linkUp), [], []);
            Waited(u, t - start, linkUp) && (!linkUp && t < start + 15000 ==> WaitingSince(u, start))
  {
    assert Sub32(t % TWO_32, start % TWO_32) == t - start;
    QuietTask(s, At(t, linkUp));
    ProcessKeeps(s, At(t, linkUp));
  }

  function Unlinked(times: seq<nat>): seq<Inputs> {
    seq(|times|, k requires 0 <= k < |times| => At(times[k], false))
  }

  lemma {:induction false} WaitGoesOn(s: State, start: nat, before: seq<nat>, t: nat, linkUp: bool)
    requires WaitingSince(s, start) && start <= t < start + TWO_32
    requires forall k :: 0 <= k < |before| ==> start <= before[k] < start + 15000
    ensures Waited(Run(s, Ticks(Unlinked(before) + [At(t, linkUp)])), t - start, linkUp)
    decreases |before|
  {
    var all := Ticks(Unlinked(before) + [At(t, linkUp)]);
    if before == [] {
      WaitStep(s, start, t, linkUp);
      assert Run(s, all) == StepState(s, all[0]);
    } else {
      WaitStep(s, start, before[0], false);
      assert all[1..] == Ticks(Unlinked(before[1..]) + [At(t, linkUp)]);
      WaitGoesOn(StepState(s, all[0]), start, before[1..], t, linkUp);
    }
  }

  /**
    The hardware build starts the network in its first task and then waits for it, on
    a millisecond clock that wraps at 2^32, exactly until the first task that sees the
    link or comes 15000 ms after that: with the link start-up goes on, without it
    control goes off.
   */
  lemma WaitEnds(s: State, start: nat, early: bool, before: seq<nat>, t: nat, linkUp: bool)
    requires Starting(s) && s.settings.hardware && s.life.phase.stage == StartWifi
    requires forall k :: 0 <= k < |before| ==> start <= before[k] < start + 15000
    requires start <= t < start + TWO_32
    ensures var steps := Ticks([At(start, early)] + Unlinked(before) + [At(t, linkUp)]);
            Waited(Run(s, steps), t - start, linkUp)
  {
    var first := At(start, early);
    var rest := Unlinked(before) + [At(t, linkUp)];
    var steps := Ticks([first] + Unlinked(before) + [At(t, linkUp)]);
    StartingStep(s, first);
    QuietTask(s, first);
    assert steps[0] == Ticks([first])[0] && steps[1..] == Ticks(rest);
    WaitGoesOn(StepState(s, steps[0]), start, before, t, linkUp);
  }
}
