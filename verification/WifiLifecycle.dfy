/**
  The Wi-Fi control lifecycle: a start-up sequence advanced one stage per task(),
  and calls that restart or stop it, which are put off to the next task() when an
  HTTP handler makes them.

  The functions say what each operation does to the whole state; the classes do
  it in place.  Null and empty strings take the same branch everywhere and are
  both "" here.
 */
module WifiLifecycle {
  import opened Common

  const CONNECT_TIMEOUT_MS := 15000
  const MOCK_FAIL_SSID := "__fail__"
  const STORED_LENGTH := 128

  datatype DeliveryMode = RestOnly | RestAndWebSocket

  datatype Stage = StartWifi | WaitNetwork | StaticRoutes | ApiRoutes | WebSocketRoutes | Ready

  /** What callers configure; `hardware` tells the ESP32 build from the native one. */
  datatype Settings = Settings(hardware: bool, wifiEnabled: bool, configEnabled: bool,
                               configMode: DeliveryMode, mode: DeliveryMode,
                               ssid: string, password: string, credentialsConfigured: bool,
                               controlEnabled: bool)

  datatype Phase = Phase(initializing: bool, ready: bool, stage: Stage)

  datatype Network = Network(attempted: bool, connected: bool, failed: bool, startMs: u32, layerStarted: bool)

  datatype Routes = Routes(staticRoutes: bool, apiRoutes: bool, webSocketRoutes: bool)

  datatype Http = Http(serverStarted: bool, bindFailed: bool)

  /** What the start-up sequence has reached; cleared by every restart and stop. */
  datatype Lifecycle = Lifecycle(phase: Phase, network: Network, routes: Routes, http: Http)

  datatype Queued = Queued(stop: bool, restart: bool)

  datatype Server = Server(started: bool, dispatching: bool, hasHandler: bool, endsDuringDispatch: nat)

  datatype State = State(settings: Settings, life: Lifecycle, queued: Queued, server: Server)

  datatype Config = Config(enabled: bool, mode: DeliveryMode, ssid: string, password: string)

  datatype Call =
    | Enable(enabled: bool, mode: DeliveryMode)
    | WebControl(on: bool)
    | SetCredentials(ssid: string, password: string)
    | Restart
    | SetMode(newMode: DeliveryMode)
    | Configure(config: Config)

  /** What one task() sees of the world. */
  datatype Inputs = Inputs(nowMs: u32, linkUp: bool, beginOk: bool)

  const IDLE_PHASE := Phase(false, false, StartWifi)
  const NO_NETWORK := Network(false, false, false, 0, false)
  const NO_ROUTES := Routes(false, false, false)
  const NO_HTTP := Http(false, false)
  const NOTHING_QUEUED := Queued(false, false)

  function Stored(s: string): string {
    if |s| <= STORED_LENGTH then s else s[..STORED_LENGTH]
  }

  predicate Pending(s: State) {
    s.queued.stop || s.queued.restart
  }

  // ----- lifecycle calls -----

  function ServerEnd(v: Server): Server {
    if v.started
    then v.(started := false, endsDuringDispatch := v.endsDuringDispatch + if v.dispatching then 1 else 0)
    else v
  }

  function Idle(restart: bool): Lifecycle {
    Lifecycle(IDLE_PHASE.(initializing := restart), NO_NETWORK, NO_ROUTES, NO_HTTP)
  }

  function Reset(s: State, restart: bool): State {
    s.(life := Idle(restart), server := ServerEnd(s.server))
  }

  function Queue(s: State, restart: bool): State {
    if s.server.dispatching then s.(queued := Queued(!restart, restart)) else Reset(s, restart)
  }

  function ApplyQueued(s: State): State {
    if Pending(s) then Reset(s.(queued := NOTHING_QUEUED), s.queued.restart) else s
  }

  function EnableControl(s: State, enabled: bool, mode: DeliveryMode): State {
    var t := s.(settings := s.settings.(mode := mode));
    if !enabled then Queue(t.(settings := t.settings.(controlEnabled := false)), false)
    else
      var u := if t.settings.wifiEnabled then t
               else t.(settings := t.settings.(wifiEnabled := true, configEnabled := true));
      if u.settings.controlEnabled && u.life.phase.ready && s.settings.mode == mode then u
      else Queue(u.(settings := u.settings.(controlEnabled := true)), true)
  }

  function QueueIfEnabled(s: State): State {
    if s.settings.controlEnabled then Queue(s, true) else s
  }

  function MergedSettings(g: Settings, c: Config): Settings {
    var has := c.ssid != "" && c.password != "";
    var enabled := g.configEnabled || c.enabled;
    var mode := if c.mode == RestAndWebSocket then RestAndWebSocket else g.configMode;
    var ssid := if has then Stored(c.ssid) else g.ssid;
    var password := if has then Stored(c.password) else g.password;
    Settings(g.hardware, enabled, enabled, mode, mode, ssid, password, ssid != "" && password != "", g.controlEnabled)
  }

  function ApplyConfig(s: State, c: Config): State {
    var t := s.(settings := MergedSettings(s.settings, c));
    if t.settings.wifiEnabled then t else EnableControl(t, false, t.settings.mode)
  }

  /** The state after a call, and what the call returns. */
  function Do(s: State, call: Call): (State, bool) {
    match call
    case Enable(enabled, mode) => (EnableControl(s, enabled, mode), true)
    case WebControl(on) =>
      var t := EnableControl(s, on, s.settings.configMode);
      (t, t.settings.controlEnabled == on)
    case SetCredentials(ssid, password) =>
      if ssid == "" || password == "" then (s, false)
      else (QueueIfEnabled(s.(settings := s.settings.(ssid := Stored(ssid), password := Stored(password),
                                                      credentialsConfigured := true))), true)
    case Restart =>
      if !s.settings.wifiEnabled || !s.settings.controlEnabled then (s, false) else (Queue(s, true), true)
    case SetMode(mode) =>
      (QueueIfEnabled(s.(settings := s.settings.(configMode := mode, mode := mode))), true)
    case Configure(config) => (ApplyConfig(s, config), true)
  }

  function DoAll(s: State, calls: seq<Call>): (State, seq<bool>)
    decreases |calls|
  {
    if calls == [] then (s, [])
    else
      var first := Do(s, calls[0]);
      var rest := DoAll(first.0, calls[1..]);
      (rest.0, [first.1] + rest.1)
  }

  // ----- task() -----

  /** The connection attempt failed: control goes off until somebody enables it again. */
  function GiveUp(s: State): State {
    var l := s.life;
    s.(settings := s.settings.(controlEnabled := false),
       life := l.(network := l.network.(failed := true), phase := l.phase.(initializing := false)))
  }

  function RunStage(s: State, i: Inputs): State {
    var l := s.life;
    match l.phase.stage
    case StartWifi =>
      var t := s.(life := l.(network := l.network.(attempted := true)));
      if !s.settings.credentialsConfigured || s.settings.ssid == MOCK_FAIL_SSID then GiveUp(t)
      else if s.settings.hardware then
        s.(life := l.(network := Network(true, false, false, i.nowMs, true),
                      phase := l.phase.(stage := WaitNetwork)))
      else
        s.(life := l.(network := Network(true, true, false, l.network.startMs, true),
                      phase := l.phase.(stage := StaticRoutes)))
    case WaitNetwork =>
      if !s.settings.hardware then s
      else if i.linkUp then
        s.(life := l.(network := l.network.(connected := true, failed := false),
                      phase := l.phase.(stage := StaticRoutes)))
      else if Sub32(i.nowMs, l.network.startMs) >= CONNECT_TIMEOUT_MS then GiveUp(s)
      else s
    case StaticRoutes =>
      s.(life := l.(routes := l.routes.(staticRoutes := true), phase := l.phase.(stage := ApiRoutes)))
    case ApiRoutes =>
      var routes := l.routes.(apiRoutes := true);
      if !l.http.serverStarted && !s.server.started && !i.beginOk then
        s.(settings := s.settings.(controlEnabled := false),
           life := Lifecycle(l.phase.(initializing := false), l.network, routes, Http(false, true)),
           server := s.server.(hasHandler := true))
      else
        s.(life := Lifecycle(l.phase.(stage := if s.settings.mode == RestAndWebSocket then WebSocketRoutes else Ready),
                             l.network, routes, if l.http.serverStarted then l.http else Http(true, false)),
           server := if l.http.serverStarted then s.server else s.server.(hasHandler := true, started := true))
    case WebSocketRoutes =>
      s.(life := l.(routes := l.routes.(webSocketRoutes := true), phase := l.phase.(stage := Ready)))
    case Ready => s.(life := l.(phase := Phase(false, true, Ready)))
  }

  function Process(s: State, i: Inputs): State {
    if !s.settings.controlEnabled || !s.settings.wifiEnabled || s.life.phase.ready then s
    else RunStage(s.(life := s.life.(phase := s.life.phase.(initializing := true))), i)
  }

  /** poll(): a started server hands one request to the handler, which makes `calls`. */
  function Dispatch(s: State, calls: seq<Call>): State {
    if !s.server.started then s
    else
      var t := DoAll(s.(server := s.server.(dispatching := true)), calls).0;
      t.(server := t.server.(dispatching := false))
  }

  function Task(s: State, i: Inputs, serial: seq<Call>, web: seq<Call>): State {
    Dispatch(Process(DoAll(ApplyQueued(s), serial).0, i), web)
  }

  /** A stopped server and no control; then the construction-time configuration. */
  function Initial(hardware: bool, c: Config): State {
    var g := Settings(hardware, false, c.enabled, c.mode, RestOnly, c.ssid, c.password, false, false);
    ApplyConfig(State(g, Idle(false), NOTHING_QUEUED, Server(false, false, false, 0)), c)
  }

  datatype Step = Direct(call: Call) | Tick(inputs: Inputs, serial: seq<Call>, web: seq<Call>)

  function StepState(s: State, step: Step): State {
    match step
    case Direct(call) => Do(s, call).0
    case Tick(inputs, serial, web) => Task(s, inputs, serial, web)
  }

  function Run(s: State, steps: seq<Step>): State
    decreases |steps|
  {
    if steps == [] then s else Run(StepState(s, steps[0]), steps[1..])
  }

  // ----- the firmware's objects -----

  class WifiHttpServer {
    var started: bool
    var dispatching: bool
    var hasHandler: bool
    ghost var endsDuringDispatch: nat

    ghost function View(): Server
      reads this
    {
      Server(started, dispatching, hasHandler, endsDuringDispatch)
    }

    constructor ()
      ensures View() == Server(false, false, false, 0)
    {
      started, dispatching, hasHandler := false, false, false;
      endsDuringDispatch := 0;
    }

    /** `available` is the outcome of creating the platform's server object. */
    method Begin(available: bool) returns (ok: bool)
      modifies this
      ensures ok == (old(started) || (old(hasHandler) && available))
      ensures View() == if ok then old(View()).(started := true) else old(View())
    {
      if started {
        return true;
      }
      if !hasHandler {
        return false;
      }
      if !available {
        return false;
      }
      started := true;
      return true;
    }

    method End()
      modifies this
      ensures View() == ServerEnd(old(View()))
    {
      if !started {
        return;
      }
      if dispatching {
        endsDuringDispatch := endsDuringDispatch + 1;
      }
      started := false;
    }
  }

  /** The fields of ESP32Wiimote that take part, grouped as in State. */
  class WifiControl {
    const httpServer: WifiHttpServer
    var settings: Settings
    var phase: Phase
    var network: Network
    var routes: Routes
    var http: Http
    var queued: Queued

    ghost function View(): State
      reads this, httpServer
    {
      State(settings, Lifecycle(phase, network, routes, http), queued, httpServer.View())
    }

    constructor (hardware: bool, config: Config)
      ensures View() == Initial(hardware, config) && fresh(httpServer)
    {
      httpServer := new WifiHttpServer();
      settings := Settings(hardware, false, config.enabled, config.mode, RestOnly,
                           config.ssid, config.password, false, false);
      phase, network, routes, http, queued := IDLE_PHASE, NO_NETWORK, NO_ROUTES, NO_HTTP, NOTHING_QUEUED;
      new;
      ApplyRuntimeConfig(config);
    }

    method StopWifiHttpServer()
      modifies this`http, httpServer
      ensures httpServer.View() == ServerEnd(old(httpServer.View()))
      ensures http == if old(httpServer.started) then old(http).(serverStarted := false) else old(http)
    {
      if !httpServer.started {
        return;
      }
      httpServer.End();
      http := http.(serverStarted := false);
    }

    method ResetWifiLifecycleState()
      modifies this, httpServer
      ensures View() == Reset(old(View()), false)
    {
      StopWifiHttpServer();
      phase := IDLE_PHASE;
      network := NO_NETWORK;
      routes := NO_ROUTES;
      http := NO_HTTP;
    }

    method QueueWifiLifecycleAction(restart: bool)
      modifies this, httpServer
      ensures View() == Queue(old(View()), restart)
    {
      if httpServer.dispatching {
        queued := Queued(!restart, restart);
        return;
      }
      ResetWifiLifecycleState();
      if restart {
        phase := phase.(initializing := true);
      }
    }

    method ApplyQueuedWifiLifecycleAction()
      modifies this, httpServer
      ensures View() == ApplyQueued(old(View()))
    {
      if !queued.stop && !queued.restart {
        return;
      }
      var restart := queued.restart;
      queued := Queued(false, false);
      ResetWifiLifecycleState();
      if restart {
        phase := phase.(initializing := true);
      }
    }

    method EnableWifiControl(enabled: bool, deliveryMode: DeliveryMode)
      modifies this, httpServer
      ensures View() == EnableControl(old(View()), enabled, deliveryMode)
    {
      var previousMode := settings.mode;
      settings := settings.(mode := deliveryMode);
      if !enabled {
        settings := settings.(controlEnabled := false);
        QueueWifiLifecycleAction(false);
        return;
      }
      if !settings.wifiEnabled {
        settings := settings.(wifiEnabled := true, configEnabled := true);
      }
      if settings.controlEnabled && phase.ready && previousMode == deliveryMode {
        return;
      }
      settings := settings.(controlEnabled := true);
      QueueWifiLifecycleAction(true);
    }

    method ApplyRuntimeConfig(config: Config)
      modifies this, httpServer
      ensures View() == ApplyConfig(old(View()), config)
    {
      MergeConfig(config);
      if !settings.wifiEnabled {
        EnableWifiControl(false, settings.mode);
      }
    }

    method MergeConfig(config: Config)
      modifies this`settings
      ensures settings == MergedSettings(old(settings), config)
    {
      var hasNetwork := config.ssid != "" && config.password != "";
      if config.enabled {
        settings := settings.(configEnabled := true);
      }
      if config.mode == RestAndWebSocket {
        settings := settings.(configMode := RestAndWebSocket);
      }
      if hasNetwork {
        settings := settings.(ssid := Stored(config.ssid), password := Stored(config.password));
      }
      settings := settings.(wifiEnabled := settings.configEnabled, mode := settings.configMode,
                            credentialsConfigured := settings.ssid != "" && settings.password != "");
    }

    method UpdateWifiNetworkCredentials(ssid: string, password: string) returns (ok: bool)
      modifies this, httpServer
      ensures (View(), ok) == Do(old(View()), SetCredentials(ssid, password))
    {
      if ssid == "" || password == "" {
        return false;
      }
      settings := settings.(ssid := Stored(ssid), password := Stored(password), credentialsConfigured := true);
      if settings.controlEnabled {
        QueueWifiLifecycleAction(true);
      }
      return true;
    }

    method RestartWifiControl() returns (ok: bool)
      modifies this, httpServer
      ensures (View(), ok) == Do(old(View()), Restart)
    {
      if !settings.wifiEnabled || !settings.controlEnabled {
        return false;
      }
      QueueWifiLifecycleAction(true);
      return true;
    }

    method SetWifiDeliveryMode(mode: DeliveryMode) returns (ok: bool)
      modifies this, httpServer
      ensures (View(), ok) == Do(old(View()), SetMode(mode))
    {
      settings := settings.(configMode := mode, mode := mode);
      if settings.controlEnabled {
        QueueWifiLifecycleAction(true);
      }
      return true;
    }

    method Perform(call: Call) returns (ok: bool)
      modifies this, httpServer
      ensures (View(), ok) == Do(old(View()), call)
    {
      match call
      case Enable(enabled, mode) => EnableWifiControl(enabled, mode); ok := true;
      case WebControl(on) =>
        EnableWifiControl(on, settings.configMode);
        ok := settings.controlEnabled == on;
      case SetCredentials(ssid, password) => ok := UpdateWifiNetworkCredentials(ssid, password);
      case Restart => ok := RestartWifiControl();
      case SetMode(mode) => ok := SetWifiDeliveryMode(mode);
      case Configure(config) => ApplyRuntimeConfig(config); ok := true;
    }

    method PerformAll(calls: seq<Call>)
      modifies this, httpServer
      ensures View() == DoAll(old(View()), calls).0
    {
      for i := 0 to |calls|
        invariant DoAll(View(), calls[i..]).0 == DoAll(old(View()), calls).0
      {
        assert calls[i..][1..] == calls[i + 1..];
        var ok := Perform(calls[i]);
      }
    }

    method StartWifiHttpServer(available: bool) returns (ok: bool)
      modifies this`http, httpServer
      ensures ok == (old(http.serverStarted) || old(httpServer.started) || available)
      ensures http == if old(http.serverStarted) then old(http) else Http(ok, !ok)
      ensures httpServer.View() ==
              if old(http.serverStarted) then old(httpServer.View())
              else old(httpServer.View()).(hasHandler := true, started := ok)
    {
      if http.serverStarted {
        return true;
      }
      httpServer.hasHandler := true;
      ok := httpServer.Begin(available);
      if !ok {
        http := http.(bindFailed := true);
        http := http.(serverStarted := false);
        return;
      }
      http := http.(serverStarted := true);
      http := http.(bindFailed := false);
    }

    method FailStartup()
      modifies this
      ensures View() == GiveUp(old(View()))
    {
      network := network.(failed := true);
      settings := settings.(controlEnabled := false);
      phase := phase.(initializing := false);
    }

    method StartWifiStage(i: Inputs)
      requires phase.stage == StartWifi
      modifies this
      ensures View() == RunStage(old(View()), i)
    {
      network := network.(attempted := true);
      if !settings.credentialsConfigured {
        FailStartup();
        return;
      }
      if settings.ssid == MOCK_FAIL_SSID {
        FailStartup();
        return;
      }
      if settings.hardware {
        network := network.(startMs := i.nowMs, connected := false, failed := false, layerStarted := true);
        phase := phase.(stage := WaitNetwork);
      } else {
        network := network.(connected := true, failed := false, layerStarted := true);
        phase := phase.(stage := StaticRoutes);
      }
    }

    method WaitNetworkStage(i: Inputs)
      requires phase.stage == WaitNetwork
      modifies this
      ensures View() == RunStage(old(View()), i)
    {
      if settings.hardware {
        if i.linkUp {
          network := network.(connected := true, failed := false);
          phase := phase.(stage := StaticRoutes);
          return;
        }
        if Sub32(i.nowMs, network.startMs) >= CONNECT_TIMEOUT_MS {
          FailStartup();
        }
      }
    }

    method ApiRoutesStage(i: Inputs)
      requires phase.stage == ApiRoutes
      modifies this, httpServer
      ensures View() == RunStage(old(View()), i)
    {
      routes := routes.(apiRoutes := true);
      var ok := StartWifiHttpServer(i.beginOk);
      if !ok {
        settings := settings.(controlEnabled := false);
        phase := phase.(initializing := false);
        return;
      }
      phase := phase.(stage := if settings.mode == RestAndWebSocket then WebSocketRoutes else Ready);
    }

    method ProcessWifiControl(i: Inputs)
      modifies this, httpServer
      ensures View() == Process(old(View()), i)
    {
      if !settings.controlEnabled || !settings.wifiEnabled {
        return;
      }
      if phase.ready {
        return;
      }
      if !phase.initializing {
        phase := phase.(initializing := true);
      }
      match phase.stage
      case StartWifi => StartWifiStage(i);
      case WaitNetwork => WaitNetworkStage(i);
      case StaticRoutes =>
        routes := routes.(staticRoutes := true);
        phase := phase.(stage := ApiRoutes);
      case ApiRoutes => ApiRoutesStage(i);
      case WebSocketRoutes =>
        routes := routes.(webSocketRoutes := true);
        phase := phase.(stage := Ready);
      case Ready =>
        phase := phase.(initializing := false);
        phase := phase.(ready := true);
    }

    method Poll(web: seq<Call>)
      modifies this, httpServer
      ensures View() == Dispatch(old(View()), web)
    {
      if !httpServer.started {
        return;
      }
      httpServer.dispatching := true;
      PerformAll(web);
      httpServer.dispatching := false;
    }

    /** task(); `serial` and `web` are the calls that serial lines and a web request make meanwhile. */
    method RunTask(i: Inputs, serial: seq<Call>, web: seq<Call>)
      modifies this, httpServer
      ensures View() == Task(old(View()), i, serial, web)
    {
      ApplyQueuedWifiLifecycleAction();
      PerformAll(serial);
      ProcessWifiControl(i);
      Poll(web);
    }
  }
}
