/**
  The HCI connection machine: controller bring-up, discovery, fast reconnect from
  a cache, and the fallback to inquiry, driven by controller events
  (Bluetooth Core Specification 5.3, Vol 4 Part E, section 7.7) and by the
  application's entry points.

  The functions give the next state and the commands sent; the class updates its
  fields, writes each command into the transmit buffer and keeps every packet sent.
 */
module HciEvents {
  import opened Common
  import opened HciCommands

  const EVT_INQUIRY_COMPLETE := 0x01
  const EVT_INQUIRY_RESULT := 0x02
  const EVT_CONNECTION_COMPLETE := 0x03
  const EVT_DISCONNECTION_COMPLETE := 0x05
  const EVT_REMOTE_NAME_COMPLETE := 0x07
  const EVT_COMMAND_COMPLETE := 0x0E
  const EVT_COMMAND_STATUS := 0x0F

  const TABLE_SIZE := 16
  const RESPONSE_SIZE := 14
  const DEFAULT_TTL_MS := 180000
  const LAP := 0x9E8B33

  /** "Nintendo RVL-CNT-01" with its terminator. */
  const WIIMOTE_NAME: seq<u8> :=
    [78, 105, 110, 116, 101, 110, 100, 111, 32, 82, 86, 76, 45, 67, 78, 84, 45, 48, 49, 0]

  /** "ESP32-BT-L2CAP" with its terminator. */
  const LOCAL_NAME: seq<u8> := [69, 83, 80, 51, 50, 45, 66, 84, 45, 76, 50, 67, 65, 80, 0]

  const CLASS_OF_DEVICE: seq<u8> := [0x04, 0x05, 0x00]

  datatype Flags = Flags(pendingFast: bool, scanning: bool, autoReconnect: bool, inited: bool)

  /** `cache` is the last Wiimote connected to, `target` that of the last Create Connection. */
  datatype State = State(scanned: seq<Device>, cache: Option<Device>, target: Option<Device>,
                         seenMs: u32, ttlMs: u32, flags: Flags, wiimoteConnected: bool)

  datatype Effect = Effect(state: State, sent: seq<Command>)

  const INITIAL := State([], None, None, 0, DEFAULT_TTL_MS, Flags(false, false, true, false), false)

  function Index(table: seq<Device>, addr: Addr): (r: int)
    ensures -1 <= r < |table|
    ensures r >= 0 ==> table[r].addr == addr
    ensures r < 0 ==> forall i :: 0 <= i < |table| ==> table[i].addr != addr
  {
    if table == [] then -1
    else if table[0].addr == addr then 0
    else
      var r := Index(table[1..], addr);
      if r < 0 then -1 else r + 1
  }

  lemma {:induction false} IndexIsFirst(table: seq<Device>, addr: Addr, i: nat)
    requires i < |table| && table[i].addr == addr
    requires forall k :: 0 <= k < i ==> table[k].addr != addr
    ensures Index(table, addr) == i
  {
    if i > 0 {
      IndexIsFirst(table[1..], addr, i - 1);
    }
  }

  function StartInquiry(s: State): Effect {
    Effect(s.(scanned := []), [Inquiry(LAP, 0x05, 0x00)])
  }

  function StartCreateConnection(s: State, d: Device, fast: bool): Effect {
    Effect(s.(target := Some(d), flags := s.flags.(pendingFast := fast)), [CreateConnection(d)])
  }

  function ResetDevice(s: State): Effect {
    Effect(s.(scanned := [], flags := s.flags.(scanning := false)), [Reset])
  }

  function FallBack(s: State): Effect {
    if s.flags.pendingFast then StartInquiry(s.(flags := s.flags.(pendingFast := false))) else Effect(s, [])
  }

  predicate CacheValid(s: State, nowMs: u32) {
    s.cache.Some? && s.ttlMs != 0 && Sub32(nowMs, s.seenMs) <= s.ttlMs
  }

  function ScanEnabled(s: State, nowMs: u32): Effect {
    var e := if !s.flags.scanning && s.flags.inited then Effect(s, [])
             else if s.flags.autoReconnect && CacheValid(s, nowMs) then StartCreateConnection(s, s.cache.value, true)
             else StartInquiry(s);
    e.(state := e.state.(flags := e.state.flags.(inited := true)))
  }

  function CommandComplete(s: State, opcode: u16, status: u8, nowMs: u32): Effect {
    if status != 0 then Effect(s, [])
    else if opcode == OPCODE_RESET then Effect(s, [ReadBdAddr])
    else if opcode == OPCODE_READ_BD_ADDR then Effect(s, [WriteLocalName(LOCAL_NAME)])
    else if opcode == OPCODE_WRITE_LOCAL_NAME then Effect(s, [WriteClassOfDevice(CLASS_OF_DEVICE)])
    else if opcode == OPCODE_WRITE_CLASS_OF_DEVICE then
      Effect(s.(flags := s.flags.(scanning := true)), [WriteScanEnable(3)])
    else if opcode == OPCODE_WRITE_SCAN_ENABLE then ScanEnabled(s, nowMs)
    else Effect(s, [])
  }

  function CommandStatus(s: State, opcode: u16, status: u8): Effect {
    if status != 0 && opcode == OPCODE_CREATE_CONNECTION then FallBack(s) else Effect(s, [])
  }

  /** The address at `pos` of an event's parameters, as it travels. */
  function AddressAt(data: seq<u8>, pos: nat): Addr
    requires pos + 6 <= |data|
  {
    data[pos..pos + 6]
  }

  /** The i-th address of an inquiry result. */
  function ReportedAddress(data: seq<u8>, i: nat): Addr
    requires |data| >= 1 + RESPONSE_SIZE * (i + 1)
  {
    AddressAt(data, 1 + RESPONSE_SIZE * i)
  }

  function ReportedDevice(data: seq<u8>, i: nat): Device
    requires |data| >= 1 + RESPONSE_SIZE * (i + 1)
  {
    var pos := 1 + RESPONSE_SIZE * i;
    var high: int := if data[pos + 12] >= 0x80 then data[pos + 12] else data[pos + 12] as int + 0x80;
    Device(Reversed(ReportedAddress(data, i)), data[pos + 6], high * 0x100 + data[pos + 13] as int)
  }

  predicate LooksLikeWiimote(data: seq<u8>, i: nat)
    requires |data| >= 1 + RESPONSE_SIZE * (i + 1)
  {
    var pos := 1 + RESPONSE_SIZE * i;
    data[pos + 9] == 0x04 && data[pos + 10] == 0x25 && data[pos + 11] == 0x00
  }

  function Discover(s: State, data: seq<u8>, i: nat): Effect
    requires |data| >= 1 + RESPONSE_SIZE * (i + 1)
  {
    var d := ReportedDevice(data, i);
    if Index(s.scanned, d.addr) >= 0 || |s.scanned| >= TABLE_SIZE then Effect(s, [])
    else Effect(s.(scanned := s.scanned + [d]), if LooksLikeWiimote(data, i) then [RemoteNameRequest(d)] else [])
  }

  /** The responses from the i-th on of an inquiry result that announces `num`. */
  function DiscoverFrom(s: State, data: seq<u8>, i: nat, num: nat): Effect
    requires |data| >= 1 + RESPONSE_SIZE * num
    decreases num - i
  {
    if i >= num then Effect(s, [])
    else
      var first := Discover(s, data, i);
      var rest := DiscoverFrom(first.state, data, i + 1, num);
      Effect(rest.state, first.sent + rest.sent)
  }

  /** strcmp with the Wiimote's name; the terminator is part of the comparison. */
  predicate NamesWiimote(name: seq<u8>) {
    WIIMOTE_NAME <= name
  }

  function RemoteNameComplete(s: State, data: seq<u8>): Effect
    requires |data| >= 7
  {
    var i := Index(s.scanned, Reversed(AddressAt(data, 1)));
    if i < 0 || !NamesWiimote(data[7..]) then Effect(s, [])
    else
      var e := StartCreateConnection(s, s.scanned[i], false);
      Effect(e.state, [InquiryCancel] + e.sent)
  }

  function ConnectionComplete(s: State, status: u8, nowMs: u32): Effect {
    if status != 0 then FallBack(s)
    else
      var t := s.(flags := s.flags.(pendingFast := false));
      Effect(if s.target.Some? then t.(cache := s.target, seenMs := nowMs) else t, [])
  }

  /** The parameters an event must carry to be read; `name` ends within the packet or decides the comparison. */
  predicate WellFormed(code: u8, data: seq<u8>) {
    if code == EVT_INQUIRY_RESULT then |data| >= 1 && |data| >= 1 + RESPONSE_SIZE * data[0] as int
    else if code == EVT_CONNECTION_COMPLETE then |data| >= 1 && (data[0] == 0 ==> |data| >= 3)
    else if code == EVT_REMOTE_NAME_COMPLETE then
      |data| >= 7 + |WIIMOTE_NAME| || (|data| >= 8 && 0 in data[7..])
    else if code == EVT_DISCONNECTION_COMPLETE || code == EVT_COMMAND_COMPLETE || code == EVT_COMMAND_STATUS
    then |data| >= 4
    else true
  }

  function HandleEvent(s: State, code: u8, data: seq<u8>, nowMs: u32): Effect
    requires WellFormed(code, data)
  {
    if code == EVT_INQUIRY_COMPLETE then ResetDevice(s)
    else if code == EVT_INQUIRY_RESULT then DiscoverFrom(s, data, 0, data[0])
    else if code == EVT_CONNECTION_COMPLETE then ConnectionComplete(s, data[0], nowMs)
    else if code == EVT_DISCONNECTION_COMPLETE then ResetDevice(s.(wiimoteConnected := false))
    else if code == EVT_REMOTE_NAME_COMPLETE then RemoteNameComplete(s, data)
    else if code == EVT_COMMAND_COMPLETE then CommandComplete(s, ReadUInt16Le(data[1..]), data[3], nowMs)
    else if code == EVT_COMMAND_STATUS then CommandStatus(s, ReadUInt16Le(data[2..]), data[0])
    else Effect(s, [])
  }

  function Scanning(s: State, on: bool): State {
    s.(flags := s.flags.(scanning := on))
  }

  function SetScan(s: State, on: bool): Effect {
    if !s.flags.inited || (!s.wiimoteConnected && on == s.flags.scanning) then Effect(s, [])
    else Effect(Scanning(s, on), [WriteScanEnable(if on then 2 else 0)])
  }

  function Discovering(s: State): Effect {
    if !s.flags.inited || s.wiimoteConnected || s.flags.scanning then Effect(s, [])
    else Effect(Scanning(s, true), [Inquiry(LAP, 0x08, 0xFF)])
  }

  function NotDiscovering(s: State): Effect {
    if !s.flags.inited || s.wiimoteConnected || !s.flags.scanning then Effect(s, [])
    else Effect(Scanning(s, false), [InquiryCancel])
  }

  /** What drives the machine; calls other than events come from the application. */
  datatype Input =
    | Event(code: u8, data: seq<u8>, nowMs: u32)
    | AppReset
    | SetScanEnabled(enabled: bool)
    | StartDiscovery
    | StopDiscovery
    | SetAutoReconnect(on: bool)
    | ClearReconnectCache
    | SetTtl(ms: u32)
    | HidReport

  predicate InputOk(i: Input) {
    i.Event? ==> WellFormed(i.code, i.data)
  }

  function Handle(s: State, i: Input): Effect
    requires InputOk(i)
  {
    var f := s.flags;
    match i
    case Event(code, data, nowMs) => HandleEvent(s, code, data, nowMs)
    case AppReset =>
      var e := ResetDevice(s);
      e.(state := e.state.(flags := e.state.flags.(inited := true)))
    case SetScanEnabled(enabled) => SetScan(s, enabled)
    case StartDiscovery => Discovering(s)
    case StopDiscovery => NotDiscovering(s)
    case SetAutoReconnect(on) =>
      Effect(if f.inited then s.(flags := f.(autoReconnect := on)) else s, [])
    case ClearReconnectCache =>
      Effect(if f.inited then s.(cache := None, flags := f.(pendingFast := false)) else s, [])
    case SetTtl(ms) => Effect(s.(ttlMs := ms), [])
    case HidReport =>
      Effect(if s.wiimoteConnected then s else s.(wiimoteConnected := true, flags := f.(scanning := false)), [])
  }

  predicate AllEncodable(cs: seq<Command>) {
    forall i :: 0 <= i < |cs| ==> Encodable(cs[i])
  }

  function EncodeAll(cs: seq<Command>): (r: seq<seq<u8>>)
    requires AllEncodable(cs)
    ensures |r| == |cs| && forall i :: 0 <= i < |r| ==> r[i] == Encode(cs[i])
  {
    seq(|cs|, i requires 0 <= i < |cs| => Encode(cs[i]))
  }

  lemma EncodeAllConcat(a: seq<Command>, b: seq<Command>)
    requires AllEncodable(a) && AllEncodable(b)
    ensures AllEncodable(a + b) && EncodeAll(a + b) == EncodeAll(a) + EncodeAll(b)
  {
  }

  lemma EncodeOne(c: Command)
    requires Encodable(c)
    ensures AllEncodable([c]) && EncodeAll([c]) == [Encode(c)]
  {
  }

  lemma EncodeNone(before: seq<seq<u8>>)
    ensures before + EncodeAll([]) == before
  {
  }

  lemma DiscoverOneEncodable(s: State, data: seq<u8>, i: nat)
    requires |data| >= 1 + RESPONSE_SIZE * (i + 1)
    ensures AllEncodable(Discover(s, data, i).sent)
  {
  }

  lemma {:induction false} DiscoverEncodable(s: State, data: seq<u8>, i: nat, num: nat)
    requires |data| >= 1 + RESPONSE_SIZE * num
    ensures AllEncodable(DiscoverFrom(s, data, i, num).sent)
    decreases num - i
  {
    if i < num {
      DiscoverOneEncodable(s, data, i);
      DiscoverEncodable(Discover(s, data, i).state, data, i + 1, num);
    }
  }

  lemma DiscoverStep(s: State, data: seq<u8>, i: nat, num: nat, done: seq<Command>, before: seq<seq<u8>>)
    requires |data| >= 1 + RESPONSE_SIZE * num && i < num && AllEncodable(done)
    ensures var step := Discover(s, data, i);
            var all := DiscoverFrom(s, data, i, num);
            var rest := DiscoverFrom(step.state, data, i + 1, num);
            && all.state == rest.state && done + all.sent == (done + step.sent) + rest.sent
            && AllEncodable(step.sent) && AllEncodable(done + step.sent)
            && before + EncodeAll(done + step.sent) == (before + EncodeAll(done)) + EncodeAll(step.sent)
  {
    var step := Discover(s, data, i).sent;
    DiscoverOneEncodable(s, data, i);
    EncodeAllConcat(done, step);
    Assoc(done, step, DiscoverFrom(Discover(s, data, i).state, data, i + 1, num).sent);
    Assoc(before, EncodeAll(done), EncodeAll(step));
  }

  class HciEventContext {
    const scannedDevices: array<Device>
    const txBuffer: array<u8>
    var scannedDeviceCount: nat
    var lastWiimote: Device
    var hasLastWiimote: bool
    var currentConnectTarget: Device
    var hasCurrentConnectTarget: bool
    var lastWiimoteSeenMs: u32
    var fastReconnectTtlMs: u32
    var flags: Flags
    var wiimoteConnected: bool
    ghost var sent: seq<seq<u8>>

    ghost predicate Valid()
      reads this
    {
      scannedDevices.Length == TABLE_SIZE && txBuffer.Length == 256 && scannedDeviceCount <= TABLE_SIZE
    }

    ghost function View(): State
      requires Valid()
      reads this, scannedDevices
    {
      State(scannedDevices[..scannedDeviceCount],
            if hasLastWiimote then Some(lastWiimote) else None,
            if hasCurrentConnectTarget then Some(currentConnectTarget) else None,
            lastWiimoteSeenMs, fastReconnectTtlMs, flags, wiimoteConnected)
    }

    constructor ()
      ensures Valid() && View() == INITIAL && sent == [] && fresh(scannedDevices) && fresh(txBuffer)
      ensures fastReconnectTtlMs == 180000
    {
      var none := Device([0, 0, 0, 0, 0, 0], 0, 0);
      scannedDevices := new Device[TABLE_SIZE](_ => none);
      txBuffer := new u8[256](_ => 0);
      scannedDeviceCount := 0;
      lastWiimote, hasLastWiimote, currentConnectTarget, hasCurrentConnectTarget := none, false, none, false;
      lastWiimoteSeenMs, fastReconnectTtlMs := 0, DEFAULT_TTL_MS;
      flags := Flags(false, false, true, false);
      wiimoteConnected := false;
      sent := [];
    }

    ghost predicate Kept(v: State, packets: seq<seq<u8>>)
      reads this, scannedDevices
    {
      Valid() && View() == v && sent == packets
    }

    /** The state is the effect's, and its commands were sent after what was sent before. */
    ghost predicate Did(e: Effect, before: seq<seq<u8>>)
      reads this, scannedDevices
    {
      AllEncodable(e.sent) && Kept(e.state, before + EncodeAll(e.sent))
    }

    method HciSend(len: nat)
      requires Valid() && len <= txBuffer.Length
      modifies this`sent
      ensures Kept(old(View()), old(sent) + [txBuffer[..len]])
    {
      sent := sent + [txBuffer[..len]];
    }

    method FindScannedDevice(addr: Addr) returns (idx: int)
      requires Valid()
      ensures idx == Index(View().scanned, addr)
    {
      ghost var table := View().scanned;
      for i := 0 to scannedDeviceCount
        invariant forall k :: 0 <= k < i ==> table[k].addr != addr
      {
        assert table[i] == scannedDevices[i];
        if scannedDevices[i].addr == addr {
          IndexIsFirst(table, addr, i);
          return i;
        }
      }
      return -1;
    }

    method AddScannedDevice(scanned: Device) returns (idx: int)
      requires Valid()
      modifies this`scannedDeviceCount, scannedDevices
      ensures idx < 0 <==> |old(View()).scanned| >= TABLE_SIZE
      ensures Kept(if idx < 0 then old(View()) else old(View()).(scanned := old(View()).scanned + [scanned]), sent)
    {
      if scannedDeviceCount >= TABLE_SIZE {
        return -1;
      }
      scannedDevices[scannedDeviceCount] := scanned;
      scannedDeviceCount := scannedDeviceCount + 1;
      return scannedDeviceCount;
    }

    method IsFastReconnectCacheValid(nowMs: u32) returns (ok: bool)
      requires Valid()
      ensures ok == CacheValid(View(), nowMs)
    {
      if !hasLastWiimote {
        return false;
      }
      if fastReconnectTtlMs == 0 {
        return false;
      }
      var elapsed := Sub32(nowMs, lastWiimoteSeenMs);
      return elapsed <= fastReconnectTtlMs;
    }

    method BeginInquiry()
      requires Valid()
      modifies this, txBuffer
      ensures Did(StartInquiry(old(View())), old(sent))
    {
      scannedDeviceCount := 0;
      var len := MakeCmdInquiry(txBuffer, LAP, 0x05, 0x00);
      HciSend(len);
    }

    method BeginCreateConnection(target: Device, isFastReconnect: bool)
      requires Valid()
      modifies this, txBuffer
      ensures Did(StartCreateConnection(old(View()), target, isFastReconnect), old(sent))
    {
      var len := MakeCmdCreateConnection(txBuffer, target);
      HciSend(len);
      currentConnectTarget := target;
      hasCurrentConnectTarget := true;
      flags := flags.(pendingFast := isFastReconnect);
    }

    method FallbackToInquiry()
      requires Valid()
      modifies this, txBuffer
      ensures Did(FallBack(old(View())), old(sent))
    {
      if !flags.pendingFast {
        return;
      }
      flags := flags.(pendingFast := false);
      BeginInquiry();
    }

    method ResetHciDevice()
      requires Valid()
      modifies this, txBuffer
      ensures Did(ResetDevice(old(View())), old(sent))
    {
      scannedDeviceCount := 0;
      flags := flags.(scanning := false);
      var len := MakeCmdReset(txBuffer);
      HciSend(len);
    }

    method HandleScanEnabled(nowMs: u32)
      requires Valid()
      modifies this, txBuffer
      ensures Did(ScanEnabled(old(View()), nowMs), old(sent))
    {
      EncodeNone(sent);
      if flags.scanning || !flags.inited {
        var cached := IsFastReconnectCacheValid(nowMs);
        if flags.autoReconnect && cached {
          BeginCreateConnection(lastWiimote, true);
        } else {
          BeginInquiry();
        }
      }
      flags := flags.(inited := true);
    }

    method HandleCommandComplete(data: seq<u8>, nowMs: u32)
      requires Valid() && |data| >= 4
      modifies this, txBuffer
      ensures Did(CommandComplete(old(View()), ReadUInt16Le(data[1..]), data[3], nowMs), old(sent))
    {
      EncodeNone(sent);
      var opcode := ReadUInt16Le(data[1..]);
      if data[3] != 0 {
        return;
      }
      if opcode == OPCODE_WRITE_SCAN_ENABLE {
        HandleScanEnabled(nowMs);
        return;
      }
      var len;
      if opcode == OPCODE_RESET {
        len := MakeCmdReadBdAddr(txBuffer);
      } else if opcode == OPCODE_READ_BD_ADDR {
        len := MakeCmdWriteLocalName(txBuffer, LOCAL_NAME);
      } else if opcode == OPCODE_WRITE_LOCAL_NAME {
        len := MakeCmdWriteClassOfDevice(txBuffer, CLASS_OF_DEVICE);
      } else if opcode == OPCODE_WRITE_CLASS_OF_DEVICE {
        len := MakeCmdWriteScanEnable(txBuffer, 3);
        flags := flags.(scanning := true);
      } else {
        return;
      }
      HciSend(len);
    }

    method HandleCommandStatus(data: seq<u8>)
      requires Valid() && |data| >= 4
      modifies this, txBuffer
      ensures Did(CommandStatus(old(View()), ReadUInt16Le(data[2..]), data[0]), old(sent))
    {
      if data[0] != 0 {
        if ReadUInt16Le(data[2..]) == OPCODE_CREATE_CONNECTION {
          FallbackToInquiry();
        }
      }
    }

    method RequestRemoteName(scanned: Device)
      requires Valid()
      modifies this`sent, txBuffer
      ensures Did(Effect(old(View()), [RemoteNameRequest(scanned)]), old(sent))
    {
      var len := MakeCmdRemoteNameRequest(txBuffer, scanned);
      EncodeOne(RemoteNameRequest(scanned));
      HciSend(len);
    }

    method HandleResponse(data: seq<u8>, i: nat)
      requires Valid() && |data| >= 1 + RESPONSE_SIZE * (i + 1)
      modifies this, scannedDevices, txBuffer
      ensures Did(Discover(old(View()), data, i), old(sent))
    {
      EncodeNone(sent);
      var pos := 1 + RESPONSE_SIZE * i;
      var addr := StreamToBdAddr(data, pos);
      var idx := FindScannedDevice(addr);
      if idx != -1 {
        return;
      }
      var scanned := ReportedDevice(data, i);
      idx := AddScannedDevice(scanned);
      if idx < 0 {
        return;
      }
      assert View() == Discover(old(View()), data, i).state;
      if LooksLikeWiimote(data, i) {
        RequestRemoteName(scanned);
      }
    }

    method HandleInquiryResult(data: seq<u8>)
      requires Valid() && |data| >= 1 && |data| >= 1 + RESPONSE_SIZE * data[0] as int
      modifies this, scannedDevices, txBuffer
      ensures Did(DiscoverFrom(old(View()), data, 0, data[0]), old(sent))
    {
      var num: nat := data[0];
      ghost var e := DiscoverFrom(View(), data, 0, num);
      ghost var done: seq<Command> := [];
      DiscoverEncodable(View(), data, 0, num);
      for i := 0 to num
        invariant Valid() && AllEncodable(done) && sent == old(sent) + EncodeAll(done)
        invariant DiscoverFrom(View(), data, i, num).state == e.state
        invariant done + DiscoverFrom(View(), data, i, num).sent == e.sent
      {
        ghost var step := Discover(View(), data, i);
        DiscoverStep(View(), data, i, num, done, old(sent));
        HandleResponse(data, i);
        done := done + step.sent;
      }
      assert done + [] == e.sent;
    }

    method HandleRemoteNameRequestComplete(data: seq<u8>)
      requires Valid() && |data| >= 7
      modifies this, txBuffer
      ensures Did(RemoteNameComplete(old(View()), data), old(sent))
    {
      var addr := StreamToBdAddr(data, 1);
      var idx := FindScannedDevice(addr);
      if idx < 0 {
        return;
      }
      if NamesWiimote(data[7..]) {
        ghost var connect := CreateConnection(scannedDevices[idx]);
        EncodeOne(InquiryCancel);
        EncodeAllConcat([InquiryCancel], [connect]);
        var len := MakeCmdInquiryCancel(txBuffer);
        HciSend(len);
        BeginCreateConnection(scannedDevices[idx], false);
        Assoc(old(sent), EncodeAll([InquiryCancel]), EncodeAll([connect]));
      }
    }

    method HandleConnectionComplete(data: seq<u8>, nowMs: u32)
      requires Valid() && |data| >= 1
      modifies this, txBuffer
      ensures Did(ConnectionComplete(old(View()), data[0], nowMs), old(sent))
    {
      if data[0] != 0 {
        FallbackToInquiry();
        return;
      }
      if hasCurrentConnectTarget {
        if hasLastWiimote && lastWiimote.addr != currentConnectTarget.addr {
          hasLastWiimote := false;
          lastWiimoteSeenMs := 0;
        }
        lastWiimote := currentConnectTarget;
        lastWiimoteSeenMs := nowMs;
        hasLastWiimote := true;
      }
      flags := flags.(pendingFast := false);
    }

    /** The disconnection callback forgets the Wiimote and resets the controller. */
    method HandleDisconnectionComplete()
      requires Valid()
      modifies this, txBuffer
      ensures Did(ResetDevice(old(View()).(wiimoteConnected := false)), old(sent))
    {
      wiimoteConnected := false;
      ResetHciDevice();
    }

    method HandleHciEvent(code: u8, data: seq<u8>, nowMs: u32)
      requires Valid() && WellFormed(code, data)
      modifies this, scannedDevices, txBuffer
      ensures Did(HandleEvent(old(View()), code, data, nowMs), old(sent))
    {
      if code == EVT_INQUIRY_COMPLETE {
        ResetHciDevice();
      } else if code == EVT_INQUIRY_RESULT {
        HandleInquiryResult(data);
      } else if code == EVT_CONNECTION_COMPLETE {
        HandleConnectionComplete(data, nowMs);
      } else if code == EVT_DISCONNECTION_COMPLETE {
        HandleDisconnectionComplete();
      } else if code == EVT_REMOTE_NAME_COMPLETE {
        HandleRemoteNameRequestComplete(data);
      } else if code == EVT_COMMAND_COMPLETE {
        HandleCommandComplete(data, nowMs);
      } else if code == EVT_COMMAND_STATUS {
        HandleCommandStatus(data);
      }
    }

    // ----- entry points of the application -----

    method SendRaw(tx: array<u8>, len: nat)
      requires Valid() && len <= tx.Length
      modifies this`sent
      ensures Kept(old(View()), old(sent) + [tx[..len]])
    {
      sent := sent + [tx[..len]];
    }

    method TinyWiimoteResetDevice()
      requires Valid()
      modifies this, txBuffer
      ensures Did(Handle(old(View()), AppReset), old(sent))
    {
      ResetHciDevice();
      flags := flags.(inited := true);
    }

    method TinyWiimoteSetScanEnabled(enabled: bool)
      requires Valid()
      modifies this
      ensures Did(SetScan(old(View()), enabled), old(sent))
    {
      EncodeNone(sent);
      if !flags.inited {
        return;
      }
      if !wiimoteConnected {
        if enabled && flags.scanning {
          return;
        }
        if !enabled && !flags.scanning {
          return;
        }
      }
      var tx := new u8[8](_ => 0);
      var len := MakeCmdWriteScanEnable(tx, if enabled then 2 else 0);
      EncodeOne(WriteScanEnable(if enabled then 2 else 0));
      SendRaw(tx, len);
      flags := flags.(scanning := enabled);
    }

    method TinyWiimoteStartDiscovery() returns (ok: bool)
      requires Valid()
      modifies this
      ensures Did(Discovering(old(View())), old(sent))
      ensures ok <==> Discovering(old(View())).sent != []
    {
      EncodeNone(sent);
      if !flags.inited {
        return false;
      }
      if wiimoteConnected {
        return false;
      }
      if flags.scanning {
        return false;
      }
      var tx := new u8[16](_ => 0);
      var len := MakeCmdInquiry(tx, LAP, 0x08, 0xFF);
      EncodeOne(Inquiry(LAP, 0x08, 0xFF));
      SendRaw(tx, len);
      flags := flags.(scanning := true);
      return true;
    }

    method TinyWiimoteStopDiscovery() returns (ok: bool)
      requires Valid()
      modifies this
      ensures Did(NotDiscovering(old(View())), old(sent))
      ensures ok <==> NotDiscovering(old(View())).sent != []
    {
      EncodeNone(sent);
      if !flags.inited {
        return false;
      }
      if wiimoteConnected {
        return false;
      }
      if !flags.scanning {
        return false;
      }
      var tx := new u8[8](_ => 0);
      var len := MakeCmdInquiryCancel(tx);
      EncodeOne(InquiryCancel);
      SendRaw(tx, len);
      flags := flags.(scanning := false);
      return true;
    }

    method TinyWiimoteSetAutoReconnectEnabled(enabled: bool)
      requires Valid()
      modifies this
      ensures Kept(Handle(old(View()), SetAutoReconnect(enabled)).state, old(sent))
    {
      if !flags.inited {
        return;
      }
      flags := flags.(autoReconnect := enabled);
    }

    method TinyWiimoteClearReconnectCache()
      requires Valid()
      modifies this
      ensures Kept(Handle(old(View()), ClearReconnectCache).state, old(sent))
    {
      if !flags.inited {
        return;
      }
      hasLastWiimote := false;
      lastWiimote := Device([0, 0, 0, 0, 0, 0], 0, 0);
      flags := flags.(pendingFast := false);
    }

    method TinyWiimoteSetFastReconnectTtlMs(ttlMs: u32)
      requires Valid()
      modifies this
      ensures Kept(Handle(old(View()), SetTtl(ttlMs)).state, old(sent))
    {
      fastReconnectTtlMs := ttlMs;
    }

    /** The first HID input report marks the Wiimote connected and ends scanning. */
    method HandleHidInputReport()
      requires Valid()
      modifies this
      ensures Kept(Handle(old(View()), HidReport).state, old(sent))
    {
      if !wiimoteConnected {
        wiimoteConnected := true;
        flags := flags.(scanning := false);
      }
    }
  }
}
