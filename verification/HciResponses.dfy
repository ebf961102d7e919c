/**
  What the HCI connection machine answers to what, in packet bytes: the bring-up
  dialogue with the controller, and for each event exactly when it leads to which
  packet.
 */
module HciResponses {
  import opened Common
  import opened HciCommands
  import opened HciEvents
  import opened HciEventsProperties

  // ----- packets -----

  function Ascii(s: string): seq<u8>
    requires forall i :: 0 <= i < |s| ==> s[i] < 128 as char
  {
    seq(|s|, i requires 0 <= i < |s| => s[i] as int)
  }

  lemma Names()
    ensures WIIMOTE_NAME == Ascii("Nintendo RVL-CNT-01") + [0]
    ensures LOCAL_NAME == Ascii("ESP32-BT-L2CAP") + [0]
  {
  }

  const RESET_PACKET: seq<u8> := [0x01, 0x03, 0x0C, 0x00]
  const READ_BD_ADDR_PACKET: seq<u8> := [0x01, 0x09, 0x10, 0x00]
  const CLASS_PACKET: seq<u8> := [0x01, 0x24, 0x0C, 0x03, 0x04, 0x05, 0x00]
  const CANCEL_PACKET: seq<u8> := [0x01, 0x02, 0x04, 0x00]
  const INQUIRY_PACKET: seq<u8> := [0x01, 0x01, 0x04, 0x05, 0x33, 0x8B, 0x9E, 0x05, 0x00]
  const DISCOVERY_PACKET: seq<u8> := [0x01, 0x01, 0x04, 0x05, 0x33, 0x8B, 0x9E, 0x08, 0xFF]

  /** Write Local Name: the name with its terminator in a field of 248 bytes. */
  function LocalNamePacket(): seq<u8> {
    [0x01, 0x13, 0x0C, 0xF8] + Ascii("ESP32-BT-L2CAP") + Zeros(234)
  }

  function ScanPacket(mode: u8): seq<u8> {
    [0x01, 0x1A, 0x0C, 0x01, mode]
  }

  lemma FixedPackets()
    ensures Encode(Reset) == RESET_PACKET && Encode(ReadBdAddr) == READ_BD_ADDR_PACKET
    ensures Encode(WriteClassOfDevice(CLASS_OF_DEVICE)) == CLASS_PACKET && Encode(InquiryCancel) == CANCEL_PACKET
    ensures Encode(Inquiry(LAP, 5, 0)) == INQUIRY_PACKET && Encode(Inquiry(LAP, 8, 255)) == DISCOVERY_PACKET
    ensures forall mode: u8 :: Encode(WriteScanEnable(mode)) == ScanPacket(mode)
  {
  }

  lemma LocalNameBytes()
    ensures Encode(WriteLocalName(LOCAL_NAME)) == LocalNamePacket()
  {
    Names();
    assert Parameters(WriteLocalName(LOCAL_NAME)) == Ascii("ESP32-BT-L2CAP") + ([0] + Zeros(233));
    assert [0] + Zeros(233) == Zeros(234);
  }

  /** Name requests and connections carry the address as it travels, the page scan mode and the clock offset. */
  lemma DevicePackets(d: Device)
    ensures Encode(RemoteNameRequest(d))
         == [0x01, 0x19, 0x04, 0x0A] + Reversed(d.addr) + [d.psrm, 0x00, d.clkofs % 0x100, d.clkofs / 0x100]
    ensures Encode(CreateConnection(d))
         == [0x01, 0x05, 0x04, 0x0D] + Reversed(d.addr)
            + [0x08, 0x00, d.psrm, 0x00, d.clkofs % 0x100, d.clkofs / 0x100, 0x00]
  {
  }

  function Packets(e: Effect): seq<seq<u8>> {
    if AllEncodable(e.sent) then EncodeAll(e.sent) else []
  }

  // ----- bring-up -----

  /** A successful Command Complete with the opcode field of a packet. */
  function Completed(packet: seq<u8>, nowMs: u32): Input
    requires |packet| >= 3
  {
    Event(0x0E, [0x01, packet[1], packet[2], 0x00], nowMs)
  }

  /** What the machine does when its one packet is answered that way. */
  function Answered(e: Effect, nowMs: u32): Effect {
    if |Packets(e)| == 1 && |Packets(e)[0]| >= 3 then Handle(e.state, Completed(Packets(e)[0], nowMs))
    else Effect(e.state, [])
  }

  /** One exchange: with exactly one packet sent, the answer is handled as the completion of its opcode. */
  lemma Exchange(e: Effect, c: Command, nowMs: u32)
    requires e.sent == [c] && Encodable(c)
    ensures Packets(e) == [Encode(c)]
    ensures Answered(e, nowMs) == CommandComplete(e.state, Opcode(c), 0, nowMs)
  {
    EncodeOne(c);
    OpcodeField(c);
    var data: seq<u8> := [0x01, Encode(c)[1], Encode(c)[2], 0x00];
    assert data[1..] == [Encode(c)[1], Encode(c)[2], 0x00];
    assert ReadUInt16Le(data[1..]) == ReadUInt16Le(Encode(c)[1..]);
  }

  /** The cached device may be tried: reconnecting is on, and it was seen within its lifetime on a wrapping clock. */
  predicate MayReconnect(s: State, nowMs: u32) {
    s.flags.autoReconnect && s.cache.Some? && s.ttlMs != 0 && (nowMs - s.seenMs) % 0x1_0000_0000 <= s.ttlMs
  }

  /** The only packet that reads as Reset is Reset. */
  lemma OneReset(s: State, i: Input)
    requires InputOk(i) && Packets(Handle(s, i)) == [RESET_PACKET]
    ensures Handle(s, i).sent == [Reset]
  {
    var e := Handle(s, i);
    HandleEncodable(s, i);
    assert |e.sent| == 1 && Encode(e.sent[0]) == RESET_PACKET;
    OpcodeField(e.sent[0]);
    assert Opcode(e.sent[0]) == 0x0C03;
    assert e.sent == [e.sent[0]];
  }

  /** Scanning acknowledged: the cached device is tried if it may be, else an inquiry starts. */
  lemma Started(s: State, nowMs: u32)
    requires s.flags.scanning
    ensures var e := CommandComplete(s, 0x0C1A, 0, nowMs);
            && e.state.flags == s.flags.(inited := true, pendingFast := MayReconnect(s, nowMs) || s.flags.pendingFast)
            && Packets(e) == [if MayReconnect(s, nowMs) then Encode(CreateConnection(s.cache.value))
                              else INQUIRY_PACKET]
  {
    FixedPackets();
    EncodeOne(Inquiry(LAP, 5, 0));
    if MayReconnect(s, nowMs) {
      EncodeOne(CreateConnection(s.cache.value));
    }
  }

  lemma ResetAnswered(e: Effect, nowMs: u32)
    requires e.sent == [Reset]
    ensures Answered(e, nowMs) == Effect(e.state, [ReadBdAddr])
  {
    Exchange(e, Reset, nowMs);
  }

  lemma AddressAnswered(e: Effect, nowMs: u32)
    requires e.sent == [ReadBdAddr]
    ensures Packets(e) == [READ_BD_ADDR_PACKET]
    ensures Answered(e, nowMs) == Effect(e.state, [WriteLocalName(LOCAL_NAME)])
  {
    FixedPackets();
    Exchange(e, ReadBdAddr, nowMs);
  }

  lemma NameAnswered(e: Effect, nowMs: u32)
    requires e.sent == [WriteLocalName(LOCAL_NAME)]
    ensures Packets(e) == [LocalNamePacket()]
    ensures Answered(e, nowMs) == Effect(e.state, [WriteClassOfDevice(CLASS_OF_DEVICE)])
  {
    LocalNameBytes();
    Exchange(e, WriteLocalName(LOCAL_NAME), nowMs);
  }

  lemma ClassAnswered(e: Effect, nowMs: u32)
    requires e.sent == [WriteClassOfDevice(CLASS_OF_DEVICE)]
    ensures Packets(e) == [CLASS_PACKET]
    ensures Answered(e, nowMs)
         == Effect(e.state.(flags := e.state.flags.(scanning := true)), [WriteScanEnable(3)])
  {
    FixedPackets();
    Exchange(e, WriteClassOfDevice(CLASS_OF_DEVICE), nowMs);
  }

  lemma ScanAnswered(e: Effect, nowMs: u32)
    requires e.sent == [WriteScanEnable(3)] && e.state.flags.scanning
    ensures Packets(e) == [ScanPacket(3)]
    ensures Answered(e, nowMs).state.flags
         == e.state.flags.(inited := true, pendingFast := MayReconnect(e.state, nowMs) || e.state.flags.pendingFast)
    ensures Packets(Answered(e, nowMs))
         == [if MayReconnect(e.state, nowMs) then Encode(CreateConnection(e.state.cache.value)) else INQUIRY_PACKET]
  {
    FixedPackets();
    Exchange(e, WriteScanEnable(3), nowMs);
    Started(e.state, nowMs);
  }

  lemma Identified(e: Effect, t0: u32, t1: u32, t2: u32)
    requires e.sent == [Reset]
    ensures var e1 := Answered(e, t0);
            var e2 := Answered(e1, t1);
            && Packets(e1) == [READ_BD_ADDR_PACKET] && Packets(e2) == [LocalNamePacket()]
            && Answered(e2, t2) == Effect(e.state, [WriteClassOfDevice(CLASS_OF_DEVICE)])
  {
    ResetAnswered(e, t0);
    AddressAnswered(Answered(e, t0), t1);
    NameAnswered(Answered(Answered(e, t0), t1), t2);
  }

  lemma MadeScannable(e: Effect, t3: u32, t4: u32)
    requires e.sent == [WriteClassOfDevice(CLASS_OF_DEVICE)]
    ensures var e4 := Answered(e, t3);
            var e5 := Answered(e4, t4);
            && Packets(e) == [CLASS_PACKET] && Packets(e4) == [ScanPacket(3)]
            && e5.state.flags.inited && e5.state.flags.scanning
            && Packets(e5) == [if MayReconnect(e.state, t4) then Encode(CreateConnection(e.state.cache.value))
                               else INQUIRY_PACKET]
            && (e5.state.flags.pendingFast <==> MayReconnect(e.state, t4) || e.state.flags.pendingFast)
  {
    ClassAnswered(e, t3);
    var e4 := Answered(e, t3);
    assert e4.state.cache == e.state.cache && MayReconnect(e4.state, t4) == MayReconnect(e.state, t4);
    ScanAnswered(e4, t4);
  }

  /**
    From any state and whatever sent the Reset: if each packet is answered by the
    success of its own opcode, the controller is read, named, classed and made
    scannable in that order, and then an inquiry or the cached connection follows.
   */
  lemma BringUp(s: State, i: Input, t0: u32, t1: u32, t2: u32, t3: u32, t4: u32)
    requires InputOk(i) && Packets(Handle(s, i)) == [RESET_PACKET]
    ensures var e0 := Handle(s, i);
            var e1 := Answered(e0, t0);
            var e2 := Answered(e1, t1);
            var e3 := Answered(e2, t2);
            var e4 := Answered(e3, t3);
            var e5 := Answered(e4, t4);
            && Packets(e1) == [READ_BD_ADDR_PACKET] && Packets(e2) == [LocalNamePacket()]
            && Packets(e3) == [CLASS_PACKET] && Packets(e4) == [ScanPacket(3)]
            && e5.state.flags.inited && e5.state.flags.scanning
            && Packets(e5) == [if MayReconnect(e0.state, t4) then Encode(CreateConnection(e0.state.cache.value))
                               else INQUIRY_PACKET]
            && (e5.state.flags.pendingFast <==> MayReconnect(e0.state, t4) || e0.state.flags.pendingFast)
  {
    var e0 := Handle(s, i);
    OneReset(s, i);
    Identified(e0, t0, t1, t2);
    MadeScannable(Answered(Answered(Answered(e0, t0), t1), t2), t3, t4);
  }

  /** A command that fails, or that is none of the five, is followed by nothing. */
  lemma OthersAreSilent(s: State, data: seq<u8>, nowMs: u32)
    requires |data| >= 4
    requires data[3] != 0 || data[1..3] !in {[0x03, 0x0C], [0x09, 0x10], [0x13, 0x0C], [0x24, 0x0C], [0x1A, 0x0C]}
    ensures Handle(s, Event(0x0E, data, nowMs)) == Effect(s, [])
  {
    assert data[1..][0] == data[1..3][0] && data[1..][1] == data[1..3][1];
    if data[3] == 0 {
      var low, high := data[1], data[2];
      assert data[1..3] == [low, high];
    }
  }

  // ----- connecting -----

  /** A Create Connection was refused, or a connection failed. */
  predicate ConnectionRefused(i: Input) {
    && InputOk(i) && i.Event?
    && ((i.code == 0x0F && i.data[0] != 0 && i.data[2] == 0x05 && i.data[3] == 0x04)
        || (i.code == 0x03 && i.data[0] != 0))
  }

  /** Only a pending fast reconnect is given up for an inquiry, and it always is. */
  lemma RefusalFallsBack(s: State, i: Input)
    requires ConnectionRefused(i)
    ensures var e := Handle(s, i);
            if s.flags.pendingFast
            then Packets(e) == [INQUIRY_PACKET]
                 && e.state == s.(scanned := [], flags := s.flags.(pendingFast := false))
            else e == Effect(s, [])
  {
    if i.code == 0x0F {
      assert i.data[2..][0] == 0x05 && i.data[2..][1] == 0x04;
    }
    FixedPackets();
    EncodeOne(Inquiry(LAP, 5, 0));
  }

  lemma OtherStatusIsSilent(s: State, i: Input)
    requires InputOk(i) && IsEvent(i, 0x0F) && !ConnectionRefused(i)
    ensures Handle(s, i) == Effect(s, [])
  {
    assert i.data[2..][0] == i.data[2] && i.data[2..][1] == i.data[3];
  }

  /** A connection made puts its target in the cache with the time, and settles a pending fast reconnect. */
  lemma ConnectionCached(s: State, i: Input)
    requires InputOk(i) && IsEvent(i, 0x03) && i.data[0] == 0
    ensures var e := Handle(s, i);
            && e.sent == []
            && e.state == s.(flags := s.flags.(pendingFast := false),
                             cache := if s.target.Some? then s.target else s.cache,
                             seenMs := if s.target.Some? then i.nowMs else s.seenMs)
  {
  }

  predicate NamedWiimote(data: seq<u8>) {
    |data| >= 27 && data[7..27] == Ascii("Nintendo RVL-CNT-01") + [0]
  }

  predicate Listed(s: State, wire: Addr) {
    exists k :: 0 <= k < |s.scanned| && s.scanned[k].addr == Reversed(wire)
  }

  /** A listed device with the Wiimote's name is connected to after the inquiry is cancelled; any other is ignored. */
  lemma NameDecides(s: State, i: Input)
    requires InputOk(i) && IsEvent(i, 0x07)
    ensures var e := Handle(s, i);
            var wire := AddressAt(i.data, 1);
            if Listed(s, wire) && NamedWiimote(i.data)
            then exists d :: d in s.scanned && d.addr == Reversed(wire)
                   && Packets(e) == [CANCEL_PACKET, Encode(CreateConnection(d))]
                   && e.state == s.(target := Some(d), flags := s.flags.(pendingFast := false))
            else e == Effect(s, [])
  {
    Names();
    NameCompared(i.data);
    var e := Handle(s, i);
    var k := Index(s.scanned, Reversed(AddressAt(i.data, 1)));
    if k >= 0 && NamedWiimote(i.data) {
      var d := s.scanned[k];
      FixedPackets();
      EncodeOne(InquiryCancel);
      EncodeOne(CreateConnection(d));
      EncodeAllConcat([InquiryCancel], [CreateConnection(d)]);
      assert d in s.scanned && Packets(e) == [CANCEL_PACKET, Encode(CreateConnection(d))];
    }
  }

  /** Comparing up to the terminator is comparing the first twenty bytes of the name. */
  lemma NameCompared(data: seq<u8>)
    requires |data| >= 7
    ensures NamesWiimote(data[7..]) <==> NamedWiimote(data)
  {
    Names();
    if |data| >= 27 {
      assert data[7..][..20] == data[7..27];
    }
  }

  // ----- discovering -----

  /** The device that the response at `pos` describes. */
  predicate Describes(data: seq<u8>, pos: nat, d: Device)
    requires pos + 14 <= |data|
  {
    && Reversed(d.addr) == AddressAt(data, pos) && d.psrm == data[pos + 6]
    && d.clkofs % 0x100 == data[pos + 13] && d.clkofs / 0x100 >= 0x80
    && d.clkofs / 0x100 % 0x80 == data[pos + 12] % 0x80
  }

  /** A response is listed if it is new and there is room, and then asked for its name if its class is a Wiimote's. */
  lemma ResponseTaken(s: State, data: seq<u8>, k: nat)
    requires |data| >= 1 + 14 * (k + 1)
    ensures var e, pos := Discover(s, data, k), 1 + 14 * k;
            if Listed(s, AddressAt(data, pos)) || |s.scanned| >= 16 then e == Effect(s, [])
            else exists d :: Describes(data, pos, d) && e.state == s.(scanned := s.scanned + [d])
                   && Packets(e) == if data[pos + 9..pos + 12] == [0x04, 0x25, 0x00]
                                    then [Encode(RemoteNameRequest(d))] else []
  {
    var pos := 1 + 14 * k;
    var d := ReportedDevice(data, k);
    ReportedDescribed(data, k);
    assert data[pos + 9..pos + 12] == [data[pos + 9], data[pos + 10], data[pos + 11]];
    EncodeOne(RemoteNameRequest(d));
  }

  lemma ReportedDescribed(data: seq<u8>, k: nat)
    requires |data| >= 1 + 14 * (k + 1)
    ensures Describes(data, 1 + 14 * k, ReportedDevice(data, k))
    ensures ReportedDevice(data, k).addr == Reversed(AddressAt(data, 1 + 14 * k))
  {
    ReversedTwice(AddressAt(data, 1 + 14 * k));
  }

  lemma ResponseListed(s: State, data: seq<u8>, k: nat)
    requires |data| >= 1 + 14 * (k + 1)
    ensures var t := Discover(s, data, k).state; Listed(t, ReportedAddress(data, k)) || |t.scanned| >= 16
  {
    var t, d := Discover(s, data, k).state, ReportedDevice(data, k);
    ReportedDescribed(data, k);
    assert |t.scanned| > |s.scanned| ==> t.scanned[|s.scanned|] == d;
  }

  /** Once listed, a device stays listed while further responses are taken; `t` is the state after them. */
  lemma {:induction false} ListedStays(s: State, data: seq<u8>, i: nat, num: nat, wire: Addr, t: State)
    requires |data| >= 1 + RESPONSE_SIZE * num && (Listed(s, wire) || |s.scanned| >= 16)
    requires t == DiscoverFrom(s, data, i, num).state
    ensures Listed(t, wire) || |t.scanned| >= 16
    decreases num - i
  {
    if i < num {
      var next := Discover(s, data, i).state;
      assert forall k :: 0 <= k < |s.scanned| ==> next.scanned[k] == s.scanned[k];
      ListedStays(next, data, i + 1, num, wire, t);
    }
  }

  lemma {:induction false} ResponsesListed(s: State, data: seq<u8>, i: nat, num: nat, k: nat, t: State)
    requires |data| >= 1 + RESPONSE_SIZE * num && i <= k < num
    requires t == DiscoverFrom(s, data, i, num).state
    ensures Listed(t, ReportedAddress(data, k)) || |t.scanned| >= 16
    decreases num - i
  {
    var next := Discover(s, data, i).state;
    if i == k {
      ResponseListed(s, data, k);
      ListedStays(next, data, i + 1, num, ReportedAddress(data, k), t);
    } else {
      ResponsesListed(next, data, i + 1, num, k, t);
    }
  }

  /** After an inquiry result every address in it is listed, unless the table is full. */
  lemma EveryResponseListed(s: State, i: Input, k: nat)
    requires InputOk(i) && IsEvent(i, 0x02) && k < i.data[0]
    ensures var t := Handle(s, i).state;
            Listed(t, AddressAt(i.data, 1 + 14 * k)) || |t.scanned| >= 16
  {
    ResponsesListed(s, i.data, 0, i.data[0], k, Handle(s, i).state);
  }

  // ----- resets and the application -----

  /** The end of an inquiry, a disconnection and the application each reset the controller and empty the table. */
  lemma ResetCauses(s: State, i: Input)
    requires InputOk(i) && (i.AppReset? || IsEvent(i, 0x01) || IsEvent(i, 0x05))
    ensures var e := Handle(s, i);
            && Packets(e) == [RESET_PACKET]
            && e.state == s.(scanned := [],
                             flags := s.flags.(scanning := false, inited := s.flags.inited || i.AppReset?),
                             wiimoteConnected := s.wiimoteConnected && !IsEvent(i, 0x05))
  {
    FixedPackets();
    EncodeOne(Reset);
  }

  /** What the application's switches send once the controller has started, and that they change scanning alone. */
  lemma SwitchesSend(s: State, on: bool)
    ensures var may := s.flags.inited && (s.wiimoteConnected || s.flags.scanning != on);
            var e := Handle(s, SetScanEnabled(on));
            Packets(e) == (if may then [ScanPacket(if on then 2 else 0)] else [])
            && e.state == if may then s.(flags := s.flags.(scanning := on)) else s
    ensures var e, may := Handle(s, StartDiscovery), s.flags.inited && !s.wiimoteConnected && !s.flags.scanning;
            Packets(e) == (if may then [DISCOVERY_PACKET] else [])
            && e.state == if may then s.(flags := s.flags.(scanning := true)) else s
    ensures var e, may := Handle(s, StopDiscovery), s.flags.inited && !s.wiimoteConnected && s.flags.scanning;
            Packets(e) == (if may then [CANCEL_PACKET] else [])
            && e.state == if may then s.(flags := s.flags.(scanning := false)) else s
  {
    FixedPackets();
    EncodeOne(WriteScanEnable(if on then 2 else 0));
    EncodeOne(Inquiry(LAP, 8, 255));
    EncodeOne(InquiryCancel);
  }

  /** Reconnecting is switched and the cache dropped only once the controller has started; the lifetime at any time. */
  lemma SettingsKept(s: State, on: bool, ms: u32)
    ensures Handle(s, SetAutoReconnect(on))
         == Effect(s.(flags := s.flags.(autoReconnect := if s.flags.inited then on else s.flags.autoReconnect)), [])
    ensures var t := Handle(s, ClearReconnectCache).state;
            if s.flags.inited then t == s.(cache := None, flags := s.flags.(pendingFast := false)) else t == s
    ensures Handle(s, SetTtl(ms)) == Effect(s.(ttlMs := ms), [])
    ensures Handle(s, HidReport)
         == Effect(s.(wiimoteConnected := true,
                      flags := s.flags.(scanning := s.wiimoteConnected && s.flags.scanning)), [])
  {
  }

  /** Any other event changes nothing and sends nothing. */
  lemma UnknownEvents(s: State, i: Input)
    requires InputOk(i) && i.Event? && i.code !in {0x01, 0x02, 0x03, 0x05, 0x07, 0x0E, 0x0F}
    ensures Handle(s, i) == Effect(s, [])
  {
  }
}
