/**
  HCI command packets as they go to the Bluetooth controller over H4
  (Bluetooth Core Specification 5.3, Vol 4 Part E, section 5.4.1), and the byte
  helpers that write and read them.

  Addresses are kept most significant byte first and travel the other way round.
 */
module HciCommands {
  import opened Common

  const H4_COMMAND := 1

  const OPCODE_INQUIRY := 0x0401
  const OPCODE_INQUIRY_CANCEL := 0x0402
  const OPCODE_CREATE_CONNECTION := 0x0405
  const OPCODE_REMOTE_NAME_REQUEST := 0x0419
  const OPCODE_RESET := 0x0C03
  const OPCODE_WRITE_LOCAL_NAME := 0x0C13
  const OPCODE_WRITE_SCAN_ENABLE := 0x0C1A
  const OPCODE_WRITE_CLASS_OF_DEVICE := 0x0C24
  const OPCODE_READ_BD_ADDR := 0x1009

  const LOCAL_NAME_SIZE := 248

  type Addr = s: seq<u8> | |s| == 6 witness [0, 0, 0, 0, 0, 0]

  datatype Device = Device(addr: Addr, psrm: u8, clkofs: u16)

  datatype Command =
    | Reset
    | ReadBdAddr
    | WriteLocalName(name: seq<u8>)
    | WriteClassOfDevice(classOfDevice: seq<u8>)
    | WriteScanEnable(mode: u8)
    | Inquiry(lap: u32, length: u8, maxResponses: u8)
    | InquiryCancel
    | RemoteNameRequest(device: Device)
    | CreateConnection(target: Device)

  function Le16(v: u16): seq<u8> {
    [v % 0x100, v / 0x100]
  }

  function ReadUInt16Le(data: seq<u8>): u16
    requires |data| >= 2
  {
    data[1] as int * 0x100 + data[0] as int
  }

  lemma Le16RoundTrip(v: u16, rest: seq<u8>)
    ensures ReadUInt16Le(Le16(v) + rest) == v
  {
    assert (Le16(v) + rest)[0] == v % 0x100 && (Le16(v) + rest)[1] == v / 0x100;
  }

  function Reversed(a: Addr): Addr {
    [a[5], a[4], a[3], a[2], a[1], a[0]]
  }

  lemma ReversedTwice(a: Addr)
    ensures Reversed(Reversed(a)) == a
  {
  }

  function Zeros(n: nat): seq<u8> {
    seq(n, _ => 0)
  }

  predicate Encodable(c: Command) {
    match c
    case WriteLocalName(name) => |name| <= LOCAL_NAME_SIZE
    case WriteClassOfDevice(cod) => |cod| == 3
    case _ => true
  }

  function Opcode(c: Command): u16 {
    match c
    case Reset => OPCODE_RESET
    case ReadBdAddr => OPCODE_READ_BD_ADDR
    case WriteLocalName(_) => OPCODE_WRITE_LOCAL_NAME
    case WriteClassOfDevice(_) => OPCODE_WRITE_CLASS_OF_DEVICE
    case WriteScanEnable(_) => OPCODE_WRITE_SCAN_ENABLE
    case Inquiry(_, _, _) => OPCODE_INQUIRY
    case InquiryCancel => OPCODE_INQUIRY_CANCEL
    case RemoteNameRequest(_) => OPCODE_REMOTE_NAME_REQUEST
    case CreateConnection(_) => OPCODE_CREATE_CONNECTION
  }

  /** The parameters of a command; packet type 0x0008 and no role switch for a connection. */
  function Parameters(c: Command): (r: seq<u8>)
    requires Encodable(c)
    ensures |r| < 0x100
  {
    match c
    case Reset => []
    case ReadBdAddr => []
    case WriteLocalName(name) => name + Zeros(LOCAL_NAME_SIZE - |name|)
    case WriteClassOfDevice(cod) => cod
    case WriteScanEnable(mode) => [mode]
    case Inquiry(lap, length, max) => [lap % 0x100, lap / 0x100 % 0x100, lap / 0x1_0000 % 0x100, length, max]
    case InquiryCancel => []
    case RemoteNameRequest(d) => Reversed(d.addr) + [d.psrm, 0] + Le16(d.clkofs)
    case CreateConnection(d) => Reversed(d.addr) + Le16(0x0008) + [d.psrm, 0] + Le16(d.clkofs) + [0]
  }

  function Encode(c: Command): (r: seq<u8>)
    requires Encodable(c)
  {
    [H4_COMMAND] + Le16(Opcode(c)) + [|Parameters(c)|] + Parameters(c)
  }

  /** The address field of a packet that carries one, as it travels. */
  function AddressField(packet: seq<u8>): Addr
    requires |packet| >= 10
  {
    packet[4..10]
  }

  /** Where the opcode and the parameters stand in a packet. */
  lemma PacketFields(opcode: u16, length: u8, parameters: seq<u8>)
    ensures var p := [H4_COMMAND] + Le16(opcode) + [length] + parameters;
            |p| == 4 + |parameters| && p[4..] == parameters && ReadUInt16Le(p[1..]) == opcode
  {
    var p := [H4_COMMAND] + Le16(opcode) + [length] + parameters;
    assert p[1..] == Le16(opcode) + ([length] + parameters);
    Le16RoundTrip(opcode, [length] + parameters);
  }

  /** Reading an address from the stream and writing it back gives the same bytes. */
  lemma AddressKeepsBytes(c: Command, wire: Addr)
    requires c.CreateConnection? || c.RemoteNameRequest?
    requires Reversed(wire) == if c.CreateConnection? then c.target.addr else c.device.addr
    ensures |Encode(c)| >= 10 && AddressField(Encode(c)) == wire && ReadUInt16Le(Encode(c)[1..]) == Opcode(c)
  {
    PacketFields(Opcode(c), |Parameters(c)|, Parameters(c));
    ReversedTwice(wire);
    assert Parameters(c)[..6] == wire;
    assert Encode(c)[4..10] == Encode(c)[4..][..6];
  }

  // ----- writing through a moving pointer -----

  method StreamU8(buf: array<u8>, p: nat, value: u8) returns (q: nat)
    requires p < buf.Length
    modifies buf
    ensures q == p + 1 && buf[..q] == old(buf[..p]) + [value] && buf[q..] == old(buf[q..])
  {
    buf[p] := value;
    return p + 1;
  }

  method StreamU16(buf: array<u8>, p: nat, value: u16) returns (q: nat)
    requires p + 1 < buf.Length
    modifies buf
    ensures q == p + 2 && buf[..q] == old(buf[..p]) + Le16(value) && buf[q..] == old(buf[q..])
  {
    buf[p] := value % 0x100;
    buf[p + 1] := value / 0x100;
    return p + 2;
  }

  method StreamBdAddr(buf: array<u8>, p: nat, addr: Addr) returns (q: nat)
    requires p + 6 <= buf.Length
    modifies buf
    ensures q == p + 6 && buf[..q] == old(buf[..p]) + Reversed(addr) && buf[q..] == old(buf[q..])
  {
    q := p;
    for i := 0 to 6
      invariant q == p + i
      invariant buf[..q] == old(buf[..p]) + Reversed(addr)[..i] && buf[q..] == old(buf[q..])
    {
      q := StreamU8(buf, q, addr[5 - i]);
    }
  }

  method StreamToBdAddr(data: seq<u8>, p: nat) returns (addr: Addr)
    requires p + 6 <= |data|
    ensures addr == Reversed(data[p..p + 6])
  {
    var a := new u8[6](_ => 0);
    ghost var wire := data[p..p + 6];
    for i := 0 to 6
      invariant forall k :: 6 - i <= k < 6 ==> a[k] == wire[5 - k]
    {
      assert wire[i] == data[p + i];
      a[5 - i] := data[p + i];
    }
    addr := a[..];
    assert addr == Reversed(wire);
  }

  method StreamArray(buf: array<u8>, p: nat, bytes: seq<u8>) returns (q: nat)
    requires p + |bytes| <= buf.Length
    modifies buf
    ensures q == p + |bytes| && buf[..q] == old(buf[..p]) + bytes && buf[q..] == old(buf[q..])
  {
    q := p;
    for i := 0 to |bytes|
      invariant q == p + i
      invariant buf[..q] == old(buf[..p]) + bytes[..i] && buf[q..] == old(buf[q..])
    {
      q := StreamU8(buf, q, bytes[i]);
    }
  }

  /** The four bytes every command starts with. */
  method MakePreamble(buf: array<u8>, opcode: u16, size: u8) returns (q: nat)
    requires buf.Length >= 4
    modifies buf
    ensures q == 4 && buf[..4] == [H4_COMMAND] + Le16(opcode) + [size] && buf[4..] == old(buf[4..])
  {
    ghost var behind := buf[4..];
    assert behind == buf[1..][3..];
    q := StreamU8(buf, 0, H4_COMMAND);
    assert behind == buf[3..][1..];
    q := StreamU16(buf, q, opcode);
    assert behind == buf[4..];
    q := StreamU8(buf, q, size);
  }

  method MakeCmdReset(buf: array<u8>) returns (len: nat)
    requires buf.Length >= 4
    modifies buf
    ensures len <= buf.Length && buf[..len] == Encode(Reset)
  {
    len := MakePreamble(buf, OPCODE_RESET, 0);
  }

  method MakeCmdReadBdAddr(buf: array<u8>) returns (len: nat)
    requires buf.Length >= 4
    modifies buf
    ensures len <= buf.Length && buf[..len] == Encode(ReadBdAddr)
  {
    len := MakePreamble(buf, OPCODE_READ_BD_ADDR, 0);
  }

  method MakeCmdWriteLocalName(buf: array<u8>, name: seq<u8>) returns (len: nat)
    requires buf.Length >= 4 + LOCAL_NAME_SIZE && |name| <= LOCAL_NAME_SIZE
    modifies buf
    ensures len <= buf.Length && buf[..len] == Encode(WriteLocalName(name))
  {
    len := MakePreamble(buf, OPCODE_WRITE_LOCAL_NAME, LOCAL_NAME_SIZE);
    len := StreamArray(buf, len, name);
    ghost var named := buf[..len];
    for i := |name| to LOCAL_NAME_SIZE
      invariant len == 4 + i && buf[..len] == named + Zeros(i - |name|)
    {
      len := StreamU8(buf, len, 0);
    }
  }

  method MakeCmdWriteClassOfDevice(buf: array<u8>, cod: seq<u8>) returns (len: nat)
    requires buf.Length >= 7 && |cod| == 3
    modifies buf
    ensures len <= buf.Length && buf[..len] == Encode(WriteClassOfDevice(cod))
  {
    len := MakePreamble(buf, OPCODE_WRITE_CLASS_OF_DEVICE, 3);
    len := StreamArray(buf, len, cod);
  }

  method MakeCmdWriteScanEnable(buf: array<u8>, mode: u8) returns (len: nat)
    requires buf.Length >= 5
    modifies buf
    ensures len <= buf.Length && buf[..len] == Encode(WriteScanEnable(mode))
  {
    len := MakePreamble(buf, OPCODE_WRITE_SCAN_ENABLE, 1);
    len := StreamU8(buf, len, mode);
  }

  method MakeCmdInquiry(buf: array<u8>, lap: u32, length: u8, maxResponses: u8) returns (len: nat)
    requires buf.Length >= 9
    modifies buf
    ensures len <= buf.Length && buf[..len] == Encode(Inquiry(lap, length, maxResponses))
  {
    len := MakePreamble(buf, OPCODE_INQUIRY, 5);
    len := StreamU8(buf, len, lap % 0x100);
    len := StreamU8(buf, len, lap / 0x100 % 0x100);
    len := StreamU8(buf, len, lap / 0x1_0000 % 0x100);
    len := StreamU8(buf, len, length);
    len := StreamU8(buf, len, maxResponses);
  }

  method MakeCmdInquiryCancel(buf: array<u8>) returns (len: nat)
    requires buf.Length >= 4
    modifies buf
    ensures len <= buf.Length && buf[..len] == Encode(InquiryCancel)
  {
    len := MakePreamble(buf, OPCODE_INQUIRY_CANCEL, 0);
  }

  method MakeCmdRemoteNameRequest(buf: array<u8>, d: Device) returns (len: nat)
    requires buf.Length >= 14
    modifies buf
    ensures len <= buf.Length && buf[..len] == Encode(RemoteNameRequest(d))
  {
    len := MakePreamble(buf, OPCODE_REMOTE_NAME_REQUEST, 10);
    len := StreamBdAddr(buf, len, d.addr);
    len := StreamU8(buf, len, d.psrm);
    len := StreamU8(buf, len, 0);
    len := StreamU16(buf, len, d.clkofs);
  }

  method MakeCmdCreateConnection(buf: array<u8>, d: Device) returns (len: nat)
    requires buf.Length >= 17
    modifies buf
    ensures len <= buf.Length && buf[..len] == Encode(CreateConnection(d))
  {
    len := MakePreamble(buf, OPCODE_CREATE_CONNECTION, 13);
    len := StreamBdAddr(buf, len, d.addr);
    len := StreamU16(buf, len, 0x0008);
    len := StreamU8(buf, len, d.psrm);
    len := StreamU8(buf, len, 0);
    len := StreamU16(buf, len, d.clkofs);
    len := StreamU8(buf, len, 0);
  }
}
