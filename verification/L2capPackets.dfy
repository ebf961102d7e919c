/**
  ACL data packets that carry one L2CAP frame (Bluetooth Core Specification 5.3,
  Vol 4 Part E section 5.4.2 and Vol 3 Part A section 3.1): building them into
  the transmit buffer, and taking received H4 packets apart.
 */
module L2capPackets {
  import opened Common
  import opened HciCommands

  const H4_ACL := 2
  const H4_EVENT := 4
  const BUFFER_SIZE := 256
  const MAX_PAYLOAD := 255

  function L2capPacket(channel: u16, data: seq<u8>): seq<u8>
    requires |data| < 0x1_0000
  {
    Le16(|data|) + Le16(channel) + data
  }

  /** The packet boundary and broadcast flags share a byte with the handle's top four bits. */
  function AclPacket(handle: u16, boundary: u8, broadcast: u8, channel: u16, data: seq<u8>): seq<u8>
    requires boundary < 4 && broadcast < 4 && |data| + 4 < 0x1_0000
  {
    [H4_ACL, handle % 0x100, handle / 0x100 % 0x10 + boundary * 0x10 + broadcast * 0x40]
    + Le16(|data| + 4) + L2capPacket(channel, data)
  }

  method MakeL2capPacket(buf: array<u8>, p: nat, channel: u16, data: seq<u8>) returns (len: nat)
    requires |data| < 0x1_0000 && p + 4 + |data| <= buf.Length
    modifies buf
    ensures len == 4 + |data| && buf[..p + len] == old(buf[..p]) + L2capPacket(channel, data)
    ensures buf[p + len..] == old(buf[p + len..])
  {
    ghost var behind := buf[p + 4 + |data|..];
    assert behind == buf[p + 2..][2 + |data|..];
    var q := StreamU16(buf, p, |data|);
    assert behind == buf[q + 2..][|data|..];
    q := StreamU16(buf, q, channel);
    assert behind == buf[q + |data|..];
    q := StreamArray(buf, q, data);
    len := 4 + |data|;
    assert buf[..p + len] == old(buf[..p]) + (Le16(|data|) + Le16(channel) + data);
  }

  method MakeAclL2capPacket(buf: array<u8>, handle: u16, boundary: u8, broadcast: u8, channel: u16, data: seq<u8>)
    returns (len: nat)
    requires boundary < 4 && broadcast < 4 && |data| <= MAX_PAYLOAD && 9 + |data| <= buf.Length
    modifies buf
    ensures len == 9 + |data| && buf[..len] == AclPacket(handle, boundary, broadcast, channel, data)
  {
    var l2capLen := MakeL2capPacket(buf, 5, channel, data);
    ghost var l2cap := L2capPacket(channel, data);
    ghost var body := buf[5..];
    assert body[..l2capLen] == l2cap by {
      assert buf[..5 + l2capLen][5..] == l2cap;
    }
    assert buf[1..][4..] == body;
    var q := StreamU8(buf, 0, H4_ACL);
    assert buf[2..][3..] == buf[1..][4..];
    q := StreamU8(buf, q, handle % 0x100);
    assert buf[3..][2..] == buf[2..][3..];
    q := StreamU8(buf, q, handle / 0x100 % 0x10 + boundary * 0x10 + broadcast * 0x40);
    assert buf[5..] == buf[3..][2..];
    q := StreamU16(buf, q, l2capLen);
    assert buf[5..] == body;
    len := 5 + l2capLen;
    assert buf[..len] == buf[..5] + body[..l2capLen];
  }

  /** sendAclL2capPacket; the transmit buffer holds payloads of at most 247 bytes. */
  method SendAclL2capPacket(tmp: array<u8>, callbackSet: bool, handle: u16, channel: u16, payload: seq<u8>)
    returns (sent: Option<seq<u8>>)
    requires tmp.Length == BUFFER_SIZE && !(BUFFER_SIZE - 9 < |payload| <= MAX_PAYLOAD)
    modifies tmp
    ensures sent == if callbackSet && |payload| <= MAX_PAYLOAD then Some(AclPacket(handle, 2, 0, channel, payload))
                    else None
  {
    if !callbackSet {
      return None;
    }
    if |payload| > MAX_PAYLOAD {
      return None;
    }
    var len := MakeAclL2capPacket(tmp, handle, 2, 0, channel, payload);
    return Some(tmp[..len]);
  }

  // ----- receiving -----

  /** What a received H4 packet is passed on as. */
  datatype Received = Frame(handle: u16, channel: u16, payload: seq<u8>) | Event(code: u8, params: seq<u8>) | Ignored

  function HandleAclData(d: seq<u8>): Received {
    if |d| < 8 then Ignored
    else
      var handle: int := (d[1] % 0x10) as int * 0x100 + d[0] as int;
      if d[1] / 0x10 % 4 != 2 || d[1] / 0x40 != 0 then Ignored
      else
        var len := ReadUInt16Le(d[4..]);
        if 8 + len > |d| then Ignored else Frame(handle, ReadUInt16Le(d[6..]), d[8..8 + len])
  }

  function HandleHciData(data: seq<u8>): Received {
    if data == [] then Ignored
    else if data[0] == H4_EVENT && |data| >= 3 && 3 + data[2] as int <= |data| then Event(data[1], data[3..])
    else if data[0] == H4_ACL && |data| >= 2 then HandleAclData(data[1..])
    else Ignored
  }

  /** Both length fields of a packet say where it ends. */
  predicate LengthsAgree(b: seq<u8>)
    requires |b| >= 7
  {
    |b| == 9 + ReadUInt16Le(b[5..]) && ReadUInt16Le(b[3..]) == ReadUInt16Le(b[5..]) + 4
  }

  lemma HeaderBytes(handle: u16, channel: u16, payload: seq<u8>)
    requires handle < 0x1000 && |payload| + 4 < 0x1_0000
    ensures var d := AclPacket(handle, 2, 0, channel, payload)[1..];
            && |d| == 8 + |payload|
            && (d[1] % 0x10) as int * 0x100 + d[0] as int == handle
            && d[1] / 0x10 % 4 == 2 && d[1] / 0x40 == 0
            && d[2..4] == Le16(|payload| + 4) && d[4..] == Le16(|payload|) + (Le16(channel) + payload)
            && d[6..] == Le16(channel) + payload && d[8..] == payload
  {
    var d := AclPacket(handle, 2, 0, channel, payload)[1..];
    assert d == [handle % 0x100, handle / 0x100 % 0x10 + 0x20] + Le16(|payload| + 4)
                + (Le16(|payload|) + (Le16(channel) + payload));
  }

  lemma AclDataRead(d: seq<u8>, handle: u16, channel: u16, payload: seq<u8>)
    requires |d| == 8 + |payload| && |payload| < 0x1_0000 && d[8..] == payload
    requires (d[1] % 0x10) as int * 0x100 + d[0] as int == handle && d[1] / 0x10 % 4 == 2 && d[1] / 0x40 == 0
    requires ReadUInt16Le(d[4..]) == |payload| && ReadUInt16Le(d[6..]) == channel
    ensures HandleAclData(d) == Frame(handle, channel, payload)
  {
    assert d[8..8 + |payload|] == payload;
  }

  /** The nine bytes before the payload: H4 type, handle with its flags, and the two lengths around the channel. */
  lemma PacketLayout(handle: u16, channel: u16, payload: seq<u8>)
    requires handle < 0x1000 && |payload| + 4 < 0x1_0000
    ensures AclPacket(handle, 2, 0, channel, payload)
         == [0x02, handle % 0x100, handle / 0x100 + 0x20,
             (|payload| + 4) % 0x100, (|payload| + 4) / 0x100,
             |payload| % 0x100, |payload| / 0x100,
             channel % 0x100, channel / 0x100] + payload
  {
  }

  lemma LengthFields(handle: u16, channel: u16, payload: seq<u8>)
    requires handle < 0x1000 && |payload| + 4 < 0x1_0000
    ensures var b := AclPacket(handle, 2, 0, channel, payload);
            && |b| == 9 + |payload|
            && ReadUInt16Le(b[3..]) == |payload| + 4 && ReadUInt16Le(b[5..]) == |payload|
  {
    var b := AclPacket(handle, 2, 0, channel, payload);
    PacketLayout(handle, channel, payload);
    assert b[3..][0] == b[3] && b[3..][1] == b[4];
    assert b[5..][0] == b[5] && b[5..][1] == b[6];
  }

  /**
    For every 12-bit handle, every channel and every payload that fits the length
    fields: the two lengths of the packet agree with its size, and receiving it
    gives back the handle, the channel and the payload.
   */
  lemma FramingRoundTrip(handle: u16, channel: u16, payload: seq<u8>)
    requires handle < 0x1000 && |payload| + 4 < 0x1_0000
    ensures var b := AclPacket(handle, 2, 0, channel, payload);
            HandleHciData(b) == Frame(handle, channel, payload) && LengthsAgree(b) && |b| == 9 + |payload|
  {
    var b := AclPacket(handle, 2, 0, channel, payload);
    LengthFields(handle, channel, payload);
    HeaderBytes(handle, channel, payload);
    Le16RoundTrip(channel, payload);
    assert b[5..] == b[1..][4..];
    AclDataRead(b[1..], handle, channel, payload);
  }

  lemma Le16Injective(data: seq<u8>)
    requires |data| >= 2
    ensures Le16(ReadUInt16Le(data)) == data[..2]
  {
  }

  /** The packet is one that sending builds, for what `f` names. */
  predicate Framed(b: seq<u8>, f: Received) {
    && f.Frame? && f.handle < 0x1000 && |f.payload| + 4 < 0x1_0000
    && b == AclPacket(f.handle, 2, 0, f.channel, f.payload)
  }

  /** The fields of a received frame, in the whole packet. */
  lemma ReceivedFields(b: seq<u8>)
    requires HandleHciData(b).Frame? && LengthsAgree(b)
    ensures var f := HandleHciData(b);
            && b[..3] == [H4_ACL, f.handle % 0x100, f.handle / 0x100 % 0x10 + 0x20] && f.handle < 0x1000
            && f.channel == ReadUInt16Le(b[7..]) && f.payload == b[9..]
            && |f.payload| == ReadUInt16Le(b[5..])
  {
    var d := b[1..];
    assert d[4..] == b[5..] && d[6..] == b[7..];
    assert d[8..8 + ReadUInt16Le(d[4..])] == b[9..];
  }

  lemma ReceivedIsFramed(b: seq<u8>)
    requires HandleHciData(b).Frame? && LengthsAgree(b)
    ensures Framed(b, HandleHciData(b))
  {
    var f := HandleHciData(b);
    ReceivedFields(b);
    Le16Injective(b[3..]);
    Le16Injective(b[5..]);
    Le16Injective(b[7..]);
    assert b[3..][..2] == b[3..5] && b[5..][..2] == b[5..7] && b[7..][..2] == b[7..9];
    assert b == b[..3] + b[3..5] + (b[5..7] + b[7..9] + b[9..]);
  }

  /** What receiving looks at before the lengths: an ACL packet, the first of its frame, to one device. */
  predicate FrameHeader(b: seq<u8>) {
    |b| >= 9 && b[0] == H4_ACL && b[2] / 0x10 == 2
  }

  lemma ReceivedIff(b: seq<u8>)
    ensures HandleHciData(b).Frame? <==> FrameHeader(b) && 9 + ReadUInt16Le(b[5..]) <= |b|
  {
    if |b| >= 9 {
      assert b[1..][4..] == b[5..];
    }
  }

  /** Events are told by their type, and passed on with their code and all that follows the length they announce. */
  lemma EventReceivedIff(b: seq<u8>, code: u8, params: seq<u8>)
    ensures HandleHciData(b) == Event(code, params) <==>
            |b| >= 3 && b[0] == 0x04 && b[1] == code && b[3..] == params && |params| >= b[2] as int
  {
  }

  /**
    A packet is one that sending builds exactly when it has a frame's header, its
    length fields agree with each other, and nothing follows the payload.
   */
  lemma ReceivedIsFramedIff(b: seq<u8>)
    ensures (exists f :: Framed(b, f)) <==> FrameHeader(b) && LengthsAgree(b)
  {
    ReceivedIff(b);
    if FrameHeader(b) && LengthsAgree(b) {
      ReceivedIsFramed(b);
    }
    forall f | Framed(b, f)
      ensures HandleHciData(b) == f && LengthsAgree(b)
    {
      FramingRoundTrip(f.handle, f.channel, f.payload);
    }
  }

  /** Receiving checks neither: an ACL length of zero and a byte behind the payload are let through. */
  lemma UnframedIsReceived()
    ensures var b := [2, 0x40, 0x20, 0, 0, 1, 0, 0x41, 0, 0xA1, 7];
            HandleHciData(b) == Frame(0x40, 0x41, [0xA1]) && !exists f :: Framed(b, f)
  {
    var b: seq<u8> := [2, 0x40, 0x20, 0, 0, 1, 0, 0x41, 0, 0xA1, 7];
    var d := b[1..];
    assert d == [0x40, 0x20, 0, 0, 1, 0, 0x41, 0, 0xA1, 7];
    assert d[4..] == [1, 0, 0x41, 0, 0xA1, 7] && d[6..] == [0x41, 0, 0xA1, 7] && d[8..9] == [0xA1];
    assert ReadUInt16Le(b[5..]) == 1;
    ReceivedIsFramedIff(b);
  }
}
