/**
  Output reports that read and write Wiimote memory, built with a bounded append
  buffer and sent as L2CAP payloads.
 */
module WiimoteProtocol {
  import opened Common
  import opened HciCommands
  import opened L2capPackets

  const PAYLOAD_CAPACITY := 64
  const DATA_SIZE := 16
  const OUTPUT_REPORT := 0xA2
  const RPT_WRITE_MEMORY := 0x16
  const RPT_READ_MEMORY := 0x17

  type u24 = x: int | 0 <= x < 0x100_0000

  function U24Be(v: u32): seq<u8> {
    [v / 0x1_0000 % 0x100, v / 0x100 % 0x100, v % 0x100]
  }

  function U16Be(v: u16): seq<u8> {
    [v / 0x100, v % 0x100]
  }

  function WriteReport(space: u8, offset: u32, data: seq<u8>): seq<u8>
    requires |data| <= DATA_SIZE
  {
    [OUTPUT_REPORT, RPT_WRITE_MEMORY, space] + U24Be(offset) + [|data|] + data + Zeros(DATA_SIZE - |data|)
  }

  function ReadReport(space: u8, offset: u32, size: u16): seq<u8> {
    [OUTPUT_REPORT, RPT_READ_MEMORY, space] + U24Be(offset) + U16Be(size)
  }

  /** What fits of `more` behind `done` in a buffer of `capacity` bytes. */
  function Clipped(done: seq<u8>, more: seq<u8>, capacity: nat): seq<u8>
    requires |done| <= capacity
  {
    if |done| + |more| <= capacity then done + more else done + more[..capacity - |done|]
  }

  class PayloadBuilder {
    const buffer: array<u8>
    const capacity: nat
    var position: nat

    ghost predicate Valid()
      reads this
    {
      position <= capacity <= buffer.Length
    }

    ghost function Contents(): seq<u8>
      requires Valid()
      reads this, buffer
    {
      buffer[..position]
    }

    constructor (buffer: array<u8>, capacity: nat)
      requires capacity <= buffer.Length
      ensures Valid() && this.buffer == buffer && this.capacity == capacity && Contents() == []
    {
      this.buffer, this.capacity, position := buffer, capacity, 0;
    }

    method Append(val: u8)
      requires Valid()
      modifies this, buffer
      ensures Valid() && Contents() == Clipped(old(Contents()), [val], capacity)
    {
      if position < capacity {
        buffer[position] := val;
        position := position + 1;
      }
    }

    method AppendU16Be(val: u16)
      requires Valid()
      modifies this, buffer
      ensures Valid() && Contents() == Clipped(old(Contents()), U16Be(val), capacity)
    {
      Append(val / 0x100);
      Append(val % 0x100);
    }

    method AppendU24Be(val: u32)
      requires Valid()
      modifies this, buffer
      ensures Valid() && Contents() == Clipped(old(Contents()), U24Be(val), capacity)
    {
      Append(val / 0x1_0000 % 0x100);
      Append(val / 0x100 % 0x100);
      Append(val % 0x100);
    }

    method AppendBytes(data: seq<u8>)
      requires Valid()
      modifies this, buffer
      ensures Valid() && Contents() == Clipped(old(Contents()), data, capacity)
    {
      var i := 0;
      while i < |data| && position < capacity
        invariant i <= |data| && Valid()
        invariant Contents() == old(Contents()) + data[..i]
      {
        ghost var before := Contents();
        buffer[position] := data[i];
        position := position + 1;
        assert Contents() == before + [data[i]];
        i := i + 1;
      }
      assert i < |data| ==> i == capacity - old(position);
    }

    /** Unlike the appends, this reserves everything or nothing. */
    method ReserveZeroed(count: nat)
      requires Valid()
      modifies this, buffer
      ensures Valid()
      ensures Contents() == old(Contents()) + Zeros(if old(position) + count <= capacity then count else 0)
    {
      if position + count <= capacity {
        for i := 0 to count
          invariant Valid() && position + count <= capacity && position == old(position)
          invariant buffer[..position + i] == old(Contents()) + Zeros(i)
        {
          buffer[position + i] := 0;
          assert buffer[..position + i + 1] == buffer[..position + i] + [0];
        }
        position := position + count;
      }
    }
  }

  /** Copying the data over the first of the zeros leaves the others behind it. */
  lemma DataFilledIn(before: seq<u8>, after: seq<u8>, header: seq<u8>, data: seq<u8>)
    requires |data| <= DATA_SIZE && |header| == 7 && 23 <= |before| && before[..23] == header + Zeros(DATA_SIZE)
    requires |after| == |before| && after[..7 + |data|] == before[..7] + data
    requires after[7 + |data|..] == before[7 + |data|..]
    ensures after[..23] == header + data + Zeros(DATA_SIZE - |data|)
  {
    assert before[..7] == before[..23][..7];
    assert after[7 + |data|..][..DATA_SIZE - |data|] == before[..23][7 + |data|..];
    assert after[..23] == after[..7 + |data|] + after[7 + |data|..][..DATA_SIZE - |data|];
  }

  class Protocol {
    const payload: array<u8>

    ghost predicate Valid() {
      payload.Length == PAYLOAD_CAPACITY
    }

    constructor ()
      ensures Valid() && fresh(payload)
    {
      payload := new u8[PAYLOAD_CAPACITY](_ => 0);
    }

    /** The bytes both memory reports start with. */
    method BeginReport(code: u8, space: u8, offset: u32) returns (pb: PayloadBuilder)
      requires Valid()
      modifies payload
      ensures fresh(pb) && pb.Valid() && pb.buffer == payload && pb.capacity == PAYLOAD_CAPACITY
      ensures pb.Contents() == [OUTPUT_REPORT, code, space] + U24Be(offset)
    {
      pb := new PayloadBuilder(payload, PAYLOAD_CAPACITY);
      pb.Append(OUTPUT_REPORT);
      pb.Append(code);
      pb.Append(space);
      assert pb.Contents() == [OUTPUT_REPORT, code, space];
      pb.AppendU24Be(offset);
    }

    /** `remoteCid` is the channel of the connection, if there is one. */
    method WriteMemory(remoteCid: Option<u16>, space: u8, offset: u32, data: seq<u8>) returns (report: Option<seq<u8>>)
      requires Valid()
      modifies payload
      ensures report == if |data| <= DATA_SIZE && remoteCid.Some? then Some(WriteReport(space, offset, data)) else None
    {
      if |data| > DATA_SIZE {
        return None;
      }
      if remoteCid.None? {
        return None;
      }
      var pb := BeginReport(RPT_WRITE_MEMORY, space, offset);
      pb.Append(|data|);
      ghost var header := [OUTPUT_REPORT, RPT_WRITE_MEMORY, space] + U24Be(offset) + [|data|];
      assert pb.Contents() == header;
      pb.ReserveZeroed(DATA_SIZE);
      assert payload[..23] == header + Zeros(DATA_SIZE);
      ghost var filled := payload[..];
      assert payload[..7] == filled[..7] && payload[7 + |data|..] == filled[7 + |data|..];
      var end := StreamArray(payload, pb.position - DATA_SIZE, data);
      DataFilledIn(filled, payload[..], header, data);
      return Some(payload[..pb.position]);
    }

    method ReadMemory(remoteCid: Option<u16>, space: u8, offset: u32, size: u16) returns (report: Option<seq<u8>>)
      requires Valid()
      modifies payload
      ensures report == if size <= DATA_SIZE && remoteCid.Some? then Some(ReadReport(space, offset, size)) else None
    {
      if size > DATA_SIZE {
        return None;
      }
      if remoteCid.None? {
        return None;
      }
      var pb := BeginReport(RPT_READ_MEMORY, space, offset);
      pb.AppendU16Be(size);
      assert pb.Contents() == ReadReport(space, offset, size);
      return Some(payload[..pb.position]);
    }
  }

  // ----- reading the reports back -----

  datatype Report =
    | MemoryWrite(space: u8, offset: u24, data: seq<u8>)
    | MemoryRead(space: u8, offset: u24, size: u16)

  function ReadU24Be(b: seq<u8>): u24
    requires |b| >= 3
  {
    b[0] as int * 0x1_0000 + b[1] as int * 0x100 + b[2] as int
  }

  /** A reader of memory reports, as the Wiimote takes them: the data area is fixed and zero behind the data. */
  function DecodeReport(p: seq<u8>): Option<Report> {
    if |p| < 8 || p[0] != 0xA2 then None
    else if p[1] == 0x16 then
      if |p| == 23 && p[6] <= 16 && p[7 + p[6]..] == Zeros(16 - p[6])
      then Some(MemoryWrite(p[2], ReadU24Be(p[3..]), p[7..7 + p[6]])) else None
    else if p[1] == 0x17 && |p| == 8
    then Some(MemoryRead(p[2], ReadU24Be(p[3..]), p[6] as int * 0x100 + p[7] as int))
    else None
  }

  lemma U24Digits(v: int)
    requires 0 <= v
    ensures v / 0x1_0000 % 0x100 * 0x1_0000 + v / 0x100 % 0x100 * 0x100 + v % 0x100 == v % 0x100_0000
  {
    var low, rest := v % 0x100, v / 0x100;
    var mid, high := rest % 0x100, rest / 0x100;
    assert v == high * 0x1_0000 + mid * 0x100 + low;
    assert v / 0x1_0000 == high;
    var top := high / 0x100;
    assert v == top * 0x100_0000 + (high % 0x100 * 0x1_0000 + mid * 0x100 + low);
  }

  lemma U24RoundTrip(v: u32, rest: seq<u8>)
    ensures ReadU24Be(U24Be(v) + rest) == v % 0x100_0000
  {
    var b := U24Be(v) + rest;
    assert b[0] == v / 0x1_0000 % 0x100 && b[1] == v / 0x100 % 0x100 && b[2] == v % 0x100;
    U24Digits(v);
  }

  /** Every memory write of at most 16 bytes fits the buffer and decodes to its space, 24-bit offset and data. */
  lemma WriteReportRoundTrip(space: u8, offset: u32, data: seq<u8>)
    requires |data| <= 16
    ensures var p := WriteReport(space, offset, data);
            && |p| == 23 <= PAYLOAD_CAPACITY && p[..2] == [0xA2, 0x16]
            && DecodeReport(p) == Some(MemoryWrite(space, offset % 0x100_0000, data))
  {
    var p := WriteReport(space, offset, data);
    var tail := [|data|] + data + Zeros(DATA_SIZE - |data|);
    U24RoundTrip(offset, tail);
    assert p[3..] == U24Be(offset) + tail;
    assert p[7..7 + |data|] == data;
    assert p[7 + |data|..] == Zeros(DATA_SIZE - |data|);
  }

  lemma ReadReportRoundTrip(space: u8, offset: u32, size: u16)
    ensures var p := ReadReport(space, offset, size);
            && |p| == 8 <= PAYLOAD_CAPACITY && p[..2] == [0xA2, 0x17]
            && DecodeReport(p) == Some(MemoryRead(space, offset % 0x100_0000, size))
  {
    var p := ReadReport(space, offset, size);
    U24RoundTrip(offset, U16Be(size));
    assert p[3..] == U24Be(offset) + U16Be(size);
  }

  /** A memory write survives the whole way: report, L2CAP frame, ACL packet, and back. */
  lemma WriteSurvivesFraming(handle: u16, channel: u16, space: u8, offset: u32, data: seq<u8>)
    requires handle < 0x1000 && |data| <= DATA_SIZE
    ensures var r := HandleHciData(AclPacket(handle, 2, 0, channel, WriteReport(space, offset, data)));
            && r.Frame? && r.handle == handle && r.channel == channel
            && DecodeReport(r.payload) == Some(MemoryWrite(space, offset % 0x100_0000, data))
  {
    WriteReportRoundTrip(space, offset, data);
    FramingRoundTrip(handle, channel, WriteReport(space, offset, data));
  }
}
