/**
  Sequenced event streams: per channel a 16-slot ring of published frames, at most
  one connected client, and replay after a reconnect.

  The class keeps, beside the ring, the log of every frame it ever accepted; its
  methods are proved to act on that log.  Frames are opaque: whether a frame could
  be built in the caller's buffer is an input.
 */
module WebEventStream {
  import opened Common

  const CAPACITY := 16
  const MAX_FRAME_LEN := 224

  type Bytes = seq<u8>

  datatype Channel = Input | Status

  /** One ring slot. */
  datatype Slot = Slot(used: bool, seqNo: u32, frame: Bytes)

  /** A frame as a client gets it. */
  datatype Event = Event(seqNo: u32, frame: Bytes)

  datatype ReplayResult = ReplayResult(replayedCount: nat, latestSeq: u32, nextSeq: u32,
                                       requiresSnapshotRecovery: bool)

  predicate Acceptable(frame: Bytes) {
    0 < |frame| < MAX_FRAME_LEN
  }

  // ----- the log of one channel -----

  /** The 32-bit number of the i-th accepted frame, counting from 0. */
  function SeqNo(i: nat): u32 {
    (i + 1) % TWO_32
  }

  lemma NextSeqNo(i: nat)
    ensures SeqNo(i + 1) == (SeqNo(i) + 1) % TWO_32
  {
  }

  function Buffered(log: seq<Bytes>): nat {
    if |log| < CAPACITY then |log| else CAPACITY
  }

  function Evicted(log: seq<Bytes>): nat {
    |log| - Buffered(log)
  }

  /** The frames lo..hi of the log with their numbers. */
  function Numbered(log: seq<Bytes>, lo: nat, hi: nat): (r: seq<Event>)
    requires lo <= hi <= |log|
    ensures |r| == hi - lo
    ensures forall k :: 0 <= k < |r| ==> r[k] == Event(SeqNo(lo + k), log[lo + k])
  {
    seq(hi - lo, k requires 0 <= k < hi - lo => Event(SeqNo(lo + k), log[lo + k]))
  }

  function After(es: seq<Event>, cursor: u32): seq<Event> {
    if es == [] then []
    else (if es[0].seqNo > cursor then [es[0]] else []) + After(es[1..], cursor)
  }

  /** What a replay after `cursor` sends: the result and the frames. */
  function Replay(log: seq<Bytes>, cursor: u32): (ReplayResult, seq<Event>) {
    var latest := if log == [] then 0 else SeqNo(|log| - 1);
    var recover := log != [] && (cursor + 1) % TWO_32 < SeqNo(Evicted(log));
    var sent := if recover then [] else After(Numbered(log, Evicted(log), |log|), cursor);
    (ReplayResult(|sent|, latest, SeqNo(|log|), recover), sent)
  }

  lemma {:induction false} AfterLast(es: seq<Event>, e: Event, cursor: u32)
    ensures After(es + [e], cursor) == After(es, cursor) + if e.seqNo > cursor then [e] else []
  {
    if es == [] {
      assert es + [e] == [e];
    } else {
      assert (es + [e])[0] == es[0] && (es + [e])[1..] == es[1..] + [e];
      AfterLast(es[1..], e, cursor);
      Assoc(if es[0].seqNo > cursor then [es[0]] else [], After(es[1..], cursor), if e.seqNo > cursor then [e] else []);
    }
  }

  /** The ring holds the last frames of the log, oldest at `head`, with their numbers. */
  ghost predicate RingHolds(ring: seq<Slot>, head: nat, count: nat, log: seq<Bytes>) {
    && |ring| == CAPACITY && head < CAPACITY && count == Buffered(log)
    && forall k :: 0 <= k < count ==>
         SlotAt(ring, head, k) == Slot(true, SeqNo(Evicted(log) + k), log[Evicted(log) + k])
  }

  function SlotAt(ring: seq<Slot>, head: nat, offset: nat): Slot
    requires |ring| == CAPACITY
  {
    ring[(head + offset) % CAPACITY]
  }

  /** The ring after a frame: a full ring first gives up its oldest slot. */
  function Pushed(ring: seq<Slot>, head: nat, count: nat, slot: Slot): (seq<Slot>, nat, nat)
    requires |ring| == CAPACITY && head < CAPACITY && count <= CAPACITY
  {
    var head' := if count == CAPACITY then (head + 1) % CAPACITY else head;
    var count' := if count == CAPACITY then CAPACITY - 1 else count;
    (ring[(head' + count') % CAPACITY := slot], head', count' + 1)
  }

  lemma RingIndices(head: nat, k: nat, c: nat)
    requires k < c < CAPACITY && head < CAPACITY
    ensures (head + k) % CAPACITY != (head + c) % CAPACITY
    ensures ((head + 1) % CAPACITY + k) % CAPACITY == (head + (k + 1)) % CAPACITY
  {
    Wrap(head + k);
    Wrap(head + c);
    Wrap(head + 1);
    Wrap(head + (k + 1));
    Wrap((head + 1) % CAPACITY + k);
  }

  lemma Wrap(n: nat)
    requires n < 2 * CAPACITY
    ensures n % CAPACITY == if n < CAPACITY then n else n - CAPACITY
  {
  }

  /** A slot that a push keeps holds what it held, one place nearer the head if the ring was full. */
  lemma PushedKeeps(ring: seq<Slot>, head: nat, count: nat, slot: Slot, k: nat)
    requires |ring| == CAPACITY && head < CAPACITY && count <= CAPACITY
    requires k < (if count == CAPACITY then CAPACITY - 1 else count)
    ensures var p := Pushed(ring, head, count, slot);
            SlotAt(p.0, p.1, k) == SlotAt(ring, head, if count == CAPACITY then k + 1 else k)
  {
    var p := Pushed(ring, head, count, slot);
    RingIndices(p.1, k, p.2 - 1);
    if count == CAPACITY {
      RingIndices(head, k, CAPACITY - 1);
    }
  }

  lemma PushedHolds(ring: seq<Slot>, head: nat, count: nat, log: seq<Bytes>, frame: Bytes)
    requires RingHolds(ring, head, count, log)
    ensures var p := Pushed(ring, head, count, Slot(true, SeqNo(|log|), frame));
            RingHolds(p.0, p.1, p.2, log + [frame])
  {
    var slot := Slot(true, SeqNo(|log|), frame);
    var p, log' := Pushed(ring, head, count, slot), log + [frame];
    forall k | 0 <= k < p.2
      ensures SlotAt(p.0, p.1, k) == Slot(true, SeqNo(Evicted(log') + k), log'[Evicted(log') + k])
    {
      if k < p.2 - 1 {
        PushedKeeps(ring, head, count, slot, k);
      }
    }
  }

  class ChannelState {
    var connected: bool
    var nextSeq: u32
    var head: nat
    var count: nat
    const buffer: array<Slot>
    ghost var log: seq<Bytes>

    ghost predicate Valid()
      reads this, buffer
    {
      RingHolds(buffer[..], head, count, log) && nextSeq == SeqNo(|log|)
    }

    constructor ()
      ensures Valid() && log == [] && !connected && fresh(buffer)
    {
      connected, nextSeq, head, count := false, 1, 0, 0;
      buffer := new Slot[CAPACITY](_ => Slot(false, 0, []));
      log := [];
    }

    method SetConnected(value: bool)
      requires Valid()
      modifies this`connected
      ensures Valid() && connected == value
    {
      connected := value;
    }

    method ResetChannel()
      requires Valid()
      modifies this, buffer
      ensures Valid() && log == [] && !connected
    {
      connected, nextSeq, head, count := false, 1, 0, 0;
      log := [];
      for i := 0 to CAPACITY
        invariant buffer.Length == CAPACITY && head == count == 0 && nextSeq == 1 && log == [] && !connected
      {
        buffer[i] := Slot(false, 0, []);
      }
    }

    method ChannelFrameAt(offset: nat) returns (slot: Slot)
      requires Valid() && offset < count
      ensures slot == Slot(true, SeqNo(Evicted(log) + offset), log[Evicted(log) + offset])
    {
      assert SlotAt(buffer[..], head, offset).used;
      return buffer[(head + offset) % CAPACITY];
    }

    method AppendFrame(frame: Bytes) returns (accepted: bool, seqOut: u32)
      requires Valid()
      modifies this, buffer
      ensures Valid() && connected == old(connected)
      ensures accepted <==> Acceptable(frame)
      ensures log == if accepted then old(log) + [frame] else old(log)
      ensures accepted ==> seqOut == SeqNo(|old(log)|)
    {
      if |frame| == 0 || |frame| >= MAX_FRAME_LEN {
        return false, 0;
      }
      ghost var ring := buffer[..];
      ghost var pushed := Pushed(ring, head, count, Slot(true, SeqNo(|log|), frame));
      PushedHolds(ring, head, count, log, frame);
      NextSeqNo(|log|);
      seqOut := nextSeq;
      nextSeq := (nextSeq + 1) % TWO_32;
      if count == CAPACITY {
        head := (head + 1) % CAPACITY;
        count := count - 1;
      }
      var insertIdx := (head + count) % CAPACITY;
      buffer[insertIdx] := Slot(true, seqOut, frame);
      count := count + 1;
      assert buffer[..] == ring[insertIdx := Slot(true, seqOut, frame)] == pushed.0;
      log := log + [frame];
      return true, seqOut;
    }

    method LatestSeq() returns (r: u32)
      requires Valid()
      ensures r == if log == [] then 0 else SeqNo(|log| - 1)
    {
      if count == 0 {
        return 0;
      }
      var latest := ChannelFrameAt(count - 1);
      return latest.seqNo;
    }

    method OldestSeq() returns (r: u32)
      requires Valid()
      ensures r == if log == [] then 0 else SeqNo(Evicted(log))
    {
      if count == 0 {
        return 0;
      }
      var oldest := ChannelFrameAt(0);
      return oldest.seqNo;
    }

    /** publishEvent; `sent` is what went to the connected client. */
    method Publish(built: Option<Bytes>) returns (sent: seq<Event>)
      requires Valid()
      modifies this, buffer
      ensures Valid() && connected == old(connected)
      ensures log == if built.Some? && Acceptable(built.value) then old(log) + [built.value] else old(log)
      ensures sent == if connected then Numbered(log, |old(log)|, |log|) else []
    {
      var expected := nextSeq;
      sent := [];
      if built.None? {
        return;
      }
      var accepted, appendedSeq := AppendFrame(built.value);
      if !accepted {
        return;
      }
      if appendedSeq != expected {
        return;
      }
      if connected {
        sent := [Event(appendedSeq, built.value)];
      }
    }

    /** webEventStreamReplaySince; `sent` is what went to the caller's send function. */
    method ReplaySince(afterSeq: u32) returns (result: ReplayResult, sent: seq<Event>)
      requires Valid()
      ensures (result, sent) == Replay(log, afterSeq)
    {
      var latest := LatestSeq();
      result := ReplayResult(0, latest, nextSeq, false);
      sent := [];
      if count == 0 {
        return;
      }
      var oldest := OldestSeq();
      if (afterSeq + 1) % TWO_32 < oldest {
        result := result.(requiresSnapshotRecovery := true);
        return;
      }
      ghost var window := Numbered(log, Evicted(log), |log|);
      for i := 0 to count
        invariant sent == After(window[..i], afterSeq)
        invariant result == ReplayResult(|sent|, latest, nextSeq, false)
      {
        var entry := ChannelFrameAt(i);
        assert window[..i + 1] == window[..i] + [Event(entry.seqNo, entry.frame)];
        AfterLast(window[..i], Event(entry.seqNo, entry.frame), afterSeq);
        if !entry.used || entry.seqNo <= afterSeq {
          continue;
        }
        sent := sent + [Event(entry.seqNo, entry.frame)];
        result := result.(replayedCount := result.replayedCount + 1);
      }
      assert window[..count] == window;
    }
  }

  class EventStream {
    const input: ChannelState
    const status: ChannelState

    ghost predicate Valid()
      reads this, input, status, input.buffer, status.buffer
    {
      input != status && input.buffer != status.buffer && input.Valid() && status.Valid()
    }

    function On(channel: Channel): ChannelState {
      if channel == Input then input else status
    }

    function Other(channel: Channel): ChannelState {
      if channel == Input then status else input
    }

    constructor ()
      ensures Valid() && fresh(input) && fresh(status) && fresh(input.buffer) && fresh(status.buffer)
      ensures input.log == [] && status.log == [] && !input.connected && !status.connected
    {
      input := new ChannelState();
      status := new ChannelState();
    }

    method PublishEvent(channel: Channel, built: Option<Bytes>) returns (sent: seq<Event>)
      requires Valid()
      modifies On(channel), On(channel).buffer
      ensures Valid() && On(channel).connected == old(On(channel).connected)
      ensures On(channel).log ==
              old(On(channel).log) + if built.Some? && Acceptable(built.value) then [built.value] else []
      ensures sent == if On(channel).connected
                      then Numbered(On(channel).log, |old(On(channel).log)|, |On(channel).log|) else []
      ensures Other(channel).log == old(Other(channel).log) && Other(channel).connected == old(Other(channel).connected)
      ensures Other(channel).buffer[..] == old(Other(channel).buffer[..])
    {
      sent := On(channel).Publish(built);
    }

    method Connect(channel: Channel)
      requires Valid()
      modifies On(channel)`connected
      ensures Valid() && On(channel).connected
    {
      On(channel).SetConnected(true);
    }

    method Disconnect(channel: Channel)
      requires Valid()
      modifies On(channel)`connected
      ensures Valid() && !On(channel).connected
    {
      On(channel).SetConnected(false);
    }

    method ReplaySince(channel: Channel, afterSeq: u32) returns (result: ReplayResult, sent: seq<Event>)
      requires Valid()
      ensures (result, sent) == Replay(On(channel).log, afterSeq)
    {
      result, sent := On(channel).ReplaySince(afterSeq);
    }
  }
}
