/**
  What the event streams promise their clients: replay sends exactly what was
  missed, and a client that reconnects from its last number sees no gap.
 */
module WebEventStreamProperties {
  import opened Common
  import opened WebEventStream

  lemma NumberedFirst(log: seq<Bytes>, lo: nat, hi: nat)
    requires lo < hi <= |log|
    ensures Numbered(log, lo, hi) == [Event(SeqNo(lo), log[lo])] + Numbered(log, lo + 1, hi)
  {
  }

  lemma {:induction false} AfterSendsAll(log: seq<Bytes>, lo: nat, hi: nat, cursor: u32)
    requires cursor <= lo <= hi <= |log| && hi < TWO_32
    ensures After(Numbered(log, lo, hi), cursor) == Numbered(log, lo, hi)
    decreases hi - lo
  {
    if lo < hi {
      NumberedFirst(log, lo, hi);
      AfterSendsAll(log, lo + 1, hi, cursor);
    }
  }

  lemma {:induction false} AfterIsSuffix(log: seq<Bytes>, lo: nat, hi: nat, cursor: u32)
    requires lo <= cursor && lo <= hi <= |log| && hi < TWO_32
    ensures After(Numbered(log, lo, hi), cursor) == Numbered(log, Min(cursor, hi), hi)
    decreases hi - lo
  {
    if lo == hi {
    } else if lo == cursor {
      AfterSendsAll(log, lo, hi, cursor);
    } else {
      NumberedFirst(log, lo, hi);
      AfterIsSuffix(log, lo + 1, hi, cursor);
    }
  }

  /** All but the last 16 frames are lost. */
  function Lost(log: seq<Bytes>): nat {
    if |log| <= 16 then 0 else |log| - 16
  }

  lemma LostIsEvicted(log: seq<Bytes>)
    ensures Evicted(log) == Lost(log)
  {
  }

  /** Recovery is asked for exactly when an event after the cursor is lost; else all events after it are sent. */
  predicate ReplayExact(log: seq<Bytes>, cursor: u32) {
    var r := Replay(log, cursor);
    && (r.0.requiresSnapshotRecovery <==> cursor < Lost(log))
    && r.1 == (if cursor < Lost(log) then [] else Numbered(log, Min(cursor, |log|), |log|))
    && r.0.replayedCount == |r.1|
    && r.0.latestSeq == |log| && r.0.nextSeq == (|log| + 1) % TWO_32
  }

  lemma RecoveryWhenLost(log: seq<Bytes>, cursor: u32)
    requires |log| < TWO_32 && (log == [] || cursor != TWO_32 - 1)
    ensures Replay(log, cursor).0.requiresSnapshotRecovery <==> cursor < Lost(log)
  {
    LostIsEvicted(log);
  }

  lemma ReplaySends(log: seq<Bytes>, cursor: u32)
    requires |log| < TWO_32 && (log == [] || cursor != TWO_32 - 1)
    ensures Replay(log, cursor).1 ==
            if cursor < Lost(log) then [] else Numbered(log, Min(cursor, |log|), |log|)
  {
    LostIsEvicted(log);
    RecoveryWhenLost(log, cursor);
    if cursor >= Lost(log) {
      AfterIsSuffix(log, Evicted(log), |log|, cursor);
    }
  }

  lemma ReplayReports(log: seq<Bytes>, cursor: u32)
    requires |log| < TWO_32
    ensures var r := Replay(log, cursor);
            r.0.replayedCount == |r.1| && r.0.latestSeq == |log| && r.0.nextSeq == (|log| + 1) % TWO_32
  {
  }

  lemma ReplayIsExact(log: seq<Bytes>, cursor: u32)
    requires |log| < TWO_32 && (log == [] || cursor != TWO_32 - 1)
    ensures ReplayExact(log, cursor)
  {
    RecoveryWhenLost(log, cursor);
    ReplaySends(log, cursor);
    ReplayReports(log, cursor);
  }

  /** Before the numbers wrap, replay is exact for every cursor but 2^32 - 1, where `afterSeq + 1` wraps to 0. */
  lemma ReplayExactIff(log: seq<Bytes>, cursor: u32)
    requires |log| < TWO_32
    ensures ReplayExact(log, cursor) <==> log == [] || cursor != TWO_32 - 1
  {
    if log == [] || cursor != TWO_32 - 1 {
      ReplayIsExact(log, cursor);
    } else {
      assert Replay(log, cursor).0.requiresSnapshotRecovery;
    }
  }

  // ----- a client that reconnects -----

  /**
    One channel and its client.  `cursor` is the last number the client saw and
    `received` the events since it last took a snapshot, which covered `base` events.
   */
  datatype Feed = Feed(log: seq<Bytes>, connected: bool, cursor: u32,
                       base: nat, received: seq<Event>, recoveries: nat)

  datatype Op =
    | Publish(built: Option<Bytes>)
    | Disconnect
    | Reconnect

  const NEW_FEED := Feed([], false, 0, 0, [], 0)

  function Take(f: Feed, es: seq<Event>): Feed {
    f.(received := f.received + es, cursor := if es == [] then f.cursor else es[|es| - 1].seqNo)
  }

  /** A client replays from its cursor, or takes a snapshot and goes on from `nextSeq`, and then connects. */
  function FeedStep(f: Feed, op: Op): Feed {
    match op
    case Publish(built) =>
      if built.None? || !Acceptable(built.value) then f
      else
        var g := f.(log := f.log + [built.value]);
        if f.connected then Take(g, [Event(SeqNo(|f.log|), built.value)]) else g
    case Disconnect => f.(connected := false)
    case Reconnect =>
      var r := Replay(f.log, f.cursor);
      if r.0.requiresSnapshotRecovery then
        f.(connected := true, cursor := Sub32(r.0.nextSeq, 1), base := |f.log|, received := [],
           recoveries := f.recoveries + 1)
      else Take(f, r.1).(connected := true)
  }

  datatype World = World(input: Feed, status: Feed)

  function WorldStep(w: World, step: (Channel, Op)): World {
    match step.0
    case Input => w.(input := FeedStep(w.input, step.1))
    case Status => w.(status := FeedStep(w.status, step.1))
  }

  function Run(w: World, steps: seq<(Channel, Op)>): World
    decreases |steps|
  {
    if steps == [] then w else Run(WorldStep(w, steps[0]), steps[1..])
  }

  /** What the client holds is the log from its last snapshot to its cursor, up to date while connected. */
  predicate GapFree(f: Feed) {
    && |f.log| < TWO_32 - 1 && f.base <= f.cursor <= |f.log|
    && f.received == Numbered(f.log, f.base, f.cursor)
    && (f.connected ==> f.cursor == |f.log|)
    && (f.recoveries == 0 ==> f.base == 0)
  }

  lemma NumberedConcat(log: seq<Bytes>, lo: nat, mid: nat, hi: nat)
    requires lo <= mid <= hi <= |log|
    ensures Numbered(log, lo, mid) + Numbered(log, mid, hi) == Numbered(log, lo, hi)
  {
  }

  lemma PublishKeeps(f: Feed, frame: Bytes)
    requires GapFree(f) && Acceptable(frame) && |f.log| + 1 < TWO_32 - 1
    ensures GapFree(FeedStep(f, Publish(Some(frame))))
  {
    var log := f.log + [frame];
    assert Numbered(log, f.base, f.cursor) == f.received;
    if f.connected {
      NumberedConcat(log, f.base, f.cursor, |log|);
      assert Numbered(log, f.cursor, |log|) == [Event(SeqNo(|f.log|), frame)];
    }
  }

  lemma ReconnectKeeps(f: Feed)
    requires GapFree(f)
    ensures GapFree(FeedStep(f, Reconnect))
    ensures f.cursor >= Lost(f.log) ==> FeedStep(f, Reconnect).recoveries == f.recoveries
  {
    ReplayIsExact(f.log, f.cursor);
    var r := Replay(f.log, f.cursor);
    assert Min(f.cursor, |f.log|) == f.cursor;
    if f.cursor >= Lost(f.log) {
      NumberedConcat(f.log, f.base, f.cursor, |f.log|);
      assert r.1 == Numbered(f.log, f.cursor, |f.log|);
      assert Take(f, r.1).cursor == |f.log|;
    } else {
      assert Sub32(r.0.nextSeq, 1) == |f.log|;
      assert Numbered(f.log, |f.log|, |f.log|) == [];
    }
  }

  lemma FeedStepKeeps(f: Feed, op: Op)
    requires GapFree(f) && |FeedStep(f, op).log| < TWO_32 - 1
    ensures GapFree(FeedStep(f, op))
    ensures op.Reconnect? && f.cursor >= Lost(f.log) ==> FeedStep(f, op).recoveries == f.recoveries
  {
    match op
    case Publish(built) =>
      if built.Some? && Acceptable(built.value) {
        PublishKeeps(f, built.value);
      }
    case Disconnect =>
    case Reconnect =>
      ReconnectKeeps(f);
  }

  lemma {:induction false} LogsGrow(w: World, steps: seq<(Channel, Op)>)
    ensures |w.input.log| <= |Run(w, steps).input.log| && |w.status.log| <= |Run(w, steps).status.log|
    decreases |steps|
  {
    if steps != [] {
      LogsGrow(WorldStep(w, steps[0]), steps[1..]);
    }
  }

  lemma {:induction false} RunKeepsGapFree(w: World, steps: seq<(Channel, Op)>)
    requires GapFree(w.input) && GapFree(w.status)
    requires |Run(w, steps).input.log| < TWO_32 - 1 && |Run(w, steps).status.log| < TWO_32 - 1
    ensures GapFree(Run(w, steps).input) && GapFree(Run(w, steps).status)
    decreases |steps|
  {
    if steps != [] {
      var v := WorldStep(w, steps[0]);
      LogsGrow(v, steps[1..]);
      match steps[0].0 {
        case Input => FeedStepKeeps(w.input, steps[0].1);
        case Status => FeedStepKeeps(w.status, steps[0].1);
      }
      RunKeepsGapFree(v, steps[1..]);
    }
  }

  function Of(w: World, channel: Channel): Feed {
    if channel == Input then w.input else w.status
  }

  /** A frame of 1 to 223 bytes that a step publishes on a channel. */
  function OfferedBy(step: (Channel, Op), channel: Channel): seq<Bytes> {
    if step.0 == channel && step.1.Publish? && step.1.built.Some? && 1 <= |step.1.built.value| <= 223
    then [step.1.built.value] else []
  }

  function Offered(steps: seq<(Channel, Op)>, channel: Channel): seq<Bytes> {
    if steps == [] then [] else OfferedBy(steps[0], channel) + Offered(steps[1..], channel)
  }

  lemma StepLogs(w: World, step: (Channel, Op), channel: Channel)
    ensures Of(WorldStep(w, step), channel).log == Of(w, channel).log + OfferedBy(step, channel)
  {
  }

  /** The log that a channel numbers is what was published on it, with or without a client, and nothing else. */
  lemma {:induction false} LogIsOffered(w: World, steps: seq<(Channel, Op)>, channel: Channel)
    ensures Of(Run(w, steps), channel).log == Of(w, channel).log + Offered(steps, channel)
    decreases |steps|
  {
    if steps != [] {
      StepLogs(w, steps[0], channel);
      LogIsOffered(WorldStep(w, steps[0]), steps[1..], channel);
      Assoc(Of(w, channel).log, OfferedBy(steps[0], channel), Offered(steps[1..], channel));
    }
  }

  /**
    The client's events are the published frames after its last snapshot, each with its
    number, and all of them while it is connected.
   */
  predicate SeesNoGap(f: Feed, published: seq<Bytes>) {
    && f.log == published && f.base <= f.cursor <= |published| && |f.received| == f.cursor - f.base
    && (forall k :: 0 <= k < |f.received| ==> f.received[k] == Event(f.base + k + 1, published[f.base + k]))
    && (f.connected ==> f.cursor == |published|)
    && (f.recoveries == 0 ==> f.base == 0)
  }

  lemma EventsSeen(f: Feed)
    requires GapFree(f)
    ensures SeesNoGap(f, f.log)
  {
  }

  lemma SeenFrom(start: World, steps: seq<(Channel, Op)>, channel: Channel, published: seq<Bytes>)
    requires GapFree(start.input) && GapFree(start.status) && Of(start, channel).log == []
    requires |Run(start, steps).input.log| < TWO_32 - 1 && |Run(start, steps).status.log| < TWO_32 - 1
    requires published == Offered(steps, channel)
    ensures SeesNoGap(Of(Run(start, steps), channel), published)
  {
    var w := Run(start, steps);
    RunKeepsGapFree(start, steps);
    LogIsOffered(start, steps, channel);
    assert Of(w, channel).log == [] + published == published;
    EventsSeen(Of(w, channel));
  }

  /**
    In any run that accepts fewer than 2^32 - 1 frames per channel, each client's
    frames, live and replayed, are those published and carry consecutive numbers from
    its last snapshot on: 1 up to its cursor if it never needed one, and up to the
    latest while connected.
   */
  lemma ClientsSeeNoGap(steps: seq<(Channel, Op)>, channel: Channel)
    requires |Run(World(NEW_FEED, NEW_FEED), steps).input.log| < TWO_32 - 1
    requires |Run(World(NEW_FEED, NEW_FEED), steps).status.log| < TWO_32 - 1
    ensures SeesNoGap(Of(Run(World(NEW_FEED, NEW_FEED), steps), channel), Offered(steps, channel))
  {
    SeenFrom(World(NEW_FEED, NEW_FEED), steps, channel, Offered(steps, channel));
  }
}
