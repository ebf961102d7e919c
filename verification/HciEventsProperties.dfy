/**
  Whole-run properties of the HCI connection machine: where connection targets
  come from, when a fast reconnect is tried and falls back, and how often a
  device is asked for its name.
 */
module HciEventsProperties {
  import opened Common
  import opened HciCommands
  import opened HciEvents

  type Run = r: seq<Input> | forall i :: 0 <= i < |r| ==> InputOk(r[i]) witness []

  function StateAfter(r: Run): State {
    if r == [] then INITIAL else Handle(StateAfter(r[..|r| - 1]), r[|r| - 1]).state
  }

  /** The commands sent while handling the k-th input. */
  function SentAt(r: Run, k: nat): seq<Command>
    requires k < |r|
  {
    Handle(StateAfter(r[..k]), r[k]).sent
  }

  function AllSent(r: Run): seq<Command> {
    if r == [] then [] else AllSent(r[..|r| - 1]) + SentAt(r, |r| - 1)
  }

  predicate IsEvent(i: Input, code: u8) {
    i.Event? && i.code == code
  }

  predicate Clears(c: Command) {
    c == Reset || c == Inquiry(LAP, 0x05, 0x00)
  }

  // ----- the shapes a step can take -----

  predicate Quiet(s: State, e: Effect) {
    e.sent == [] && e.state.scanned == s.scanned && e.state.target == s.target
  }

  predicate Cleared(s: State, e: Effect) {
    |e.sent| == 1 && Clears(e.sent[0]) && e.state.scanned == [] && e.state.target == s.target
  }

  predicate Commanded(s: State, e: Effect) {
    && |e.sent| == 1 && !e.sent[0].RemoteNameRequest? && !e.sent[0].CreateConnection?
    && e.state.scanned == s.scanned && e.state.target == s.target
  }

  predicate Reconnecting(s: State, i: Input, e: Effect) {
    && IsEvent(i, EVT_COMMAND_COMPLETE) && s.cache.Some?
    && e.sent == [CreateConnection(s.cache.value)]
    && e.state.scanned == s.scanned && e.state.target == s.cache && e.state.cache == s.cache
  }

  predicate Connecting(s: State, i: Input, e: Effect) {
    && InputOk(i) && IsEvent(i, EVT_REMOTE_NAME_COMPLETE) && NamesWiimote(i.data[7..])
    && e.state.target.Some? && e.state.target.value in s.scanned
    && e.state.target.value.addr == Reversed(AddressAt(i.data, 1))
    && e.sent == [InquiryCancel, CreateConnection(e.state.target.value)]
    && e.state.scanned == s.scanned
  }

  predicate Shape(s: State, i: Input, e: Effect) {
    && (e.state.cache == s.cache || e.state.cache == None || e.state.cache == s.target)
    && (Quiet(s, e) || Cleared(s, e) || Commanded(s, e) || Reconnecting(s, i, e) || Connecting(s, i, e))
  }

  lemma CommandCompleteShape(s: State, i: Input)
    requires InputOk(i) && IsEvent(i, EVT_COMMAND_COMPLETE)
    ensures Shape(s, i, CommandComplete(s, ReadUInt16Le(i.data[1..]), i.data[3], i.nowMs))
  {
  }

  lemma HandleShape(s: State, i: Input)
    requires InputOk(i) && !IsEvent(i, EVT_INQUIRY_RESULT)
    ensures Shape(s, i, Handle(s, i))
  {
    if IsEvent(i, EVT_COMMAND_COMPLETE) {
      CommandCompleteShape(s, i);
    }
  }

  // ----- where connection targets come from -----

  /** An inquiry result lists the address `wire`, as it travels. */
  predicate Reports(i: Input, wire: Addr) {
    && InputOk(i) && i.Event? && i.code == EVT_INQUIRY_RESULT
    && exists j: nat :: j < i.data[0] && ReportedAddress(i.data, j) == wire
  }

  /** A completed name request for `wire` names a Wiimote. */
  predicate Confirms(i: Input, wire: Addr) {
    && InputOk(i) && i.Event? && i.code == EVT_REMOTE_NAME_COMPLETE
    && AddressAt(i.data, 1) == wire && NamesWiimote(i.data[7..])
  }

  predicate Reported(r: Run, wire: Addr) {
    exists i :: 0 <= i < |r| && Reports(r[i], wire)
  }

  predicate Confirmed(r: Run, wire: Addr) {
    exists j :: 0 <= j < |r| && Confirms(r[j], wire) && Reported(r[..j], wire)
  }

  predicate Known(r: Run, s: State) {
    && (forall k :: 0 <= k < |s.scanned| ==> Reported(r, Reversed(s.scanned[k].addr)))
    && (s.cache.Some? ==> Confirmed(r, Reversed(s.cache.value.addr)))
    && (s.target.Some? ==> Confirmed(r, Reversed(s.target.value.addr)))
  }

  lemma HistoryGrows(r: Run, i: Input, wire: Addr)
    requires InputOk(i)
    ensures Reported(r, wire) ==> Reported(r + [i], wire)
    ensures Confirmed(r, wire) ==> Confirmed(r + [i], wire)
    ensures Reports(i, wire) ==> Reported(r + [i], wire)
    ensures Confirms(i, wire) && Reported(r, wire) ==> Confirmed(r + [i], wire)
  {
    var t: Run := r + [i];
    if Reported(r, wire) {
      var j :| 0 <= j < |r| && Reports(r[j], wire);
      assert t[j] == r[j];
    }
    if Confirmed(r, wire) {
      var j :| 0 <= j < |r| && Confirms(r[j], wire) && Reported(r[..j], wire);
      assert t[j] == r[j] && t[..j] == r[..j];
    }
    if Reports(i, wire) {
      assert t[|r|] == i;
    }
    if Confirms(i, wire) && Reported(r, wire) {
      assert t[|r|] == i && t[..|r|] == r;
    }
  }

  lemma KnownGrows(r: Run, i: Input, s: State)
    requires InputOk(i) && Known(r, s)
    ensures Known(r + [i], s)
  {
    forall k | 0 <= k < |s.scanned|
      ensures Reported(r + [i], Reversed(s.scanned[k].addr))
    {
      HistoryGrows(r, i, Reversed(s.scanned[k].addr));
    }
    if s.cache.Some? {
      HistoryGrows(r, i, Reversed(s.cache.value.addr));
    }
    if s.target.Some? {
      HistoryGrows(r, i, Reversed(s.target.value.addr));
    }
  }

  lemma DiscoverOneKnown(r: Run, i: Input, s: State, k: nat)
    requires InputOk(i) && IsEvent(i, EVT_INQUIRY_RESULT) && k < i.data[0] && Known(r + [i], s)
    ensures Known(r + [i], Discover(s, i.data, k).state)
  {
    var wire := ReportedAddress(i.data, k);
    assert Reports(i, wire);
    HistoryGrows(r, i, wire);
    ReversedTwice(wire);
  }

  lemma {:induction false} DiscoverSends(s: State, data: seq<u8>, k: nat, num: nat)
    requires |data| >= 1 + RESPONSE_SIZE * num
    ensures forall n :: 0 <= n < |DiscoverFrom(s, data, k, num).sent| ==>
              DiscoverFrom(s, data, k, num).sent[n].RemoteNameRequest?
    decreases num - k
  {
    if k < num {
      DiscoverSends(Discover(s, data, k).state, data, k + 1, num);
    }
  }

  lemma {:induction false} DiscoverKnown(r: Run, i: Input, s: State, k: nat)
    requires InputOk(i) && IsEvent(i, EVT_INQUIRY_RESULT) && k <= i.data[0] && Known(r + [i], s)
    ensures Known(r + [i], DiscoverFrom(s, i.data, k, i.data[0]).state)
    decreases i.data[0] - k
  {
    if k < i.data[0] {
      DiscoverOneKnown(r, i, s, k);
      DiscoverKnown(r, i, Discover(s, i.data, k).state, k + 1);
    }
  }

  predicate ConnectionsConfirmed(r: Run, cs: seq<Command>) {
    forall n :: 0 <= n < |cs| && cs[n].CreateConnection? ==> Confirmed(r, Reversed(cs[n].target.addr))
  }

  /** The device that a name event makes the target had been reported, and the event confirms it. */
  lemma ConnectingConfirms(r: Run, i: Input, s: State, e: Effect)
    requires InputOk(i) && Known(r, s) && Connecting(s, i, e)
    ensures Confirmed(r + [i], Reversed(e.state.target.value.addr))
  {
    var wire := AddressAt(i.data, 1);
    ReversedTwice(wire);
    var k :| 0 <= k < |s.scanned| && s.scanned[k] == e.state.target.value;
    assert Reported(r, Reversed(s.scanned[k].addr));
    HistoryGrows(r, i, wire);
  }

  lemma ShapeKnown(r: Run, i: Input, s: State, e: Effect)
    requires InputOk(i) && Known(r, s) && Shape(s, i, e)
    ensures Known(r + [i], e.state) && ConnectionsConfirmed(r + [i], e.sent)
  {
    KnownGrows(r, i, s);
    if Connecting(s, i, e) {
      ConnectingConfirms(r, i, s, e);
    }
  }

  lemma HandleKnown(r: Run, i: Input, s: State)
    requires InputOk(i) && Known(r, s)
    ensures Known(r + [i], Handle(s, i).state) && ConnectionsConfirmed(r + [i], Handle(s, i).sent)
  {
    if IsEvent(i, EVT_INQUIRY_RESULT) {
      KnownGrows(r, i, s);
      DiscoverKnown(r, i, s, 0);
      DiscoverSends(s, i.data, 0, i.data[0]);
    } else {
      HandleShape(s, i);
      ShapeKnown(r, i, s, Handle(s, i));
    }
  }

  lemma {:induction false} RunKnown(r: Run)
    ensures Known(r, StateAfter(r))
  {
    if r != [] {
      RunKnown(r[..|r| - 1]);
      HandleKnown(r[..|r| - 1], r[|r| - 1], StateAfter(r[..|r| - 1]));
      assert r == r[..|r| - 1] + [r[|r| - 1]];
    }
  }

  predicate IsCreateConnection(packet: seq<u8>) {
    |packet| >= 10 && ReadUInt16Le(packet[1..]) == OPCODE_CREATE_CONNECTION
  }

  lemma OpcodeField(c: Command)
    requires Encodable(c)
    ensures ReadUInt16Le(Encode(c)[1..]) == Opcode(c)
  {
    PacketFields(Opcode(c), |Parameters(c)|, Parameters(c));
  }

  lemma CreateConnectionPacket(c: Command)
    requires Encodable(c) && IsCreateConnection(Encode(c))
    ensures c.CreateConnection? && AddressField(Encode(c)) == Reversed(c.target.addr)
  {
    OpcodeField(c);
    ReversedTwice(c.target.addr);
    AddressKeepsBytes(c, Reversed(c.target.addr));
  }

  lemma SentConfirmed(r: Run, k: nat)
    requires k < |r|
    ensures ConnectionsConfirmed(r[..k + 1], SentAt(r, k))
  {
    RunKnown(r[..k]);
    HandleKnown(r[..k], r[k], StateAfter(r[..k]));
    assert r[..k + 1] == r[..k] + [r[k]];
  }

  lemma HandleEncodable(s: State, i: Input)
    requires InputOk(i)
    ensures AllEncodable(Handle(s, i).sent)
  {
    if IsEvent(i, EVT_INQUIRY_RESULT) {
      DiscoverEncodable(s, i.data, 0, i.data[0]);
    }
  }

  /**
    Every Create Connection packet of every run carries, byte for byte, an address
    that an earlier or the present event confirmed to be a Wiimote's by name, and
    that an inquiry result before that event had reported.
   */
  lemma ConnectionProvenance(r: Run, k: nat)
    requires k < |r|
    ensures AllEncodable(SentAt(r, k))
    ensures forall n :: 0 <= n < |SentAt(r, k)| && IsCreateConnection(Encode(SentAt(r, k)[n])) ==>
              Confirmed(r[..k + 1], AddressField(Encode(SentAt(r, k)[n])))
  {
    HandleEncodable(StateAfter(r[..k]), r[k]);
    SentConfirmed(r, k);
    var sent := SentAt(r, k);
    forall n | 0 <= n < |sent| && IsCreateConnection(Encode(sent[n]))
      ensures Confirmed(r[..k + 1], AddressField(Encode(sent[n])))
    {
      CreateConnectionPacket(sent[n]);
    }
  }

  // ----- fast reconnect -----

  /** A connection to the cached device, tried when scanning comes up. */
  predicate IsAttempt(i: Input, sent: seq<Command>) {
    IsEvent(i, EVT_COMMAND_COMPLETE) && exists n :: 0 <= n < |sent| && sent[n].CreateConnection?
  }

  /** An inquiry started because a connection was refused or failed. */
  predicate IsFallback(i: Input, sent: seq<Command>) {
    && (IsEvent(i, EVT_COMMAND_STATUS) || IsEvent(i, EVT_CONNECTION_COMPLETE))
    && exists n :: 0 <= n < |sent| && sent[n].Inquiry?
  }

  function Attempts(r: Run): nat {
    if r == [] then 0
    else Attempts(r[..|r| - 1]) + if IsAttempt(r[|r| - 1], SentAt(r, |r| - 1)) then 1 else 0
  }

  function Fallbacks(r: Run): nat {
    if r == [] then 0
    else Fallbacks(r[..|r| - 1]) + if IsFallback(r[|r| - 1], SentAt(r, |r| - 1)) then 1 else 0
  }

  /** The clock at the last successful connection to a device this machine had asked for. */
  function LastSeen(r: Run): Option<u32> {
    if r == [] then None
    else
      var i := r[|r| - 1];
      if Connected(StateAfter(r[..|r| - 1]), i) then Some(i.nowMs) else LastSeen(r[..|r| - 1])
  }

  predicate TokenOk(s: State) {
    s.flags.pendingFast ==> s.cache.Some? && s.target == s.cache
  }

  lemma {:induction false} DiscoverKeepsRest(s: State, data: seq<u8>, i: nat, num: nat)
    requires |data| >= 1 + RESPONSE_SIZE * num
    ensures DiscoverFrom(s, data, i, num).state == s.(scanned := DiscoverFrom(s, data, i, num).state.scanned)
    decreases num - i
  {
    if i < num {
      DiscoverKeepsRest(Discover(s, data, i).state, data, i + 1, num);
    }
  }

  function Held(s: State): nat {
    if s.flags.pendingFast then 1 else 0
  }

  predicate Connected(s: State, i: Input) {
    InputOk(i) && IsEvent(i, EVT_CONNECTION_COMPLETE) && i.data[0] == 0 && s.target.Some?
  }

  /** A step keeps the token, trades it for at most one fallback, and takes it only by an attempt. */
  predicate TokenStep(s: State, i: Input, e: Effect) {
    && TokenOk(e.state)
    && (IsFallback(i, e.sent) ==> s.flags.pendingFast && !e.state.flags.pendingFast)
    && (e.state.flags.pendingFast ==> s.flags.pendingFast || IsAttempt(i, e.sent))
    && (e.state.cache.Some? ==>
          if Connected(s, i) then e.state.seenMs == i.nowMs else s.cache.Some? && e.state.seenMs == s.seenMs)
  }

  lemma CommandCompleteToken(s: State, i: Input)
    requires InputOk(i) && TokenOk(s) && IsEvent(i, EVT_COMMAND_COMPLETE)
    ensures TokenStep(s, i, CommandComplete(s, ReadUInt16Le(i.data[1..]), i.data[3], i.nowMs))
  {
    var e := CommandComplete(s, ReadUInt16Le(i.data[1..]), i.data[3], i.nowMs);
    if e.state.flags.pendingFast && !s.flags.pendingFast {
      assert e.sent[0].CreateConnection?;
    }
  }

  lemma DiscoverToken(s: State, i: Input)
    requires InputOk(i) && TokenOk(s) && IsEvent(i, EVT_INQUIRY_RESULT)
    ensures TokenStep(s, i, DiscoverFrom(s, i.data, 0, i.data[0]))
  {
    DiscoverKeepsRest(s, i.data, 0, i.data[0]);
  }

  lemma ConnectionCompleteToken(s: State, i: Input)
    requires InputOk(i) && TokenOk(s) && IsEvent(i, EVT_CONNECTION_COMPLETE)
    ensures TokenStep(s, i, ConnectionComplete(s, i.data[0], i.nowMs))
  {
  }

  lemma RemoteNameToken(s: State, i: Input)
    requires InputOk(i) && TokenOk(s) && IsEvent(i, EVT_REMOTE_NAME_COMPLETE)
    ensures TokenStep(s, i, RemoteNameComplete(s, i.data))
  {
  }

  lemma CommandStatusToken(s: State, i: Input)
    requires InputOk(i) && TokenOk(s) && IsEvent(i, EVT_COMMAND_STATUS)
    ensures TokenStep(s, i, CommandStatus(s, ReadUInt16Le(i.data[2..]), i.data[0]))
  {
  }

  /** Everything but an event that has a handler of its own. */
  lemma OtherToken(s: State, i: Input)
    requires InputOk(i) && TokenOk(s)
    requires i.Event? ==> i.code !in {EVT_INQUIRY_RESULT, EVT_CONNECTION_COMPLETE, EVT_REMOTE_NAME_COMPLETE,
                                      EVT_COMMAND_COMPLETE, EVT_COMMAND_STATUS}
    ensures TokenStep(s, i, Handle(s, i))
  {
  }

  lemma HandleToken(s: State, i: Input)
    requires InputOk(i) && TokenOk(s)
    ensures TokenStep(s, i, Handle(s, i))
  {
    if IsEvent(i, EVT_INQUIRY_RESULT) {
      DiscoverToken(s, i);
    } else if IsEvent(i, EVT_CONNECTION_COMPLETE) {
      ConnectionCompleteToken(s, i);
    } else if IsEvent(i, EVT_REMOTE_NAME_COMPLETE) {
      RemoteNameToken(s, i);
    } else if IsEvent(i, EVT_COMMAND_COMPLETE) {
      CommandCompleteToken(s, i);
    } else if IsEvent(i, EVT_COMMAND_STATUS) {
      CommandStatusToken(s, i);
    } else {
      OtherToken(s, i);
    }
  }

  /** An attempt starts exactly when scanning is acknowledged with reconnecting on and the cache still fresh. */
  lemma AttemptIff(s: State, i: Input)
    requires InputOk(i)
    ensures IsAttempt(i, Handle(s, i).sent) <==>
            && IsEvent(i, EVT_COMMAND_COMPLETE)
            && ReadUInt16Le(i.data[1..]) == OPCODE_WRITE_SCAN_ENABLE && i.data[3] == 0
            && (s.flags.scanning || !s.flags.inited) && s.flags.autoReconnect
            && s.cache.Some? && s.ttlMs != 0 && Sub32(i.nowMs, s.seenMs) <= s.ttlMs
    ensures IsAttempt(i, Handle(s, i).sent) ==> Handle(s, i).sent == [CreateConnection(s.cache.value)]
  {
    if i.Event? && i.code == EVT_COMMAND_COMPLETE {
      var e := CommandComplete(s, ReadUInt16Le(i.data[1..]), i.data[3], i.nowMs);
      assert |e.sent| <= 1;
      if |e.sent| == 1 && e.sent[0].CreateConnection? {
        assert IsAttempt(i, e.sent);
      }
    }
  }

  predicate TokenInv(s: State, fallbacks: nat, attempts: nat, seen: Option<u32>) {
    && TokenOk(s) && fallbacks + Held(s) <= attempts
    && (s.cache.Some? ==> seen == Some(s.seenMs))
  }

  lemma TokenInvStep(s: State, i: Input, e: Effect, fallbacks: nat, attempts: nat, seen: Option<u32>)
    requires TokenInv(s, fallbacks, attempts, seen) && TokenStep(s, i, e)
    ensures TokenInv(e.state, fallbacks + (if IsFallback(i, e.sent) then 1 else 0),
                     attempts + (if IsAttempt(i, e.sent) then 1 else 0),
                     if Connected(s, i) then Some(i.nowMs) else seen)
  {
  }

  /**
    In every reachable state a pending fast reconnect has the cached device as its
    target, fallbacks never outnumber attempts, and the cache carries the time of
    the connection it came from.
   */
  lemma {:induction false} FastReconnectToken(r: Run)
    ensures StateAfter(r).flags.pendingFast ==>
              StateAfter(r).cache.Some? && StateAfter(r).target == StateAfter(r).cache
    ensures Fallbacks(r) + (if StateAfter(r).flags.pendingFast then 1 else 0) <= Attempts(r)
    ensures StateAfter(r).cache.Some? ==> LastSeen(r) == Some(StateAfter(r).seenMs)
  {
    if r != [] {
      var before, i := r[..|r| - 1], r[|r| - 1];
      FastReconnectToken(before);
      var s := StateAfter(before);
      HandleToken(s, i);
      TokenInvStep(s, i, Handle(s, i), Fallbacks(before), Attempts(before), LastSeen(before));
    }
  }

  // ----- discovery -----

  predicate ClearBetween(cs: seq<Command>, p: nat, q: nat)
    requires q <= |cs|
  {
    exists k :: p < k < q && Clears(cs[k])
  }

  predicate SameRequest(a: Command, b: Command) {
    a.RemoteNameRequest? && b.RemoteNameRequest? && a.device.addr == b.device.addr
  }

  predicate Distinct(table: seq<Device>) {
    forall i, j :: 0 <= i < j < |table| ==> table[i].addr != table[j].addr
  }

  /** The table has no duplicates, and holds every device asked for its name since it was last cleared. */
  predicate TableOk(s: State, cs: seq<Command>) {
    && Distinct(s.scanned) && |s.scanned| <= TABLE_SIZE
    && (forall p, q :: 0 <= p < q < |cs| && SameRequest(cs[p], cs[q]) ==> ClearBetween(cs, p, q))
    && (forall p :: 0 <= p < |cs| && cs[p].RemoteNameRequest? && !ClearBetween(cs, p, |cs|) ==>
          Index(s.scanned, cs[p].device.addr) >= 0)
  }

  lemma {:induction false} IndexOfExtended(table: seq<Device>, d: Device, addr: Addr)
    ensures Index(table + [d], addr) >= 0 <==> Index(table, addr) >= 0 || d.addr == addr
  {
    var t := table + [d];
    if Index(table, addr) >= 0 {
      assert t[Index(table, addr)].addr == addr;
    }
    assert t[|table|] == d;
    if Index(t, addr) >= 0 && d.addr != addr {
      assert table[Index(t, addr)].addr == addr;
    }
  }

  lemma StaysClear(cs: seq<Command>, c: Command, p: nat, q: nat)
    requires q <= |cs|
    ensures ClearBetween(cs, p, q) ==> ClearBetween(cs + [c], p, q)
    ensures ClearBetween(cs, p, q) ==> ClearBetween(cs + [c], p, |cs| + 1)
    ensures Clears(c) && p < |cs| ==> ClearBetween(cs + [c], p, |cs| + 1)
  {
    if ClearBetween(cs, p, q) {
      var k :| p < k < q && Clears(cs[k]);
      assert (cs + [c])[k] == cs[k];
    }
    if Clears(c) && p < |cs| {
      assert Clears((cs + [c])[|cs|]);
    }
  }

  /** One more command: it clears the table, or asks for a device just added, or does neither. */
  lemma TableStep(s: State, cs: seq<Command>, t: State, c: Command)
    requires TableOk(s, cs)
    requires
      || (Clears(c) && t.scanned == [])
      || (c.RemoteNameRequest? && Index(s.scanned, c.device.addr) < 0 && |s.scanned| < TABLE_SIZE
          && t.scanned == s.scanned + [c.device])
      || (!c.RemoteNameRequest? && t.scanned == s.scanned)
    ensures TableOk(t, cs + [c])
  {
    var ds := cs + [c];
    forall p, q | 0 <= p < q < |ds| && SameRequest(ds[p], ds[q])
      ensures ClearBetween(ds, p, q)
    {
      if q < |cs| {
        assert ClearBetween(cs, p, q);
        StaysClear(cs, c, p, q);
      } else {
        assert cs[p].RemoteNameRequest? && Index(s.scanned, cs[p].device.addr) < 0;
        StaysClear(cs, c, p, |cs|);
      }
    }
    forall p | 0 <= p < |ds| && ds[p].RemoteNameRequest? && !ClearBetween(ds, p, |ds|)
      ensures Index(t.scanned, ds[p].device.addr) >= 0
    {
      StaysClear(cs, c, p, |cs|);
      if c.RemoteNameRequest? {
        IndexOfExtended(s.scanned, c.device, ds[p].device.addr);
      }
    }
  }

  lemma TableGains(s: State, cs: seq<Command>, d: Device)
    requires TableOk(s, cs) && Index(s.scanned, d.addr) < 0 && |s.scanned| < TABLE_SIZE
    ensures TableOk(s.(scanned := s.scanned + [d]), cs)
  {
    forall p | 0 <= p < |cs| && cs[p].RemoteNameRequest? && !ClearBetween(cs, p, |cs|)
      ensures Index(s.scanned + [d], cs[p].device.addr) >= 0
    {
      IndexOfExtended(s.scanned, d, cs[p].device.addr);
    }
  }

  lemma DiscoverOneTable(s: State, cs: seq<Command>, data: seq<u8>, i: nat)
    requires |data| >= 1 + RESPONSE_SIZE * (i + 1) && TableOk(s, cs)
    ensures var e := Discover(s, data, i); TableOk(e.state, cs + e.sent)
  {
    var d := ReportedDevice(data, i);
    var e := Discover(s, data, i);
    if e.sent != [] {
      TableStep(s, cs, e.state, RemoteNameRequest(d));
    } else {
      assert cs + e.sent == cs;
      if e.state != s {
        TableGains(s, cs, d);
      }
    }
  }

  lemma DiscoverThen(s: State, cs: seq<Command>, data: seq<u8>, i: nat, num: nat)
    requires |data| >= 1 + RESPONSE_SIZE * num && i < num
    ensures var first := Discover(s, data, i);
            var rest := DiscoverFrom(first.state, data, i + 1, num);
            var all := DiscoverFrom(s, data, i, num);
            all.state == rest.state && cs + all.sent == cs + first.sent + rest.sent
  {
    var first := Discover(s, data, i);
    Assoc(cs, first.sent, DiscoverFrom(first.state, data, i + 1, num).sent);
  }

  /** `e` is what the responses from the i-th on lead to, and `all` what was sent by then. */
  lemma {:induction false} DiscoverTable(s: State, cs: seq<Command>, data: seq<u8>, i: nat, num: nat, e: Effect,
                                         all: seq<Command>)
    requires |data| >= 1 + RESPONSE_SIZE * num && TableOk(s, cs)
    requires e == DiscoverFrom(s, data, i, num) && all == cs + e.sent
    ensures TableOk(e.state, all)
    decreases num - i
  {
    if i < num {
      var first := Discover(s, data, i);
      DiscoverOneTable(s, cs, data, i);
      DiscoverThen(s, cs, data, i, num);
      DiscoverTable(first.state, cs + first.sent, data, i + 1, num, DiscoverFrom(first.state, data, i + 1, num), all);
    } else {
      assert all == cs;
    }
  }

  lemma ShapeTable(s: State, cs: seq<Command>, i: Input, e: Effect)
    requires TableOk(s, cs) && Shape(s, i, e)
    ensures TableOk(e.state, cs + e.sent)
  {
    if Quiet(s, e) {
      assert cs + e.sent == cs;
    } else if Connecting(s, i, e) {
      TableStep(s, cs, s, e.sent[0]);
      TableStep(s, cs + [e.sent[0]], e.state, e.sent[1]);
      assert cs + e.sent == cs + [e.sent[0]] + [e.sent[1]];
    } else {
      TableStep(s, cs, e.state, e.sent[0]);
      assert e.sent == [e.sent[0]];
    }
  }

  lemma HandleTable(s: State, cs: seq<Command>, i: Input)
    requires InputOk(i) && TableOk(s, cs)
    ensures TableOk(Handle(s, i).state, cs + Handle(s, i).sent)
  {
    if IsEvent(i, EVT_INQUIRY_RESULT) {
      DiscoverTable(s, cs, i.data, 0, i.data[0], Handle(s, i), cs + Handle(s, i).sent);
    } else {
      HandleShape(s, i);
      ShapeTable(s, cs, i, Handle(s, i));
    }
  }

  /**
    In every run the table keeps at most 16 distinct addresses, and between two
    requests for the name of one address the table was cleared, by a reset or by
    the machine's own inquiry.
   */
  lemma {:induction false} OneRequestPerClear(r: Run)
    ensures Distinct(StateAfter(r).scanned) && |StateAfter(r).scanned| <= TABLE_SIZE
    ensures var cs := AllSent(r);
            forall p, q :: 0 <= p < q < |cs| && SameRequest(cs[p], cs[q]) ==> ClearBetween(cs, p, q)
    ensures TableOk(StateAfter(r), AllSent(r))
  {
    if r != [] {
      OneRequestPerClear(r[..|r| - 1]);
      HandleTable(StateAfter(r[..|r| - 1]), AllSent(r[..|r| - 1]), r[|r| - 1]);
    }
  }
}
