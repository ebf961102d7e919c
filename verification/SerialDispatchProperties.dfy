/**
  The unlock window over whole runs of serial commands, on a 32-bit clock that wraps.
 */
module SerialDispatchProperties {
  import opened Common
  import opened SerialDispatch

  /** One dispatched command and the true time, in milliseconds, at which it came. */
  datatype Request = Request(words: seq<string>, device: Device, timeMs: nat)

  function Clock(timeMs: nat): u32 {
    timeMs % TWO_32
  }

  /** Dispatching with the gate on. */
  function DispatchAt(r: Request, s: Session): Outcome {
    Dispatch(r.words, r.device, Some(s), true, Clock(r.timeMs))
  }

  /** What happens to the session: a command, serial control switched off, a token configured. */
  datatype Event = Command(request: Request) | Lock | SetToken(token: Option<string>)

  /** The token configured after a run. */
  function TokenAfter(token: Option<string>, es: seq<Event>): Option<string> {
    if es == [] then token
    else if es[|es| - 1].SetToken? then es[|es| - 1].token
    else TokenAfter(token, es[..|es| - 1])
  }

  /** The session after a run that starts locked with a configured token. */
  function SessionAfter(token: Option<string>, es: seq<Event>): (s: Session)
    ensures s.token == TokenAfter(token, es)
  {
    if es == [] then Session(token, false, 0, 0)
    else
      var s := SessionAfter(token, es[..|es| - 1]);
      match es[|es| - 1]
      case Command(r) =>
        DispatchKeepsToken(r, s);
        DispatchAt(r, s).session.value
      case Lock => SessionLock(s)
      case SetToken(t) => s.(token := t)
  }

  lemma DispatchKeepsToken(r: Request, s: Session)
    ensures DispatchAt(r, s).session.Some? && DispatchAt(r, s).session.value.token == s.token
  {
  }

  /** An unlock command with the configured token and a readable duration. */
  predicate IsUnlock(token: Option<string>, r: Request) {
    && |r.words| >= 3 && r.words[1] == "unlock" && token == Some(r.words[2]) && UnlockSeconds(r.words).Some?
  }

  /** The window an unlock opens. */
  function WindowMs(r: Request): nat {
    if UnlockSeconds(r.words).Some? then UnlockSeconds(r.words).value * 1000 else 0
  }

  /** The k-th event is an unlock with the token configured by then. */
  predicate Accepted(token: Option<string>, es: seq<Event>, k: nat)
    requires k < |es|
  {
    es[k].Command? && IsUnlock(TokenAfter(token, es[..k]), es[k].request)
  }

  /** The position of the accepted unlock in force: the most recent one, unless a lock came after it. */
  function LastUnlock(token: Option<string>, es: seq<Event>): (j: int)
    ensures j < |es| && (j >= 0 ==> es[j].Command?)
  {
    if es == [] || es[|es| - 1].Lock? then -1
    else if Accepted(token, es, |es| - 1) then |es| - 1
    else LastUnlock(token, es[..|es| - 1])
  }

  /** The unlock in force was accepted, and neither a lock nor an accepted unlock came after it. */
  predicate InForce(token: Option<string>, es: seq<Event>, j: int) {
    && 0 <= j < |es| && Accepted(token, es, j)
    && forall k :: j < k < |es| ==> !es[k].Lock? && !Accepted(token, es, k)
  }

  lemma {:induction false} LastUnlockInForce(token: Option<string>, es: seq<Event>, j: int)
    ensures InForce(token, es, j) <==> 0 <= j == LastUnlock(token, es)
  {
    if es != [] {
      var init := es[..|es| - 1];
      LastUnlockInForce(token, init, j);
      assert forall k :: 0 <= k < |init| ==> init[..k] == es[..k];
      assert InForce(token, es, |init|) <==> Accepted(token, es, |init|);
    }
  }

  /** The window of the unlock in force, on the wrapping clock, covers `timeMs`. */
  predicate WindowOpen(token: Option<string>, es: seq<Event>, timeMs: nat) {
    var j := LastUnlock(token, es);
    j >= 0 && (timeMs - es[j].request.timeMs) % TWO_32 < WindowMs(es[j].request)
  }

  /** No command of the run came after `timeMs`. */
  predicate Past(es: seq<Event>, timeMs: nat) {
    forall i :: 0 <= i < |es| && es[i].Command? ==> es[i].request.timeMs <= timeMs
  }

  lemma UnlockStep(r: Request, s: Session)
    ensures DispatchAt(r, s).session == Some(
              if IsUnlock(s.token, r) then SessionUnlock(s, WindowMs(r), Clock(r.timeMs)) else s)
    ensures IsUnlock(s.token, r) ==> DispatchAt(r, s).reason == Ok && DispatchAt(r, s).calls == []
  {
  }

  lemma WindowFits(r: Request)
    ensures WindowMs(r) < TWO_32
  {
  }

  /** The session is the one that the unlock in force left, whatever token came since. */
  lemma {:induction false} SessionFromHistory(token: Option<string>, es: seq<Event>)
    ensures var j := LastUnlock(token, es);
            var now := TokenAfter(token, es);
            SessionAfter(token, es) ==
            if j >= 0 && WindowMs(es[j].request) > 0
            then Session(now, true, Clock(es[j].request.timeMs), WindowMs(es[j].request))
            else Session(now, false, 0, 0)
  {
    if es != [] {
      var init := es[..|es| - 1];
      SessionFromHistory(token, init);
      if es[|es| - 1].Command? {
        UnlockStep(es[|es| - 1].request, SessionAfter(token, init));
      }
    }
  }

  lemma ModularElapsed(now: nat, start: nat)
    requires start <= now
    ensures Sub32(Clock(now), Clock(start)) == (now - start) % TWO_32
    ensures now - start < TWO_32 ==> Sub32(Clock(now), Clock(start)) == now - start
  {
  }

  /** The session counts as unlocked exactly while the window of the unlock in force is open. */
  lemma UnlockedIff(token: Option<string>, es: seq<Event>, timeMs: nat)
    requires Past(es, timeMs)
    ensures IsUnlocked(SessionAfter(token, es), Clock(timeMs)) <==> WindowOpen(token, es, timeMs)
  {
    SessionFromHistory(token, es);
    var j := LastUnlock(token, es);
    if j >= 0 {
      ModularElapsed(timeMs, es[j].request.timeMs);
    }
  }

  /** A window that was ever open opens again at every multiple of 2^32 ms after its unlock. */
  lemma WindowReopens(token: Option<string>, r: Request, k: nat)
    requires IsUnlock(token, r) && WindowMs(r) > 0
    ensures IsUnlocked(SessionAfter(token, [Command(r)]), Clock(r.timeMs + k * TWO_32))
  {
    var es := [Command(r)];
    assert es[..0] == [] && LastUnlock(token, es) == 0;
    assert k * TWO_32 % TWO_32 == 0;
    UnlockedIff(token, es, r.timeMs + k * TWO_32);
  }

  // ----- which verbs reach the device -----

  lemma {:induction false} LookupNames(verb: string, i: nat)
    ensures Lookup(verb, i).Some? ==> Name(Lookup(verb, i).value) == verb
    decreases |DISPATCH_TABLE| - i
  {
    if i < |DISPATCH_TABLE| {
      LookupNames(verb, i + 1);
    }
  }

  lemma MutatorsArePrivileged(v: Verb)
    ensures v != VStatus && v != VRequestStatus ==> IsPrivileged(Name(v))
  {
  }

  /** A handler makes at most one call; an Ok without a call is `status`, and only `request-status` asks for status. */
  lemma HandlerCalls(v: Verb, words: seq<string>, d: Device)
    requires |words| >= 2
    ensures var h := HandleVerb(v, words, d);
            && |h.calls| <= 1
            && (h.reason == Ok && h.calls == [] <==> v == VStatus)
            && (h.calls != [] ==> (h.calls == [RequestStatus] <==> v == VRequestStatus))
            && (h.calls == [] && v != VStatus ==>
                  h.reason in {MissingArgument, BadArgument, NotConnected, InvalidVerb, PolicyBlocked})
            && (h.calls != [] && (v == VLed || v == VMode || v == VRequestStatus || v == VDisconnect) ==> d.connected)
  {
  }

  predicate Mutates(o: Outcome) {
    exists i :: 0 <= i < |o.calls| && o.calls[i] != RequestStatus
  }

  lemma MutationNeedsUnlock(r: Request, s: Session)
    requires Mutates(DispatchAt(r, s))
    ensures IsUnlocked(s, Clock(r.timeMs))
  {
    var v := Lookup(r.words[1], 0);
    LookupNames(r.words[1], 0);
    HandlerCalls(v.value, r.words, r.device);
    MutatorsArePrivileged(v.value);
  }

  /**
    `past[j]` is the unlock in force and its window covers `timeMs`; the clock
    difference is the true elapsed time when that is below 2^32 ms.
   */
  predicate Covers(token: Option<string>, past: seq<Event>, j: int, timeMs: nat) {
    && InForce(token, past, j)
    && var elapsed := timeMs - past[j].request.timeMs;
       var window := WindowMs(past[j].request);
       elapsed % TWO_32 < window < TWO_32 && (elapsed < TWO_32 ==> elapsed < window)
  }

  lemma UnlockedIsCovered(token: Option<string>, past: seq<Event>, timeMs: nat)
    requires Past(past, timeMs) && IsUnlocked(SessionAfter(token, past), Clock(timeMs))
    ensures Covers(token, past, LastUnlock(token, past), timeMs)
  {
    UnlockedIff(token, past, timeMs);
    var j := LastUnlock(token, past);
    LastUnlockInForce(token, past, j);
    WindowFits(past[j].request);
    ModularElapsed(timeMs, past[j].request.timeMs);
  }

  /**
    In any run from a locked session with the gate on, a command that changes the
    device beyond asking for status comes after an unlock accepted with the token
    configured then, strictly within its window, and with no lock or other accepted
    unlock between them.
   */
  lemma ChangesComeInsideTheWindow(token: Option<string>, past: seq<Event>, r: Request)
    requires Past(past, r.timeMs) && Mutates(DispatchAt(r, SessionAfter(token, past)))
    ensures exists j :: Covers(token, past, j, r.timeMs)
  {
    MutationNeedsUnlock(r, SessionAfter(token, past));
    UnlockedIsCovered(token, past, r.timeMs);
  }

  lemma HandlerNeverLocks(v: Verb, words: seq<string>, d: Device)
    requires |words| >= 2
    ensures HandleVerb(v, words, d).reason != Locked
  {
  }

  lemma LockedWhenClosed(r: Request, s: Session)
    requires |r.words| >= 2 && IsPrivileged(r.words[1])
    ensures DispatchAt(r, s).reason == Locked <==> !IsUnlocked(s, Clock(r.timeMs))
  {
    var v := Lookup(r.words[1], 0);
    if v.Some? {
      HandlerNeverLocks(v.value, r.words, r.device);
    }
  }

  /** A privileged command is answered Locked exactly when no window is open. */
  lemma LockedIff(token: Option<string>, past: seq<Event>, r: Request)
    requires |r.words| >= 2 && IsPrivileged(r.words[1]) && Past(past, r.timeMs)
    ensures DispatchAt(r, SessionAfter(token, past)).reason == Locked <==> !WindowOpen(token, past, r.timeMs)
  {
    var s := SessionAfter(token, past);
    UnlockedIff(token, past, r.timeMs);
    LockedWhenClosed(r, s);
  }
}
