/**
  Serial control from bytes to dispatch: a completed line is parsed and, unless it is
  refused or answered directly, dispatched; and commands printed as lines reach the
  dispatcher word for word, however their bytes arrive.
 */
module SerialPipeline {
  import opened Common
  import opened SerialLines
  import D = SerialDispatch
  import M = SerialMeaning
  import T = SerialTokens

  datatype Reply = Silent | ParseError(result: T.ParseResult) | WifiStatus | Dispatched(reason: D.Reason)

  /** The reply to a line, the session after it, and the calls made on the device. */
  datatype Handled = Handled(reply: Reply, session: Option<D.Session>, calls: seq<D.TargetCall>)

  function HandleLine(line: string, d: D.Device, session: Option<D.Session>, gated: bool, nowMs: u32): Handled {
    var words := T.FirstTokens(T.Words(line));
    match T.ResultFor(line)
    case NotACommand => Handled(Silent, session, [])
    case EmptyLine => Handled(Silent, session, [])
    case LineTooLong => Handled(ParseError(T.LineTooLong), session, [])
    case TooManyTokens => Handled(ParseError(T.TooManyTokens), session, [])
    case Ok =>
      if |words| >= 2 && words[1] == "wifi-status" then Handled(WifiStatus, session, [])
      else HandleWords(words, d, session, gated, nowMs)
  }

  function HandleWords(words: seq<string>, d: D.Device, session: Option<D.Session>, gated: bool, nowMs: u32): Handled {
    var o := D.Dispatch(words, d, session, gated, nowMs);
    Handled(Dispatched(o.reason), o.session, o.calls)
  }

  /** processSerialCommandLine. */
  method ProcessSerialCommandLine(line: string, target: D.SerialCommandTarget, session: D.SerialCommandSession,
                                  gated: bool, nowMs: u32)
    returns (reply: Reply)
    requires '\0' !in line
    modifies target, session
    ensures var h := HandleLine(line, old(target.device), Some(old(session.View())), gated, nowMs);
            && reply == h.reply && Some(session.View()) == h.session
            && target.calls == old(target.calls) + h.calls
  {
    var parsed := new T.SerialParsedCommand();
    var result := T.SerialCommandParse(line, parsed);
    match result
    case NotACommand => return Silent;
    case EmptyLine => return Silent;
    case LineTooLong => return ParseError(result);
    case TooManyTokens => return ParseError(result);
    case Ok =>
      var tokens := parsed.View();
      if |tokens| >= 2 && tokens[1] == "wifi-status" {
        return WifiStatus;
      }
      var reason := D.SerialCommandDispatch(tokens, target, session, gated, nowMs);
      return Dispatched(reason);
  }

  // ----- commands printed as lines -----

  /** Words that can be sent: a command that fits a line, of characters that survive assembly and splitting. */
  predicate Sendable(words: seq<string>) {
    && 0 < |words| <= T.MAX_TOKENS && words[0] == "wm" && |T.Join(words)| <= MAX_LINE
    && forall i :: 0 <= i < |words| ==> T.IsWord(words[i]) && '\n' !in words[i] && '\0' !in words[i]
  }

  function Printed(commands: seq<seq<string>>): string {
    if commands == [] then "" else T.Join(commands[0]) + "\n" + Printed(commands[1..])
  }

  function LinesOf(commands: seq<seq<string>>): seq<string> {
    if commands == [] then [] else [T.Join(commands[0])] + LinesOf(commands[1..])
  }

  function LineEvents(commands: seq<seq<string>>): seq<LineEvent> {
    if commands == [] then [] else [Line(T.Join(commands[0]))] + LineEvents(commands[1..])
  }

  lemma {:induction false} JoinAvoids(words: seq<string>, c: char)
    requires c != ' ' && forall i :: 0 <= i < |words| ==> c !in words[i]
    ensures c !in T.Join(words)
  {
    if |words| > 1 {
      JoinAvoids(words[1..], c);
    }
  }

  lemma SendableLine(words: seq<string>)
    requires Sendable(words)
    ensures var line := T.Join(words);
            && line != "" && |line| <= MAX_LINE && '\n' !in line && '\r' !in line && '\0' !in line
  {
    assert forall i :: 0 <= i < |words| ==> '\r' !in words[i];
    JoinAvoids(words, '\n');
    JoinAvoids(words, '\r');
    JoinAvoids(words, '\0');
  }

  lemma {:induction false} DeleteCrKeeps(line: string, rest: string)
    requires '\r' !in line
    ensures DeleteCr(line + rest) == line + DeleteCr(rest)
  {
    if line == "" {
      assert line + rest == rest;
    } else {
      assert (line + rest)[1..] == line[1..] + rest;
      DeleteCrKeeps(line[1..], rest);
    }
  }

  lemma {:induction false} SplitLine(line: string, rest: string)
    requires '\n' !in line
    ensures Split(line + "\n" + rest) == Lines([line] + Split(rest).complete, Split(rest).tail)
  {
    if line == "" {
      assert line + "\n" + rest == "\n" + rest;
      assert ("\n" + rest)[1..] == rest;
    } else {
      assert (line + "\n" + rest)[1..] == line[1..] + "\n" + rest;
      SplitLine(line[1..], rest);
      assert [line[0]] + line[1..] == line;
      assert ([line[1..]] + Split(rest).complete)[1..] == Split(rest).complete;
    }
  }

  lemma {:induction false} PrintedLines(commands: seq<seq<string>>)
    requires forall i :: 0 <= i < |commands| ==> Sendable(commands[i])
    ensures Split(DeleteCr(Printed(commands))) == Lines(LinesOf(commands), "")
  {
    if commands != [] {
      var line, rest := T.Join(commands[0]), Printed(commands[1..]);
      SendableLine(commands[0]);
      PrintedLines(commands[1..]);
      DeleteCrKeeps(line + "\n", rest);
      SplitLine(line, DeleteCr(rest));
    }
  }

  lemma {:induction false} LinesHandedOn(commands: seq<seq<string>>)
    requires forall i :: 0 <= i < |commands| ==> Sendable(commands[i])
    ensures ClassifyAll(LinesOf(commands)) == LineEvents(commands)
  {
    if commands != [] {
      SendableLine(commands[0]);
      CStringOfNulFree(T.Join(commands[0]));
      LinesHandedOn(commands[1..]);
    }
  }

  // ----- everything is read -----

  lemma {:induction false} LineFeedsConcat(a: string, b: string)
    ensures LineFeeds(a + b) == LineFeeds(a) + LineFeeds(b)
  {
    if a == "" {
      assert a + b == b;
    } else {
      assert (a + b)[1..] == a[1..] + b;
      LineFeedsConcat(a[1..], b);
    }
  }

  lemma {:induction false} NoLineFeeds(line: string)
    requires '\n' !in line
    ensures LineFeeds(line) == 0
  {
    if line != "" {
      NoLineFeeds(line[1..]);
    }
  }

  lemma {:induction false} PrintedLineFeeds(commands: seq<seq<string>>)
    requires forall i :: 0 <= i < |commands| ==> Sendable(commands[i])
    ensures LineFeeds(Printed(commands)) == |commands|
  {
    if commands != [] {
      var line, rest := T.Join(commands[0]), Printed(commands[1..]);
      SendableLine(commands[0]);
      PrintedLineFeeds(commands[1..]);
      NoLineFeeds(line);
      LineFeedsConcat(line, "\n");
      LineFeedsConcat(line + "\n", rest);
    }
  }

  const START := StreamState(EMPTY, "", [])

  function Idle(n: nat): seq<string> {
    seq(n, _ => "")
  }

  lemma {:induction false} RunThen(s: StreamState, a: seq<string>, b: seq<string>)
    ensures RunTasks(s, a + b) == RunTasks(RunTasks(s, a), b)
    decreases |a|
  {
    if a == [] {
      assert a + b == b;
    } else {
      var r := Process(s.state, s.unread + a[0]);
      assert (a + b)[1..] == a[1..] + b;
      RunThen(StreamState(r.state, r.unread, s.events + r.events), a[1..], b);
    }
  }

  lemma {:induction false} JoinedThenIdle(arrivals: seq<string>, n: nat)
    ensures Joined(arrivals + Idle(n)) == Joined(arrivals)
    decreases |arrivals| + n
  {
    var all := arrivals + Idle(n);
    if arrivals != [] {
      assert all[1..] == arrivals[1..] + Idle(n);
      JoinedThenIdle(arrivals[1..], n);
    } else if n > 0 {
      assert all[0] == "" && all[1..] == [] + Idle(n - 1);
      JoinedThenIdle([], n - 1);
    }
  }

  /** After more idle tasks than the stream has line feeds, nothing is left unread. */
  lemma StreamDrains(arrivals: seq<string>, n: nat)
    requires n > LineFeeds(Joined(arrivals))
    ensures RunTasks(START, arrivals + Idle(n)).unread == ""
  {
    var t := RunTasks(START, arrivals);
    ChunkingIndependence(arrivals);
    var all := Joined(arrivals);
    LineFeedsConcat(all[..|all| - |t.unread|], t.unread);
    BacklogDrains(t, n);
    RunThen(START, arrivals, Idle(n));
  }

  /**
    Commands printed one a line, arriving in any chunks, are handed on as exactly
    their lines, in order, by the time one more task than there are commands has
    found nothing new.
   */
  lemma CommandsAreHandedOn(commands: seq<seq<string>>, arrivals: seq<string>, n: nat)
    requires forall i :: 0 <= i < |commands| ==> Sendable(commands[i])
    requires Joined(arrivals) == Printed(commands) && n > |commands|
    ensures RunTasks(START, arrivals + Idle(n)) == StreamState(EMPTY, "", LineEvents(commands))
  {
    PrintedLineFeeds(commands);
    StreamDrains(arrivals, n);
    ChunkingIndependence(arrivals + Idle(n));
    JoinedThenIdle(arrivals, n);
    assert Printed(commands)[..|Printed(commands)|] == Printed(commands);
    PrintedLines(commands);
    LinesHandedOn(commands);
  }

  /** What is answered to a line before any of it is dispatched, and what else is. */
  lemma RepliesTold(line: string, d: D.Device, session: Option<D.Session>, gated: bool, nowMs: u32)
    ensures var h, words := HandleLine(line, d, session, gated, nowMs), T.Words(line);
            if |line| > 128 then h == Handled(ParseError(T.LineTooLong), session, [])
            else if words == [] || words[0] != "wm" then h == Handled(Silent, session, [])
            else if |words| > 10 then h == Handled(ParseError(T.TooManyTokens), session, [])
            else if |words| >= 2 && words[1] == "wifi-status" then h == Handled(WifiStatus, session, [])
            else h == HandleWords(words, d, session, gated, nowMs)
  {
    T.RefusalsTold(line);
    T.NoWordsIff(line);
  }

  /**
    A line that says a call, its words set apart by any blanks, makes exactly that call
    if the session is open and the device permits it, and is answered accordingly.
   */
  lemma LineIsDone(lead: string, words: seq<string>, gaps: seq<string>, call: D.TargetCall,
                   d: D.Device, session: Option<D.Session>, gated: bool, nowMs: u32)
    requires 0 < |words| <= 10 && words[0] == "wm" && |words| == |gaps|
    requires T.Blanks(lead) && T.Separate(gaps) && |lead + T.Spaced(words, gaps)| <= 128
    requires forall i :: 0 <= i < |words| ==> T.IsWord(words[i])
    requires M.Says(words, call) && M.Open(words[1], session, gated, nowMs)
    ensures HandleLine(lead + T.Spaced(words, gaps), d, session, gated, nowMs)
         == Handled(Dispatched(M.Answer(call, d).reason), session, M.Answer(call, d).calls)
  {
    T.WordsOfSpaced(lead, words, gaps);
    RepliesTold(lead + T.Spaced(words, gaps), d, session, gated, nowMs);
    M.SaidIsDone(words, call, d, session, gated, nowMs);
  }

  /** And each line is dispatched on exactly the words it was printed from. */
  lemma LineReachesDispatch(words: seq<string>, d: D.Device, session: Option<D.Session>, gated: bool, nowMs: u32)
    requires Sendable(words)
    ensures HandleLine(T.Join(words), d, session, gated, nowMs) ==
            if |words| >= 2 && words[1] == "wifi-status" then Handled(WifiStatus, session, [])
            else HandleWords(words, d, session, gated, nowMs)
  {
    T.JoinedCommandParses(words);
  }
}
