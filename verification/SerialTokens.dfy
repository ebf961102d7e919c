/**
  Splitting a command line into tokens: the line is copied into a fixed buffer,
  the blank after each token is overwritten by a terminator, and tokens are kept
  as positions in that buffer.
 */
module SerialTokens {
  import opened Common

  const MAX_LINE := 128
  const MAX_TOKENS := 10

  datatype ParseResult = Ok | EmptyLine | NotACommand | LineTooLong | TooManyTokens

  predicate IsBlank(c: char) {
    c == ' ' || c == '\t' || c == '\r'
  }

  /** The length of the run of non-blanks that `s` starts with. */
  function RunLength(s: string): (n: nat)
    ensures n <= |s|
    ensures forall k :: 0 <= k < n ==> !IsBlank(s[k])
    ensures n < |s| ==> IsBlank(s[n])
  {
    if s == "" || IsBlank(s[0]) then 0 else 1 + RunLength(s[1..])
  }

  /** The maximal runs of non-blanks, in order. */
  function Words(s: string): seq<string>
    decreases |s|
  {
    if s == "" then []
    else if IsBlank(s[0]) then Words(s[1..])
    else [s[..RunLength(s)]] + Words(s[RunLength(s)..])
  }

  function FirstTokens(words: seq<string>): seq<string> {
    if |words| <= MAX_TOKENS then words else words[..MAX_TOKENS]
  }

  function ResultFor(line: string): ParseResult {
    var words := Words(line);
    if |line| > MAX_LINE then LineTooLong
    else if words == [] then EmptyLine
    else if words[0] != "wm" then NotACommand
    else if |words| > MAX_TOKENS then TooManyTokens
    else Ok
  }

  /** `word` starts at `at` and is followed by a terminator. */
  ghost predicate TokenAt(buf: seq<char>, at: nat, word: string) {
    && at + |word| < |buf| && buf[at..at + |word|] == word && buf[at + |word|] == '\0' && '\0' !in word
  }

  /** The C strings at the positions `ats` of a buffer. */
  function Texts(buf: seq<char>, ats: seq<nat>): (r: seq<string>)
    requires forall i :: 0 <= i < |ats| ==> ats[i] <= |buf|
    ensures |r| == |ats| && forall i :: 0 <= i < |r| ==> r[i] == CString(buf[ats[i]..])
  {
    seq(|ats|, i requires 0 <= i < |ats| => CString(buf[ats[i]..]))
  }

  lemma TokensRead(buf: seq<char>, ats: seq<nat>, words: seq<string>)
    requires |ats| == |words| && forall i :: 0 <= i < |ats| ==> ats[i] <= |buf| && TokenAt(buf, ats[i], words[i])
    ensures Texts(buf, ats) == words
  {
    forall i | 0 <= i < |words|
      ensures Texts(buf, ats)[i] == words[i]
    {
      TokenReads(buf, ats[i], words[i]);
    }
  }

  lemma TokenReads(buf: seq<char>, at: nat, word: string)
    requires TokenAt(buf, at, word)
    ensures CString(buf[at..]) == word
  {
    CStringOfTerminated(word, buf[at + |word| + 1..]);
    assert buf[at..] == word + ['\0'] + buf[at + |word| + 1..];
  }

  lemma TokenSurvives(buf: seq<char>, at: nat, word: string, p: nat)
    requires TokenAt(buf, at, word) && at + |word| < p < |buf|
    ensures TokenAt(buf[p := '\0'], at, word)
  {
    assert buf[p := '\0'][at..at + |word|] == buf[at..at + |word|];
  }

  /** The line from `p` on is still unread, and the tokens so far are `words`, ended before `p` or by the end. */
  ghost predicate SplitUpTo(buf: seq<char>, ats: seq<nat>, count: nat, line: string, p: nat, words: seq<string>) {
    && |buf| == MAX_LINE + 1 && |ats| == MAX_TOKENS && count == |words| <= MAX_TOKENS
    && p <= |line| <= MAX_LINE && '\0' !in line
    && buf[p..|line|] == line[p..] && buf[|line|] == '\0'
    && forall i :: 0 <= i < |words| ==>
         ats[i] <= MAX_LINE && TokenAt(buf, ats[i], words[i]) && (ats[i] + |words[i]| < p || p == |line|)
  }

  /** Where splitting goes on after the word at `p`: behind its terminator, or at the end. */
  function AfterWord(line: string, p: nat): nat
    requires p < |line|
  {
    var end := p + RunLength(line[p..]);
    if end == |line| then end else end + 1
  }

  lemma WordCut(line: string, p: nat)
    requires p < |line| && !IsBlank(line[p])
    ensures Words(line[p..]) == [line[p..][..RunLength(line[p..])]] + Words(line[AfterWord(line, p)..])
  {
    var n := RunLength(line[p..]);
    assert line[p..][n..] == line[p + n..];
    if p + n < |line| {
      assert IsBlank(line[p..][n]) && line[p + n..][1..] == line[p + n + 1..];
    }
  }

  lemma NewToken(buf: seq<char>, line: string, p: nat)
    requires p < |line| < |buf| && '\0' !in line && buf[p..|line|] == line[p..]
    ensures var n := RunLength(line[p..]);
            TokenAt(buf[p + n := '\0'], p, line[p..][..n])
  {
    var n := RunLength(line[p..]);
    assert buf[p + n := '\0'][p..p + n] == buf[p..|line|][..n] == line[p..][..n];
  }

  /** Terminating the word at `p` and recording its place keeps the earlier tokens. */
  lemma TokenCut(buf: seq<char>, ats: seq<nat>, line: string, p: nat, words: seq<string>)
    requires SplitUpTo(buf, ats, |words|, line, p, words) && |words| < MAX_TOKENS && p < |line|
    ensures var n := RunLength(line[p..]);
            SplitUpTo(buf[p + n := '\0'], ats[|words| := p], |words| + 1, line, AfterWord(line, p),
                      words + [line[p..][..n]])
  {
    var n, q := RunLength(line[p..]), AfterWord(line, p);
    var buf' := buf[p + n := '\0'];
    assert buf'[q..|line|] == buf[p..|line|][q - p..] == line[q..];
    NewToken(buf, line, p);
    var ats', words' := ats[|words| := p], words + [line[p..][..n]];
    forall i | 0 <= i < |words'|
      ensures TokenAt(buf', ats'[i], words'[i]) && (ats'[i] + |words'[i]| < q || q == |line|)
    {
      if i < |words| {
        TokenSurvives(buf, ats[i], words[i], p + n);
      }
    }
  }

  /** The tokens recorded so far read back as the words they were cut from. */
  lemma SplitRead(buf: seq<char>, ats: seq<nat>, count: nat, line: string, p: nat, words: seq<string>)
    requires SplitUpTo(buf, ats, count, line, p, words)
    ensures forall i :: 0 <= i < count ==> ats[i] <= MAX_LINE
    ensures Texts(buf, ats[..count]) == words
  {
    TokensRead(buf, ats[..count], words);
  }

  class SerialParsedCommand {
    const buf: array<char>
    const tokens: array<nat>
    var tokenCount: nat

    ghost predicate Valid()
      reads this, tokens
    {
      && buf.Length == MAX_LINE + 1 && tokens.Length == MAX_TOKENS && tokenCount <= MAX_TOKENS
      && forall i :: 0 <= i < tokenCount ==> tokens[i] <= MAX_LINE
    }

    /** The tokens, each read back as a C string from its position. */
    function View(): seq<string>
      requires Valid()
      reads this, buf, tokens
    {
      Texts(buf[..], tokens[..tokenCount])
    }

    constructor ()
      ensures Valid() && View() == [] && fresh(buf) && fresh(tokens)
    {
      buf := new char[MAX_LINE + 1](_ => '\0');
      tokens := new nat[MAX_TOKENS](_ => 0);
      tokenCount := 0;
    }

    ghost predicate Splitting(line: string, p: nat, words: seq<string>)
      reads this, buf, tokens
    {
      SplitUpTo(buf[..], tokens[..], tokenCount, line, p, words)
    }

    method CopyLine(line: string)
      requires Valid() && |line| <= MAX_LINE && '\0' !in line
      modifies this`tokenCount, buf
      ensures Splitting(line, 0, [])
    {
      for i := 0 to |line|
        invariant buf[..i] == line[..i]
      {
        buf[i] := line[i];
      }
      buf[|line|] := '\0';
      tokenCount := 0;
    }

    method SkipBlanks(line: string, p: nat, ghost words: seq<string>) returns (q: nat)
      requires Splitting(line, p, words)
      ensures p <= q && Splitting(line, q, words)
      ensures Words(line[q..]) == Words(line[p..]) && (q < |line| ==> !IsBlank(line[q]))
    {
      q := p;
      while IsBlank(buf[q])
        invariant p <= q && Splitting(line, q, words) && Words(line[q..]) == Words(line[p..])
        decreases |line| - q
      {
        assert q < |line| && buf[q] == buf[q..|line|][0] == line[q];
        assert line[q..][1..] == line[q + 1..];
        assert buf[q + 1..|line|] == buf[q..|line|][1..];
        q := q + 1;
      }
      assert q < |line| ==> buf[q] == buf[q..|line|][0];
    }

    static lemma EndOfRun(line: string, p: nat, q: nat, buf: seq<char>)
      requires p < |line| < |buf| && p <= q <= p + RunLength(line[p..]) && '\0' !in line
      requires buf[p..|line|] == line[p..] && buf[|line|] == '\0'
      ensures (buf[q] != '\0' && !IsBlank(buf[q])) <==> q < p + RunLength(line[p..])
      ensures buf[q] == '\0' <==> q == |line|
    {
      if q < |line| {
        assert buf[q] == buf[p..|line|][q - p] == line[q] == line[p..][q - p];
      }
    }

    method SkipBody(line: string, p: nat, ghost words: seq<string>) returns (q: nat)
      requires Splitting(line, p, words) && p < |line|
      ensures q == p + RunLength(line[p..]) && (buf[q] == '\0' <==> q == |line|)
    {
      q := p;
      EndOfRun(line, p, q, buf[..]);
      while buf[q] != '\0' && !IsBlank(buf[q])
        invariant p <= q <= p + RunLength(line[p..])
        invariant (buf[q] != '\0' && !IsBlank(buf[q])) <==> q < p + RunLength(line[p..])
        decreases |line| - q
      {
        q := q + 1;
        EndOfRun(line, p, q, buf[..]);
      }
      EndOfRun(line, p, q, buf[..]);
    }

    /** Advances past the token body at `p` and puts a terminator after it. */
    method CutToken(line: string, p: nat, ghost words: seq<string>) returns (q: nat)
      requires Splitting(line, p, words) && tokenCount < MAX_TOKENS && p < |line| && !IsBlank(line[p])
      modifies this`tokenCount, buf, tokens
      ensures p < q
      ensures Splitting(line, q, words + [line[p..][..RunLength(line[p..])]])
      ensures Words(line[p..]) == [line[p..][..RunLength(line[p..])]] + Words(line[q..])
    {
      ghost var before, ats := buf[..], tokens[..];
      q := SkipBody(line, p, words);
      tokens[tokenCount] := p;
      tokenCount := tokenCount + 1;
      if buf[q] != '\0' {
        buf[q] := '\0';
        q := q + 1;
      }
      assert q == AfterWord(line, p);
      assert buf[..] == before[p + RunLength(line[p..]) := '\0'] && tokens[..] == ats[|words| := p];
      TokenCut(before, ats, line, p, words);
      WordCut(line, p);
    }
  }

  /** The token loop; `tooMany` tells that a further token was there. */
  method SplitTokens(line: string, out: SerialParsedCommand) returns (tooMany: bool)
    requires '\0' !in line && |line| <= MAX_LINE && out.Valid()
    modifies out`tokenCount, out.buf, out.tokens
    ensures out.Valid() && out.View() == FirstTokens(Words(line))
    ensures tooMany <==> |Words(line)| > MAX_TOKENS
  {
    out.CopyLine(line);
    var p := 0;
    tooMany := false;
    ghost var words: seq<string> := [];
    assert line[0..] == line;
    while out.buf[p] != '\0'
      invariant !tooMany && out.Splitting(line, p, words)
      invariant Words(line) == words + Words(line[p..])
      decreases |line| - p
    {
      p := out.SkipBlanks(line, p, words);
      if out.buf[p] == '\0' {
        break;
      }
      if out.tokenCount >= MAX_TOKENS {
        tooMany := true;
        break;
      }
      ghost var word := line[p..][..RunLength(line[p..])];
      p := out.CutToken(line, p, words);
      Assoc(words, [word], Words(line[p..]));
      words := words + [word];
    }
    assert p < |line| ==> out.buf[p..|line|][0] == line[p];
    SplitRead(out.buf[..], out.tokens[..], out.tokenCount, line, p, words);
    assert out.tokens[..out.tokenCount] == out.tokens[..][..out.tokenCount];
  }

  method SerialCommandParse(line: string, out: SerialParsedCommand) returns (r: ParseResult)
    requires '\0' !in line && out.Valid()
    modifies out`tokenCount, out.buf, out.tokens
    ensures out.Valid() && r == ResultFor(line)
    ensures out.View() == if |line| > MAX_LINE then old(out.View()) else FirstTokens(Words(line))
  {
    if |line| > MAX_LINE {
      return LineTooLong;
    }
    var tooMany := SplitTokens(line, out);
    if out.tokenCount == 0 {
      return EmptyLine;
    }
    assert out.View()[0] == CString(out.buf[..][out.tokens[0]..]);
    if CString(out.buf[out.tokens[0]..]) != "wm" {
      return NotACommand;
    }
    if tooMany {
      return TooManyTokens;
    }
    return Ok;
  }

  // ----- joining words -----

  /** What stands between words: spaces, tabs and carriage returns. */
  const BLANKS := {' ', '\t', '\r'}

  predicate Blanks(s: string) {
    forall k :: 0 <= k < |s| ==> s[k] in BLANKS
  }

  predicate IsWord(w: string) {
    w != "" && forall k :: 0 <= k < |w| ==> w[k] !in BLANKS
  }

  function Join(words: seq<string>): string {
    if words == [] then "" else if |words| == 1 then words[0] else words[0] + " " + Join(words[1..])
  }

  lemma {:induction false} RunOfWord(w: string, rest: string)
    requires forall k :: 0 <= k < |w| ==> !IsBlank(w[k])
    requires rest == "" || IsBlank(rest[0])
    ensures RunLength(w + rest) == |w|
  {
    if w == "" {
      assert w + rest == rest;
    } else {
      assert (w + rest)[1..] == w[1..] + rest;
      RunOfWord(w[1..], rest);
    }
  }

  lemma FirstWord(w: string, rest: string)
    requires IsWord(w) && (rest == "" || IsBlank(rest[0]))
    ensures Words(w + rest) == [w] + Words(rest)
  {
    RunOfWord(w, rest);
    assert (w + rest)[..|w|] == w && (w + rest)[|w|..] == rest;
  }

  lemma {:induction false} BlanksFirst(lead: string, rest: string)
    requires Blanks(lead)
    ensures Words(lead + rest) == Words(rest)
  {
    if lead == "" {
      assert lead + rest == rest;
    } else {
      assert (lead + rest)[1..] == lead[1..] + rest;
      BlanksFirst(lead[1..], rest);
    }
  }

  /** The words with `gaps[i]` behind the i-th. */
  function Spaced(words: seq<string>, gaps: seq<string>): string
    requires |words| == |gaps|
  {
    if words == [] then "" else words[0] + (gaps[0] + Spaced(words[1..], gaps[1..]))
  }

  /** Only the last gap may be empty, and all are blank. */
  predicate Separate(gaps: seq<string>) {
    forall i :: 0 <= i < |gaps| ==> Blanks(gaps[i]) && (i + 1 < |gaps| ==> gaps[i] != "")
  }

  /**
    Splitting gives back words set apart by blanks of any kind and number, and
    blanks before and behind do not matter.
   */
  lemma {:induction false} WordsOfSpaced(lead: string, words: seq<string>, gaps: seq<string>)
    requires Blanks(lead) && |words| == |gaps| && Separate(gaps)
    requires forall i :: 0 <= i < |words| ==> IsWord(words[i])
    ensures Words(lead + Spaced(words, gaps)) == words
    decreases |words|
  {
    BlanksFirst(lead, Spaced(words, gaps));
    if words != [] {
      var tail := gaps[0] + Spaced(words[1..], gaps[1..]);
      WordsOfSpaced(gaps[0], words[1..], gaps[1..]);
      FirstWord(words[0], tail);
    }
  }

  /** Splitting joined words gives the words back. */
  lemma {:induction false} WordsOfJoin(words: seq<string>)
    requires forall i :: 0 <= i < |words| ==> IsWord(words[i])
    ensures Words(Join(words)) == words
  {
    if |words| == 1 {
      FirstWord(words[0], "");
      assert words[0] + "" == words[0];
    } else if |words| > 1 {
      var tail := " " + Join(words[1..]);
      WordsOfJoin(words[1..]);
      assert tail[1..] == Join(words[1..]);
      FirstWord(words[0], tail);
      assert Join(words) == words[0] + tail;
    }
  }

  // ----- words and their places -----

  predicate StartsRun(s: string, p: nat)
    requires p < |s|
  {
    !IsBlank(s[p]) && (p == 0 || IsBlank(s[p - 1]))
  }

  /** Where the words of `s[from..]` start. */
  function Starts(s: string, from: nat): seq<nat>
    requires from <= |s|
    decreases |s| - from
  {
    if from == |s| then []
    else if IsBlank(s[from]) then Starts(s, from + 1)
    else [from] + Starts(s, from + RunLength(s[from..]))
  }

  /** `w` is a word of `s` at `at` that nothing but a blank or the end follows. */
  predicate WordAt(s: string, at: nat, w: string) {
    && IsWord(w) && at + |w| <= |s| && s[at..at + |w|] == w
    && (at + |w| == |s| || IsBlank(s[at + |w|]))
  }

  lemma {:induction false} OneStartPerWord(s: string, from: nat)
    requires from <= |s|
    ensures |Starts(s, from)| == |Words(s[from..])|
    decreases |s| - from
  {
    if from < |s| {
      if IsBlank(s[from]) {
        assert s[from..][1..] == s[from + 1..];
        OneStartPerWord(s, from + 1);
      } else {
        var n := RunLength(s[from..]);
        assert s[from..][n..] == s[from + n..];
        OneStartPerWord(s, from + n);
      }
    }
  }

  lemma RunAt(s: string, from: nat)
    requires from < |s| && !IsBlank(s[from])
    ensures var n := RunLength(s[from..]);
            && n > 0 && WordAt(s, from, s[from..][..n])
            && (forall p :: from <= p < from + n ==> !IsBlank(s[p]))
  {
    var n := RunLength(s[from..]);
    assert s[from..][..n] == s[from..from + n];
    assert forall p :: from <= p < from + n ==> s[p] == s[from..][p - from];
    assert n < |s[from..]| ==> s[from..][n] == s[from + n];
  }

  lemma {:induction false} WordPlaced(s: string, from: nat, i: nat)
    requires from <= |s| && i < |Words(s[from..])| == |Starts(s, from)|
    ensures from <= Starts(s, from)[i] && WordAt(s, Starts(s, from)[i], Words(s[from..])[i])
    decreases |s| - from
  {
    if IsBlank(s[from]) {
      assert s[from..][1..] == s[from + 1..];
      WordPlaced(s, from + 1, i);
    } else {
      RunAt(s, from);
      var n := RunLength(s[from..]);
      if i > 0 {
        assert s[from..][n..] == s[from + n..];
        WordPlaced(s, from + n, i - 1);
      }
    }
  }

  lemma {:induction false} StartsIncrease(s: string, from: nat, i: nat, j: nat)
    requires from <= |s| && i < j < |Starts(s, from)|
    ensures Starts(s, from)[i] < Starts(s, from)[j]
    decreases |s| - from
  {
    if IsBlank(s[from]) {
      StartsIncrease(s, from + 1, i, j);
    } else {
      var next := from + RunLength(s[from..]);
      if i > 0 {
        StartsIncrease(s, next, i - 1, j - 1);
      } else {
        OneStartPerWord(s, next);
        WordPlaced(s, next, j - 1);
      }
    }
  }

  /** A run has no start but its first place. */
  lemma RunStartsOnce(s: string, from: nat, p: nat, later: seq<nat>)
    requires from < |s| && p < |s| && StartsRun(s, from)
    requires p in later <==> from + RunLength(s[from..]) <= p && StartsRun(s, p)
    ensures p in [from] + later <==> from <= p && StartsRun(s, p)
  {
    RunAt(s, from);
  }

  /** From a place between runs on, the starts are exactly the places where a run starts. */
  lemma {:induction false} StartsAreRuns(s: string, from: nat, p: nat)
    requires from <= |s| && (from == 0 || from == |s| || IsBlank(s[from - 1]) || IsBlank(s[from])) && p < |s|
    ensures p in Starts(s, from) <==> from <= p && StartsRun(s, p)
    decreases |s| - from
  {
    if from == |s| {
      assert Starts(s, from) == [];
    } else if IsBlank(s[from]) {
      StartsAreRuns(s, from + 1, p);
      assert Starts(s, from) == Starts(s, from + 1);
    } else {
      RunAt(s, from);
      var next := from + RunLength(s[from..]);
      StartsAreRuns(s, next, p);
      RunStartsOnce(s, from, p, Starts(s, next));
      assert Starts(s, from) == [from] + Starts(s, next);
    }
  }

  /**
    The words of a line are its maximal runs of non-blanks, in order: they stand at
    increasing places, which are exactly those where a run starts.
   */
  lemma WordsAreMaximalRuns(s: string)
    ensures var ats := Starts(s, 0);
            && |ats| == |Words(s)|
            && (forall i :: 0 <= i < |ats| ==> WordAt(s, ats[i], Words(s)[i]))
            && (forall i, j :: 0 <= i < j < |ats| ==> ats[i] < ats[j])
            && (forall p :: 0 <= p < |s| ==> (p in ats <==> StartsRun(s, p)))
  {
    assert s[0..] == s;
    OneStartPerWord(s, 0);
    forall i | 0 <= i < |Words(s)|
      ensures WordAt(s, Starts(s, 0)[i], Words(s)[i])
    {
      WordPlaced(s, 0, i);
    }
    forall i, j | 0 <= i < j < |Starts(s, 0)|
      ensures Starts(s, 0)[i] < Starts(s, 0)[j]
    {
      StartsIncrease(s, 0, i, j);
    }
    forall p | 0 <= p < |s|
      ensures p in Starts(s, 0) <==> StartsRun(s, p)
    {
      StartsAreRuns(s, 0, p);
    }
  }

  /** A command of up to ten words joined by spaces parses to exactly those words. */
  lemma JoinedCommandParses(words: seq<string>)
    requires 0 < |words| <= 10 && words[0] == "wm" && |Join(words)| <= 128
    requires forall i :: 0 <= i < |words| ==> IsWord(words[i])
    ensures ResultFor(Join(words)) == Ok && FirstTokens(Words(Join(words))) == words
  {
    WordsOfJoin(words);
  }

  /** And so does one set apart by any blanks. */
  lemma SpacedCommandParses(lead: string, words: seq<string>, gaps: seq<string>)
    requires 0 < |words| <= 10 && words[0] == "wm" && |words| == |gaps|
    requires Blanks(lead) && Separate(gaps) && |lead + Spaced(words, gaps)| <= 128
    requires forall i :: 0 <= i < |words| ==> IsWord(words[i])
    ensures var line := lead + Spaced(words, gaps);
            ResultFor(line) == Ok && FirstTokens(Words(line)) == words
  {
    WordsOfSpaced(lead, words, gaps);
  }

  /**
    Which lines are refused, and why: a line is too long before it is anything else,
    and too many words matter last.
   */
  lemma RefusalsTold(line: string)
    ensures ResultFor(line) == LineTooLong <==> |line| > 128
    ensures ResultFor(line) == EmptyLine <==> |line| <= 128 && Blanks(line)
    ensures ResultFor(line) == NotACommand <==> |line| <= 128 && Words(line) != [] && Words(line)[0] != "wm"
    ensures ResultFor(line) == TooManyTokens <==>
            |line| <= 128 && |Words(line)| > 10 && Words(line)[0] == "wm"
  {
    NoWordsIff(line);
  }

  lemma {:induction false} NoWordsIff(line: string)
    ensures Words(line) == [] <==> Blanks(line)
  {
    if line != "" && IsBlank(line[0]) {
      NoWordsIff(line[1..]);
      assert Blanks(line) <==> Blanks(line[1..]);
    }
  }
}
