/**
  Which error a body is refused with, told by the text: what was read of it is a
  list of well-formed pairs with a comma after each, and the error is decided by
  what follows them.
 */
module WebRequestErrors {
  import opened Common
  import opened WebRequestGrammar
  import opened WebRequestParser

  // ----- how far a body was read -----

  function PrefixText(ps: seq<Pair>): string {
    if ps == [] then "" else SpellPair(ps[0]) + "," + PrefixText(ps[1..])
  }

  function PairsOf(ps: seq<Pair>): seq<(string, string)> {
    if ps == [] then [] else [(Decode(ps[0].key), Decode(ps[0].value))] + PairsOf(ps[1..])
  }

  predicate EachOk(ps: seq<Pair>) {
    forall i :: 0 <= i < |ps| ==> PairOk(ps[i])
  }

  lemma OneMoreOk(p: Pair, ps: seq<Pair>)
    requires PairOk(p) && EachOk(ps)
    ensures EachOk([p] + ps)
  {
  }

  predicate PairsOk(ps: seq<Pair>) {
    EachOk(ps) && |FieldsOf(PairsOf(ps))| <= 16
  }

  /** The body opens an object, lists `ps`, each with a comma, and goes on with `tail`. */
  predicate Begins(body: string, w: string, ps: seq<Pair>, tail: string) {
    Spaces(w) && PairsOk(ps) && body == w + "{" + (PrefixText(ps) + tail)
  }

  /** A string can be read at the start of `t`, after white space. */
  ghost predicate StartsString(t: string) {
    exists w, us, rest :: SpelledString(t, w, us, rest)
  }

  predicate SpelledString(t: string, w: string, us: seq<Unit>, rest: string) {
    Spaces(w) && UnitsOk(us) && t == w + SpellString(us) + rest
  }

  lemma StringTokens(t: string)
    ensures NextToken(t).token.Str? <==> StartsString(t)
  {
    if NextToken(t).token.Str? {
      var w, us := StringDerives(t);
      assert SpelledString(t, w, us, NextToken(t).rest);
    }
    forall w, us, rest | SpelledString(t, w, us, rest)
      ensures NextToken(t).token.Str?
    {
      NextIsString(w, us, rest);
    }
  }

  // ----- what follows the pairs -----

  /** A key and a colon, and then something other than a string. */
  predicate KeyOf(t: string, w: string, key: seq<Unit>, w': string, after: string) {
    Spaces(w) && Spaces(w') && UnitsOk(key) && t == w + SpellString(key) + (w' + ":" + after)
  }

  ghost predicate ValueMissing(t: string) {
    exists w, key, w', after :: KeyOf(t, w, key, w', after) && !StartsString(after)
  }

  /** A whole pair that is not the verb. */
  ghost predicate FieldFollows(t: string) {
    exists w, key, w', after ::
      KeyOf(t, w, key, w', after) && Truncate(Decode(key), 63) != "command" && StartsString(after)
  }

  lemma KeyTokens(t: string, w: string, key: seq<Unit>, w': string, after: string)
    requires KeyOf(t, w, key, w', after)
    ensures NextToken(t) == Lexed(Str(Decode(key)), w' + ":" + after)
    ensures NextToken(w' + ":" + after) == Lexed(Colon, after)
  {
    NextIsString(w, key, w' + ":" + after);
    NextIsMark(w', ':', after);
    MarkTokens();
  }

  lemma TokensKey(t: string) returns (w: string, key: seq<Unit>, w': string)
    requires NextToken(t).token.Str? && NextToken(NextToken(t).rest).token.Colon?
    ensures KeyOf(t, w, key, w', NextToken(NextToken(t).rest).rest)
    ensures NextToken(t).token.value == Decode(key)
  {
    w, key := StringDerives(t);
    MarkTokens();
    w' := MarkDerives(NextToken(t).rest, ':');
  }

  /** The loop does not go on behind the pair at `t`, if there is one. */
  predicate Stops(t: string, fields: nat) {
    ReadPair(t).None? || ReadPair(t).value.last || (!IsCommandKey(ReadPair(t).value.key) && fields >= 16)
  }

  /** The turn that ends the loop refuses a key without a string value. */
  lemma TurnInvalid(t: string, cmd: Command, found: bool)
    ensures ValueMissing(t) ==> ParseMembers(t, cmd, found).result == InvalidFieldType
    ensures Stops(t, |cmd.fields|) && ParseMembers(t, cmd, found).result == InvalidFieldType ==> ValueMissing(t)
  {
    var colon := NextToken(NextToken(t).rest);
    StringTokens(colon.rest);
    if NextToken(t).token.Str? && colon.token.Colon? {
      var w, key, w' := TokensKey(t);
    }
    forall w, key, w', after | KeyOf(t, w, key, w', after)
      ensures NextToken(t).token.Str? && colon == Lexed(Colon, after)
    {
      KeyTokens(t, w, key, w', after);
    }
  }

  /** And a field for which there is no room. */
  lemma TurnTooLarge(t: string, cmd: Command, found: bool)
    ensures FieldFollows(t) && |cmd.fields| >= 16 ==> ParseMembers(t, cmd, found).result == BodyTooLarge
    ensures Stops(t, |cmd.fields|) && ParseMembers(t, cmd, found).result == BodyTooLarge ==>
              FieldFollows(t) && |cmd.fields| >= 16
  {
    var colon := NextToken(NextToken(t).rest);
    StringTokens(colon.rest);
    if NextToken(t).token.Str? && colon.token.Colon? {
      var w, key, w' := TokensKey(t);
    }
    forall w, key, w', after | KeyOf(t, w, key, w', after)
      ensures NextToken(t).token == Str(Decode(key)) && colon == Lexed(Colon, after)
    {
      KeyTokens(t, w, key, w', after);
    }
  }

  // ----- reading the pairs before it -----

  lemma FirstOfPairs(p: Pair, ps: seq<Pair>)
    ensures PairsOf([p] + ps) == [(Decode(p.key), Decode(p.value))] + PairsOf(ps)
    ensures FieldsOf(PairsOf([p] + ps)) == FieldOf((Decode(p.key), Decode(p.value))) + FieldsOf(PairsOf(ps))
    ensures PrefixText([p] + ps) == SpellPair(p) + "," + PrefixText(ps)
  {
    assert ([p] + ps)[1..] == ps;
    assert PairsOf([p] + ps)[1..] == PairsOf(ps);
  }

  /** The command once the pairs `ps` are read. */
  function Read(cmd: Command, ps: seq<Pair>): Command {
    Command(Verb(cmd, PairsOf(ps)), Fields(cmd, PairsOf(ps)))
  }

  lemma ReadFirst(cmd: Command, p: Pair, ps: seq<Pair>)
    ensures Read(cmd, [p] + ps) == Read(Store(cmd, Decode(p.key), Decode(p.value)), ps)
  {
    FirstOfPairs(p, ps);
    FieldsOfFirst(cmd, PairsOf([p] + ps));
    assert PairsOf([p] + ps)[1..] == PairsOf(ps);
  }

  lemma ReadOneMore(cmd: Command, p: Pair, ps: seq<Pair>, t: string)
    ensures var stored := Store(cmd, Decode(p.key), Decode(p.value));
            && Read(cmd, [p] + ps) == Read(stored, ps)
            && |cmd.fields| + |FieldsOf(PairsOf([p] + ps))| == |stored.fields| + |FieldsOf(PairsOf(ps))|
            && PrefixText([p] + ps) + t == SpellPair(p) + [','] + (PrefixText(ps) + t)
  {
    Assoc(SpellPair(p) + ",", PrefixText(ps), t);
    FirstOfPairs(p, ps);
    ReadFirst(cmd, p, ps);
    StoreFields(cmd, Decode(p.key), Decode(p.value));
  }

  lemma ReadPairShortens(s: string)
    requires ReadPair(s).Some?
    ensures |ReadPair(s).value.rest| < |s|
  {
  }

  lemma {:induction false} PrefixRead(ps: seq<Pair>, t: string, cmd: Command, found: bool)
    requires EachOk(ps) && |cmd.fields| + |FieldsOf(PairsOf(ps))| <= 16
    ensures ParseMembers(PrefixText(ps) + t, cmd, found)
         == ParseMembers(t, Read(cmd, ps), found || VerbOf(PairsOf(ps)).Some?)
  {
    if ps == [] {
      assert PrefixText(ps) + t == t && cmd.fields + [] == cmd.fields;
    } else {
      var p, rest := ps[0], ps[1..];
      assert ps == [p] + rest;
      FirstOfPairs(p, rest);
      StoreFields(cmd, Decode(p.key), Decode(p.value));
      Assoc(SpellPair(p) + ",", PrefixText(rest), t);
      PairParsed(p, ',', PrefixText(rest) + t, cmd, found);
      PrefixRead(rest, t, Store(cmd, Decode(p.key), Decode(p.value)), found || IsCommandKey(Decode(p.key)));
      ReadFirst(cmd, p, rest);
      assert PairsOf(ps)[1..] == PairsOf(rest);
    }
  }

  /** Every text is a list of pairs with a comma each, and something the loop does not go on behind. */
  lemma {:induction false} StopsSomewhere(s: string, cmd: Command) returns (ps: seq<Pair>, t: string)
    requires |cmd.fields| <= 16
    ensures s == PrefixText(ps) + t && Stops(t, |Read(cmd, ps).fields|)
    ensures EachOk(ps) && |cmd.fields| + |FieldsOf(PairsOf(ps))| <= 16
    decreases |s|
  {
    if Stops(s, |cmd.fields|) {
      ps, t := [], s;
      assert "" + s == s && cmd.fields + [] == cmd.fields;
    } else {
      var r := ReadPair(s).value;
      ReadPairShortens(s);
      var p := PairDerives(s);
      var rest;
      StoreFields(cmd, r.key, r.value);
      rest, t := StopsSomewhere(r.rest, Store(cmd, r.key, r.value));
      ps := [p] + rest;
      ReadOneMore(cmd, p, rest, t);
      OneMoreOk(p, rest);
    }
  }

  lemma Opened(body: string, cmd: Command, w: string, ps: seq<Pair>, tail: string)
    requires Begins(body, w, ps, tail) && |body| <= 1024
    ensures var before := Read(cmd.(fields := []), ps);
            && Parse(body, cmd) == ParseMembers(tail, before, VerbOf(PairsOf(ps)).Some?)
            && |before.fields| == |FieldsOf(PairsOf(ps))|
  {
    assert body == w + ['{'] + (PrefixText(ps) + tail);
    NextIsMark(w, '{', PrefixText(ps) + tail);
    MarkTokens();
    PrefixRead(ps, tail, cmd.(fields := []), false);
  }

  /** A body that opens an object begins with pairs up to where the loop stops; any other is malformed. */
  lemma BeginsSomehow(body: string, cmd: Command) returns (w: string, ps: seq<Pair>, tail: string)
    requires 1 <= |body| <= 1024 && Parse(body, cmd).result != MalformedJson
    ensures Begins(body, w, ps, tail) && Stops(tail, |FieldsOf(PairsOf(ps))|)
  {
    MarkTokens();
    w := MarkDerives(body, '{');
    ps, tail := StopsSomewhere(NextToken(body).rest, cmd.(fields := []));
  }

  // ----- the theorem -----

  /** Well-formed pairs are followed by a key whose value is not a string. */
  ghost predicate NotAString(body: string) {
    exists w, ps, tail :: Begins(body, w, ps, tail) && ValueMissing(tail)
  }

  /** Well-formed pairs with sixteen fields are followed by another. */
  ghost predicate SeventeenFields(body: string) {
    exists w, ps, tail :: Begins(body, w, ps, tail) && |FieldsOf(PairsOf(ps))| == 16 && FieldFollows(tail)
  }

  /**
    A body of 1 to 1024 bytes is refused for its field type exactly when a key has
    no string value, as too large exactly when a seventeenth field comes, and as
    malformed exactly when neither is so and no prefix of it has a derivation.
   */
  lemma RefusalTold(body: string, cmd: Command)
    requires 1 <= |body| <= 1024
    ensures Parse(body, cmd).result == InvalidFieldType <==> NotAString(body)
    ensures Parse(body, cmd).result == BodyTooLarge <==> SeventeenFields(body)
    ensures Parse(body, cmd).result == MalformedJson <==>
            !NotAString(body) && !SeventeenFields(body) && !exists d, rest :: Derives(body, d, rest)
  {
    ParserMeetsGrammar(body, cmd);
    forall w, ps, tail | Begins(body, w, ps, tail)
      ensures ValueMissing(tail) ==> Parse(body, cmd).result == InvalidFieldType
      ensures |FieldsOf(PairsOf(ps))| == 16 && FieldFollows(tail) ==> Parse(body, cmd).result == BodyTooLarge
    {
      Opened(body, cmd, w, ps, tail);
      TurnInvalid(tail, Read(cmd.(fields := []), ps), VerbOf(PairsOf(ps)).Some?);
      TurnTooLarge(tail, Read(cmd.(fields := []), ps), VerbOf(PairsOf(ps)).Some?);
    }
    if Parse(body, cmd).result != MalformedJson {
      var w, ps, tail := BeginsSomehow(body, cmd);
      Opened(body, cmd, w, ps, tail);
      TurnInvalid(tail, Read(cmd.(fields := []), ps), VerbOf(PairsOf(ps)).Some?);
      TurnTooLarge(tail, Read(cmd.(fields := []), ps), VerbOf(PairsOf(ps)).Some?);
    }
  }

  /** An empty or overlong body is too large, whatever it holds. */
  lemma SizeTold(body: string, cmd: Command)
    requires |body| == 0 || |body| > 1024
    ensures Parse(body, cmd) == Outcome(BodyTooLarge, cmd)
  {
  }
}
