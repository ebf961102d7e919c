/**
  A grammar of the bodies the REST parser takes, written as derivation trees and
  the text each tree spells, and the two theorems that tie the parser to it:
  the parser accepts exactly the bodies with a derivation, and it reads back
  every command printed as JSON.

  The strings follow section 7 of RFC 8259 except that any escaped character is
  allowed and stands for itself unless it is `n`, `r` or `t`; objects follow
  section 4 except that every value is a string and one trailing comma is allowed.
 */
module WebRequestGrammar {
  import opened Common
  import opened WebRequestParser

  datatype Unit = Plain(c: char) | Escaped(c: char)

  /** One name/value pair with the white space before and after each of its tokens. */
  datatype Pair = Pair(beforeKey: string, key: seq<Unit>, beforeColon: string,
                       beforeValue: string, value: seq<Unit>, afterValue: string)

  datatype Members =
    | Close(space: string)
    | LastPair(last: Pair)
    | MorePairs(first: Pair, rest: Members)

  datatype Document = Document(space: string, members: Members)

  // ----- what a tree spells -----

  function SpellUnit(u: Unit): string {
    if u.Plain? then [u.c] else ['\\', u.c]
  }

  function SpellUnits(us: seq<Unit>): string {
    if us == [] then "" else SpellUnit(us[0]) + SpellUnits(us[1..])
  }

  function Quote(s: string): string {
    "\"" + s + "\""
  }

  function SpellString(us: seq<Unit>): string {
    Quote(SpellUnits(us))
  }

  function SpellPair(p: Pair): string {
    p.beforeKey + SpellString(p.key) + p.beforeColon + ":" + p.beforeValue + SpellString(p.value) + p.afterValue
  }

  function SpellMembers(m: Members): string {
    match m
    case Close(space) => space + "}"
    case LastPair(p) => SpellPair(p) + "}"
    case MorePairs(p, rest) => SpellPair(p) + "," + SpellMembers(rest)
  }

  function Spell(d: Document): string {
    d.space + "{" + SpellMembers(d.members)
  }

  // ----- which trees are well formed -----

  predicate Spaces(s: string) {
    forall i :: 0 <= i < |s| ==> s[i] in {' ', '\t', '\n', '\r'}
  }

  predicate UnitOk(u: Unit) {
    u.Plain? ==> u.c != '"' && u.c != '\\'
  }

  predicate UnitsOk(us: seq<Unit>) {
    |us| <= 254 && forall i :: 0 <= i < |us| ==> UnitOk(us[i])
  }

  predicate PairOk(p: Pair) {
    && Spaces(p.beforeKey) && Spaces(p.beforeColon) && Spaces(p.beforeValue) && Spaces(p.afterValue)
    && UnitsOk(p.key) && UnitsOk(p.value)
  }

  predicate MembersOk(m: Members) {
    match m
    case Close(space) => Spaces(space)
    case LastPair(p) => PairOk(p)
    case MorePairs(p, rest) => PairOk(p) && MembersOk(rest)
  }

  // ----- what a tree means -----

  /** A line feed, a tab and a carriage return have an escape; any other escaped character is meant itself. */
  function DecodeUnit(u: Unit): char {
    match u
    case Plain(c) => c
    case Escaped('n') => '\n'
    case Escaped('t') => '\t'
    case Escaped('r') => '\r'
    case Escaped(c) => c
  }

  function Decode(us: seq<Unit>): (r: string)
    ensures |r| == |us|
  {
    if us == [] then "" else [DecodeUnit(us[0])] + Decode(us[1..])
  }

  function Pairs(m: Members): seq<(string, string)> {
    match m
    case Close(_) => []
    case LastPair(p) => [(Decode(p.key), Decode(p.value))]
    case MorePairs(p, rest) => [(Decode(p.key), Decode(p.value))] + Pairs(rest)
  }

  function FieldOf(p: (string, string)): seq<Field> {
    if Truncate(p.0, 63) == "command" then [] else [Field(Truncate(p.0, 63), Truncate(p.1, 255))]
  }

  /** The pairs not named "command", in order, cut to the sizes of a field. */
  function FieldsOf(ps: seq<(string, string)>): seq<Field> {
    if ps == [] then [] else FieldOf(ps[0]) + FieldsOf(ps[1..])
  }

  /** The value of the last pair named "command". */
  function VerbOf(ps: seq<(string, string)>): Option<string> {
    if ps == [] then None
    else if VerbOf(ps[1..]).Some? then VerbOf(ps[1..])
    else if Truncate(ps[0].0, 63) == "command" then Some(Truncate(ps[0].1, 63))
    else None
  }

  /** `body` starts with the object that `d` derives, which fits the parser's tables. */
  predicate Derives(body: string, d: Document, rest: string) {
    && body == Spell(d) + rest
    && Spaces(d.space) && MembersOk(d.members)
    && |FieldsOf(Pairs(d.members))| <= 16
  }

  // ----- tokens -----

  lemma {:induction false} SkipSpaces(w: string, s: string)
    requires Spaces(w) && (s == "" || !IsSpace(s[0]))
    ensures SkipSpace(w + s) == s
  {
    if w != "" {
      assert (w + s)[1..] == w[1..] + s;
      SkipSpaces(w[1..], s);
    } else {
      assert w + s == s;
    }
  }

  lemma {:induction false} SkippedSpaces(s: string) returns (w: string)
    ensures Spaces(w) && s == w + SkipSpace(s)
  {
    if s != "" && IsSpace(s[0]) {
      var w' := SkippedSpaces(s[1..]);
      w := [s[0]] + w';
    } else {
      w := "";
    }
  }

  lemma ScanUnit(u: Unit, s: string, acc: string)
    requires UnitOk(u) && |acc| < MAX_VALUE_SIZE - 1
    ensures ScanString(SpellUnit(u) + s, acc) == ScanString(s, acc + [DecodeUnit(u)])
  {
    assert (SpellUnit(u) + s)[|SpellUnit(u)|..] == s;
  }

  lemma {:induction false} ScanSpelled(us: seq<Unit>, tail: string, acc: string)
    requires |acc| + |us| < MAX_VALUE_SIZE - 1 && tail != "" && tail[0] == '"'
    requires forall i :: 0 <= i < |us| ==> UnitOk(us[i])
    ensures ScanString(SpellUnits(us) + tail, acc) == Lexed(Str(acc + Decode(us)), tail[1..])
  {
    if us == [] {
      assert acc + "" == acc && "" + tail == tail;
    } else {
      ScanSpelled(us[1..], tail, acc + [DecodeUnit(us[0])]);
      ScanUnit(us[0], SpellUnits(us[1..]) + tail, acc);
      Assoc(SpellUnit(us[0]), SpellUnits(us[1..]), tail);
      Assoc(acc, [DecodeUnit(us[0])], Decode(us[1..]));
    }
  }

  lemma UnitScanned(s: string, acc: string) returns (u: Unit, s': string)
    requires ScanString(s, acc).token.Str? && s[0] != '"'
    ensures UnitOk(u) && s == SpellUnit(u) + s' && |acc| < MAX_VALUE_SIZE - 1
    ensures ScanString(s, acc) == ScanString(s', acc + [DecodeUnit(u)])
  {
    u := if s[0] == '\\' then Escaped(s[1]) else Plain(s[0]);
    s' := s[|SpellUnit(u)|..];
    assert s[..|SpellUnit(u)|] == SpellUnit(u);
  }

  lemma FirstUnit(u: Unit, us: seq<Unit>)
    ensures SpellUnits([u] + us) == SpellUnit(u) + SpellUnits(us)
    ensures Decode([u] + us) == [DecodeUnit(u)] + Decode(us)
  {
    assert ([u] + us)[1..] == us;
  }

  lemma {:induction false} ScanDerives(s: string, acc: string) returns (us: seq<Unit>)
    requires ScanString(s, acc).token.Str?
    ensures s == SpellUnits(us) + ("\"" + ScanString(s, acc).rest)
    ensures ScanString(s, acc).token.value == acc + Decode(us)
    ensures |acc| + |us| < MAX_VALUE_SIZE - 1
    ensures forall i :: 0 <= i < |us| ==> UnitOk(us[i])
    decreases |s|
  {
    if s[0] == '"' {
      us := [];
      assert s == "\"" + s[1..];
    } else {
      var u, s' := UnitScanned(s, acc);
      var us' := ScanDerives(s', acc + [DecodeUnit(u)]);
      us := [u] + us';
      FirstUnit(u, us');
      Assoc(acc, [DecodeUnit(u)], Decode(us'));
      Assoc(SpellUnit(u), SpellUnits(us'), "\"" + ScanString(s, acc).rest);
    }
  }

  lemma NextIsString(w: string, us: seq<Unit>, rest: string)
    requires Spaces(w) && UnitsOk(us)
    ensures NextToken(w + SpellString(us) + rest) == Lexed(Str(Decode(us)), rest)
  {
    var t := SpellString(us) + rest;
    SkipSpaces(w, t);
    Assoc(w, SpellString(us), rest);
    Assoc("\"" + SpellUnits(us), "\"", rest);
    Assoc("\"", SpellUnits(us), "\"" + rest);
    assert ("\"" + (SpellUnits(us) + ("\"" + rest)))[1..] == SpellUnits(us) + ("\"" + rest);
    ScanSpelled(us, "\"" + rest, "");
    assert "" + Decode(us) == Decode(us);
  }

  lemma NextIsMark(w: string, c: char, rest: string)
    requires Spaces(w) && IsMark(c)
    ensures NextToken(w + [c] + rest) == Lexed(NextToken([c]).token, rest)
  {
    SkipSpaces(w, [c] + rest);
    assert w + [c] + rest == w + ([c] + rest);
    assert ([c] + rest)[1..] == rest;
  }

  lemma QuotedSpelling(w: string, t: string, us: seq<Unit>, rest: string)
    requires t != "" && t[0] == '"' && t[1..] == SpellUnits(us) + ("\"" + rest)
    ensures w + t == w + SpellString(us) + rest
  {
    assert t == "\"" + t[1..];
  }

  predicate IsMark(c: char) {
    c == '{' || c == '}' || c == ':' || c == ','
  }

  lemma MarkTokens()
    ensures NextToken("{").token == ObjectStart && NextToken("}").token == ObjectEnd
    ensures NextToken(":").token == Colon && NextToken(",").token == Comma
  {
    assert SkipSpace("{") == "{" && SkipSpace("}") == "}" && SkipSpace(":") == ":" && SkipSpace(",") == ",";
  }

  lemma StringDerives(s: string) returns (w: string, us: seq<Unit>)
    requires NextToken(s).token.Str?
    ensures Spaces(w) && UnitsOk(us)
    ensures s == w + SpellString(us) + NextToken(s).rest
    ensures NextToken(s).token.value == Decode(us)
  {
    w := SkippedSpaces(s);
    var t := SkipSpace(s);
    assert NextToken(s) == ScanString(t[1..], "");
    us := ScanDerives(t[1..], "");
    assert "" + Decode(us) == Decode(us);
    QuotedSpelling(w, t, us, NextToken(s).rest);
  }

  lemma MarkHead(s: string, c: char)
    requires IsMark(c) && NextToken(s).token == NextToken([c]).token
    ensures SkipSpace(s) == [c] + NextToken(s).rest
  {
    MarkTokens();
    var t := SkipSpace(s);
    assert t != "" && t[0] == c;
    assert t == [t[0]] + t[1..];
  }

  lemma MarkDerives(s: string, c: char) returns (w: string)
    requires IsMark(c) && NextToken(s).token == NextToken([c]).token
    ensures Spaces(w) && s == w + [c] + NextToken(s).rest
  {
    w := SkippedSpaces(s);
    MarkHead(s, c);
    Assoc(w, [c], NextToken(s).rest);
  }

  // ----- the pair loop -----

  function Fields(cmd: Command, ps: seq<(string, string)>): seq<Field> {
    cmd.fields + FieldsOf(ps)
  }

  function Verb(cmd: Command, ps: seq<(string, string)>): string {
    if VerbOf(ps).Some? then VerbOf(ps).value else cmd.verb
  }

  /** What the loop makes of the pairs `ps` when it starts from `cmd` and `found`. */
  function Meaning(cmd: Command, found: bool, ps: seq<(string, string)>): Outcome {
    Finish(Command(Verb(cmd, ps), Fields(cmd, ps)), found || VerbOf(ps).Some?)
  }

  lemma StoreFields(cmd: Command, key: string, value: string)
    ensures Store(cmd, key, value).fields == cmd.fields + FieldOf((key, value))
  {
  }

  lemma FieldsOfFirst(cmd: Command, ps: seq<(string, string)>)
    requires ps != []
    ensures Fields(cmd, ps) == Fields(Store(cmd, ps[0].0, ps[0].1), ps[1..])
  {
    StoreFields(cmd, ps[0].0, ps[0].1);
    assert ps[0] == (ps[0].0, ps[0].1);
    Assoc(cmd.fields, FieldOf(ps[0]), FieldsOf(ps[1..]));
  }

  lemma MeaningOfFirst(cmd: Command, found: bool, ps: seq<(string, string)>)
    requires ps != []
    ensures Meaning(cmd, found, ps) ==
            Meaning(Store(cmd, ps[0].0, ps[0].1), found || IsCommandKey(ps[0].0), ps[1..])
  {
    FieldsOfFirst(cmd, ps);
  }

  lemma MeaningOfNone(cmd: Command, found: bool)
    ensures Meaning(cmd, found, []) == Finish(cmd, found)
  {
    assert cmd.fields + [] == cmd.fields;
  }

  lemma PairTokens(p: Pair, c: char, rest: string)
    requires PairOk(p) && (c == ',' || c == '}')
    ensures var k := NextToken(SpellPair(p) + [c] + rest);
            var colon := NextToken(k.rest);
            var v := NextToken(colon.rest);
            && k.token == Str(Decode(p.key)) && colon.token == Colon && v.token == Str(Decode(p.value))
            && NextToken(v.rest) == Lexed(if c == ',' then Comma else ObjectEnd, rest)
  {
    var s4 := p.afterValue + [c] + rest;
    var s3 := p.beforeValue + SpellString(p.value) + s4;
    var s2 := p.beforeColon + [':'] + s3;
    var s1 := p.beforeKey + SpellString(p.key) + s2;
    assert SpellPair(p) + [c] + rest == s1;
    NextIsString(p.beforeKey, p.key, s2);
    NextIsMark(p.beforeColon, ':', s3);
    NextIsString(p.beforeValue, p.value, s4);
    NextIsMark(p.afterValue, c, rest);
    MarkTokens();
  }

  lemma PairParsed(p: Pair, c: char, rest: string, cmd: Command, found: bool)
    requires PairOk(p) && (c == ',' || c == '}')
    requires IsCommandKey(Decode(p.key)) || |cmd.fields| < MAX_FIELD_COUNT
    ensures var cmd' := Store(cmd, Decode(p.key), Decode(p.value));
            var found' := found || IsCommandKey(Decode(p.key));
            ParseMembers(SpellPair(p) + [c] + rest, cmd, found) ==
            if c == ',' then ParseMembers(rest, cmd', found') else Finish(cmd', found')
  {
    PairTokens(p, c, rest);
  }

  lemma {:induction false} MembersParsed(m: Members, rest: string, cmd: Command, found: bool)
    requires MembersOk(m) && |cmd.fields| + |FieldsOf(Pairs(m))| <= MAX_FIELD_COUNT
    ensures ParseMembers(SpellMembers(m) + rest, cmd, found) == Meaning(cmd, found, Pairs(m))
    decreases m
  {
    match m
    case Close(space) =>
      NextIsMark(space, '}', rest);
      MarkTokens();
      MeaningOfNone(cmd, found);
    case LastPair(p) =>
      PairParsed(p, '}', rest, cmd, found);
      MeaningOfFirst(cmd, found, Pairs(m));
      MeaningOfNone(Store(cmd, Decode(p.key), Decode(p.value)), found || IsCommandKey(Decode(p.key)));
      assert Pairs(m)[1..] == [];
    case MorePairs(p, more) =>
      Assoc(SpellPair(p) + [','], SpellMembers(more), rest);
      assert Pairs(m)[1..] == Pairs(more);
      PairParsed(p, ',', SpellMembers(more) + rest, cmd, found);
      MembersParsed(more, rest, Store(cmd, Decode(p.key), Decode(p.value)), found || IsCommandKey(Decode(p.key)));
      MeaningOfFirst(cmd, found, Pairs(m));
  }

  predicate Accepted(o: Outcome) {
    o.result == Ok || o.result == MissingRequiredField
  }

  lemma PairSpelled(p: Pair, s: string, s1: string, s2: string, s3: string, c: char, rest: string)
    requires s == p.beforeKey + SpellString(p.key) + s1
    requires s1 == p.beforeColon + [':'] + s2
    requires s2 == p.beforeValue + SpellString(p.value) + s3
    requires s3 == p.afterValue + [c] + rest
    ensures s == SpellPair(p) + [c] + rest
  {
  }

  /** The key and value of the next pair, when the tokens of a pair and its end follow. */
  datatype PairRead = PairRead(key: string, value: string, last: bool, rest: string)

  function ReadPair(s: string): Option<PairRead> {
    var k := NextToken(s);
    var colon := NextToken(k.rest);
    var v := NextToken(colon.rest);
    var sep := NextToken(v.rest);
    if k.token.Str? && colon.token.Colon? && v.token.Str? && (sep.token.Comma? || sep.token.ObjectEnd?)
    then Some(PairRead(k.token.value, v.token.value, sep.token.ObjectEnd?, sep.rest))
    else None
  }

  lemma AcceptedPair(s: string, cmd: Command, found: bool)
    requires Accepted(ParseMembers(s, cmd, found)) && !NextToken(s).token.ObjectEnd?
    ensures ReadPair(s).Some? && |ReadPair(s).value.rest| < |s|
    ensures var r := ReadPair(s).value;
            && (IsCommandKey(r.key) || |cmd.fields| < MAX_FIELD_COUNT)
            && (!r.last ==> ParseMembers(s, cmd, found) ==
                            ParseMembers(r.rest, Store(cmd, r.key, r.value), found || IsCommandKey(r.key)))
  {
  }

  lemma PairDerives(s: string) returns (p: Pair)
    requires ReadPair(s).Some?
    ensures var r := ReadPair(s).value;
            && PairOk(p) && s == SpellPair(p) + [if r.last then '}' else ','] + r.rest
            && r.key == Decode(p.key) && r.value == Decode(p.value)
  {
    var s1 := NextToken(s).rest;
    var s2 := NextToken(s1).rest;
    var s3 := NextToken(s2).rest;
    var sep := NextToken(s3);
    MarkTokens();
    var c := if sep.token.Comma? then ',' else '}';
    var w1, key := StringDerives(s);
    var w2 := MarkDerives(s1, ':');
    var w3, value := StringDerives(s2);
    var w4 := MarkDerives(s3, c);
    p := Pair(w1, key, w2, w3, value, w4);
    PairSpelled(p, s, s1, s2, s3, c, sep.rest);
  }

  lemma FieldsOfMore(p: Pair, more: Members)
    ensures FieldsOf(Pairs(MorePairs(p, more))) == FieldOf((Decode(p.key), Decode(p.value))) + FieldsOf(Pairs(more))
  {
    assert Pairs(MorePairs(p, more))[1..] == Pairs(more);
  }

  lemma {:induction false} MembersDerive(s: string, cmd: Command, found: bool) returns (m: Members, rest: string)
    requires Accepted(ParseMembers(s, cmd, found)) && |cmd.fields| <= MAX_FIELD_COUNT
    ensures MembersOk(m) && s == SpellMembers(m) + rest
    ensures |cmd.fields| + |FieldsOf(Pairs(m))| <= MAX_FIELD_COUNT
    decreases |s|
  {
    if NextToken(s).token.ObjectEnd? {
      MarkTokens();
      var w := MarkDerives(s, '}');
      m, rest := Close(w), NextToken(s).rest;
    } else {
      AcceptedPair(s, cmd, found);
      var r := ReadPair(s).value;
      var p := PairDerives(s);
      StoreFields(cmd, r.key, r.value);
      if r.last {
        m, rest := LastPair(p), r.rest;
        assert Pairs(m)[1..] == [];
      } else {
        var more;
        more, rest := MembersDerive(r.rest, Store(cmd, r.key, r.value), found || IsCommandKey(r.key));
        m := MorePairs(p, more);
        FieldsOfMore(p, more);
        Assoc(SpellPair(p) + [','], SpellMembers(more), rest);
      }
    }
  }

  // ----- the theorems -----

  /** Any derivation of a body gives the parser's answer. */
  lemma DerivationIsParsed(body: string, cmd: Command, d: Document, rest: string)
    requires Derives(body, d, rest) && |body| <= MAX_BODY_SIZE
    ensures Parse(body, cmd) == Meaning(cmd.(fields := []), false, Pairs(d.members))
  {
    var tail := SpellMembers(d.members) + rest;
    DocumentSpelled(d.space, d.members, rest);
    NextIsMark(d.space, '{', tail);
    MarkTokens();
    MembersParsed(d.members, rest, cmd.(fields := []), false);
  }

  lemma DocumentSpelled(w: string, m: Members, rest: string)
    ensures w + ['{'] + (SpellMembers(m) + rest) == Spell(Document(w, m)) + rest
  {
    Assoc(w + ['{'], SpellMembers(m), rest);
  }

  lemma AcceptedDerives(body: string, cmd: Command) returns (d: Document, rest: string)
    requires Accepted(Parse(body, cmd))
    ensures Derives(body, d, rest)
  {
    MarkTokens();
    var w := MarkDerives(body, '{');
    var m;
    m, rest := MembersDerive(NextToken(body).rest, cmd.(fields := []), false);
    d := Document(w, m);
    DocumentSpelled(w, m, rest);
  }

  /**
    The parser gets through the object exactly when some prefix of the body has a
    derivation that fits its tables, and then every such derivation has the same
    meaning: Ok with the last non-empty "command" and the other pairs in order.
   */
  lemma ParserMeetsGrammar(body: string, cmd: Command)
    requires 1 <= |body| <= 1024
    ensures Accepted(Parse(body, cmd)) <==> exists d, rest :: Derives(body, d, rest)
    ensures forall d, rest :: Derives(body, d, rest) ==>
              var ps := Pairs(d.members);
              && (Parse(body, cmd).result == Ok <==> VerbOf(ps).Some? && VerbOf(ps).value != "")
              && (Parse(body, cmd).result == Ok ==> Parse(body, cmd).cmd == Command(VerbOf(ps).value, FieldsOf(ps)))
  {
    if Accepted(Parse(body, cmd)) {
      var d, rest := AcceptedDerives(body, cmd);
    }
    forall d, rest | Derives(body, d, rest)
      ensures Parse(body, cmd) == Meaning(cmd.(fields := []), false, Pairs(d.members))
    {
      DerivationIsParsed(body, cmd, d, rest);
    }
  }

  // ----- printing -----

  /** Quotes, backslashes, line feeds, tabs and carriage returns are escaped. */
  function EscapeChar(c: char): string {
    match c
    case '"' => "\\\""
    case '\\' => "\\\\"
    case '\n' => "\\n"
    case '\t' => "\\t"
    case '\r' => "\\r"
    case _ => [c]
  }

  function Escape(s: string): string {
    if s == "" then ""
    else EscapeChar(s[0]) + Escape(s[1..])
  }

  function PrintPair(f: Field): string {
    Quote(Escape(f.key)) + ":" + Quote(Escape(f.value))
  }

  function PrintPairs(fs: seq<Field>): string
    requires fs != []
  {
    if |fs| == 1 then PrintPair(fs[0]) else PrintPair(fs[0]) + "," + PrintPairs(fs[1..])
  }

  /** The command as a JSON object, with "command" between the fields `pre` and `post`. */
  function Print(pre: seq<Field>, verb: string, post: seq<Field>): string {
    "{" + PrintPairs(pre + [Field("command", verb)] + post) + "}"
  }

  function UnitOf(c: char): Unit {
    var e := EscapeChar(c);
    if |e| == 1 then Plain(c) else Escaped(e[1])
  }

  function UnitsOf(s: string): seq<Unit> {
    if s == "" then [] else [UnitOf(s[0])] + UnitsOf(s[1..])
  }

  lemma {:induction false} UnitsOfText(s: string)
    ensures SpellUnits(UnitsOf(s)) == Escape(s) && Decode(UnitsOf(s)) == s
    ensures forall i :: 0 <= i < |UnitsOf(s)| ==> UnitOk(UnitsOf(s)[i])
  {
    if s != "" {
      UnitsOfText(s[1..]);
      assert UnitsOf(s)[1..] == UnitsOf(s[1..]);
      assert SpellUnit(UnitOf(s[0])) == EscapeChar(s[0]) && DecodeUnit(UnitOf(s[0])) == s[0];
      assert [s[0]] + s[1..] == s;
    }
  }

  function PairOf(f: Field): Pair {
    Pair("", UnitsOf(f.key), "", "", UnitsOf(f.value), "")
  }

  function MembersOf(fs: seq<Field>): Members
    requires fs != []
  {
    if |fs| == 1 then LastPair(PairOf(fs[0])) else MorePairs(PairOf(fs[0]), MembersOf(fs[1..]))
  }

  predicate FitsString(s: string) {
    |s| <= 254 && '\0' !in s
  }

  /** A field that no table cuts short and that is not the verb. */
  predicate IsRegular(f: Field) {
    FitsString(f.key) && |f.key| <= 63 && f.key != "command" && FitsString(f.value)
  }

  function KeyValues(fs: seq<Field>): seq<(string, string)> {
    seq(|fs|, i requires 0 <= i < |fs| => (fs[i].key, fs[i].value))
  }

  lemma PairOfField(f: Field)
    requires FitsString(f.key) && FitsString(f.value)
    ensures PairOk(PairOf(f)) && SpellPair(PairOf(f)) == PrintPair(f)
    ensures (Decode(PairOf(f).key), Decode(PairOf(f).value)) == (f.key, f.value)
    ensures KeyValues([f]) == [(f.key, f.value)]
  {
    var p := PairOf(f);
    UnitsOfText(f.key);
    UnitsOfText(f.value);
    assert Decode(p.key) == f.key && Decode(p.value) == f.value;
    NoSpaces(Quote(Escape(f.key)), Quote(Escape(f.value)));
  }

  lemma NoSpaces(key: string, value: string)
    ensures "" + key + "" + ":" + "" + value + "" == key + ":" + value
  {
  }

  lemma {:induction false} MembersOfFields(fs: seq<Field>)
    requires fs != [] && forall i :: 0 <= i < |fs| ==> FitsString(fs[i].key) && FitsString(fs[i].value)
    ensures MembersOk(MembersOf(fs))
    ensures SpellMembers(MembersOf(fs)) == PrintPairs(fs) + "}"
    ensures Pairs(MembersOf(fs)) == KeyValues(fs)
  {
    PairOfField(fs[0]);
    if |fs| > 1 {
      MembersOfFields(fs[1..]);
      Assoc(PrintPair(fs[0]) + ",", PrintPairs(fs[1..]), "}");
      KeyValuesConcat([fs[0]], fs[1..]);
      assert [fs[0]] + fs[1..] == fs;
    }
  }

  lemma RegularField(f: Field)
    requires IsRegular(f)
    ensures FieldOf((f.key, f.value)) == [f] && !IsCommandKey(f.key)
  {
    CStringOfNulFree(f.key);
    CStringOfNulFree(f.value);
  }

  lemma {:induction false} FieldsOfRegular(pre: seq<Field>, ps: seq<(string, string)>)
    requires forall i :: 0 <= i < |pre| ==> IsRegular(pre[i])
    ensures FieldsOf(KeyValues(pre) + ps) == pre + FieldsOf(ps)
    ensures VerbOf(KeyValues(pre) + ps) == VerbOf(ps)
  {
    if pre == [] {
      assert KeyValues(pre) + ps == ps;
    } else {
      FieldsOfRegular(pre[1..], ps);
      RegularField(pre[0]);
      KeyValuesConcat([pre[0]], pre[1..]);
      assert [pre[0]] + pre[1..] == pre;
      assert KeyValues([pre[0]]) == [(pre[0].key, pre[0].value)];
      Assoc(KeyValues([pre[0]]), KeyValues(pre[1..]), ps);
      assert ([(pre[0].key, pre[0].value)] + (KeyValues(pre[1..]) + ps))[1..] == KeyValues(pre[1..]) + ps;
      Assoc([pre[0]], pre[1..], FieldsOf(ps));
    }
  }

  lemma KeyValuesConcat(a: seq<Field>, b: seq<Field>)
    ensures KeyValues(a + b) == KeyValues(a) + KeyValues(b)
  {
  }

  lemma CommandFirst(verb: string, ps: seq<(string, string)>)
    requires |verb| < NAME_SIZE && '\0' !in verb && VerbOf(ps) == None
    ensures FieldsOf([("command", verb)] + ps) == FieldsOf(ps)
    ensures VerbOf([("command", verb)] + ps) == Some(verb)
  {
    CStringOfNulFree(verb);
    CStringOfNulFree("command");
    assert ([("command", verb)] + ps)[1..] == ps;
  }

  lemma PrintedMeaning(pre: seq<Field>, verb: string, post: seq<Field>)
    requires forall i :: 0 <= i < |pre| ==> IsRegular(pre[i])
    requires forall i :: 0 <= i < |post| ==> IsRegular(post[i])
    requires |verb| < NAME_SIZE && '\0' !in verb
    ensures var ps := KeyValues(pre + [Field("command", verb)] + post);
            FieldsOf(ps) == pre + post && VerbOf(ps) == Some(verb)
  {
    assert KeyValues(post) + [] == KeyValues(post) && post + [] == post;
    FieldsOfRegular(post, []);
    CommandFirst(verb, KeyValues(post));
    FieldsOfRegular(pre, [("command", verb)] + KeyValues(post));
    KeyValuesConcat(pre + [Field("command", verb)], post);
    KeyValuesConcat(pre, [Field("command", verb)]);
    assert KeyValues([Field("command", verb)]) == [("command", verb)];
    Assoc(KeyValues(pre), [("command", verb)], KeyValues(post));
  }

  lemma PrintedDerives(pre: seq<Field>, verb: string, post: seq<Field>) returns (d: Document)
    requires forall i :: 0 <= i < |pre| ==> IsRegular(pre[i])
    requires forall i :: 0 <= i < |post| ==> IsRegular(post[i])
    requires FitsString(verb)
    ensures Print(pre, verb, post) == Spell(d) + "" && Spaces(d.space) && MembersOk(d.members)
    ensures Pairs(d.members) == KeyValues(pre + [Field("command", verb)] + post)
  {
    var fs := pre + [Field("command", verb)] + post;
    MembersOfFields(fs);
    d := Document("", MembersOf(fs));
  }

  /** Reading back what was printed gives the same verb and the same fields in order. */
  lemma RoundTrip(pre: seq<Field>, verb: string, post: seq<Field>, cmd: Command)
    requires forall i :: 0 <= i < |pre| ==> IsRegular(pre[i])
    requires forall i :: 0 <= i < |post| ==> IsRegular(post[i])
    requires 0 < |verb| <= 63 && '\0' !in verb
    requires |pre| + |post| <= 16
    requires |Print(pre, verb, post)| <= 1024
    ensures Parse(Print(pre, verb, post), cmd) == Outcome(Ok, Command(verb, pre + post))
  {
    PrintedMeaning(pre, verb, post);
    var d := PrintedDerives(pre, verb, post);
    DerivationIsParsed(Print(pre, verb, post), cmd, d, "");
    assert [] + (pre + post) == pre + post;
  }
}
