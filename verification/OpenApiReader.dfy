/**
  Reading the generated OpenAPI document back: a reader of its text, and the proof
  that it recovers every key, operation and response that was written.
 */
module OpenApiReader {
  import opened Common
  import opened OpenApi

  // ----- the text of each part -----

  function Commas(ts: seq<string>): string {
    if ts == [] then "" else if |ts| == 1 then ts[0] else ts[0] + "," + Commas(ts[1..])
  }

  const DESCRIPTION_KEY := "\"description\":"

  function ResponseStart(code: string): string {
    "\"" + code + "\":{" + DESCRIPTION_KEY + "\""
  }

  function ResponseLine(r: Response): string {
    ResponseStart(r.code) + r.description + "\"}"
  }

  function ResponseLines(rs: seq<Response>): seq<string> {
    seq(|rs|, i requires 0 <= i < |rs| => ResponseLine(rs[i]))
  }

  /** The two methods of the API are written in lower case. */
  function KeyOfVerb(verb: string): string {
    match verb
    case "GET" => "get"
    case "POST" => "post"
    case _ => verb
  }

  const SUMMARY_KEY := "\"summary\":"
  const BEARER := "\"security\":[{\"bearerAuth\":[]}]"
  const RESPONSES_KEY := "\"responses\":{"

  function OperationLine(r: Route): string {
    "\"" + KeyOfVerb(r.verb) + "\":{" + (SUMMARY_KEY + "\"" + r.summary + "\",") + BEARER + ","
    + (RESPONSES_KEY + Commas(ResponseLines(r.responses)) + "}") + "}"
  }

  function OperationLines(rs: seq<Route>): seq<string> {
    seq(|rs|, i requires 0 <= i < |rs| => OperationLine(rs[i]))
  }

  function GroupLine(g: Group): string {
    "\"" + g.path + "\":{" + Commas(OperationLines(g.routes)) + "}"
  }

  function GroupLines(gs: seq<Group>): seq<string> {
    seq(|gs|, i requires 0 <= i < |gs| => GroupLine(gs[i]))
  }

  const OPENING :=
    "{\"openapi\":\"3.0.3\",\"info\":{\"title\":\"ESP32Wiimote Wi-Fi API\",\"version\":\"0.4.0\"},\"paths\":{"
  const CLOSING := ",\"components\":{\"securitySchemes\":{\"bearerAuth\":{\"type\":\"http\",\"scheme\":\"bearer\"}}}}"

  // ----- the pieces spell that text -----

  lemma {:induction false} ConcatConcat(a: seq<string>, b: seq<string>)
    ensures Concat(a + b) == Concat(a) + Concat(b)
  {
    if a == [] {
      assert a + b == b;
    } else {
      assert (a + b)[1..] == a[1..] + b;
      ConcatConcat(a[1..], b);
    }
  }

  lemma OnePiece(t: string)
    ensures Concat([t]) == t
  {
    assert [t][1..] == [];
  }

  lemma {:induction false} JoinedText(pss: seq<seq<string>>, ts: seq<string>)
    requires |pss| == |ts| && forall i :: 0 <= i < |pss| ==> Concat(pss[i]) == ts[i]
    ensures Concat(Joined(pss)) == Commas(ts)
  {
    if |pss| > 1 {
      JoinedText(pss[1..], ts[1..]);
      ConcatConcat(pss[0] + [","], Joined(pss[1..]));
      ConcatConcat(pss[0], [","]);
      OnePiece(",");
    }
  }

  lemma ResponseIsLine(r: Response)
    ensures Concat([ResponseText(r)]) == ResponseLine(r)
  {
    assert "\":{" + DESCRIPTION_KEY + "\"" == "\":{\"description\":\"";
    OnePiece(ResponseText(r));
    Middle("\"" + r.code, "\":{", DESCRIPTION_KEY, "\"");
  }

  lemma Middle(a: string, b: string, c: string, d: string)
    ensures a + (b + c + d) == a + b + c + d
  {
  }

  lemma ResponsesText(rs: seq<Response>)
    ensures Concat(ResponsesPieces(rs)) == RESPONSES_KEY + Commas(ResponseLines(rs)) + "}"
  {
    forall i | 0 <= i < |rs|
      ensures Concat(EachResponse(rs)[i]) == ResponseLines(rs)[i]
    {
      ResponseIsLine(rs[i]);
    }
    JoinedText(EachResponse(rs), ResponseLines(rs));
    ConcatConcat([RESPONSES_KEY] + Joined(EachResponse(rs)), ["}"]);
    ConcatConcat([RESPONSES_KEY], Joined(EachResponse(rs)));
    OnePiece(RESPONSES_KEY);
    OnePiece("}");
  }

  lemma HeadText(r: Route)
    ensures Concat(OperationHead(r))
         == "\"" + KeyOfVerb(r.verb) + "\":{" + (SUMMARY_KEY + "\"" + r.summary + "\",") + BEARER + ","
  {
    var k, s := KeyOpen(MethodName(r.verb)), SummaryText(r.summary);
    assert SUMMARY_KEY + "\"" == "\"summary\":\"";
    ConcatAppend([k, s, BEARER], ",");
    ConcatAppend([k, s], BEARER);
    ConcatAppend([k], s);
    OnePiece(k);
    assert [k, s] == [k] + [s] && [k, s, BEARER] == [k, s] + [BEARER];
    assert OperationHead(r) == [k, s, BEARER] + [","];
  }

  lemma OperationText(r: Route)
    ensures Concat(OperationPieces(r)) == OperationLine(r)
  {
    HeadText(r);
    ResponsesText(r.responses);
    ConcatConcat(OperationHead(r) + ResponsesPieces(r.responses), ["}"]);
    ConcatConcat(OperationHead(r), ResponsesPieces(r.responses));
    OnePiece("}");
  }

  lemma GroupText(g: Group)
    ensures Concat(GroupPieces(g)) == GroupLine(g)
  {
    forall i | 0 <= i < |g.routes|
      ensures Concat(EachOperation(g.routes)[i]) == OperationLines(g.routes)[i]
    {
      OperationText(g.routes[i]);
    }
    JoinedText(EachOperation(g.routes), OperationLines(g.routes));
    ConcatConcat([KeyOpen(g.path)] + Joined(EachOperation(g.routes)), ["}"]);
    ConcatConcat([KeyOpen(g.path)], Joined(EachOperation(g.routes)));
    OnePiece(KeyOpen(g.path));
    OnePiece("}");
  }

  /** The document is one list of keys between its opening and its closing. */
  lemma DocumentText(routes: seq<Route>, extra: seq<Route>)
    ensures Document(routes, extra) == OPENING + Commas(GroupLines(DocumentGroups(routes, extra))) + ("}" + CLOSING)
  {
    var gs := DocumentGroups(routes, extra);
    forall i | 0 <= i < |gs|
      ensures Concat(EachGroup(gs)[i]) == GroupLines(gs)[i]
    {
      GroupText(gs[i]);
    }
    KeysDistinctIff(routes, extra);
    JoinedText(EachGroup(gs), GroupLines(gs));
    assert Listed(gs, true) == Joined(EachGroup(gs));
    ConcatConcat([HEADER] + Joined(EachGroup(gs)), [FOOTER]);
    ConcatConcat([HEADER], Joined(EachGroup(gs)));
    OnePiece(HEADER);
    OnePiece(FOOTER);
  }

  // ----- the reader -----

  /** The rest of a text that begins with `lead`. */
  function Take(lead: string, text: string): Option<string> {
    if lead <= text then Some(text[|lead|..]) else None
  }

  /** The characters before the next quote, and the rest after it. */
  function Word(text: string): Option<(string, string)> {
    if text == "" then None
    else if text[0] == '"' then Some(("", text[1..]))
    else match Word(text[1..])
      case None => None
      case Some((w, rest)) => Some(([text[0]] + w, rest))
  }

  /** Items separated by commas and closed by a brace. */
  function ReadItems<T>(read: string -> Option<(T, string)>, text: string): Option<(seq<T>, string)>
    decreases |text|
  {
    match read(text)
    case None => None
    case Some((x, rest)) =>
      if rest == "" || |rest| >= |text| then None
      else if rest[0] == '}' then Some(([x], rest[1..]))
      else if rest[0] != ',' then None
      else match ReadItems(read, rest[1..])
        case None => None
        case Some((xs, end)) => Some(([x] + xs, end))
  }

  function ReadList<T>(read: string -> Option<(T, string)>, text: string): Option<(seq<T>, string)> {
    if text != "" && text[0] == '}' then Some(([], text[1..])) else ReadItems(read, text)
  }

  /** A quoted word between two given texts. */
  function Quoted(lead: string, text: string, tail: string): Option<(string, string)> {
    match Take(lead + "\"", text)
    case None => None
    case Some(t) => match Word(t)
      case None => None
      case Some((w, u)) => match Take(tail, u)
        case None => None
        case Some(rest) => Some((w, rest))
  }

  function ReadResponse(text: string): Option<(Response, string)> {
    match Quoted("", text, ":{")
    case None => None
    case Some((code, t)) => match Quoted(DESCRIPTION_KEY, t, "}")
      case None => None
      case Some((description, rest)) => Some((Response(code, description), rest))
  }

  function VerbOfKey(key: string): string {
    match key
    case "get" => "GET"
    case "post" => "POST"
    case _ => key
  }

  function ReadOperation(path: string, text: string): Option<(Route, string)> {
    match Quoted("", text, ":{")
    case None => None
    case Some((key, t)) => match Quoted(SUMMARY_KEY, t, "," + BEARER + "," + RESPONSES_KEY)
      case None => None
      case Some((summary, u)) => match ReadList(ReadResponse, u)
        case None => None
        case Some((responses, v)) => match Take("}", v)
          case None => None
          case Some(rest) => Some((Route(VerbOfKey(key), path, summary, responses), rest))
  }

  function ReadGroup(text: string): Option<(Group, string)> {
    match Quoted("", text, ":{")
    case None => None
    case Some((path, t)) => match ReadList(u => ReadOperation(path, u), t)
      case None => None
      case Some((routes, rest)) => Some((Group(path, routes), rest))
  }

  /** The keys between an opening and a closing. */
  function ReadKeys(opening: string, closing: string, text: string): Option<seq<Group>> {
    match Take(opening, text)
    case None => None
    case Some(t) => match ReadList(ReadGroup, t)
      case None => None
      case Some((gs, rest)) => if rest == closing then Some(gs) else None
  }

  /** The keys of a whole document, with their operations. */
  function ReadDocument(text: string): Option<seq<Group>> {
    ReadKeys(OPENING, CLOSING, text)
  }

  // ----- reading back what was written -----

  lemma TakeBack(lead: string, rest: string)
    ensures Take(lead, lead + rest) == Some(rest)
  {
  }

  lemma {:induction false} WordBack(w: string, rest: string)
    requires '"' !in w
    ensures Word(w + ("\"" + rest)) == Some((w, rest))
  {
    var t := w + ("\"" + rest);
    if w == "" {
      assert t == "\"" + rest;
    } else {
      WordBack(w[1..], rest);
      assert t[1..] == w[1..] + ("\"" + rest) && t[0] == w[0];
      assert [w[0]] + w[1..] == w;
    }
  }

  lemma QuotedBack(lead: string, w: string, tail: string, rest: string)
    requires '"' !in w
    ensures Quoted(lead, lead + "\"" + (w + ("\"" + (tail + rest))), tail) == Some((w, rest))
  {
    TakeBack(lead + "\"", w + ("\"" + (tail + rest)));
    WordBack(w, tail + rest);
    TakeBack(tail, rest);
  }

  /** `read` gives `x` back from its text, whatever follows. */
  ghost predicate Reads<T>(read: string -> Option<(T, string)>, t: string, x: T) {
    t != "" && t[0] != '}' && forall rest: string :: read(t + rest) == Some((x, rest))
  }

  lemma {:induction false} ItemsBack<T>(read: string -> Option<(T, string)>, ts: seq<string>, xs: seq<T>, rest: string)
    requires |ts| == |xs| > 0 && forall i :: 0 <= i < |ts| ==> Reads(read, ts[i], xs[i])
    ensures ReadItems(read, Commas(ts) + ("}" + rest)) == Some((xs, rest))
  {
    var end := "}" + rest;
    var text := Commas(ts) + end;
    assert Reads(read, ts[0], xs[0]);
    if |ts| == 1 {
      assert read(ts[0] + end) == Some((xs[0], end));
      assert xs == [xs[0]];
    } else {
      var next := Commas(ts[1..]) + end;
      assert text == ts[0] + ("," + next);
      assert read(ts[0] + ("," + next)) == Some((xs[0], "," + next));
      assert ("," + next)[1..] == next;
      ItemsBack(read, ts[1..], xs[1..], rest);
      assert xs == [xs[0]] + xs[1..];
    }
  }

  lemma ListBack<T>(read: string -> Option<(T, string)>, ts: seq<string>, xs: seq<T>, rest: string)
    requires |ts| == |xs| && forall i :: 0 <= i < |ts| ==> Reads(read, ts[i], xs[i])
    ensures ReadList(read, Commas(ts) + ("}" + rest)) == Some((xs, rest))
  {
    if |ts| == 0 {
      assert Commas(ts) + ("}" + rest) == "}" + rest;
    } else {
      ItemsBack(read, ts, xs, rest);
      assert Reads(read, ts[0], xs[0]);
      assert (Commas(ts) + ("}" + rest))[0] == ts[0][0];
    }
  }

  predicate Plain(text: string) {
    '"' !in text
  }

  predicate PlainRoute(r: Route) {
    Plain(r.verb) && r.verb != "get" && r.verb != "post" && Plain(r.path) && Plain(r.summary)
    && forall i :: 0 <= i < |r.responses| ==> Plain(r.responses[i].code) && Plain(r.responses[i].description)
  }

  lemma NestedResponse(c: string, k: string, d: string, rest: string)
    ensures "\"" + c + "\":{" + k + "\"" + d + "\"}" + rest
         == "\"" + (c + ("\"" + (":{" + (k + "\"" + (d + ("\"" + ("}" + rest)))))))
  {
  }

  lemma ResponseBackBefore(r: Response, rest: string)
    requires Plain(r.code) && Plain(r.description)
    ensures ReadResponse(ResponseLine(r) + rest) == Some((r, rest))
  {
    var t := DESCRIPTION_KEY + "\"" + (r.description + ("\"" + ("}" + rest)));
    NestedResponse(r.code, DESCRIPTION_KEY, r.description, rest);
    assert "" + "\"" == "\"";
    QuotedBack("", r.code, ":{", t);
    QuotedBack(DESCRIPTION_KEY, r.description, "}", rest);
  }

  lemma ResponsesBack(rs: seq<Response>, rest: string)
    requires forall i :: 0 <= i < |rs| ==> Plain(rs[i].code) && Plain(rs[i].description)
    ensures ReadList(ReadResponse, Commas(ResponseLines(rs)) + ("}" + rest)) == Some((rs, rest))
  {
    forall i | 0 <= i < |rs|
      ensures Reads(ReadResponse, ResponseLines(rs)[i], rs[i])
    {
      forall any: string
        ensures ReadResponse(ResponseLine(rs[i]) + any) == Some((rs[i], any))
      {
        ResponseBackBefore(rs[i], any);
      }
    }
    ListBack(ReadResponse, ResponseLines(rs), rs, rest);
  }

  lemma Nested(k: string, q: string, s: string, x: string, p: string, l: string, rest: string)
    ensures "\"" + k + "\":{" + (q + "\"" + s + "\",") + x + "," + (p + l + "}") + "}" + rest
         == "\"" + (k + ("\"" + (":{"
            + (q + "\"" + (s + ("\"" + (("," + x + "," + p) + (l + ("}" + ("}" + rest))))))))))
  {
  }

  lemma VerbBack(verb: string)
    requires verb != "get" && verb != "post"
    ensures VerbOfKey(KeyOfVerb(verb)) == verb
    ensures Plain(verb) ==> Plain(KeyOfVerb(verb))
  {
  }

  lemma OperationBackBefore(r: Route, rest: string)
    requires PlainRoute(r)
    ensures ReadOperation(r.path, OperationLine(r) + rest) == Some((r, rest))
  {
    var k, list, after := KeyOfVerb(r.verb), Commas(ResponseLines(r.responses)), "," + BEARER + "," + RESPONSES_KEY;
    var u := list + ("}" + ("}" + rest));
    var t := SUMMARY_KEY + "\"" + (r.summary + ("\"" + (after + u)));
    Nested(k, SUMMARY_KEY, r.summary, BEARER, RESPONSES_KEY, list, rest);
    VerbBack(r.verb);
    assert "" + "\"" == "\"";
    QuotedBack("", k, ":{", t);
    QuotedBack(SUMMARY_KEY, r.summary, after, u);
    ResponsesBack(r.responses, "}" + rest);
    TakeBack("}", rest);
  }

  lemma OperationsBack(path: string, rs: seq<Route>, rest: string)
    requires forall i :: 0 <= i < |rs| ==> PlainRoute(rs[i]) && rs[i].path == path
    ensures ReadList(t => ReadOperation(path, t), Commas(OperationLines(rs)) + ("}" + rest)) == Some((rs, rest))
  {
    var read := t => ReadOperation(path, t);
    forall i | 0 <= i < |rs|
      ensures Reads(read, OperationLines(rs)[i], rs[i])
    {
      forall any: string
        ensures read(OperationLine(rs[i]) + any) == Some((rs[i], any))
      {
        OperationBackBefore(rs[i], any);
      }
    }
    ListBack(read, OperationLines(rs), rs, rest);
  }

  ghost predicate PlainGroup(g: Group) {
    Plain(g.path) && forall i :: 0 <= i < |g.routes| ==> PlainRoute(g.routes[i]) && g.routes[i].path == g.path
  }

  lemma NestedGroup(p: string, l: string, rest: string)
    ensures "\"" + p + "\":{" + l + "}" + rest == "\"" + (p + ("\"" + (":{" + (l + ("}" + rest)))))
  {
  }

  lemma GroupBackBefore(g: Group, rest: string)
    requires PlainGroup(g)
    ensures ReadGroup(GroupLine(g) + rest) == Some((g, rest))
  {
    var t := Commas(OperationLines(g.routes)) + ("}" + rest);
    NestedGroup(g.path, Commas(OperationLines(g.routes)), rest);
    assert "" + "\"" == "\"";
    QuotedBack("", g.path, ":{", t);
    OperationsBack(g.path, g.routes, rest);
  }

  lemma GroupsBack(gs: seq<Group>, rest: string)
    requires forall i :: 0 <= i < |gs| ==> PlainGroup(gs[i])
    ensures ReadList(ReadGroup, Commas(GroupLines(gs)) + ("}" + rest)) == Some((gs, rest))
  {
    forall i | 0 <= i < |gs|
      ensures Reads(ReadGroup, GroupLines(gs)[i], gs[i])
    {
      forall any: string
        ensures ReadGroup(GroupLine(gs[i]) + any) == Some((gs[i], any))
      {
        GroupBackBefore(gs[i], any);
      }
    }
    ListBack(ReadGroup, GroupLines(gs), gs, rest);
  }

  predicate PlainTable(rs: seq<Route>) {
    forall i :: 0 <= i < |rs| ==> PlainRoute(rs[i])
  }

  /** The routes of a group are routes of the table. */
  lemma {:induction false} GroupsArePlain(rs: seq<Route>)
    requires PlainTable(rs)
    ensures forall k :: 0 <= k < |Groups(rs)| ==> PlainGroup(Groups(rs)[k])
    decreases |rs|
  {
    if rs != [] {
      var path := rs[0].path;
      OffPathRoutes(rs[1..], path);
      GroupsArePlain(OffPath(rs[1..], path));
      OnPathIsPlain(rs, path);
    }
  }

  lemma {:induction false} OnPathIsPlain(rs: seq<Route>, path: string)
    requires PlainTable(rs)
    ensures PlainTable(OnPath(rs, path)) && forall i :: 0 <= i < |OnPath(rs, path)| ==> OnPath(rs, path)[i].path == path
  {
    if rs != [] {
      OnPathIsPlain(rs[1..], path);
    }
  }

  lemma DocumentGroupsArePlain(routes: seq<Route>, extra: seq<Route>)
    requires PlainTable(routes) && PlainTable(extra)
    ensures forall k :: 0 <= k < |DocumentGroups(routes, extra)| ==> PlainGroup(DocumentGroups(routes, extra)[k])
  {
    GroupsArePlain(routes);
    forall i | 0 <= i < |extra|
      ensures PlainGroup(Singles(extra)[i])
    {
    }
  }

  lemma KeysBack(opening: string, closing: string, gs: seq<Group>)
    requires forall i :: 0 <= i < |gs| ==> PlainGroup(gs[i])
    ensures ReadKeys(opening, closing, opening + Commas(GroupLines(gs)) + ("}" + closing)) == Some(gs)
  {
    var list := Commas(GroupLines(gs));
    Assoc(opening, list, "}" + closing);
    TakeBack(opening, list + ("}" + closing));
    GroupsBack(gs, closing);
  }

  /**
    The document tells its tables: as long as no quote stands in their texts, every
    path with its operations, and each operation with its method, summary and
    responses, can be read back in the order of the groups.
   */
  lemma DocumentIsRead(routes: seq<Route>, extra: seq<Route>)
    requires PlainTable(routes) && PlainTable(extra)
    ensures ReadDocument(Document(routes, extra)) == Some(DocumentGroups(routes, extra))
  {
    DocumentGroupsArePlain(routes, extra);
    DocumentText(routes, extra);
    KeysBack(OPENING, CLOSING, DocumentGroups(routes, extra));
  }

  lemma OneRoute(r: Route)
    ensures Document([r], []) == OPENING + GroupLine(Group(r.path, [r])) + ("}" + CLOSING)
  {
    var g := Group(r.path, [r]);
    assert OnPath([r], r.path) == [r] && [r][1..] == [] && Groups([r]) == [g];
    assert DocumentGroups([r], []) == [g];
    assert GroupLines([g]) == [GroupLine(g)];
    DocumentText([r], []);
  }

  lemma Merged(head: string, a: string, middle: string, b: string)
    ensures head + a + "\"}" + "," + (middle + b + "\"}") == head + (a + "\"}," + middle + b) + "\"}"
  {
  }

  /** A description with a quote in it can pass for two responses. */
  lemma TwoForOne(a: Response, b: Response)
    ensures Commas(ResponseLines([a, b]))
         == Commas(ResponseLines([Response(a.code, a.description + "\"}," + ResponseStart(b.code) + b.description)]))
  {
    var one := Response(a.code, a.description + "\"}," + ResponseStart(b.code) + b.description);
    assert ResponseLines([a, b]) == [ResponseLine(a), ResponseLine(b)];
    assert [ResponseLine(a), ResponseLine(b)][1..] == [ResponseLine(b)];
    assert ResponseLines([one]) == [ResponseLine(one)];
    Merged(ResponseStart(a.code), a.description, ResponseStart(b.code), b.description);
  }

  /** With such a description, two tables have one document, and no reader can tell them apart. */
  lemma QuotesMislead(r: Route, a: Response, b: Response)
    requires r.responses == [a, b]
    ensures var text := a.description + "\"}," + ResponseStart(b.code) + b.description;
            Document([r], []) == Document([r.(responses := [Response(a.code, text)])], [])
  {
    var one := r.(responses := [Response(a.code, a.description + "\"}," + ResponseStart(b.code) + b.description)]);
    TwoForOne(a, b);
    assert OperationLine(r) == OperationLine(one);
    assert OperationLines([r]) == [OperationLine(r)] && OperationLines([one]) == [OperationLine(one)];
    OneRoute(one);
    OneRoute(r);
  }
}
