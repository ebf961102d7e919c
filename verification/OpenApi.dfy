/**
  The OpenAPI document that the router generates from its route table, written
  piece by piece through a writer that truncates to a fixed buffer.
 */
module OpenApi {
  import opened Common

  /** A response code, as printed, and its description. */
  datatype Response = Response(code: string, description: string)

  datatype Route = Route(verb: string, path: string, summary: string, responses: seq<Response>)

  // ----- the document -----

  const RESPONSES_OPEN := "\"responses\":{"
  const SECURITY := "\"security\":[{\"bearerAuth\":[]}]"
  const HEADER :=
    "{\"openapi\":\"3.0.3\",\"info\":{\"title\":\"ESP32Wiimote Wi-Fi API\",\"version\":\"0.4.0\"},\"paths\":{"
  const FOOTER :=
    "}" + ",\"components\":{\"securitySchemes\":{\"bearerAuth\":{\"type\":\"http\",\"scheme\":\"bearer\"}}}}"

  function Concat(pieces: seq<string>): string {
    if pieces == [] then "" else pieces[0] + Concat(pieces[1..])
  }

  lemma Listing(start: seq<string>, listed: seq<string>, comma: seq<string>, next: seq<string>)
    ensures start + listed + comma + next == start + (listed + comma + next)
  {
  }

  lemma Enclosed(start: seq<string>, head: seq<string>, body: seq<string>)
    ensures start + head + body + ["}"] == start + (head + body + ["}"])
  {
  }

  lemma {:induction false} ConcatAppend(pieces: seq<string>, text: string)
    ensures Concat(pieces + [text]) == Concat(pieces) + text
  {
    if pieces == [] {
      assert pieces + [text] == [text];
    } else {
      assert (pieces + [text])[1..] == pieces[1..] + [text];
      ConcatAppend(pieces[1..], text);
    }
  }

  function MethodName(verb: string): string {
    if verb == "GET" then "get" else if verb == "POST" then "post" else verb
  }

  function KeyOpen(key: string): string {
    "\"" + key + "\":{"
  }

  function SummaryText(summary: string): string {
    "\"summary\":\"" + summary + "\","
  }

  function ResponseText(r: Response): string {
    "\"" + r.code + "\":{\"description\":\"" + r.description + "\"}"
  }

  /** Lists of texts, with a comma between two lists. */
  function Joined(pss: seq<seq<string>>): seq<string> {
    if pss == [] then [] else if |pss| == 1 then pss[0] else pss[0] + [","] + Joined(pss[1..])
  }

  function EachResponse(rs: seq<Response>): seq<seq<string>> {
    seq(|rs|, i requires 0 <= i < |rs| => [ResponseText(rs[i])])
  }

  function ResponsesPieces(rs: seq<Response>): seq<string> {
    [RESPONSES_OPEN] + Joined(EachResponse(rs)) + ["}"]
  }

  function OperationHead(r: Route): seq<string> {
    [KeyOpen(MethodName(r.verb)), SummaryText(r.summary), SECURITY, ","]
  }

  function OperationPieces(r: Route): seq<string> {
    OperationHead(r) + ResponsesPieces(r.responses) + ["}"]
  }

  function EachOperation(rs: seq<Route>): seq<seq<string>> {
    seq(|rs|, i requires 0 <= i < |rs| => OperationPieces(rs[i]))
  }

  /** One key of the paths object. */
  datatype Group = Group(path: string, routes: seq<Route>)

  function GroupPieces(g: Group): seq<string> {
    [KeyOpen(g.path)] + Joined(EachOperation(g.routes)) + ["}"]
  }

  function EachGroup(gs: seq<Group>): seq<seq<string>> {
    seq(|gs|, i requires 0 <= i < |gs| => GroupPieces(gs[i]))
  }

  /** The groups with commas between them, and one before when they continue a list. */
  function Listed(gs: seq<Group>, first: bool): seq<string> {
    if gs == [] then [] else (if first then [] else [","]) + Joined(EachGroup(gs))
  }

  function OnPath(rs: seq<Route>, path: string): seq<Route> {
    if rs == [] then [] else (if rs[0].path == path then [rs[0]] else []) + OnPath(rs[1..], path)
  }

  function OffPath(rs: seq<Route>, path: string): (r: seq<Route>)
    ensures |r| <= |rs|
  {
    if rs == [] then [] else (if rs[0].path != path then [rs[0]] else []) + OffPath(rs[1..], path)
  }

  /** The routes by path, in the order in which paths first appear. */
  function Groups(rs: seq<Route>): seq<Group>
    decreases |rs|
  {
    if rs == [] then []
    else [Group(rs[0].path, OnPath(rs, rs[0].path))] + Groups(OffPath(rs[1..], rs[0].path))
  }

  function Singles(rs: seq<Route>): seq<Group> {
    seq(|rs|, i requires 0 <= i < |rs| => Group(rs[i].path, [rs[i]]))
  }

  /** The keys of the route table, grouped by path, and those of the extra routes. */
  function PathsPieces(routes: seq<Route>, extra: seq<Route>): seq<string> {
    Listed(Groups(routes), true) + Listed(Singles(extra), routes == [])
  }

  function Framed(header: string, pieces: seq<string>, footer: string): seq<string> {
    [header] + pieces + [footer]
  }

  function Document(routes: seq<Route>, extra: seq<Route>): string {
    Concat(Framed(HEADER, PathsPieces(routes, extra), FOOTER))
  }

  // ----- the loops against the grouping -----

  predicate Seen(rs: seq<Route>, path: string) {
    exists i :: 0 <= i < |rs| && rs[i].path == path
  }

  /** The routes of `rs` whose path is none of `before`. */
  function Unseen(rs: seq<Route>, before: seq<Route>): seq<Route> {
    if rs == [] then [] else (if Seen(before, rs[0].path) then [] else [rs[0]]) + Unseen(rs[1..], before)
  }

  lemma {:induction false} UnseenNone(rs: seq<Route>)
    ensures Unseen(rs, []) == rs
  {
    if rs != [] {
      UnseenNone(rs[1..]);
    }
  }

  lemma SeenAppend(before: seq<Route>, r: Route, path: string)
    ensures Seen(before + [r], path) <==> Seen(before, path) || r.path == path
  {
    var t := before + [r];
    if Seen(before, path) {
      var i :| 0 <= i < |before| && before[i].path == path;
      assert t[i].path == path;
    }
    assert t[|before|] == r;
  }

  lemma {:induction false} UnseenAppend(rs: seq<Route>, before: seq<Route>, r: Route)
    ensures Unseen(rs, before + [r]) == OffPath(Unseen(rs, before), r.path)
  {
    if rs != [] {
      UnseenAppend(rs[1..], before, r);
      SeenAppend(before, r, rs[0].path);
      var u, tail := Unseen(rs, before), Unseen(rs[1..], before);
      if Seen(before, rs[0].path) {
        assert u == tail;
      } else {
        assert u[1..] == tail;
      }
    }
  }

  lemma {:induction false} UnseenAgain(rs: seq<Route>, before: seq<Route>, r: Route)
    requires Seen(before, r.path)
    ensures Unseen(rs, before + [r]) == Unseen(rs, before)
  {
    if rs != [] {
      UnseenAgain(rs[1..], before, r);
      SeenAppend(before, r, rs[0].path);
    }
  }

  lemma {:induction false} OnUnseenPath(rs: seq<Route>, before: seq<Route>, path: string)
    requires !Seen(before, path)
    ensures OnPath(Unseen(rs, before), path) == OnPath(rs, path)
  {
    if rs != [] {
      OnUnseenPath(rs[1..], before, path);
      var u, tail := Unseen(rs, before), Unseen(rs[1..], before);
      if Seen(before, rs[0].path) {
        assert u == tail;
        assert OnPath(rs, path) == OnPath(rs[1..], path);
      } else {
        assert u[1..] == tail;
      }
    }
  }

  lemma GroupsFromStart(routes: seq<Route>)
    ensures Unseen(routes[0..], routes[..0]) == routes
  {
    UnseenNone(routes);
    assert routes[0..] == routes && routes[..0] == [];
  }

  /** One step of the outer loop: a path already seen adds nothing, a new one adds its group. */
  lemma GroupsStep(routes: seq<Route>, i: nat, done: seq<Group>)
    requires i < |routes|
    ensures var u, v := Unseen(routes[i..], routes[..i]), Unseen(routes[i + 1..], routes[..i + 1]);
            var path := routes[i].path;
            done + Groups(u) ==
            (if Seen(routes[..i], path) then done else done + [Group(path, OnPath(routes[i..], path))]) + Groups(v)
    ensures i == 0 ==> !Seen(routes[..i], routes[i].path)
  {
    var r, rest := routes[i], routes[i + 1..];
    assert routes[i..][0] == r && routes[i..][1..] == rest;
    assert routes[..i + 1] == routes[..i] + [r];
    var u := Unseen(routes[i..], routes[..i]);
    var tail := Unseen(rest, routes[..i]);
    if Seen(routes[..i], r.path) {
      UnseenAgain(rest, routes[..i], r);
      assert u == tail;
    } else {
      UnseenAppend(rest, routes[..i], r);
      OnUnseenPath(routes[i..], routes[..i], r.path);
      assert u[0] == r && u[1..] == tail;
      assert done + Groups(u) == done + [Group(r.path, OnPath(routes[i..], r.path))] + Groups(OffPath(tail, r.path));
    }
  }

  lemma OnPathStep(routes: seq<Route>, j: nat, path: string, done: seq<Route>)
    requires j < |routes|
    ensures done + OnPath(routes[j..], path) ==
            (if routes[j].path == path then done + [routes[j]] else done) + OnPath(routes[j + 1..], path)
  {
    assert routes[j..][0] == routes[j] && routes[j..][1..] == routes[j + 1..];
  }

  lemma {:induction false} JoinedAppend(pss: seq<seq<string>>, ps: seq<string>)
    ensures Joined(pss + [ps]) == Joined(pss) + (if pss == [] then [] else [","]) + ps
  {
    if pss == [] {
      assert pss + [ps] == [ps];
    } else {
      assert (pss + [ps])[1..] == pss[1..] + [ps];
      JoinedAppend(pss[1..], ps);
    }
  }

  lemma EachOperationAppend(rs: seq<Route>, r: Route)
    ensures Joined(EachOperation(rs + [r])) ==
            Joined(EachOperation(rs)) + (if rs == [] then [] else [","]) + OperationPieces(r)
  {
    assert EachOperation(rs + [r]) == EachOperation(rs) + [OperationPieces(r)];
    JoinedAppend(EachOperation(rs), OperationPieces(r));
  }

  lemma EachGroupAppend(gs: seq<Group>, g: Group)
    ensures Joined(EachGroup(gs + [g])) == Joined(EachGroup(gs)) + (if gs == [] then [] else [","]) + GroupPieces(g)
  {
    assert EachGroup(gs + [g]) == EachGroup(gs) + [GroupPieces(g)];
    JoinedAppend(EachGroup(gs), GroupPieces(g));
  }

  lemma ListedAppend(gs: seq<Group>, g: Group, first: bool)
    ensures Listed(gs + [g], first) == Listed(gs, first) + (if first && gs == [] then [] else [","]) + GroupPieces(g)
  {
    EachGroupAppend(gs, g);
    if gs == [] {
      assert Joined(EachGroup(gs + [g])) == GroupPieces(g);
    } else {
      Listing(if first then [] else [","], Joined(EachGroup(gs)), [","], GroupPieces(g));
    }
  }

  /** One more group goes on where the list stood, after a comma unless it is the first. */
  lemma ListedNext(start: seq<string>, done: seq<Group>, g: Group, first: bool)
    ensures start + Listed(done, first) + (if first && done == [] then [] else [","]) + GroupPieces(g)
         == start + Listed(done + [g], first)
  {
    ListedAppend(done, g, first);
    Listing(start, Listed(done, first), if first && done == [] then [] else [","], GroupPieces(g));
  }

  lemma SinglesAppend(routes: seq<Route>, i: nat)
    requires i < |routes|
    ensures Singles(routes[..i + 1]) == Singles(routes[..i]) + [Group(routes[i].path, [routes[i]])]
  {
  }

  lemma SinglePieces(r: Route)
    ensures GroupPieces(Group(r.path, [r])) == [KeyOpen(r.path)] + OperationPieces(r) + ["}"]
  {
    assert EachOperation([r]) == [OperationPieces(r)];
  }

  // ----- what the grouping promises -----

  function Flatten(gs: seq<Group>): seq<Route> {
    if gs == [] then [] else gs[0].routes + Flatten(gs[1..])
  }

  lemma {:induction false} OnAndOff(rs: seq<Route>, path: string)
    ensures multiset(OnPath(rs, path)) + multiset(OffPath(rs, path)) == multiset(rs)
  {
    if rs != [] {
      OnAndOff(rs[1..], path);
      var on, off := OnPath(rs[1..], path), OffPath(rs[1..], path);
      assert rs == [rs[0]] + rs[1..];
      if rs[0].path == path {
        assert OnPath(rs, path) == [rs[0]] + on && OffPath(rs, path) == off;
      } else {
        assert OnPath(rs, path) == on && OffPath(rs, path) == [rs[0]] + off;
      }
    }
  }

  lemma {:induction false} OffPathRoutes(rs: seq<Route>, path: string)
    ensures forall i :: 0 <= i < |OffPath(rs, path)| ==> OffPath(rs, path)[i].path != path && OffPath(rs, path)[i] in rs
  {
    if rs != [] {
      OffPathRoutes(rs[1..], path);
    }
  }

  /** The position of the first route on a path, or the number of routes. */
  function FirstOn(rs: seq<Route>, path: string): nat {
    if rs == [] || rs[0].path == path then 0 else 1 + FirstOn(rs[1..], path)
  }

  lemma {:induction false} FirstOnPath(rs: seq<Route>, path: string)
    ensures var n := FirstOn(rs, path);
            && n <= |rs| && (n < |rs| ==> rs[n].path == path)
            && forall i :: 0 <= i < n ==> rs[i].path != path
  {
    if rs != [] && rs[0].path != path {
      FirstOnPath(rs[1..], path);
      forall i | 0 <= i < FirstOn(rs, path)
        ensures rs[i].path != path
      {
        assert i > 0 ==> rs[i] == rs[1..][i - 1];
      }
    }
  }

  lemma {:induction false} FirstOnOffPath(rs: seq<Route>, path: string, p: string, q: string)
    requires p != path && q != path && FirstOn(OffPath(rs, path), p) < FirstOn(OffPath(rs, path), q)
    ensures FirstOn(rs, p) < FirstOn(rs, q)
  {
    if rs != [] {
      var off := OffPath(rs[1..], path);
      if rs[0].path == path {
        assert OffPath(rs, path) == off;
        FirstOnOffPath(rs[1..], path, p, q);
      } else {
        assert OffPath(rs, path)[1..] == off;
        if rs[0].path != p && rs[0].path != q {
          FirstOnOffPath(rs[1..], path, p, q);
        }
      }
    }
  }

  /** Groups are non-empty and hold the routes on their path. */
  predicate EachOnPath(rs: seq<Route>, gs: seq<Group>) {
    forall k :: 0 <= k < |gs| ==> gs[k].routes != [] && gs[k].routes == OnPath(rs, gs[k].path)
  }

  /** Groups come in the order of first appearance. */
  predicate InFirstOrder(rs: seq<Route>, gs: seq<Group>) {
    forall k, m :: 0 <= k < m < |gs| ==> FirstOn(rs, gs[k].path) < FirstOn(rs, gs[m].path)
  }

  lemma {:induction false} OnPathOfOff(rs: seq<Route>, path: string, p: string)
    requires p != path
    ensures OnPath(OffPath(rs, path), p) == OnPath(rs, p)
  {
    if rs != [] {
      OnPathOfOff(rs[1..], path, p);
      var off := OffPath(rs[1..], path);
      if rs[0].path == path {
        assert OffPath(rs, path) == off;
        assert OnPath(rs, p) == OnPath(rs[1..], p);
      } else {
        assert OffPath(rs, path)[1..] == off;
      }
    }
  }

  lemma {:induction false} GroupPathsIn(rs: seq<Route>)
    ensures forall k :: 0 <= k < |Groups(rs)| ==> Seen(rs, Groups(rs)[k].path)
    decreases |rs|
  {
    if rs != [] {
      var path := rs[0].path;
      var rest := OffPath(rs[1..], path);
      GroupPathsIn(rest);
      OffPathRoutes(rs[1..], path);
      forall k | 0 <= k < |Groups(rs)|
        ensures Seen(rs, Groups(rs)[k].path)
      {
        if k > 0 {
          var i :| 0 <= i < |rest| && rest[i].path == Groups(rest)[k - 1].path;
          var j :| 0 <= j < |rs[1..]| && rs[1..][j] == rest[i];
          assert rs[j + 1].path == Groups(rs)[k].path;
        }
      }
    }
  }

  lemma {:induction false} FlattenGroups(rs: seq<Route>)
    ensures multiset(Flatten(Groups(rs))) == multiset(rs)
    decreases |rs|
  {
    if rs != [] {
      var path := rs[0].path;
      var rest := OffPath(rs[1..], path);
      FlattenGroups(rest);
      OnAndOff(rs, path);
      assert OffPath(rs, path) == [] + rest == rest;
      assert Groups(rs)[1..] == Groups(rest);
      assert Flatten(Groups(rs)) == OnPath(rs, path) + Flatten(Groups(rest));
    }
  }

  /** The groups after the first avoid its path. */
  lemma RestAvoids(rs: seq<Route>, path: string, k: nat)
    requires k < |Groups(OffPath(rs, path))|
    ensures Groups(OffPath(rs, path))[k].path != path
  {
    var rest := OffPath(rs, path);
    GroupPathsIn(rest);
    OffPathRoutes(rs, path);
    var i :| 0 <= i < |rest| && rest[i].path == Groups(rest)[k].path;
  }

  lemma {:induction false} GroupsOnPath(rs: seq<Route>)
    ensures EachOnPath(rs, Groups(rs))
    decreases |rs|
  {
    if rs != [] {
      var path := rs[0].path;
      var rest := OffPath(rs, path);
      assert rest == OffPath(rs[1..], path);
      GroupsOnPath(rest);
      var gs := Groups(rest);
      forall k | 0 <= k < |gs|
        ensures gs[k].routes == OnPath(rs, gs[k].path)
      {
        RestAvoids(rs, path, k);
        OnPathOfOff(rs, path, gs[k].path);
      }
    }
  }

  /** The first route's path comes first, and dropping its routes keeps the order of the others. */
  lemma FirstPathLeads(rs: seq<Route>, p: string, q: string)
    requires rs != [] && q != rs[0].path
    requires p != rs[0].path ==> FirstOn(OffPath(rs, rs[0].path), p) < FirstOn(OffPath(rs, rs[0].path), q)
    ensures FirstOn(rs, p) < FirstOn(rs, q)
  {
    if p != rs[0].path {
      FirstOnOffPath(rs, rs[0].path, p, q);
    }
  }

  lemma FirstGroupLeads(rs: seq<Route>, first: Group, gs: seq<Group>)
    requires rs != [] && first.path == rs[0].path && InFirstOrder(OffPath(rs, first.path), gs)
    requires forall n :: 0 <= n < |gs| ==> gs[n].path != first.path
    ensures InFirstOrder(rs, [first] + gs)
  {
    forall k, m | 0 <= k < m <= |gs|
      ensures FirstOn(rs, ([first] + gs)[k].path) < FirstOn(rs, ([first] + gs)[m].path)
    {
      var earlier, later := if k == 0 then first else gs[k - 1], gs[m - 1];
      assert ([first] + gs)[k] == earlier && ([first] + gs)[m] == later;
      FirstPathLeads(rs, earlier.path, later.path);
    }
  }

  lemma {:induction false} GroupsInOrder(rs: seq<Route>)
    ensures InFirstOrder(rs, Groups(rs))
    decreases |rs|
  {
    if rs != [] {
      var path := rs[0].path;
      var rest := OffPath(rs[1..], path);
      assert OffPath(rs, path) == rest;
      GroupsInOrder(rest);
      var gs := Groups(rest);
      forall n | 0 <= n < |gs|
        ensures gs[n].path != path
      {
        RestAvoids(rs, path, n);
      }
      FirstGroupLeads(rs, Group(path, OnPath(rs, path)), gs);
    }
  }

  /**
    For any route table: every route appears once, in the one group of its path;
    within a group routes keep their order, and the groups come in the order in
    which their paths first appear, so no path has two.
   */
  lemma EveryRouteOnce(rs: seq<Route>)
    ensures multiset(Flatten(Groups(rs))) == multiset(rs)
    ensures forall k :: 0 <= k < |Groups(rs)| ==>
              Groups(rs)[k].routes != [] && Groups(rs)[k].routes == OnPath(rs, Groups(rs)[k].path)
    ensures forall k, m :: 0 <= k < m < |Groups(rs)| ==>
              FirstOn(rs, Groups(rs)[k].path) < FirstOn(rs, Groups(rs)[m].path)
  {
    FlattenGroups(rs);
    GroupsOnPath(rs);
    GroupsInOrder(rs);
  }

  // ----- the keys of the whole document -----

  lemma {:induction false} JoinedConcat(a: seq<seq<string>>, b: seq<seq<string>>)
    requires a != [] && b != []
    ensures Joined(a + b) == Joined(a) + [","] + Joined(b)
  {
    assert (a + b)[1..] == a[1..] + b;
    if |a| == 1 {
      assert a[1..] + b == b;
    } else {
      JoinedConcat(a[1..], b);
      assert Joined(a + b) == a[0] + [","] + (Joined(a[1..]) + [","] + Joined(b));
    }
  }

  lemma EachGroupConcat(a: seq<Group>, b: seq<Group>)
    ensures EachGroup(a + b) == EachGroup(a) + EachGroup(b)
  {
  }

  lemma CommaBetween(x: seq<string>, y: seq<string>)
    ensures [] + x + ([","] + y) == [] + (x + [","] + y)
  {
  }

  lemma ListedConcat(a: seq<Group>, b: seq<Group>)
    ensures Listed(a, true) + Listed(b, a == []) == Listed(a + b, true)
  {
    if a == [] {
      assert a + b == b;
    } else if b == [] {
      assert a + b == a;
    } else {
      var x, y := EachGroup(a), EachGroup(b);
      assert x != [] && y != [];
      EachGroupConcat(a, b);
      JoinedConcat(x, y);
      CommaBetween(Joined(x), Joined(y));
    }
  }

  lemma SeenLater(rs: seq<Route>, path: string)
    requires Seen(rs, path) && rs[0].path != path
    ensures Seen(rs[1..], path)
  {
    var i :| 0 <= i < |rs| && rs[i].path == path;
    assert rs[1..][i - 1].path == path;
  }

  lemma {:induction false} SeenOffPath(rs: seq<Route>, path: string, p: string)
    requires p != path && Seen(rs, p)
    ensures Seen(OffPath(rs, path), p)
  {
    var off := OffPath(rs[1..], path);
    if rs[0].path == p {
      assert OffPath(rs, path)[0].path == p;
    } else {
      SeenLater(rs, p);
      SeenOffPath(rs[1..], path, p);
      var i :| 0 <= i < |off| && off[i].path == p;
      assert OffPath(rs, path)[if rs[0].path == path then i else i + 1].path == p;
    }
  }

  /** Every path of the table has a group. */
  lemma {:induction false} SeenHasGroup(rs: seq<Route>, path: string) returns (k: nat)
    requires Seen(rs, path)
    ensures k < |Groups(rs)| && Groups(rs)[k].path == path
    decreases |rs|
  {
    if rs[0].path == path {
      k := 0;
    } else {
      SeenLater(rs, path);
      SeenOffPath(rs[1..], rs[0].path, path);
      var j := SeenHasGroup(OffPath(rs[1..], rs[0].path), path);
      k := j + 1;
    }
  }

  /** The keys of the paths object: those of the table, then one for each extra route. */
  function DocumentGroups(routes: seq<Route>, extra: seq<Route>): seq<Group> {
    Groups(routes) + Singles(extra)
  }

  predicate DistinctKeys(gs: seq<Group>) {
    forall k, m :: 0 <= k < m < |gs| ==> gs[k].path != gs[m].path
  }

  /** The extra routes neither repeat a path nor take one of the table's. */
  predicate ExtrasAreNew(routes: seq<Route>, extra: seq<Route>) {
    && (forall i, j :: 0 <= i < j < |extra| ==> extra[i].path != extra[j].path)
    && (forall i :: 0 <= i < |extra| ==> !Seen(routes, extra[i].path))
  }

  lemma NewExtrasKeepKeysDistinct(routes: seq<Route>, extra: seq<Route>)
    requires ExtrasAreNew(routes, extra)
    ensures DistinctKeys(DocumentGroups(routes, extra))
  {
    GroupPathsIn(routes);
    GroupsInOrder(routes);
    var gs, n := DocumentGroups(routes, extra), |Groups(routes)|;
    forall k, m | 0 <= k < m < |gs|
      ensures gs[k].path != gs[m].path
    {
      if k < n {
        assert gs[k] == Groups(routes)[k] && Seen(routes, gs[k].path);
      }
    }
  }

  lemma DistinctKeysNeedNewExtras(routes: seq<Route>, extra: seq<Route>)
    requires DistinctKeys(DocumentGroups(routes, extra))
    ensures ExtrasAreNew(routes, extra)
  {
    var gs, n := DocumentGroups(routes, extra), |Groups(routes)|;
    assert forall i :: 0 <= i < |extra| ==> gs[n + i].path == extra[i].path;
    forall i | 0 <= i < |extra|
      ensures !Seen(routes, extra[i].path)
    {
      assert forall k :: 0 <= k < n ==> gs[k].path != gs[n + i].path && gs[k] == Groups(routes)[k];
      if Seen(routes, extra[i].path) {
        var k := SeenHasGroup(routes, extra[i].path);
      }
    }
  }

  /**
    The paths object is one list of keys, and they are pairwise distinct exactly
    when the extra routes bring new paths: the table's own keys always are.
   */
  lemma KeysDistinctIff(routes: seq<Route>, extra: seq<Route>)
    ensures PathsPieces(routes, extra) == Listed(DocumentGroups(routes, extra), true)
    ensures DistinctKeys(DocumentGroups(routes, extra)) <==> ExtrasAreNew(routes, extra)
  {
    assert Groups(routes) == [] <==> routes == [];
    ListedConcat(Groups(routes), Singles(extra));
    if ExtrasAreNew(routes, extra) {
      NewExtrasKeepKeysDistinct(routes, extra);
    }
    if DistinctKeys(DocumentGroups(routes, extra)) {
      DistinctKeysNeedNewExtras(routes, extra);
    }
  }

  // ----- the writer -----

  /** What a buffer of `size` characters holds of `doc`: a prefix and a terminator. */
  ghost predicate Holds(buffer: seq<char>, doc: string) {
    && 1 <= |buffer|
    && buffer[..Min(|doc|, |buffer| - 1)] == doc[..Min(|doc|, |buffer| - 1)]
    && buffer[Min(|doc|, |buffer| - 1)] == '\0'
  }

  /** snprintf(buffer + offset, size - offset, "%s", text). */
  method Snprintf(buffer: array<char>, offset: nat, text: string) returns (result: nat)
    requires offset < buffer.Length
    modifies buffer
    ensures result == |text|
    ensures var n := Min(|text|, buffer.Length - offset - 1);
            buffer[..offset + n] == old(buffer[..offset]) + text[..n] && buffer[offset + n] == '\0'
  {
    var n := Min(|text|, buffer.Length - offset - 1);
    for i := 0 to n
      invariant buffer[..offset + i] == old(buffer[..offset]) + text[..i]
    {
      buffer[offset + i] := text[i];
      assert buffer[..offset + i + 1] == buffer[..offset + i] + [text[i]];
    }
    buffer[offset + n] := '\0';
    return |text|;
  }

  /** Writing `text` where the kept prefix ends keeps a prefix of the longer text. */
  lemma HoldsMore(before: seq<char>, doc: string, text: string, after: seq<char>)
    requires 1 <= |before| == |after| && (doc == "" || Holds(before, doc))
    requires var offset := Min(|doc|, |before| - 1);
             var n := Min(|text|, |before| - offset - 1);
             after[..offset + n] == before[..offset] + text[..n] && after[offset + n] == '\0'
    ensures Holds(after, doc + text)
  {
    var offset := Min(|doc|, |before| - 1);
    var n := Min(|text|, |before| - offset - 1);
    assert before[..offset] == doc[..offset];
    assert offset + n == Min(|doc + text|, |after| - 1);
    assert (doc + text)[..offset + n] == doc[..offset] + text[..n];
  }

  /** Prints `text` where `doc`, or what is kept of it, ends; `available` is the room there was, terminator included. */
  method WriteText(buffer: array<char>, written: nat, text: string, ghost doc: string)
    returns (result: nat, available: nat)
    requires 1 <= buffer.Length && written == |doc| && (doc == "" || Holds(buffer[..], doc))
    modifies buffer
    ensures result == |text| && available == buffer.Length - Min(|doc|, buffer.Length - 1)
    ensures Holds(buffer[..], doc + text)
  {
    var size := buffer.Length;
    var offset := if written < size then written else size - 1;
    available := size - offset;
    ghost var before := buffer[..];
    result := Snprintf(buffer, offset, text);
    ghost var after := buffer[..];
    HoldsMore(before, doc, text, after);
    var end := written + result;
    var last := if end < size then end else size - 1;
    buffer[last] := '\0';
    assert buffer[..] == after[last := '\0'] == after;
  }

  method IsDuplicate(routes: seq<Route>, i: nat) returns (duplicate: bool)
    requires i < |routes|
    ensures duplicate <==> Seen(routes[..i], routes[i].path)
  {
    for j := 0 to i
      invariant !Seen(routes[..j], routes[i].path)
    {
      assert routes[..i][j] == routes[j];
      if routes[i].path == routes[j].path {
        return true;
      }
    }
    return false;
  }

  class JsonWriter {
    const buffer: array<char>
    var written: nat
    /** The texts appended so far, and all of them together, cut or not. */
    ghost var pieces: seq<string>
    ghost var doc: string

    ghost predicate Valid()
      reads this, buffer
    {
      && 1 <= buffer.Length && written == |doc| && doc == Concat(pieces)
      && (doc == "" || Holds(buffer[..], doc))
    }

    constructor (buffer: array<char>)
      requires 1 <= buffer.Length
      ensures Valid() && pieces == [] && this.buffer == buffer
    {
      this.buffer := buffer;
      written := 0;
      pieces := [];
      doc := "";
    }

    method AppendFormat(text: string) returns (fits: bool)
      requires Valid()
      modifies this, buffer
      ensures Valid() && doc == old(doc) + text && pieces == old(pieces) + [text]
      ensures text != "" ==> Holds(buffer[..], doc)
      ensures fits <==> (if |old(doc)| < buffer.Length then |doc| < buffer.Length else text == "")
    {
      var result, available := WriteText(buffer, written, text, doc);
      ConcatAppend(pieces, text);
      written := written + result;
      pieces, doc := pieces + [text], doc + text;
      return result < available;
    }

    method Append(text: string)
      requires Valid()
      modifies this, buffer
      ensures Valid() && pieces == old(pieces) + [text]
    {
      var fits := AppendFormat(text);
    }

    method AppendOpenApiResponses(responses: seq<Response>)
      requires Valid()
      modifies this, buffer
      ensures Valid() && pieces == old(pieces) + ResponsesPieces(responses)
    {
      Append(RESPONSES_OPEN);
      ghost var start := pieces;
      for i := 0 to |responses|
        invariant Valid() && pieces == start + Joined(EachResponse(responses[..i]))
      {
        ghost var done := EachResponse(responses[..i]);
        if i != 0 {
          Append(",");
        }
        Append(ResponseText(responses[i]));
        assert EachResponse(responses[..i + 1]) == done + [[ResponseText(responses[i])]];
        JoinedAppend(done, [ResponseText(responses[i])]);
        Listing(start, Joined(done), if i != 0 then [","] else [], [ResponseText(responses[i])]);
      }
      assert responses[..|responses|] == responses;
      Append("}");
      Enclosed(old(pieces), [RESPONSES_OPEN], Joined(EachResponse(responses)));
    }

    method AppendOpenApiOperation(r: Route)
      requires Valid()
      modifies this, buffer
      ensures Valid() && pieces == old(pieces) + OperationPieces(r)
    {
      ghost var start := pieces;
      Append(KeyOpen(MethodName(r.verb)));
      Append(SummaryText(r.summary));
      Append(SECURITY);
      Append(",");
      ghost var head := pieces[|start|..];
      assert pieces == start + head && head == OperationHead(r);
      AppendOpenApiResponses(r.responses);
      Append("}");
      Enclosed(start, head, ResponsesPieces(r.responses));
    }

    /** One key for the path of `routes[i]`, with the operations of every later route on it. */
    method AppendPath(routes: seq<Route>, i: nat)
      requires Valid() && i < |routes|
      modifies this, buffer
      ensures Valid() && pieces == old(pieces) + GroupPieces(Group(routes[i].path, OnPath(routes[i..], routes[i].path)))
    {
      var path := routes[i].path;
      Append(KeyOpen(path));
      var firstMethod := true;
      ghost var start := pieces;
      ghost var done: seq<Route> := [];
      for j := i to |routes|
        invariant Valid() && firstMethod == (done == [])
        invariant pieces == start + Joined(EachOperation(done))
        invariant OnPath(routes[i..], path) == done + OnPath(routes[j..], path)
      {
        OnPathStep(routes, j, path, done);
        if routes[j].path != path {
          continue;
        }
        if !firstMethod {
          Append(",");
        }
        firstMethod := false;
        AppendOpenApiOperation(routes[j]);
        EachOperationAppend(done, routes[j]);
        Listing(start, Joined(EachOperation(done)), if done != [] then [","] else [], OperationPieces(routes[j]));
        done := done + [routes[j]];
      }
      assert done + [] == done;
      Append("}");
      Enclosed(old(pieces), [KeyOpen(path)], Joined(EachOperation(done)));
    }

    /** The overload for the route table: one key per distinct path. */
    method AppendOpenApiPaths(routes: seq<Route>, firstPath: bool) returns (stillFirst: bool)
      requires Valid()
      modifies this, buffer
      ensures Valid() && stillFirst == (firstPath && routes == [])
      ensures pieces == old(pieces) + Listed(Groups(routes), firstPath)
    {
      stillFirst := firstPath;
      ghost var done: seq<Group> := [];
      GroupsFromStart(routes);
      for i := 0 to |routes|
        invariant Valid() && stillFirst == (firstPath && done == []) && (i > 0 ==> done != [])
        invariant pieces == old(pieces) + Listed(done, firstPath)
        invariant Groups(routes) == done + Groups(Unseen(routes[i..], routes[..i]))
      {
        GroupsStep(routes, i, done);
        var duplicatePath := IsDuplicate(routes, i);
        if duplicatePath {
          continue;
        }
        if !stillFirst {
          Append(",");
        }
        stillFirst := false;
        AppendPath(routes, i);
        ghost var g := Group(routes[i].path, OnPath(routes[i..], routes[i].path));
        ListedNext(old(pieces), done, g, firstPath);
        done := done + [g];
      }
      assert done + [] == done;
    }

    method AppendSingle(r: Route)
      requires Valid()
      modifies this, buffer
      ensures Valid() && pieces == old(pieces) + GroupPieces(Group(r.path, [r]))
    {
      Append(KeyOpen(r.path));
      AppendOpenApiOperation(r);
      Append("}");
      SinglePieces(r);
      Enclosed(old(pieces), [KeyOpen(r.path)], OperationPieces(r));
    }

    /** The overload for extra routes: one key each. */
    method AppendOpenApiExtra(routes: seq<Route>, firstPath: bool) returns (stillFirst: bool)
      requires Valid()
      modifies this, buffer
      ensures Valid() && stillFirst == (firstPath && routes == [])
      ensures pieces == old(pieces) + Listed(Singles(routes), firstPath)
    {
      stillFirst := firstPath;
      for i := 0 to |routes|
        invariant Valid() && stillFirst == (firstPath && i == 0)
        invariant pieces == old(pieces) + Listed(Singles(routes[..i]), firstPath)
      {
        ghost var done, g := Singles(routes[..i]), Group(routes[i].path, [routes[i]]);
        if !stillFirst {
          Append(",");
        }
        stillFirst := false;
        AppendSingle(routes[i]);
        SinglesAppend(routes, i);
        ListedNext(old(pieces), done, g, firstPath);
      }
      assert routes[..|routes|] == routes;
    }
  }

  method BuildDocument(buffer: array<char>, header: string, routes: seq<Route>, extra: seq<Route>, footer: string)
    returns (written: nat)
    requires 1 <= buffer.Length && footer != ""
    modifies buffer
    ensures written == |Concat(Framed(header, PathsPieces(routes, extra), footer))|
    ensures Holds(buffer[..], Concat(Framed(header, PathsPieces(routes, extra), footer)))
  {
    var writer := new JsonWriter(buffer);
    writer.Append(header);
    assert writer.pieces == [header];
    var firstPath := writer.AppendOpenApiPaths(routes, true);
    firstPath := writer.AppendOpenApiExtra(extra, firstPath);
    Assoc([header], Listed(Groups(routes), true), Listed(Singles(extra), routes == []));
    var fits := writer.AppendFormat(footer);
    return writer.written;
  }

  /** buildOpenApiJson on a route table and the routes added to it; the result is the full length. */
  method BuildOpenApiJson(buffer: array<char>, routes: seq<Route>, extra: seq<Route>) returns (written: nat)
    requires 1 <= buffer.Length
    modifies buffer
    ensures written == |Document(routes, extra)|
    ensures Holds(buffer[..], Document(routes, extra))
  {
    written := BuildDocument(buffer, HEADER, routes, extra, FOOTER);
  }
}
