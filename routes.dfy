/**
 * The route table of `GitView.services` and the scan `GitView.__call__` runs over it.
 * Each compiled pattern is written as a sequence of segments; `re.search` with the trailing
 * `$` is modelled by `Search`.
 */
module Routes {
  import opened Wrappers
  import opened PyStrings

  /** One piece of a pattern: literal text, or a capture group of exactly `count` characters of `[0-9a-f]`. */
  datatype Segment = Lit(text: string) | HexRun(count: nat)

  /** A pattern without its final `$`; every one used here matches text of one fixed width. */
  type Pattern = seq<Segment>

  predicate IsLowerHex(c: char) {
    '0' <= c <= '9' || 'a' <= c <= 'f'
  }

  function SegmentWidth(g: Segment): (r: nat) {
    match g
    case Lit(t) => |t|
    case HexRun(n) => n
  }

  function Width(p: Pattern): (r: nat) {
    if p == [] then 0 else Width(p[..|p| - 1]) + SegmentWidth(p[|p| - 1])
  }

  predicate SegmentFits(g: Segment, w: string) {
    match g
    case Lit(t) => w == t
    case HexRun(n) => |w| == n && forall k :: 0 <= k < |w| ==> IsLowerHex(w[k])
  }

  /** `w` is matched, from its first character to its last, by the pattern. */
  predicate Fits(p: Pattern, w: string)
    decreases |p|
  {
    if p == [] then w == []
    else
      var n := SegmentWidth(p[|p| - 1]);
      && n <= |w|
      && SegmentFits(p[|p| - 1], w[|w| - n..])
      && Fits(p[..|p| - 1], w[..|w| - n])
  }

  lemma {:induction false} FitsWidth(p: Pattern, w: string)
    requires Fits(p, w)
    ensures |w| == Width(p)
  {
    if p != [] {
      var n := SegmentWidth(p[|p| - 1]);
      FitsWidth(p[..|p| - 1], w[..|w| - n]);
    }
  }

  /** The text of each capture group, in order. */
  function Groups(p: Pattern, w: string): (r: seq<string>)
    requires Fits(p, w)
    decreases |p|
  {
    if p == [] then []
    else
      var n := SegmentWidth(p[|p| - 1]);
      Groups(p[..|p| - 1], w[..|w| - n]) + (if p[|p| - 1].HexRun? then [w[|w| - n..]] else [])
  }

  /** A successful `search`: where the match starts, `mat.group()`, and the groups. */
  datatype Match = Match(start: nat, text: string, groups: seq<string>)

  /** Python's `$` without MULTILINE holds at the end of the string and just before a final newline. */
  ghost predicate EndAnchor(path: string, e: nat) {
    e == |path| || (e + 1 == |path| && path[e] == '\n')
  }

  ghost predicate MatchesAt(p: Pattern, path: string, s: nat, e: nat) {
    s <= e <= |path| && Fits(p, path[s..e]) && EndAnchor(path, e)
  }

  /** The match of `p` that ends at `e`: the `Width(p)` characters before `e`, when they fit. */
  function MatchEndingAt(p: Pattern, path: string, e: nat): (r: Option<Match>)
    requires e <= |path|
  {
    var n := Width(p);
    if n <= e && Fits(p, path[e - n..e]) then
      Some(Match(e - n, path[e - n..e], Groups(p, path[e - n..e])))
    else None
  }

  lemma MatchEndingAtSpec(p: Pattern, path: string, e: nat)
    requires e <= |path|
    ensures MatchEndingAt(p, path, e).Some? ==>
      var m := MatchEndingAt(p, path, e).value;
      m.start == e - Width(p) && m.start + |m.text| == e && m.text == path[m.start..e] && Fits(p, m.text)
  {
  }

  /** A fitting window ending at `e` is the one `MatchEndingAt` returns. */
  lemma MatchEndingAtFinds(p: Pattern, path: string, s: nat, e: nat)
    requires s <= e <= |path| && Fits(p, path[s..e])
    ensures MatchEndingAt(p, path, e).Some? && MatchEndingAt(p, path, e).value.start == s
  {
    FitsWidth(p, path[s..e]);
  }

  /**
   * `re.compile(p + '$').search(path)`. A match ends at one of the two places `$` holds;
   * the one before a final newline starts further left, so it is tried first.
   */
  function Search(p: Pattern, path: string): (r: Option<Match>)
  {
    if |path| > 0 && path[|path| - 1] == '\n' && MatchEndingAt(p, path, |path| - 1).Some? then
      MatchEndingAt(p, path, |path| - 1)
    else
      MatchEndingAt(p, path, |path|)
  }

  /**
   * `Search` agrees with the meaning of `search`: it fails exactly when no substring matching
   * the pattern ends where `$` holds, and otherwise it returns the leftmost such substring.
   */
  lemma SearchIsLeftmostMatch(p: Pattern, path: string)
    ensures Search(p, path).None? <==> forall s: nat, e: nat :: !MatchesAt(p, path, s, e)
    ensures Search(p, path).Some? ==>
      var m := Search(p, path).value;
      && MatchesAt(p, path, m.start, m.start + |m.text|)
      && path[m.start..m.start + |m.text|] == m.text
      && m.groups == Groups(p, m.text)
      && forall s: nat, e: nat :: MatchesAt(p, path, s, e) ==> m.start <= s
  {
    SearchSound(p, path);
    forall s: nat, e: nat | MatchesAt(p, path, s, e)
      ensures Search(p, path).Some? && Search(p, path).value.start <= s
    {
      SearchComplete(p, path, s, e);
    }
  }

  /** What `Search` returns is a match that ends where `$` holds. */
  lemma SearchSound(p: Pattern, path: string)
    ensures Search(p, path).Some? ==>
      var m := Search(p, path).value;
      && MatchesAt(p, path, m.start, m.start + |m.text|)
      && path[m.start..m.start + |m.text|] == m.text
      && m.groups == Groups(p, m.text)
      && Fits(p, m.text) && EndAnchor(path, m.start + |m.text|)
  {
    var e: nat := if |path| > 0 && path[|path| - 1] == '\n' && MatchEndingAt(p, path, |path| - 1).Some? then |path| - 1 else |path|;
    assert Search(p, path) == MatchEndingAt(p, path, e);
    assert EndAnchor(path, e);
    MatchEndingAtSpec(p, path, e);
  }

  /** Every match ending where `$` holds is found, and none starts left of what `Search` returns. */
  lemma SearchComplete(p: Pattern, path: string, s: nat, e: nat)
    requires MatchesAt(p, path, s, e)
    ensures Search(p, path).Some? && Search(p, path).value.start <= s
  {
    MatchEndingAtFinds(p, path, s, e);
    if e == |path| && |path| > 0 && path[|path| - 1] == '\n' && MatchEndingAt(p, path, |path| - 1).Some? {
      MatchEndingAtSpec(p, path, |path| - 1);
      FitsWidth(p, path[s..e]);
    }
  }

  // The route table.

  /** The dulwich handler function a route names. */
  datatype Handler =
    | GetTextFile
    | GetInfoRefs
    | GetInfoPacks
    | GetLooseObject
    | GetPackFile
    | GetIdxFile
    | ServiceRequest

  datatype Route = Route(httpMethod: string, pattern: Pattern, handler: Handler)

  const SERVICES: seq<Route> := [
    Route("GET", [Lit("/HEAD")], GetTextFile),
    Route("GET", [Lit("/info/refs")], GetInfoRefs),
    Route("GET", [Lit("/objects/info/alternates")], GetTextFile),
    Route("GET", [Lit("/objects/info/http-alternates")], GetTextFile),
    Route("GET", [Lit("/objects/info/packs")], GetInfoPacks),
    Route("GET", [Lit("/objects/"), HexRun(2), Lit("/"), HexRun(38)], GetLooseObject),
    Route("GET", [Lit("/objects/pack/pack-"), HexRun(40), Lit(".pack")], GetPackFile),
    Route("GET", [Lit("/objects/pack/pack-"), HexRun(40), Lit(".idx")], GetIdxFile),
    Route("POST", [Lit("/git-upload-pack")], ServiceRequest),
    Route("POST", [Lit("/git-receive-pack")], ServiceRequest)
  ]

  /**
   * The shape of the table: ten entries, eight `GET` routes to file handlers and two `POST`
   * routes to the service request, and every pattern ends in a character other than a newline.
   */
  lemma RouteTable()
    ensures |SERVICES| == 10
    ensures forall i :: 0 <= i < |SERVICES| ==> (SERVICES[i].httpMethod == "GET" <==> i < 8)
    ensures forall i :: 0 <= i < |SERVICES| ==> (SERVICES[i].httpMethod == "POST" <==> 8 <= i)
    ensures forall i :: 0 <= i < |SERVICES| ==> (SERVICES[i].handler == ServiceRequest <==> SERVICES[i].httpMethod == "POST")
    ensures forall i :: 0 <= i < |SERVICES| ==> EndsClean(SERVICES[i].pattern)
  {
  }

  /** What the scan sees at entry `i`: nothing for another method, else the search of its pattern. */
  function Probe(i: nat, httpMethod: string, path: string): (r: Option<Match>)
    requires i < |SERVICES|
  {
    if SERVICES[i].httpMethod == httpMethod then Search(SERVICES[i].pattern, path) else None
  }

  /** Entry `i` is a candidate: its method is the request's and its pattern is found in the path. */
  predicate RouteMatches(i: nat, httpMethod: string, path: string) {
    i < |SERVICES| && Probe(i, httpMethod, path).Some?
  }

  // Why no two entries match one request.

  /** The path without one final newline: where every match of the table ends. */
  function Trim(path: string): (r: string) {
    if |path| > 0 && path[|path| - 1] == '\n' then path[..|path| - 1] else path
  }

  /** The `k`-th character from the end, or NUL past the start. */
  ghost function Back(s: string, k: nat): (r: char) {
    if k < |s| then s[|s| - 1 - k] else '\0'
  }

  /** A pattern whose last character can only be a non-newline. */
  predicate EndsClean(p: Pattern) {
    p != [] &&
    match p[|p| - 1]
    case Lit(t) => |t| > 0 && t[|t| - 1] != '\n'
    case HexRun(n) => n > 0
  }

  /** What a match of a clean pattern tells about the end of the trimmed path. */
  ghost predicate TailOf(p: Pattern, u: string)
    requires p != []
  {
    match p[|p| - 1]
    case Lit(t) => EndsWith(u, t)
    case HexRun(_) => |u| > 0 && IsLowerHex(u[|u| - 1])
  }

  /** A text a clean pattern fits ends in a non-newline that tells about the pattern's last segment. */
  lemma FitsLast(p: Pattern, w: string)
    requires EndsClean(p) && Fits(p, w)
    ensures |w| > 0 && w[|w| - 1] != '\n' && TailOf(p, w)
  {
    var n := SegmentWidth(p[|p| - 1]);
    var last := w[|w| - n..];
    assert SegmentFits(p[|p| - 1], last);
    assert last[n - 1] == w[|w| - 1];
  }

  lemma TailOfSuffix(p: Pattern, u: string, w: string)
    requires p != [] && EndsWith(u, w) && TailOf(p, w)
    ensures TailOf(p, u)
  {
    match p[|p| - 1]
    case Lit(t) =>
      assert u[|u| - |t|..] == w[|w| - |t|..];
    case HexRun(_) =>
      assert u[|u| - 1] == w[|w| - 1];
  }

  /** A match of a clean pattern leaves the trimmed path ending as the pattern's last segment ends. */
  lemma SearchTail(p: Pattern, path: string)
    requires EndsClean(p) && Search(p, path).Some?
    ensures TailOf(p, Trim(path))
  {
    var m := Search(p, path).value;
    SearchSound(p, path);
    WindowTail(p, path, m.text, m.start);
  }

  /** A window a clean pattern fits, ending where `$` holds, is a suffix of the trimmed path. */
  lemma WindowTail(p: Pattern, path: string, w: string, s: nat)
    requires EndsClean(p) && Fits(p, w)
    requires s + |w| <= |path| && path[s..s + |w|] == w && EndAnchor(path, s + |w|)
    ensures TailOf(p, Trim(path))
  {
    FitsLast(p, w);
    AnchorBeforeNewline(path, w, s);
    var u := Trim(path);
    assert u[|u| - |w|..] == path[s..s + |w|];
    TailOfSuffix(p, u, w);
  }

  /** A window ending where `$` holds, whose last character is not a newline, ends where the trimmed path ends. */
  lemma AnchorBeforeNewline(path: string, w: string, s: nat)
    requires s + |w| <= |path| && path[s..s + |w|] == w && EndAnchor(path, s + |w|)
    requires |w| > 0 && w[|w| - 1] != '\n'
    ensures s + |w| == |Trim(path)|
  {
    assert path[s + |w| - 1] == w[|w| - 1];
  }

  lemma BackOfSuffix(u: string, t: string, k: nat)
    requires EndsWith(u, t) && k < |t|
    ensures Back(u, k) == t[|t| - 1 - k]
  {
    assert u[|u| - |t|..][|t| - 1 - k] == u[|u| - 1 - k];
  }

  /**
   * Reads off, from the last characters of the trimmed path, the only entry of the given
   * method whose pattern can have matched.
   */
  ghost function Discriminate(httpMethod: string, u: string): (r: nat)
  {
    if httpMethod == "GET" then
      var c := Back(u, 0);
      if c == 'D' then 0
      else if c == 's' then
        if Back(u, 1) == 'f' then 1
        else if Back(u, 1) == 'k' then 4
        else if Back(u, 10) == '/' then 2
        else 3
      else if c == 'k' then 6
      else if c == 'x' then 7
      else 5
    else if Back(u, 5) == 'd' then 8
    else 9
  }

  /** A match of an entry ending in literal `t` leaves the trimmed path ending in `t`. */
  lemma LitTail(i: nat, httpMethod: string, path: string, t: string)
    requires RouteMatches(i, httpMethod, path)
    requires EndsClean(SERVICES[i].pattern)
    requires SERVICES[i].pattern[|SERVICES[i].pattern| - 1] == Lit(t)
    ensures httpMethod == SERVICES[i].httpMethod && EndsWith(Trim(path), t)
  {
    SearchTail(SERVICES[i].pattern, path);
  }

  /** The discriminator finds entry `i` from any path entry `i` matches. */
  lemma {:induction false} DiscriminateRoute(i: nat, httpMethod: string, path: string)
    requires RouteMatches(i, httpMethod, path)
    ensures Discriminate(httpMethod, Trim(path)) == i
  {
    if i == 0 {
      DiscriminateRoute0(httpMethod, path);
    } else if i == 1 {
      DiscriminateRoute1(httpMethod, path);
    } else if i == 2 {
      DiscriminateRoute2(httpMethod, path);
    } else if i == 3 {
      DiscriminateRoute3(httpMethod, path);
    } else if i == 4 {
      DiscriminateRoute4(httpMethod, path);
    } else if i == 5 {
      DiscriminateRoute5(httpMethod, path);
    } else if i == 6 {
      DiscriminateRoute6(httpMethod, path);
    } else if i == 7 {
      DiscriminateRoute7(httpMethod, path);
    } else if i == 8 {
      DiscriminateRoute8(httpMethod, path);
    } else {
      DiscriminateRoute9(httpMethod, path);
    }
  }

  lemma DiscriminateRoute0(httpMethod: string, path: string)
    requires RouteMatches(0, httpMethod, path)
    ensures Discriminate(httpMethod, Trim(path)) == 0
  {
    LitTail(0, httpMethod, path, "/HEAD");
    DiscriminateTail0(httpMethod, Trim(path));
  }

  lemma DiscriminateRoute1(httpMethod: string, path: string)
    requires RouteMatches(1, httpMethod, path)
    ensures Discriminate(httpMethod, Trim(path)) == 1
  {
    LitTail(1, httpMethod, path, "/info/refs");
    DiscriminateTail1(httpMethod, Trim(path));
  }

  lemma DiscriminateRoute2(httpMethod: string, path: string)
    requires RouteMatches(2, httpMethod, path)
    ensures Discriminate(httpMethod, Trim(path)) == 2
  {
    LitTail(2, httpMethod, path, "/objects/info/alternates");
    DiscriminateTail2(httpMethod, Trim(path));
  }

  lemma DiscriminateRoute3(httpMethod: string, path: string)
    requires RouteMatches(3, httpMethod, path)
    ensures Discriminate(httpMethod, Trim(path)) == 3
  {
    LitTail(3, httpMethod, path, "/objects/info/http-alternates");
    DiscriminateTail3(httpMethod, Trim(path));
  }

  lemma DiscriminateRoute4(httpMethod: string, path: string)
    requires RouteMatches(4, httpMethod, path)
    ensures Discriminate(httpMethod, Trim(path)) == 4
  {
    LitTail(4, httpMethod, path, "/objects/info/packs");
    DiscriminateTail4(httpMethod, Trim(path));
  }

  lemma DiscriminateRoute5(httpMethod: string, path: string)
    requires RouteMatches(5, httpMethod, path)
    ensures Discriminate(httpMethod, Trim(path)) == 5
  {
    SearchTail(SERVICES[5].pattern, path);
    assert httpMethod == "GET";
    DiscriminateTail5(httpMethod, Trim(path));
  }

  lemma DiscriminateRoute6(httpMethod: string, path: string)
    requires RouteMatches(6, httpMethod, path)
    ensures Discriminate(httpMethod, Trim(path)) == 6
  {
    LitTail(6, httpMethod, path, ".pack");
    DiscriminateTail6(httpMethod, Trim(path));
  }

  lemma DiscriminateRoute7(httpMethod: string, path: string)
    requires RouteMatches(7, httpMethod, path)
    ensures Discriminate(httpMethod, Trim(path)) == 7
  {
    LitTail(7, httpMethod, path, ".idx");
    DiscriminateTail7(httpMethod, Trim(path));
  }

  lemma DiscriminateRoute8(httpMethod: string, path: string)
    requires RouteMatches(8, httpMethod, path)
    ensures Discriminate(httpMethod, Trim(path)) == 8
  {
    LitTail(8, httpMethod, path, "/git-upload-pack");
    DiscriminateTail8(httpMethod, Trim(path));
  }

  lemma DiscriminateRoute9(httpMethod: string, path: string)
    requires RouteMatches(9, httpMethod, path)
    ensures Discriminate(httpMethod, Trim(path)) == 9
  {
    LitTail(9, httpMethod, path, "/git-receive-pack");
    DiscriminateTail9(httpMethod, Trim(path));
  }

  // One lemma per entry: the end of the trimmed path that entry `i` leaves selects `i`.

  lemma DiscriminateTail0(httpMethod: string, u: string)
    requires httpMethod == "GET" && EndsWith(u, "/HEAD")
    ensures Discriminate(httpMethod, u) == 0
  {
    BackOfSuffix(u, "/HEAD", 0);
  }

  lemma DiscriminateTail1(httpMethod: string, u: string)
    requires httpMethod == "GET" && EndsWith(u, "/info/refs")
    ensures Discriminate(httpMethod, u) == 1
  {
    BackOfSuffix(u, "/info/refs", 0);
    BackOfSuffix(u, "/info/refs", 1);
  }

  lemma DiscriminateTail2(httpMethod: string, u: string)
    requires httpMethod == "GET" && EndsWith(u, "/objects/info/alternates")
    ensures Discriminate(httpMethod, u) == 2
  {
    BackOfSuffix(u, "/objects/info/alternates", 0);
    BackOfSuffix(u, "/objects/info/alternates", 1);
    BackOfSuffix(u, "/objects/info/alternates", 10);
  }

  lemma DiscriminateTail3(httpMethod: string, u: string)
    requires httpMethod == "GET" && EndsWith(u, "/objects/info/http-alternates")
    ensures Discriminate(httpMethod, u) == 3
  {
    BackOfSuffix(u, "/objects/info/http-alternates", 0);
    BackOfSuffix(u, "/objects/info/http-alternates", 1);
    BackOfSuffix(u, "/objects/info/http-alternates", 10);
  }

  lemma DiscriminateTail4(httpMethod: string, u: string)
    requires httpMethod == "GET" && EndsWith(u, "/objects/info/packs")
    ensures Discriminate(httpMethod, u) == 4
  {
    BackOfSuffix(u, "/objects/info/packs", 0);
    BackOfSuffix(u, "/objects/info/packs", 1);
  }

  lemma DiscriminateTail5(httpMethod: string, u: string)
    requires httpMethod == "GET" && |u| > 0 && IsLowerHex(u[|u| - 1])
    ensures Discriminate(httpMethod, u) == 5
  {
  }

  lemma DiscriminateTail6(httpMethod: string, u: string)
    requires httpMethod == "GET" && EndsWith(u, ".pack")
    ensures Discriminate(httpMethod, u) == 6
  {
    BackOfSuffix(u, ".pack", 0);
  }

  lemma DiscriminateTail7(httpMethod: string, u: string)
    requires httpMethod == "GET" && EndsWith(u, ".idx")
    ensures Discriminate(httpMethod, u) == 7
  {
    BackOfSuffix(u, ".idx", 0);
  }

  lemma DiscriminateTail8(httpMethod: string, u: string)
    requires httpMethod == "POST" && EndsWith(u, "/git-upload-pack")
    ensures Discriminate(httpMethod, u) == 8
  {
    BackOfSuffix(u, "/git-upload-pack", 5);
  }

  lemma DiscriminateTail9(httpMethod: string, u: string)
    requires httpMethod == "POST" && EndsWith(u, "/git-receive-pack")
    ensures Discriminate(httpMethod, u) == 9
  {
    BackOfSuffix(u, "/git-receive-pack", 5);
  }

  /**
   * No two entries of the table match the same request, so the entry the scan picks does
   * not depend on the order it visits them in.
   */
  lemma AtMostOneRoute(httpMethod: string, path: string, i: nat, j: nat)
    requires RouteMatches(i, httpMethod, path) && RouteMatches(j, httpMethod, path)
    ensures i == j
  {
    DiscriminateRoute(i, httpMethod, path);
    DiscriminateRoute(j, httpMethod, path);
  }

  datatype Selection = Selection(index: nat, handler: Handler, mat: Match)

  /**
   * The loop of `__call__`: visit the entries in `order` (a Python 2 dict gives no order of
   * its own), skip those of another method, and stop at the first whose pattern is found.
   * The result is the one matching entry, or `None` when none matches.
   */
  method Scan(order: seq<nat>, httpMethod: string, path: string) returns (r: Option<Selection>)
    requires forall k :: 0 <= k < |order| ==> order[k] < |SERVICES|
    requires forall i :: 0 <= i < |SERVICES| ==> i in order
    ensures r.Some? ==>
      && r.value.index < |SERVICES|
      && SERVICES[r.value.index].httpMethod == httpMethod
      && Search(SERVICES[r.value.index].pattern, path) == Some(r.value.mat)
      && r.value.handler == SERVICES[r.value.index].handler
    ensures r.Some? ==> forall i: nat :: RouteMatches(i, httpMethod, path) ==> i == r.value.index
    ensures r.None? <==> forall i: nat :: !RouteMatches(i, httpMethod, path)
  {
    r := None;
    var k := 0;
    while k < |order|
      invariant 0 <= k <= |order|
      invariant forall q :: 0 <= q < k ==> !RouteMatches(order[q], httpMethod, path)
    {
      var mat := Probe(order[k], httpMethod, path);
      if mat.Some? {
        r := Some(Selection(order[k], SERVICES[order[k]].handler, mat.value));
        assert RouteMatches(order[k], httpMethod, path);
        OnlyMatch(httpMethod, path, order[k]);
        return;
      }
      NoMatchYet(order, k, httpMethod, path);
      k := k + 1;
    }
    NoMatchLeft(order, httpMethod, path);
  }

  /** One more entry found not to match. */
  lemma NoMatchYet(order: seq<nat>, k: nat, httpMethod: string, path: string)
    requires k < |order|
    requires forall q :: 0 <= q < k ==> !RouteMatches(order[q], httpMethod, path)
    requires order[k] < |SERVICES| && Probe(order[k], httpMethod, path).None?
    ensures forall q :: 0 <= q < k + 1 ==> !RouteMatches(order[q], httpMethod, path)
  {
  }

  /** A matching entry is the only one. */
  lemma OnlyMatch(httpMethod: string, path: string, j: nat)
    requires RouteMatches(j, httpMethod, path)
    ensures forall i: nat :: RouteMatches(i, httpMethod, path) ==> i == j
  {
    forall i: nat | RouteMatches(i, httpMethod, path)
      ensures i == j
    {
      AtMostOneRoute(httpMethod, path, i, j);
    }
  }

  /** When no entry in an order visiting every index matches, no entry matches at all. */
  lemma NoMatchLeft(order: seq<nat>, httpMethod: string, path: string)
    requires forall i :: 0 <= i < |SERVICES| ==> i in order
    requires forall q :: 0 <= q < |order| ==> !RouteMatches(order[q], httpMethod, path)
    ensures forall i: nat :: !RouteMatches(i, httpMethod, path)
  {
    forall i: nat | i < |SERVICES|
      ensures !RouteMatches(i, httpMethod, path)
    {
      assert i in order;
      var q :| 0 <= q < |order| && order[q] == i;
    }
  }
}
