/**
 The two route tables, the client's and the edge's: each is stably sorted by literal count and
 searched front to back (src/client/router.cpp, src/edge/pagesservice.cpp).
 */
module RouteTables {
  import opened Prelude
  import opened RoutePatterns

  // ---------------------------------------------------------------------------------------------
  // std::stable_sort by descending rank, and a front-to-back search
  // ---------------------------------------------------------------------------------------------

  function Insert<T>(x: T, s: seq<T>, rank: T -> int): seq<T> {
    if s == [] || rank(x) >= rank(s[0]) then [x] + s
    else [s[0]] + Insert(x, s[1..], rank)
  }

  function StableSort<T>(s: seq<T>, rank: T -> int): seq<T> {
    if s == [] then [] else Insert(s[0], StableSort(s[1..], rank), rank)
  }

  function First<T>(s: seq<T>, hit: T -> bool): Option<T> {
    if s == [] then None else if hit(s[0]) then Some(s[0]) else First(s[1..], hit)
  }

  /** `i` is the earliest of the hits in `s` that no hit outranks. */
  ghost predicate IsBest<T>(s: seq<T>, rank: T -> int, hit: T -> bool, i: int) {
    && 0 <= i < |s| && hit(s[i])
    && forall j :: 0 <= j < |s| && hit(s[j]) ==> rank(s[j]) < rank(s[i]) || (rank(s[j]) == rank(s[i]) && i <= j)
  }

  ghost predicate Descending<T>(s: seq<T>, rank: T -> int) {
    forall i, j :: 0 <= i < j < |s| ==> rank(s[i]) >= rank(s[j])
  }

  lemma {:induction false} InsertMembers<T>(x: T, s: seq<T>, rank: T -> int)
    ensures multiset(Insert(x, s, rank)) == multiset{x} + multiset(s)
  {
    if !(s == [] || rank(x) >= rank(s[0])) {
      InsertMembers(x, s[1..], rank);
      assert s == [s[0]] + s[1..];
    }
  }

  lemma {:induction false} InsertDescends<T>(x: T, s: seq<T>, rank: T -> int)
    requires Descending(s, rank)
    ensures Descending(Insert(x, s, rank), rank)
  {
    if !(s == [] || rank(x) >= rank(s[0])) {
      InsertDescends(x, s[1..], rank);
      InsertMembers(x, s[1..], rank);
      var tail := Insert(x, s[1..], rank);
      forall j | 0 <= j < |tail| ensures rank(s[0]) >= rank(tail[j]) {
        assert tail[j] in multiset(tail);
      }
    }
  }

  lemma {:induction false} SortPermutes<T>(s: seq<T>, rank: T -> int)
    ensures multiset(StableSort(s, rank)) == multiset(s)
    ensures Descending(StableSort(s, rank), rank)
  {
    if s != [] {
      SortPermutes(s[1..], rank);
      InsertMembers(s[0], StableSort(s[1..], rank), rank);
      InsertDescends(s[0], StableSort(s[1..], rank), rank);
      assert s == [s[0]] + s[1..];
    }
  }

  lemma {:induction false} FirstAfterInsert<T>(x: T, s: seq<T>, rank: T -> int, hit: T -> bool)
    requires Descending(s, rank)
    ensures First(Insert(x, s, rank), hit) ==
            var f := First(s, hit);
            if hit(x) && (f.None? || rank(x) >= rank(f.value)) then Some(x) else f
  {
    if s == [] {
      assert Insert(x, s, rank) == [x];
    } else if rank(x) >= rank(s[0]) {
      assert ([x] + s)[1..] == s;
      FirstIsMember(s, hit);
    } else {
      FirstAfterInsert(x, s[1..], rank, hit);
      assert Insert(x, s, rank)[1..] == Insert(x, s[1..], rank);
    }
  }

  lemma {:induction false} FirstIsMember<T>(s: seq<T>, hit: T -> bool)
    ensures match First(s, hit)
            case None => forall i :: 0 <= i < |s| ==> !hit(s[i])
            case Some(x) => exists i :: 0 <= i < |s| && s[i] == x && hit(x) && forall j :: 0 <= j < i ==> !hit(s[j])
  {
    if s != [] && !hit(s[0]) {
      FirstIsMember(s[1..], hit);
      match First(s[1..], hit)
      case None =>
        assert forall i :: 0 < i < |s| ==> s[i] == s[1..][i - 1];
      case Some(x) =>
        var i :| 0 <= i < |s[1..]| && s[1..][i] == x && hit(x) && forall j :: 0 <= j < i ==> !hit(s[1..][j]);
        assert s[i + 1] == x;
        assert forall j :: 0 < j < i + 1 ==> s[j] == s[1..][j - 1];
    }
  }

  /** Searching the sorted table finds the first-declared hit of the highest rank, or nothing
      exactly when nothing hits. */
  lemma {:induction false} SearchFindsBest<T>(s: seq<T>, rank: T -> int, hit: T -> bool)
    ensures match First(StableSort(s, rank), hit)
            case None => forall i :: 0 <= i < |s| ==> !hit(s[i])
            case Some(x) => exists i :: IsBest(s, rank, hit, i) && s[i] == x
  {
    if s != [] {
      var rest := s[1..];
      SearchFindsBest(rest, rank, hit);
      SortPermutes(rest, rank);
      FirstAfterInsert(s[0], StableSort(rest, rank), rank, hit);
      assert forall i :: 0 < i < |s| ==> s[i] == rest[i - 1];
      var f := First(StableSort(rest, rank), hit);
      if f.None? {
        assert hit(s[0]) ==> IsBest(s, rank, hit, 0);
      } else {
        var i :| IsBest(rest, rank, hit, i) && rest[i] == f.value;
        if hit(s[0]) && rank(s[0]) >= rank(f.value) {
          assert IsBest(s, rank, hit, 0);
        } else {
          assert s[i + 1] == f.value;
          assert IsBest(s, rank, hit, i + 1);
        }
      }
    }
  }

  /** The best of a sequence, not its head, is the best of the tail and outranks a head that hits. */
  lemma BestOfTail<T>(s: seq<T>, rank: T -> int, hit: T -> bool, i: int)
    requires IsBest(s, rank, hit, i) && i > 0
    ensures IsBest(s[1..], rank, hit, i - 1) && (hit(s[0]) ==> rank(s[0]) < rank(s[i]))
  {
    forall j | 0 <= j < |s| - 1 && hit(s[1..][j])
      ensures rank(s[1..][j]) < rank(s[i]) || (rank(s[1..][j]) == rank(s[i]) && i - 1 <= j)
    {
      assert s[1..][j] == s[j + 1];
    }
  }

  lemma BestBehind<T>(s: seq<T>, rank: T -> int, hit: T -> bool, i: int)
    requires s != [] && IsBest(s[1..], rank, hit, i) && (hit(s[0]) ==> rank(s[0]) < rank(s[1..][i]))
    ensures IsBest(s, rank, hit, i + 1)
  {
    forall j | 0 <= j < |s| && hit(s[j])
      ensures rank(s[j]) < rank(s[i + 1]) || (rank(s[j]) == rank(s[i + 1]) && i + 1 <= j)
    {
      assert j > 0 ==> s[j] == s[1..][j - 1];
    }
  }

  lemma {:induction false} BestOfSuffix<T>(a: seq<T>, b: seq<T>, rank: T -> int, hit: T -> bool, i: int)
    requires IsBest(a + b, rank, hit, i) && i >= |a|
    ensures IsBest(b, rank, hit, i - |a|)
    ensures forall x :: x in a && hit(x) ==> rank(x) < rank(b[i - |a|])
    decreases |a|
  {
    if a == [] {
      assert a + b == b;
    } else {
      assert (a + b)[1..] == a[1..] + b;
      BestOfTail(a + b, rank, hit, i);
      BestOfSuffix(a[1..], b, rank, hit, i - 1);
    }
  }

  lemma OneBest<T>(s: seq<T>, rank: T -> int, hit: T -> bool, i: int, j: int)
    requires IsBest(s, rank, hit, i) && IsBest(s, rank, hit, j)
    ensures i == j
  {
  }

  // ---------------------------------------------------------------------------------------------
  // The client's table
  // ---------------------------------------------------------------------------------------------

  /** One entry of the table. An empty `componentUrl` marks a page the edge delivers. */
  datatype RouteConfig = RouteConfig(path: string, scope: string, componentUrl: string, accelerated: bool)

  datatype Route = Route(pattern: RoutePattern, config: RouteConfig)

  function Rank(r: Route): int { r.pattern.literals }

  function RouteMatcher(actual: seq<string>): Route -> bool {
    (r: Route) => Matches(r.pattern, actual)
  }

  /** The configured entries whose pattern is valid, in declaration order. */
  function CompileRoutes(configs: seq<RouteConfig>, isName: string -> bool): seq<Route> {
    if configs == [] then []
    else
      var pattern := Compile(configs[0].path, isName);
      var rest := CompileRoutes(configs[1..], isName);
      if pattern.valid then [Route(pattern, configs[0])] + rest else rest
  }

  function PathsOf(routes: seq<Route>): set<string> {
    set r | r in routes :: r.config.path
  }

  /** The edge's entries whose path the bundle does not already own. */
  function Unowned(remote: seq<Route>, owned: set<string>): (kept: seq<Route>)
    ensures forall r :: r in kept <==> r in remote && r.config.path !in owned
  {
    if remote == [] then []
    else if remote[0].config.path in owned then Unowned(remote[1..], owned)
    else [remote[0]] + Unowned(remote[1..], owned)
  }

  /** The table as the edge's JSON gives it: a delivered page has no compiled-in view. */
  function AsRemote(entries: seq<RouteConfig>): seq<RouteConfig> {
    seq(|entries|, i requires 0 <= i < |entries| => entries[i].(componentUrl := ""))
  }

  function MergedRoutes(compiled: seq<Route>, remote: seq<Route>): seq<Route> {
    compiled + Unowned(remote, PathsOf(compiled))
  }

  function ClientTable(compiled: seq<Route>, remote: seq<Route>): seq<Route> {
    StableSort(MergedRoutes(compiled, remote), Rank)
  }

  function Lookup(table: seq<Route>, path: string): Option<Route> {
    match SplitPath(path)
    case None => None
    case Some(actual) => First(table, RouteMatcher(actual))
  }

  ghost predicate MatchesPath(pattern: RoutePattern, path: string) {
    SplitPath(path).Some? && Matches(pattern, SplitPath(path).value)
  }

  /** A pattern as Compile leaves it. */
  predicate Compiled(r: Route, isName: string -> bool) {
    r.pattern == Compile(r.config.path, isName) && r.pattern.valid
  }

  lemma {:induction false} CompileRoutesSpec(configs: seq<RouteConfig>, isName: string -> bool)
    ensures forall r :: r in CompileRoutes(configs, isName) <==>
                        r.config in configs && Compiled(r, isName)
  {
    if configs != [] {
      CompileRoutesSpec(configs[1..], isName);
    }
  }

  /** `i` is the earliest of the declared routes matching `path` with the most literal segments. */
  ghost predicate MostLiteralFirst(declared: seq<Route>, path: string, i: int) {
    && 0 <= i < |declared| && MatchesPath(declared[i].pattern, path)
    && forall j :: 0 <= j < |declared| && MatchesPath(declared[j].pattern, path) ==>
         declared[j].pattern.literals < declared[i].pattern.literals
         || (declared[j].pattern.literals == declared[i].pattern.literals && i <= j)
  }

  /** A lookup answers with the first-declared matching route of maximal literal count, and with
      nothing only when no declared route matches. */
  lemma LookupIsMostLiteralFirstDeclared(declared: seq<Route>, path: string)
    ensures match Lookup(StableSort(declared, Rank), path)
            case None => forall r :: r in declared ==> !MatchesPath(r.pattern, path)
            case Some(found) =>
              exists i :: 0 <= i < |declared| && declared[i] == found && MostLiteralFirst(declared, path, i)
  {
    if SplitPath(path).Some? {
      var hit := RouteMatcher(SplitPath(path).value);
      SearchFindsBest(declared, Rank, hit);
      var f := First(StableSort(declared, Rank), hit);
      if f.Some? {
        var i :| IsBest(declared, Rank, hit, i) && declared[i] == f.value;
        assert hit(declared[i]);
        forall j | 0 <= j < |declared| && MatchesPath(declared[j].pattern, path)
          ensures declared[j].pattern.literals < declared[i].pattern.literals
                  || (declared[j].pattern.literals == declared[i].pattern.literals && i <= j)
        {
          assert hit(declared[j]);
        }
        assert MostLiteralFirst(declared, path, i);
      } else {
        forall r | r in declared ensures !MatchesPath(r.pattern, path) {
          var i :| 0 <= i < |declared| && declared[i] == r;
          assert !hit(declared[i]);
        }
      }
    }
  }

  /** The edge can only take a path over from the bundle with a strictly more literal pattern of
      its own, and never turns a path the bundle serves into a missing one. */
  lemma MergingKeepsTheBundle(compiled: seq<Route>, remote: seq<Route>, path: string)
    requires Lookup(StableSort(compiled, Rank), path).Some?
    ensures Lookup(ClientTable(compiled, remote), path).Some?
    ensures var before := Lookup(StableSort(compiled, Rank), path).value;
            var after := Lookup(ClientTable(compiled, remote), path).value;
            after != before ==> after in remote && after.config.path !in PathsOf(compiled)
                                && after.pattern.literals > before.pattern.literals
  {
    var merged := MergedRoutes(compiled, remote);
    LookupIsMostLiteralFirstDeclared(compiled, path);
    LookupIsMostLiteralFirstDeclared(merged, path);
    var before := Lookup(StableSort(compiled, Rank), path).value;
    var i :| 0 <= i < |compiled| && compiled[i] == before && MostLiteralFirst(compiled, path, i);
    assert merged[i] == before;
    var after := Lookup(StableSort(merged, Rank), path).value;
    var k :| 0 <= k < |merged| && merged[k] == after && MostLiteralFirst(merged, path, k);
    if k < |compiled| {
      assert compiled[k] == after;
      assert k == i;
    } else {
      assert after in Unowned(remote, PathsOf(compiled));
    }
  }

  // ---------------------------------------------------------------------------------------------
  // The edge's table
  // ---------------------------------------------------------------------------------------------

  /** A declared route with its compiled pattern. */
  datatype Candidate = Candidate(route: string, pattern: RoutePattern)

  function CandidateRank(c: Candidate): int { c.pattern.literals }

  function CandidateMatcher(actual: seq<string>): Candidate -> bool {
    (c: Candidate) => Matches(c.pattern, actual)
  }

  function CompileCandidates(declared: seq<string>, isName: string -> bool): seq<Candidate> {
    if declared == [] then []
    else
      var pattern := Compile(declared[0], isName);
      var rest := CompileCandidates(declared[1..], isName);
      if pattern.valid then [Candidate(declared[0], pattern)] + rest else rest
  }

  function SortedCandidates(declared: seq<string>, isName: string -> bool): seq<Candidate> {
    StableSort(CompileCandidates(declared, isName), CandidateRank)
  }

  /** The declared route the edge answers a path with. `declared` is in no particular order. */
  function EdgeMatch(declared: seq<string>, isName: string -> bool, path: string): Option<string> {
    match SplitPath(path)
    case None => None
    case Some(actual) =>
      match First(SortedCandidates(declared, isName), CandidateMatcher(actual))
      case None => None
      case Some(c) => Some(c.route)
  }

  lemma {:induction false} CompileCandidatesSpec(declared: seq<string>, isName: string -> bool)
    ensures forall c :: c in CompileCandidates(declared, isName) <==>
                        c.route in declared && c.pattern == Compile(c.route, isName) && c.pattern.valid
  {
    if declared != [] {
      CompileCandidatesSpec(declared[1..], isName);
    }
  }

  function PatternRank(isName: string -> bool): string -> int {
    (d: string) => Compile(d, isName).literals
  }

  ghost function PatternMatcher(isName: string -> bool, path: string): string -> bool {
    (d: string) => MatchesPath(Compile(d, isName), path)
  }

  /** `i` is the earliest of the declared patterns matching `path` with the most literal segments. */
  ghost predicate EdgeFirst(declared: seq<string>, isName: string -> bool, path: string, i: int) {
    IsBest(declared, PatternRank(isName), PatternMatcher(isName, path), i)
  }

  /** The best of the compiled candidates is the first of the declared patterns. */
  lemma {:induction false} BestCandidateIsFirst(declared: seq<string>, isName: string -> bool, path: string, i: int)
    requires SplitPath(path).Some?
    requires IsBest(CompileCandidates(declared, isName), CandidateRank, CandidateMatcher(SplitPath(path).value), i)
    ensures exists m :: EdgeFirst(declared, isName, path, m)
                        && declared[m] == CompileCandidates(declared, isName)[i].route
    decreases |declared|
  {
    var all, hit := CompileCandidates(declared, isName), CandidateMatcher(SplitPath(path).value);
    var rest, pattern := CompileCandidates(declared[1..], isName), Compile(declared[0], isName);
    if pattern.valid && i == 0 {
      HeadCandidateIsFirst(declared, isName, path);
    } else {
      if pattern.valid {
        BestOfTail(all, CandidateRank, hit, i);
        assert all[1..] == rest;
      }
      var at := if pattern.valid then i - 1 else i;
      BestCandidateIsFirst(declared[1..], isName, path, at);
      var m :| EdgeFirst(declared[1..], isName, path, m) && declared[1..][m] == rest[at].route;
      CompileCandidatesSpec(declared[1..], isName);
      assert rest[at] in rest;
      BestBehind(declared, PatternRank(isName), PatternMatcher(isName, path), m);
    }
  }

  lemma HeadCandidateIsFirst(declared: seq<string>, isName: string -> bool, path: string)
    requires SplitPath(path).Some? && declared != [] && Compile(declared[0], isName).valid
    requires IsBest(CompileCandidates(declared, isName), CandidateRank, CandidateMatcher(SplitPath(path).value), 0)
    ensures EdgeFirst(declared, isName, path, 0)
    ensures declared[0] == CompileCandidates(declared, isName)[0].route
  {
    var all := CompileCandidates(declared, isName);
    CompileCandidatesSpec(declared, isName);
    forall j | 0 <= j < |declared| && PatternMatcher(isName, path)(declared[j])
      ensures PatternRank(isName)(declared[j]) <= PatternRank(isName)(declared[0])
    {
      assert declared[j] in declared;
      var k :| 0 <= k < |all| && all[k] == Candidate(declared[j], Compile(declared[j], isName));
      assert CandidateMatcher(SplitPath(path).value)(all[k]);
    }
  }

  /** The edge answers with the first-declared matching pattern of maximal literal count, and with nothing
      exactly when no declared pattern matches. */
  lemma EdgeMatchIsMostLiteralFirstDeclared(declared: seq<string>, isName: string -> bool, path: string)
    ensures match EdgeMatch(declared, isName, path)
            case None => forall d :: d in declared ==> !MatchesPath(Compile(d, isName), path)
            case Some(found) => exists i :: EdgeFirst(declared, isName, path, i) && declared[i] == found
  {
    if EdgeMatch(declared, isName, path).Some? {
      var i := FoundIsFirst(declared, isName, path);
    } else {
      forall d | d in declared ensures !MatchesPath(Compile(d, isName), path) {
        NothingFound(declared, isName, path, d);
      }
    }
  }

  lemma FoundIsFirst(declared: seq<string>, isName: string -> bool, path: string) returns (m: int)
    requires EdgeMatch(declared, isName, path).Some?
    ensures EdgeFirst(declared, isName, path, m) && declared[m] == EdgeMatch(declared, isName, path).value
  {
    var all, hit := CompileCandidates(declared, isName), CandidateMatcher(SplitPath(path).value);
    SearchFindsBest(all, CandidateRank, hit);
    var i :| IsBest(all, CandidateRank, hit, i) && all[i] == First(StableSort(all, CandidateRank), hit).value;
    BestCandidateIsFirst(declared, isName, path, i);
    m :| EdgeFirst(declared, isName, path, m) && declared[m] == all[i].route;
  }

  lemma NothingFound(declared: seq<string>, isName: string -> bool, path: string, d: string)
    requires EdgeMatch(declared, isName, path) == None && d in declared
    ensures !MatchesPath(Compile(d, isName), path)
  {
    if SplitPath(path).Some? && Compile(d, isName).valid {
      var all, hit := CompileCandidates(declared, isName), CandidateMatcher(SplitPath(path).value);
      SearchFindsBest(all, CandidateRank, hit);
      CompileCandidatesSpec(declared, isName);
      var c := Candidate(d, Compile(d, isName));
      assert c in all;
      var i :| 0 <= i < |all| && all[i] == c;
      assert !hit(all[i]);
    }
  }

  lemma EdgeMissesExactly(declared: seq<string>, isName: string -> bool, path: string)
    ensures EdgeMatch(declared, isName, path) == None <==>
            forall d :: d in declared ==> !MatchesPath(Compile(d, isName), path)
  {
    if EdgeMatch(declared, isName, path).Some? {
      var i := FoundIsFirst(declared, isName, path);
      assert declared[i] in declared && MatchesPath(Compile(declared[i], isName), path);
    } else {
      EdgeMatchIsMostLiteralFirstDeclared(declared, isName, path);
    }
  }

  /** The edge answers with a route exactly when that route is the first of the most literal ones; so a path
      whose route is not declared is answered with another's page exactly when a declared pattern matches it. */
  lemma EdgeAnswersExactly(declared: seq<string>, isName: string -> bool, path: string, route: string)
    ensures EdgeMatch(declared, isName, path) == Some(route) <==>
            exists i :: EdgeFirst(declared, isName, path, i) && declared[i] == route
    ensures route !in declared ==>
              (EdgeMatch(declared, isName, path) !in {None, Some(route)} <==>
               exists d :: d in declared && MatchesPath(Compile(d, isName), path))
  {
    EdgeMatchIsMostLiteralFirstDeclared(declared, isName, path);
    var found := EdgeMatch(declared, isName, path);
    if found.Some? {
      var m :| EdgeFirst(declared, isName, path, m) && declared[m] == found.value;
      forall i | EdgeFirst(declared, isName, path, i) ensures i == m {
        OneBest(declared, PatternRank(isName), PatternMatcher(isName, path), i, m);
      }
      assert declared[m] in declared && MatchesPath(Compile(declared[m], isName), path);
    }
  }

  // ---------------------------------------------------------------------------------------------
  // The two sides
  // ---------------------------------------------------------------------------------------------

  /** The edge publishes the routes it declares, in the order in which it searches them. */
  predicate Publishes(entries: seq<RouteConfig>, declared: seq<string>) {
    |entries| == |declared| && forall i :: 0 <= i < |entries| ==> entries[i].path == declared[i]
  }

  lemma AsRemoteTail(entries: seq<RouteConfig>)
    requires entries != []
    ensures AsRemote(entries)[1..] == AsRemote(entries[1..])
    ensures AsRemote(entries)[0] == entries[0].(componentUrl := "")
  {
    forall i | 0 <= i < |entries| - 1 ensures AsRemote(entries)[1..][i] == AsRemote(entries[1..])[i] {
      assert AsRemote(entries)[1..][i] == entries[i + 1].(componentUrl := "");
    }
  }

  lemma {:induction false} RemoteIsCandidates(entries: seq<RouteConfig>, declared: seq<string>, isName: string -> bool)
    requires Publishes(entries, declared)
    ensures var remote, all := CompileRoutes(AsRemote(entries), isName), CompileCandidates(declared, isName);
            |remote| == |all| && forall i :: 0 <= i < |all| ==>
              all[i].route == remote[i].config.path && all[i].pattern == remote[i].pattern
    decreases |entries|
  {
    if entries != [] {
      RemoteIsCandidates(entries[1..], declared[1..], isName);
      AsRemoteTail(entries);
    }
  }

  /** The best of all is the best of those kept, if it is kept. */
  lemma {:induction false} KeptBestIsBest(remote: seq<Route>, owned: set<string>, hit: Route -> bool, i: int)
    returns (j: int)
    requires IsBest(remote, Rank, hit, i) && remote[i].config.path !in owned
    ensures IsBest(Unowned(remote, owned), Rank, hit, j) && Unowned(remote, owned)[j] == remote[i]
    decreases |remote|
  {
    if i == 0 {
      j := 0;
      HeadStaysBest(remote, Unowned(remote, owned), hit);
    } else {
      BestOfTail(remote, Rank, hit, i);
      j := KeptBestIsBest(remote[1..], owned, hit, i - 1);
      if remote[0].config.path !in owned {
        BestBehindHead(remote[0], Unowned(remote[1..], owned), hit, j);
        j := j + 1;
      }
    }
  }

  lemma BestBehindHead(head: Route, rest: seq<Route>, hit: Route -> bool, j: int)
    requires IsBest(rest, Rank, hit, j) && (hit(head) ==> Rank(head) < Rank(rest[j]))
    ensures IsBest([head] + rest, Rank, hit, j + 1)
  {
    assert ([head] + rest)[1..] == rest;
    BestBehind([head] + rest, Rank, hit, j);
  }

  lemma HeadStaysBest(remote: seq<Route>, kept: seq<Route>, hit: Route -> bool)
    requires IsBest(remote, Rank, hit, 0) && kept != [] && kept[0] == remote[0]
    requires forall r :: r in kept ==> r in remote
    ensures IsBest(kept, Rank, hit, 0)
  {
    forall j | 0 <= j < |kept| && hit(kept[j]) ensures Rank(kept[j]) <= Rank(kept[0]) {
      assert kept[j] in kept;
      var at :| 0 <= at < |remote| && remote[at] == kept[j];
      assert hit(remote[at]);
    }
  }

  /** A route the bundle owns is outranked by the client's pick, when the pick is one of the edge's. */
  lemma PickOutranksTheBundle(compiled: seq<Route>, remote: seq<Route>, path: string, mine: Route)
    requires Lookup(ClientTable(compiled, remote), path) == Some(mine) && mine.config.path !in PathsOf(compiled)
    ensures mine in remote && SplitPath(path).Some?
    ensures forall r :: r in compiled && MatchesPath(r.pattern, path) ==> r.pattern.literals < mine.pattern.literals
    ensures exists j :: IsBest(Unowned(remote, PathsOf(compiled)), Rank, RouteMatcher(SplitPath(path).value), j)
                        && Unowned(remote, PathsOf(compiled))[j] == mine
  {
    var merged, kept := MergedRoutes(compiled, remote), Unowned(remote, PathsOf(compiled));
    var hit := RouteMatcher(SplitPath(path).value);
    SearchFindsBest(merged, Rank, hit);
    var m :| IsBest(merged, Rank, hit, m) && merged[m] == mine;
    assert forall i :: 0 <= i < |compiled| ==> merged[i] == compiled[i] && compiled[i] in compiled;
    assert m >= |compiled|;
    BestOfSuffix(compiled, kept, Rank, hit, m);
    assert kept[m - |compiled|] == mine;
    assert mine in kept;
    assert forall r :: r in compiled && MatchesPath(r.pattern, path) ==> hit(r);
  }

  /** The route is declared, and no equally literal match of the path is declared before it. */
  ghost predicate NothingTiedBefore(declared: seq<string>, isName: string -> bool, path: string, route: string) {
    exists i :: 0 <= i < |declared| && declared[i] == route && UntiedUpTo(declared, isName, path, i)
  }

  ghost predicate UntiedUpTo(declared: seq<string>, isName: string -> bool, path: string, i: int)
    requires 0 <= i < |declared|
  {
    forall j :: 0 <= j < i && MatchesPath(Compile(declared[j], isName), path) ==>
      Compile(declared[j], isName).literals != Compile(declared[i], isName).literals
  }

  /** A declared pattern is the pattern of some route of the client's table. */
  lemma DeclaredIsInTheTable(bundle: seq<RouteConfig>, entries: seq<RouteConfig>, declared: seq<string>,
                             isName: string -> bool, d: string) returns (r: Route)
    requires Publishes(entries, declared) && d in declared && Compile(d, isName).valid
    ensures r in MergedRoutes(CompileRoutes(bundle, isName), CompileRoutes(AsRemote(entries), isName))
    ensures r.pattern == Compile(d, isName)
  {
    var compiled, remote := CompileRoutes(bundle, isName), CompileRoutes(AsRemote(entries), isName);
    CompileRoutesSpec(bundle, isName);
    CompileRoutesSpec(AsRemote(entries), isName);
    if d in PathsOf(compiled) {
      r :| r in compiled && r.config.path == d;
    } else {
      var i :| 0 <= i < |declared| && declared[i] == d;
      var config := AsRemote(entries)[i];
      assert config in AsRemote(entries) && config.path == d;
      r := Route(Compile(d, isName), config);
      assert r in remote;
    }
  }

  /** No declared pattern that matches is more literal than the client's pick. */
  lemma NothingDeclaredOutranks(bundle: seq<RouteConfig>, entries: seq<RouteConfig>, declared: seq<string>,
                                isName: string -> bool, path: string, mine: Route)
    requires Publishes(entries, declared)
    requires Lookup(ClientTable(CompileRoutes(bundle, isName), CompileRoutes(AsRemote(entries), isName)), path)
             == Some(mine)
    ensures Compiled(mine, isName) && MatchesPath(mine.pattern, path)
    ensures forall d :: d in declared && MatchesPath(Compile(d, isName), path) ==>
              Compile(d, isName).literals <= mine.pattern.literals
  {
    var merged := MergedRoutes(CompileRoutes(bundle, isName), CompileRoutes(AsRemote(entries), isName));
    CompileRoutesSpec(bundle, isName);
    CompileRoutesSpec(AsRemote(entries), isName);
    LookupIsMostLiteralFirstDeclared(merged, path);
    var m :| 0 <= m < |merged| && merged[m] == mine && MostLiteralFirst(merged, path, m);
    assert mine in merged;
    forall d | d in declared && MatchesPath(Compile(d, isName), path)
      ensures Compile(d, isName).literals <= mine.pattern.literals
    {
      var r := DeclaredIsInTheTable(bundle, entries, declared, isName, d);
      var at :| 0 <= at < |merged| && merged[at] == r;
      assert MatchesPath(merged[at].pattern, path);
    }
  }

  /** Where nothing outranks a route, the edge answers with it exactly when nothing tied stands before it. */
  lemma OnlyTiesPart(declared: seq<string>, isName: string -> bool, path: string, route: string)
    requires MatchesPath(Compile(route, isName), path)
    requires forall d :: d in declared && MatchesPath(Compile(d, isName), path) ==>
               Compile(d, isName).literals <= Compile(route, isName).literals
    ensures EdgeMatch(declared, isName, path) == Some(route) <==> NothingTiedBefore(declared, isName, path, route)
  {
    EdgeAnswersExactly(declared, isName, path, route);
    if NothingTiedBefore(declared, isName, path, route) {
      var i :| 0 <= i < |declared| && declared[i] == route && UntiedUpTo(declared, isName, path, i);
      forall j | 0 <= j < |declared| && PatternMatcher(isName, path)(declared[j])
        ensures PatternRank(isName)(declared[j]) < PatternRank(isName)(declared[i])
                || (PatternRank(isName)(declared[j]) == PatternRank(isName)(declared[i]) && i <= j)
      {
        assert declared[j] in declared;
      }
      assert EdgeFirst(declared, isName, path, i);
    }
    if EdgeMatch(declared, isName, path) == Some(route) {
      var i :| EdgeFirst(declared, isName, path, i) && declared[i] == route;
      forall j | 0 <= j < i && MatchesPath(Compile(declared[j], isName), path)
        ensures Compile(declared[j], isName).literals != Compile(declared[i], isName).literals
      {
        assert PatternMatcher(isName, path)(declared[j]);
      }
      assert UntiedUpTo(declared, isName, path, i);
    }
  }

  /** The edge picks the client's route for a path exactly when it declares it with no equally literal match
      before it: only a tie, or a route it does not declare, parts the two sides. A route the bundle does not own
      is always the edge's pick, ties included. */
  lemma ClientAndEdgeAgree(bundle: seq<RouteConfig>, entries: seq<RouteConfig>, declared: seq<string>,
                           isName: string -> bool, path: string)
    requires Publishes(entries, declared)
    requires Lookup(ClientTable(CompileRoutes(bundle, isName), CompileRoutes(AsRemote(entries), isName)), path).Some?
    ensures var compiled := CompileRoutes(bundle, isName);
            var mine := Lookup(ClientTable(compiled, CompileRoutes(AsRemote(entries), isName)), path).value.config.path;
            && (EdgeMatch(declared, isName, path) == Some(mine) <==> NothingTiedBefore(declared, isName, path, mine))
            && (mine !in PathsOf(compiled) ==> EdgeMatch(declared, isName, path) == Some(mine))
  {
    var compiled, remote := CompileRoutes(bundle, isName), CompileRoutes(AsRemote(entries), isName);
    var mine := Lookup(ClientTable(compiled, remote), path).value;
    NothingDeclaredOutranks(bundle, entries, declared, isName, path, mine);
    OnlyTiesPart(declared, isName, path, mine.config.path);
    if mine.config.path !in PathsOf(compiled) {
      EdgePickIsAnswered(bundle, entries, declared, isName, path, mine);
    }
  }

  /** So the two sides agree on every declared route that is the only match of its rank. */
  lemma AgreeWithoutATie(bundle: seq<RouteConfig>, entries: seq<RouteConfig>, declared: seq<string>,
                         isName: string -> bool, path: string, mine: string)
    requires Publishes(entries, declared) && mine in declared
    requires var table := ClientTable(CompileRoutes(bundle, isName), CompileRoutes(AsRemote(entries), isName));
             Lookup(table, path).Some? && Lookup(table, path).value.config.path == mine
    requires forall d :: d in declared && MatchesPath(Compile(d, isName), path) && d != mine ==>
               Compile(d, isName).literals != Compile(mine, isName).literals
    ensures EdgeMatch(declared, isName, path) == Some(mine)
  {
    ClientAndEdgeAgree(bundle, entries, declared, isName, path);
    var i := FirstOccurrence(declared, mine);
    forall j | 0 <= j < i && MatchesPath(Compile(declared[j], isName), path)
      ensures Compile(declared[j], isName).literals != Compile(declared[i], isName).literals
    {
      assert declared[j] in declared;
    }
    assert UntiedUpTo(declared, isName, path, i);
  }

  lemma {:induction false} FirstOccurrence(declared: seq<string>, d: string) returns (i: nat)
    requires d in declared
    ensures i < |declared| && declared[i] == d && d !in declared[..i]
    decreases |declared|
  {
    if declared[0] == d {
      i := 0;
    } else {
      i := FirstOccurrence(declared[1..], d);
      assert declared[..i + 1] == [declared[0]] + declared[1..][..i];
      i := i + 1;
    }
  }

  lemma EdgePickIsAnswered(bundle: seq<RouteConfig>, entries: seq<RouteConfig>, declared: seq<string>,
                           isName: string -> bool, path: string, mine: Route)
    requires Publishes(entries, declared)
    requires var compiled := CompileRoutes(bundle, isName);
             && Lookup(ClientTable(compiled, CompileRoutes(AsRemote(entries), isName)), path) == Some(mine)
             && mine.config.path !in PathsOf(compiled)
    ensures EdgeMatch(declared, isName, path) == Some(mine.config.path)
  {
    var compiled, remote := CompileRoutes(bundle, isName), CompileRoutes(AsRemote(entries), isName);
    PickOutranksTheBundle(compiled, remote, path, mine);
    var actual := SplitPath(path).value;
    var all, hit := CompileCandidates(declared, isName), RouteMatcher(actual);
    RemoteIsCandidates(entries, declared, isName);
    SearchFindsBest(all, CandidateRank, CandidateMatcher(actual));
    var at :| 0 <= at < |remote| && remote[at] == mine;
    assert CandidateMatcher(actual)(all[at]);
    var i :| IsBest(all, CandidateRank, CandidateMatcher(actual), i)
             && Some(all[i]) == First(SortedCandidates(declared, isName), CandidateMatcher(actual));
    SameBest(remote, all, actual, i);
    var j :| IsBest(Unowned(remote, PathsOf(compiled)), Rank, hit, j) && Unowned(remote, PathsOf(compiled))[j] == mine;
    OwnedIsNotBest(bundle, remote, isName, path, mine, i, entries);
    var kept := KeptBestIsBest(remote, PathsOf(compiled), hit, i);
    OneBest(Unowned(remote, PathsOf(compiled)), Rank, hit, j, kept);
  }

  lemma SameBest(remote: seq<Route>, all: seq<Candidate>, actual: seq<string>, i: int)
    requires |remote| == |all| && forall j :: 0 <= j < |all| ==> all[j].pattern == remote[j].pattern
    requires IsBest(all, CandidateRank, CandidateMatcher(actual), i)
    ensures IsBest(remote, Rank, RouteMatcher(actual), i)
  {
    forall j | 0 <= j < |remote| && RouteMatcher(actual)(remote[j])
      ensures Rank(remote[j]) < Rank(remote[i]) || (Rank(remote[j]) == Rank(remote[i]) && i <= j)
    {
      assert CandidateMatcher(actual)(all[j]);
    }
  }

  /** The edge's best is no route the bundle owns. */
  lemma OwnedIsNotBest(bundle: seq<RouteConfig>, remote: seq<Route>, isName: string -> bool, path: string,
                       mine: Route, i: int, entries: seq<RouteConfig>)
    requires SplitPath(path).Some? && remote == CompileRoutes(AsRemote(entries), isName) && mine in remote
    requires MatchesPath(mine.pattern, path) && IsBest(remote, Rank, RouteMatcher(SplitPath(path).value), i)
    requires forall r :: r in CompileRoutes(bundle, isName) && MatchesPath(r.pattern, path) ==>
               r.pattern.literals < mine.pattern.literals
    ensures remote[i].config.path !in PathsOf(CompileRoutes(bundle, isName))
  {
    CompileRoutesSpec(bundle, isName);
    CompileRoutesSpec(AsRemote(entries), isName);
    var at :| 0 <= at < |remote| && remote[at] == mine;
    assert RouteMatcher(SplitPath(path).value)(remote[at]);
    assert remote[i] in remote;
  }

  /** Where the two sides can part: a bundle route without a view of its own, tied with a route of the edge's.
      Both sides hold the edge's routes in one order; the client puts the bundle's first. */
  lemma TiesCanPart(isName: string -> bool)
    requires isName("x") && isName("y")
    ensures var bare := RouteConfig("/:y", "", "", false);
            var entries := [RouteConfig("/:x", "", "", false), bare];
            && Publishes(entries, ["/:x", "/:y"])
            && Lookup(ClientTable(CompileRoutes([bare], isName), CompileRoutes(AsRemote(entries), isName)), "/a")
               == Some(Route(Compile("/:y", isName), bare))
            && EdgeMatch(["/:x", "/:y"], isName, "/a") == Some("/:x")
  {
    PathA(isName);
    PatternX(isName);
    PatternY(isName);
    TiedEdge(Compile("/:x", isName), Compile("/:y", isName), isName);
    TiedClient(Compile("/:x", isName), Compile("/:y", isName), isName);
  }

  lemma TiedEdge(px: RoutePattern, py: RoutePattern, isName: string -> bool)
    requires px == Compile("/:x", isName) == RoutePattern("/:x", [":x"], 0, true)
    requires py == Compile("/:y", isName) == RoutePattern("/:y", [":y"], 0, true)
    requires SplitPath("/a") == Some(["a"])
    ensures EdgeMatch(["/:x", "/:y"], isName, "/a") == Some("/:x")
  {
    var declared := ["/:x", "/:y"];
    assert UntiedUpTo(declared, isName, "/a", 0);
    OnlyTiesPart(declared, isName, "/a", "/:x");
  }

  lemma CompileOne(c: RouteConfig, isName: string -> bool)
    requires Compile(c.path, isName).valid
    ensures CompileRoutes([c], isName) == [Route(Compile(c.path, isName), c)]
  {
    assert CompileRoutes([c][1..], isName) == [];
  }

  /** The bundle's one route is the client's pick where it matches and nothing of the edge's is more literal. */
  lemma BundleGoesFirst(c: RouteConfig, entries: seq<RouteConfig>, isName: string -> bool, path: string)
    requires MatchesPath(Compile(c.path, isName), path)
    requires forall e :: e in entries ==> Compile(e.path, isName).literals <= Compile(c.path, isName).literals
    ensures Lookup(ClientTable(CompileRoutes([c], isName), CompileRoutes(AsRemote(entries), isName)), path)
            == Some(Route(Compile(c.path, isName), c))
  {
    var mine, remote := Route(Compile(c.path, isName), c), CompileRoutes(AsRemote(entries), isName);
    CompileOne(c, isName);
    CompileRoutesSpec(AsRemote(entries), isName);
    forall r | r in remote ensures r.pattern.literals <= mine.pattern.literals {
      var e :| 0 <= e < |entries| && AsRemote(entries)[e] == r.config;
      assert entries[e] in entries;
    }
    var merged := MergedRoutes([mine], remote);
    assert merged[0] == mine && merged[0] in merged;
    assert forall r :: r in merged ==> r == mine || r in remote;
    LookupIsMostLiteralFirstDeclared(merged, path);
    var i :| 0 <= i < |merged| && Lookup(StableSort(merged, Rank), path) == Some(merged[i])
             && MostLiteralFirst(merged, path, i);
    assert i == 0;
  }

  lemma TiedClient(px: RoutePattern, py: RoutePattern, isName: string -> bool)
    requires px == Compile("/:x", isName) == RoutePattern("/:x", [":x"], 0, true)
    requires py == Compile("/:y", isName) == RoutePattern("/:y", [":y"], 0, true)
    requires SplitPath("/a") == Some(["a"])
    ensures var x, y := RouteConfig("/:x", "", "", false), RouteConfig("/:y", "", "", false);
            Lookup(ClientTable(CompileRoutes([y], isName), CompileRoutes(AsRemote([x, y]), isName)), "/a") ==
            Some(Route(py, y))
  {
    var x, y := RouteConfig("/:x", "", "", false), RouteConfig("/:y", "", "", false);
    BundleGoesFirst(y, [x, y], isName, "/a");
  }

  /** So can a bundle route without a view of its own that the edge does not declare: the client keeps
      the page under one route, the edge knows it under another. */
  lemma UndeclaredRoutesCanPart(isName: string -> bool)
    requires isName("x")
    ensures var bare := RouteConfig("/a", "", "", false);
            var offered := RouteConfig("/:x", "", "", false);
            && Publishes([offered], ["/:x"])
            && Lookup(ClientTable(CompileRoutes([bare], isName), CompileRoutes(AsRemote([offered]), isName)), "/a")
               == Some(Route(Compile("/a", isName), bare))
            && EdgeMatch(["/:x"], isName, "/a") == Some("/:x")
  {
    PathA(isName);
    PatternX(isName);
    UndeclaredClient(Compile("/a", isName), Compile("/:x", isName), isName);
    UndeclaredEdge(Compile("/:x", isName), isName);
  }

  lemma UndeclaredEdge(px: RoutePattern, isName: string -> bool)
    requires px == Compile("/:x", isName) == RoutePattern("/:x", [":x"], 0, true) && SplitPath("/a") == Some(["a"])
    ensures EdgeMatch(["/:x"], isName, "/a") == Some("/:x")
  {
    assert UntiedUpTo(["/:x"], isName, "/a", 0);
    OnlyTiesPart(["/:x"], isName, "/a", "/:x");
  }

  lemma UndeclaredClient(pa: RoutePattern, px: RoutePattern, isName: string -> bool)
    requires pa == Compile("/a", isName) == RoutePattern("/a", ["a"], 1, true)
    requires px == Compile("/:x", isName) == RoutePattern("/:x", [":x"], 0, true)
    requires SplitPath("/a") == Some(["a"])
    ensures var bare, offered := RouteConfig("/a", "", "", false), RouteConfig("/:x", "", "", false);
            Lookup(ClientTable(CompileRoutes([bare], isName), CompileRoutes(AsRemote([offered]), isName)), "/a")
            == Some(Route(pa, bare))
  {
    var bare, offered := RouteConfig("/a", "", "", false), RouteConfig("/:x", "", "", false);
    BundleGoesFirst(bare, [offered], isName, "/a");
  }

  /** The pattern of one placeholder. */
  lemma OneParameter(text: string, segment: string, isName: string -> bool)
    requires text == "/" + segment && IsParameter(segment) && isName(segment[1..]) && '/' !in segment
    ensures Compile(text, isName) == RoutePattern(text, [segment], 0, true)
  {
    SplitRooted(segment);
    assert CountLiterals([segment]) == CountLiterals([segment][1..]);
  }

  lemma PatternX(isName: string -> bool)
    requires isName("x")
    ensures Compile("/:x", isName) == RoutePattern("/:x", [":x"], 0, true)
  {
    assert "/:x" == "/" + ":x" && ":x"[1..] == "x";
    OneParameter("/:x", ":x", isName);
  }

  lemma PatternY(isName: string -> bool)
    requires isName("y")
    ensures Compile("/:y", isName) == RoutePattern("/:y", [":y"], 0, true)
  {
    assert "/:y" == "/" + ":y" && ":y"[1..] == "y";
    OneParameter("/:y", ":y", isName);
  }

  lemma PathA(isName: string -> bool)
    ensures SplitPath("/a") == Some(["a"])
    ensures Compile("/a", isName) == RoutePattern("/a", ["a"], 1, true)
  {
    assert "/a" == "/" + "a";
    SplitRooted("a");
    assert CountLiterals(["a"]) == 1 + CountLiterals(["a"][1..]);
  }
}
