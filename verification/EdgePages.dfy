/**
 The edge's side of a delivered page: the store of declared pages and the service that answers a
 fetch (src/edge/pagestore.cpp, src/edge/pagesservice.cpp, src/edge/pagesedgesource.cpp).
 */
module EdgePages {
  import opened Prelude
  import opened RoutePatterns
  import opened RouteTables
  import Navigation

  datatype EdgePage = EdgePage(source: string, hash: string, scope: string)

  /** The answer to one fetch. A refusal says nothing about the page. */
  datatype Response = Response(answer: Navigation.Answer, qml: string, hash: string, seed: Navigation.Seed)

  function Refusal(answer: Navigation.Answer): Response { Response(answer, "", "", map[]) }

  /** What an authorized caller is told: the source only when it does not hold it already. */
  function Granted(page: EdgePage, haveHash: string, seed: Navigation.Seed): Response {
    if haveHash != "" && haveHash == page.hash then Response(Navigation.Unchanged, "", page.hash, seed)
    else Response(Navigation.Ok, page.source, page.hash, seed)
  }

  function Fetch(declared: seq<string>, isName: string -> bool, pages: map<string, EdgePage>, path: string,
                 haveHash: string, hasScope: string -> bool, seedFor: string -> Navigation.Seed): Response
  {
    match EdgeMatch(declared, isName, SplitQuery(path).0)
    case None => Refusal(Navigation.Missing)
    case Some(route) =>
      var page := if route in pages then pages[route] else EdgePage("", "", "");
      if page.scope != "" && !hasScope(page.scope) then Refusal(Navigation.Refused)
      else Granted(page, haveHash, seedFor(route))
  }

  /** What a caller is owed for a page: a refusal that tells nothing, exactly where the page asks for a scope the
      caller does not have; word that it is unchanged, exactly where the caller holds its hash already; or else the
      page itself. Both come with the seed. */
  ghost predicate IsOwed(page: EdgePage, haveHash: string, hasScope: string -> bool, seed: Navigation.Seed,
                         r: Response)
  {
    && (r.answer == Navigation.Refused <==> page.scope != "" && !hasScope(page.scope))
    && (r.answer == Navigation.Unchanged <==>
          (page.scope == "" || hasScope(page.scope)) && haveHash != "" && haveHash == page.hash)
    && r.answer in {Navigation.Refused, Navigation.Unchanged, Navigation.Ok}
    && (r.answer == Navigation.Refused ==> r.qml == "" && r.hash == "" && r.seed == map[])
    && (r.answer == Navigation.Unchanged ==> r.qml == "" && r.hash == page.hash && r.seed == seed)
    && (r.answer == Navigation.Ok ==> r.qml == page.source && r.hash == page.hash && r.seed == seed)
  }

  /** What a fetch is owed: missing, telling nothing, exactly where no declared pattern matches the path; and
      elsewhere what is owed for the page of the first most literal match. */
  ghost predicate IsOwedFor(declared: seq<string>, isName: string -> bool, pages: map<string, EdgePage>, asked: string,
                            haveHash: string, hasScope: string -> bool, seedFor: string -> Navigation.Seed, r: Response)
    requires forall d :: d in declared ==> d in pages
  {
    && (r.answer == Navigation.Missing <==> forall d :: d in declared ==> !MatchesPath(Compile(d, isName), asked))
    && (r.answer == Navigation.Missing ==> r.qml == "" && r.hash == "" && r.seed == map[])
    && (forall i :: EdgeFirst(declared, isName, asked, i) ==>
          IsOwed(pages[declared[i]], haveHash, hasScope, seedFor(declared[i]), r))
  }

  lemma FetchIsOwed(declared: seq<string>, isName: string -> bool, pages: map<string, EdgePage>, path: string,
                    haveHash: string, hasScope: string -> bool, seedFor: string -> Navigation.Seed)
    requires forall d :: d in declared ==> d in pages
    ensures IsOwedFor(declared, isName, pages, SplitQuery(path).0, haveHash, hasScope, seedFor,
                      Fetch(declared, isName, pages, path, haveHash, hasScope, seedFor))
  {
    var r, asked := Fetch(declared, isName, pages, path, haveHash, hasScope, seedFor), SplitQuery(path).0;
    MissingIsMissing(declared, isName, pages, path, haveHash, hasScope, seedFor);
    forall i | EdgeFirst(declared, isName, asked, i)
      ensures IsOwed(pages[declared[i]], haveHash, hasScope, seedFor(declared[i]), r)
    {
      assert declared[i] in declared;
      MatchIsOwed(declared, isName, pages, path, haveHash, hasScope, seedFor, i);
    }
  }

  lemma MissingIsMissing(declared: seq<string>, isName: string -> bool, pages: map<string, EdgePage>, path: string,
                         haveHash: string, hasScope: string -> bool, seedFor: string -> Navigation.Seed)
    ensures var r, asked := Fetch(declared, isName, pages, path, haveHash, hasScope, seedFor), SplitQuery(path).0;
            && (r.answer == Navigation.Missing <==>
                  forall d :: d in declared ==> !MatchesPath(Compile(d, isName), asked))
            && (r.answer == Navigation.Missing ==> r.qml == "" && r.hash == "" && r.seed == map[])
  {
    EdgeMissesExactly(declared, isName, SplitQuery(path).0);
  }

  lemma MatchIsOwed(declared: seq<string>, isName: string -> bool, pages: map<string, EdgePage>, path: string,
                    haveHash: string, hasScope: string -> bool, seedFor: string -> Navigation.Seed, i: int)
    requires EdgeFirst(declared, isName, SplitQuery(path).0, i) && declared[i] in pages
    ensures IsOwed(pages[declared[i]], haveHash, hasScope, seedFor(declared[i]),
                   Fetch(declared, isName, pages, path, haveHash, hasScope, seedFor))
  {
    EdgeAnswersExactly(declared, isName, SplitQuery(path).0, declared[i]);
  }

  /** Pages are added and their contents rewritten; none is ever taken away. */
  class PageStore {
    var routes: seq<string>
    var pages: map<string, EdgePage>

    ghost predicate Valid()
      reads this
    {
      && (forall r :: r in routes <==> r in pages)
      && (forall i, j :: 0 <= i < j < |routes| ==> routes[i] != routes[j])
    }

    constructor ()
      ensures Valid() && routes == [] && pages == map[]
    {
      routes, pages := [], map[];
    }

    /** A route declared again keeps its place in the table. */
    method AddPage(route: string, page: EdgePage)
      requires Valid()
      modifies this
      ensures Valid() && pages == old(pages)[route := page]
      ensures routes == if route in old(pages) then old(routes) else old(routes) + [route]
    {
      if route !in pages {
        routes := routes + [route];
      }
      pages := pages[route := page];
    }

    /** A hot reload: true when the content moved, which is when the change is announced. */
    method Reload(route: string, source: string, hash: string) returns (changed: bool)
      requires Valid()
      modifies this
      ensures Valid() && routes == old(routes)
      ensures changed <==> route in old(pages) && old(pages)[route].hash != hash
      ensures pages == if route in old(pages) then old(pages)[route := EdgePage(source, hash, old(pages)[route].scope)]
                       else old(pages)
    {
      changed := false;
      if route in pages {
        changed := pages[route].hash != hash;
        pages := pages[route := EdgePage(source, hash, pages[route].scope)];
      }
    }
  }

  class PagesService {
    const store: PageStore
    const isName: string -> bool
    var candidates: seq<Candidate>
    var compiledRoutes: int
    /** The table the memo was built from. */
    ghost var seen: seq<string>

    constructor (store: PageStore, isName: string -> bool)
      ensures this.store == store && this.isName == isName && MemoIsKept()
    {
      this.store, this.isName := store, isName;
      candidates, compiledRoutes, seen := [], -1, [];
    }

    /** The memo is empty, or was built from a table the store has only grown since. */
    ghost predicate MemoIsKept()
      reads this, store
    {
      compiledRoutes >= 0 ==>
        && compiledRoutes == |seen| && seen <= store.routes
        && candidates == SortedCandidates(seen, isName)
    }

    /** The memo keyed on the count alone is the table built afresh. */
    method Candidates() returns (table: seq<Candidate>)
      requires store.Valid() && MemoIsKept()
      modifies this
      ensures MemoIsKept()
      ensures table == SortedCandidates(store.routes, isName)
    {
      if compiledRoutes == |store.routes| {
        assert seen == store.routes;
        return candidates;
      }
      var declared := store.routes;
      var compiled := [];
      for i := 0 to |declared|
        invariant compiled == CompileCandidates(declared[..i], isName)
      {
        var pattern := Compile(declared[i], isName);
        CompileOneMore(declared[..i], declared[i], isName);
        assert declared[..i + 1] == declared[..i] + [declared[i]];
        if pattern.valid {
          compiled := compiled + [Candidate(declared[i], pattern)];
        }
      }
      assert declared[..|declared|] == declared;
      candidates := StableSort(compiled, CandidateRank);
      compiledRoutes, seen := |declared|, declared;
      return candidates;
    }

    /** The answer is the one the declared table, read afresh, gives: missing where nothing declared matches, and
        otherwise as is owed for the page of the first most literal match. */
    method FetchPageFor(path: string, haveHash: string, hasScope: string -> bool,
                        seedFor: string -> Navigation.Seed) returns (response: Response)
      requires store.Valid() && MemoIsKept()
      modifies this
      ensures MemoIsKept()
      ensures response == Fetch(store.routes, isName, store.pages, path, haveHash, hasScope, seedFor)
      ensures IsOwedFor(store.routes, isName, store.pages, SplitQuery(path).0, haveHash, hasScope, seedFor, response)
    {
      FetchIsOwed(store.routes, isName, store.pages, path, haveHash, hasScope, seedFor);
      response := Answer(path, haveHash, hasScope, seedFor);
    }

    method Answer(path: string, haveHash: string, hasScope: string -> bool,
                  seedFor: string -> Navigation.Seed) returns (response: Response)
      requires store.Valid() && MemoIsKept()
      modifies this
      ensures MemoIsKept()
      ensures response == Fetch(store.routes, isName, store.pages, path, haveHash, hasScope, seedFor)
    {
      var asked := SplitQuery(path).0;
      var segments := SplitPath(asked);
      var matched := None;
      if segments.Some? {
        var table := Candidates();
        var hit := CandidateMatcher(segments.value);
        var i := 0;
        while i < |table| && matched.None?
          invariant 0 <= i <= |table|
          invariant matched.None? ==> First(table, hit) == First(table[i..], hit)
          invariant matched.Some? ==> First(table, hit).Some? && matched.value == First(table, hit).value.route
        {
          if Matches(table[i].pattern, segments.value) {
            matched := Some(table[i].route);
          }
          i := i + 1;
        }
      }
      if matched.None? {
        return Refusal(Navigation.Missing);
      }
      var page := if matched.value in store.pages then store.pages[matched.value] else EdgePage("", "", "");
      if page.scope != "" && !hasScope(page.scope) {
        return Refusal(Navigation.Refused);
      }
      return Granted(page, haveHash, seedFor(matched.value));
    }
  }

  lemma {:induction false} CompileOneMore(declared: seq<string>, last: string, isName: string -> bool)
    ensures CompileCandidates(declared + [last], isName) ==
            CompileCandidates(declared, isName)
            + (if Compile(last, isName).valid then [Candidate(last, Compile(last, isName))] else [])
  {
    if declared == [] {
      assert CompileCandidates([last][1..], isName) == [];
    } else {
      assert (declared + [last])[1..] == declared[1..] + [last];
      CompileOneMore(declared[1..], last, isName);
    }
  }
}
