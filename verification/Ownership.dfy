/**
 Who owns a page component, over every run of the router: no component is freed twice, none is
 leaked, and what is on screen is never one that was handed to deleteSoon.
 */
module Ownership {
  import opened Prelude
  import opened RoutePatterns
  import opened RouteTables
  import opened Navigation

  /** In how many places a component is: freed (with multiplicity), in the loader's cache, or on
      screen as the router's own. */
  function Places(pages: Pages, v: Screen, c: nat): nat {
    v.deleted[c]
    + (if c in Cached(pages) then 1 else 0)
    + (if v.component == Some(c) && !v.loaderOwned then 1 else 0)
  }

  /** Every component ever built is in exactly one place, and no route shares another's. */
  ghost predicate Partition(pages: Pages, v: Screen) {
    && (forall c: nat :: Places(pages, v, c) == if c < |v.built| then 1 else 0)
    && (forall a, b :: a in pages && b in pages && pages[a].component == pages[b].component ==> a == b)
  }

  /** The view on screen was built from the URL it is kept under; the empty one shows nothing. */
  ghost predicate FromItsUrl(v: Screen) {
    && (v.component.Some? && v.pageUrl.Some? ==>
          v.component.value < |v.built| && v.built[v.component.value] == FromUrl(v.pageUrl.value))
    && (v.pageUrl == Some("") ==> v.component == None)
  }

  /** Partition, without a claim about which cache entry is on screen. */
  ghost predicate Balanced(pages: Pages, v: Screen) {
    && Partition(pages, v) && FromItsUrl(v)
    && (v.component.Some? ==> v.component.value < |v.built|)
    && (v.component.Some? && v.pageUrl.Some? ==> !v.loaderOwned)
  }

  /** A loader-owned component on screen is the cache entry of the pending route. */
  ghost predicate Shows(pages: Pages, v: Screen, pending: string) {
    v.component.Some? && v.loaderOwned ==> pending in pages && pages[pending].component == v.component.value
  }

  ghost predicate Sound(cfg: Config, s: State) {
    && Balanced(s.pages, s.screen)
    && Shows(s.pages, s.screen, s.pendingRoute)
    && (!cfg.hasLoader ==> s.pages == map[])
  }

  /** The component being shown is alive: built, never freed, and cached exactly when it is the loader's. */
  lemma ShownIsAlive(cfg: Config, s: State)
    requires Sound(cfg, s) && s.screen.component.Some?
    ensures var c := s.screen.component.value;
            && c < |s.screen.built| && c !in s.screen.deleted
            && (s.screen.loaderOwned <==> c in Cached(s.pages))
  {
    var c := s.screen.component.value;
    assert Places(s.pages, s.screen, c) == if c < |s.screen.built| then 1 else 0;
  }

  // ---------------------------------------------------------------------------------------------
  // The screen
  // ---------------------------------------------------------------------------------------------

  /** The router's own page, or none: nothing of the loader's is on screen. */
  ghost predicate Local(pages: Pages, v: Screen) {
    Balanced(pages, v) && (v.component.Some? ==> !v.loaderOwned)
  }

  lemma ShowNothing(pages: Pages, v: Screen, status: Status)
    requires Balanced(pages, v)
    ensures Local(pages, SetPageComponent(v, None, status, false))
  {
    var w := SetPageComponent(v, None, status, false);
    forall c: nat ensures Places(pages, w, c) == if c < |w.built| then 1 else 0 {
      assert Places(pages, v, c) == if c < |v.built| then 1 else 0;
    }
  }

  lemma ShowNew(pages: Pages, v: Screen, origin: Origin, status: Status)
    requires Balanced(pages, v)
    ensures Local(pages, ShowBuilt(v, origin, status))
  {
    var n := |v.built|;
    var w := ShowBuilt(v, origin, status);
    assert Places(pages, v, n) == 0;
    forall c: nat ensures Places(pages, w, c) == if c < |w.built| then 1 else 0 {
      assert Places(pages, v, c) == if c < |v.built| then 1 else 0;
    }
  }

  lemma ShowCached(pages: Pages, v: Screen, route: string, status: Status)
    requires Balanced(pages, v) && route in pages
    ensures var w := SetPageComponent(v, ComponentFor(pages, route), status, true);
            Balanced(pages, w) && Shows(pages, w, route)
  {
    var k := pages[route].component;
    var w := SetPageComponent(v, Some(k), status, true);
    assert k in Cached(pages);
    assert Places(pages, v, k) == if k < |v.built| then 1 else 0;
    forall c: nat ensures Places(pages, w, c) == if c < |w.built| then 1 else 0 {
      assert Places(pages, v, c) == if c < |v.built| then 1 else 0;
    }
  }

  /** The partition reads four fields of the screen. */
  lemma SamePlaces(pages: Pages, v: Screen, w: Screen)
    requires Partition(pages, v)
    requires v.component == w.component && v.loaderOwned == w.loaderOwned && v.built == w.built
             && v.deleted == w.deleted
    ensures Partition(pages, w)
  {
    forall c: nat ensures Places(pages, w, c) == if c < |w.built| then 1 else 0 {
      assert Places(pages, v, c) == if c < |v.built| then 1 else 0;
    }
  }

  lemma ShowUrl(cfg: Config, env: Env, pages: Pages, v: Screen, url: string, status: Status)
    requires Balanced(pages, v)
    ensures Local(pages, SetPageUrl(cfg, env, v, url, status))
  {
    var w := SetPageUrl(cfg, env, v, url, status);
    var bare := v.(seed := map[]);
    SamePlaces(pages, v, bare);
    if url != "" && !cfg.hasEngine {
      ShowNothing(pages, v, Error);
    } else if v.component.Some? && v.pageUrl == Some(url) {
      SamePlaces(pages, v, w);
    } else if url == "" {
      ShowNothing(pages, bare, status);
      SamePlaces(pages, SetPageComponent(bare, None, status, false), w);
    } else {
      var load := LoadStatus(env, |v.built|, status);
      ShowNew(pages, bare, FromUrl(url), load);
      SamePlaces(pages, ShowBuilt(bare, FromUrl(url), load), w);
    }
  }

  lemma ShowLocal(cfg: Config, env: Env, pages: Pages, v: Screen, route: RouteConfig)
    requires Balanced(pages, v)
    ensures Local(pages, LocalScreen(cfg, env, v, route))
  {
    if route.accelerated && env.software {
      ShowNew(pages, v, FromNotice, Unsupported);
      ShowNothing(pages, v, Unsupported);
    } else if route.componentUrl == "" {
      ShowNothing(pages, v, Error);
    } else {
      ShowUrl(cfg, env, pages, v, route.componentUrl, Ready);
    }
  }

  // ---------------------------------------------------------------------------------------------
  // The cache
  // ---------------------------------------------------------------------------------------------

  lemma DeliverBalances(env: Env, pages: Pages, v: Screen, route: string, source: string, hash: string)
    requires Balanced(pages, v)
    ensures var (after, w) := Deliver(env, pages, v, route, source, hash);
            var outcome := DeliverOutcome(env, pages, route, source, hash);
            Balanced(after, w) && (outcome == Built || outcome == NotModified ==> route in after)
  {
    var (after, w) := Deliver(env, pages, v, route, source, hash);
    match DeliverOutcome(env, pages, route, source, hash)
    case NotModified =>
    case Rejected =>
    case Failed => BuiltAndFreed(pages, v, w);
    case Built => BuiltAndCached(pages, v, w, route, hash);
  }

  /** A component built and freed at once. */
  lemma BuiltAndFreed(pages: Pages, v: Screen, w: Screen)
    requires Balanced(pages, v) && v.built <= w.built && |w.built| == |v.built| + 1
    requires w == v.(built := w.built, deleted := v.deleted + multiset{|v.built|})
    ensures Balanced(pages, w)
  {
    forall c: nat ensures Places(pages, w, c) == if c < |w.built| then 1 else 0 {
      assert Places(pages, v, c) == if c < |v.built| then 1 else 0;
    }
  }

  /** A component built and cached, in the place of the one the route had. */
  lemma BuiltAndCached(pages: Pages, v: Screen, w: Screen, route: string, hash: string)
    requires Balanced(pages, v) && v.built <= w.built && |w.built| == |v.built| + 1
    requires w == v.(built := w.built,
                     deleted := if route in pages then v.deleted + multiset{pages[route].component} else v.deleted)
    ensures Balanced(pages[route := Page(hash, |v.built|)], w)
  {
    var n := |v.built|;
    var after := pages[route := Page(hash, n)];
    assert Places(pages, v, n) == 0;
    CachedAfterInsert(pages, route, Page(hash, n));
    forall c: nat ensures Places(after, w, c) == if c < |w.built| then 1 else 0 {
      assert Places(pages, v, c) == if c < |v.built| then 1 else 0;
    }
    forall a, b | a in after && b in after && after[a].component == after[b].component ensures a == b {
      assert a in pages ==> pages[a].component in Cached(pages);
      assert b in pages ==> pages[b].component in Cached(pages);
    }
  }

  lemma CachedAfterInsert(pages: Pages, route: string, page: Page)
    requires forall a, b :: a in pages && b in pages && pages[a].component == pages[b].component ==> a == b
    requires page.component !in Cached(pages)
    ensures Cached(pages[route := page]) ==
            (if route in pages then Cached(pages) - {pages[route].component} else Cached(pages)) + {page.component}
  {
    var after := pages[route := page];
    forall c | c in Cached(pages) && (route in pages ==> c != pages[route].component) ensures c in Cached(after) {
      var r :| r in pages && pages[r].component == c;
      assert after[r].component == c;
    }
    assert after[route].component == page.component;
  }

  lemma InvalidateBalances(pages: Pages, v: Screen, route: string)
    requires Balanced(pages, v)
    ensures Balanced(pages - {route}, Invalidated(pages, v, route))
  {
    var w := Invalidated(pages, v, route);
    if route in pages {
      CachedAfterRemove(pages, route);
    } else {
      assert pages - {route} == pages;
    }
    forall c: nat ensures Places(pages - {route}, w, c) == if c < |w.built| then 1 else 0 {
      assert Places(pages, v, c) == if c < |v.built| then 1 else 0;
    }
  }

  lemma CachedAfterRemove(pages: Pages, route: string)
    requires forall a, b :: a in pages && b in pages && pages[a].component == pages[b].component ==> a == b
    requires route in pages
    ensures Cached(pages - {route}) == Cached(pages) - {pages[route].component}
  {
    var after := pages - {route};
    forall c | c in Cached(pages) && c != pages[route].component ensures c in Cached(after) {
      var r :| r in pages && pages[r].component == c;
      assert after[r].component == c;
    }
  }

  lemma DropBalances(cfg: Config, s: State)
    requires Sound(cfg, s)
    ensures var t := Dropped(cfg, s); Balanced(t.pages, t.screen) && t.pages == map[] && t.screen.seed == map[]
  {
    var t := Dropped(cfg, s);
    assert Cached(t.pages) == {};
    forall c: nat ensures Places(t.pages, t.screen, c) == if c < |t.screen.built| then 1 else 0 {
      assert Places(s.pages, s.screen, c) == if c < |s.screen.built| then 1 else 0;
    }
  }

  // ---------------------------------------------------------------------------------------------
  // The entry points
  // ---------------------------------------------------------------------------------------------

  ghost predicate Accounted(cfg: Config, s: State) {
    Balanced(s.pages, s.screen) && (!cfg.hasLoader ==> s.pages == map[])
  }

  lemma ResolveIsSound(cfg: Config, env: Env, s: State, path: string)
    requires Accounted(cfg, s)
    ensures Sound(cfg, Resolve(cfg, env, s, path))
  {
    var found := Lookup(s.routes, path);
    var url := FallbackUrl(cfg, s.routes);
    if found.Some? && Remote(cfg, env, found.value.config) {
      if found.value.config.path in s.pages {
        ShowCached(s.pages, s.screen, found.value.config.path, Ready);
      } else {
        ShowNothing(s.pages, s.screen, Loading);
      }
    } else if found.Some? {
      ShowLocal(cfg, env, s.pages, s.screen, found.value.config);
      ShowUrl(cfg, env, s.pages, s.screen, url, Forbidden);
    } else {
      ShowUrl(cfg, env, s.pages, s.screen, url, NotFound);
    }
  }

  lemma NavigateIsSound(cfg: Config, env: Env, s: State, target: string)
    requires Accounted(cfg, s)
    ensures Sound(cfg, Navigate(cfg, env, s, target))
  {
    var (path, query) := SplitQuery(target);
    ResolveIsSound(cfg, env, s.(query := query), path);
  }

  lemma PopIsSound(cfg: Config, env: Env, s: State, index: nat)
    requires Sound(cfg, s) && index < |s.history.stack|
    ensures Sound(cfg, PopTo(cfg, env, s, index))
  {
    NavigateIsSound(cfg, env, s.(history := s.history.(index := index)), s.history.stack[index]);
  }

  lemma ResumeIsSound(cfg: Config, env: Env, s: State)
    requires Sound(cfg, s)
    ensures Sound(cfg, ResumeAfterLogin(cfg, env, s))
  {
    NavigateIsSound(cfg, env, s.(remembered := ""), s.remembered);
  }

  lemma ReResolveIsSound(cfg: Config, env: Env, s: State)
    requires Sound(cfg, s)
    ensures Sound(cfg, ReResolve(cfg, env, s))
  {
    DropBalances(cfg, s);
    ResolveIsSound(cfg, env, Dropped(cfg, s), s.path);
  }

  lemma DeliveryIsSound(cfg: Config, env: Env, s: State, route: string, qml: string, hash: string,
                        seed: Seed, answer: Answer)
    requires Sound(cfg, s)
    ensures Sound(cfg, PageDelivered(cfg, env, s, route, qml, hash, seed, answer))
  {
    if !Considered(cfg, s, route, answer) {
      ShowNothing(s.pages, s.screen, Forbidden);
      ShowNothing(s.pages, s.screen, NotFound);
      ShowNothing(s.pages, s.screen, Error);
    } else {
      DeliverBalances(env, s.pages, s.screen, s.pendingRoute, qml, hash);
      var (pages, v) := Deliver(env, s.pages, s.screen, s.pendingRoute, qml, hash);
      var outcome := DeliverOutcome(env, s.pages, s.pendingRoute, qml, hash);
      if outcome == Rejected || outcome == Failed {
        ShowNothing(pages, v, Error);
      } else {
        SamePlaces(pages, v, v.(seed := seed));
        ShowCached(pages, v.(seed := seed), s.pendingRoute, Ready);
      }
    }
  }

  lemma ChangeIsSound(cfg: Config, s: State, route: string)
    requires Sound(cfg, s)
    ensures Sound(cfg, PageChanged(cfg, s, route))
  {
    ShowNothing(s.pages, s.screen, Loading);
    InvalidateBalances(s.pages, SetPageComponent(s.screen, None, Loading, false), route);
    InvalidateBalances(s.pages, s.screen, route);
  }

  lemma PoppedIsSound(cfg: Config, env: Env, s: State, index: Option<nat>)
    requires Sound(cfg, s) && (index.Some? ==> index.value < |s.history.stack|)
    ensures Sound(cfg, Popped(cfg, env, s, index))
  {
    if index.Some? {
      PopIsSound(cfg, env, s, index.value);
    }
  }

  lemma MoveIsSound(cfg: Config, s: State, step: Step)
    requires Sound(cfg, s) && Moves(step.event)
    ensures Sound(cfg, Next(cfg, s, step))
  {
    var env, h := step.env, s.history;
    match step.event
    case Start => NavigateIsSound(cfg, env, s, CurrentEntry(h));
    case GoTo(target) => NavigateIsSound(cfg, env, s, target);
    case ReplaceWith(target) => NavigateIsSound(cfg, env, s, target);
    case GoBack => PoppedIsSound(cfg, env, s, BackIndex(h));
    case GoForward => PoppedIsSound(cfg, env, s, ForwardIndex(h));
  }

  lemma StepIsSound(cfg: Config, s: State, step: Step)
    requires Sound(cfg, s)
    ensures Sound(cfg, Next(cfg, s, step))
  {
    if Moves(step.event) {
      MoveIsSound(cfg, s, step);
    } else {
      match step.event
      case Rescope =>
        ReResolveIsSound(cfg, step.env, s);
        ResumeIsSound(cfg, step.env, ReResolve(cfg, step.env, s));
      case Resume => ResumeIsSound(cfg, step.env, s);
      case Table(entries) =>
      case Delivery(route, qml, hash, seed, answer) =>
        DeliveryIsSound(cfg, step.env, s, route, qml, hash, seed, answer);
      case Changed(route) => ChangeIsSound(cfg, s, route);
    }
  }

  lemma {:induction false} RunsAreSound(cfg: Config, s: State, steps: seq<Step>)
    requires Sound(cfg, s)
    ensures Sound(cfg, Run(cfg, s, steps))
    decreases |steps|
  {
    if steps != [] {
      StepIsSound(cfg, s, steps[0]);
      RunsAreSound(cfg, Next(cfg, s, steps[0]), steps[1..]);
    }
  }

  lemma InitialIsSound(cfg: Config)
    ensures Sound(cfg, Initial(cfg))
  {
    var s := Initial(cfg);
    assert Cached(s.pages) == {};
    assert forall c: nat :: Places(s.pages, s.screen, c) == 0;
  }

  /** Over every run from start-up, whatever the oracles answer: each component ever built is freed
      exactly once, or cached under exactly one route, or is the router's own on screen, and never two
      of these; and what is on screen is alive and, when the loader's, is the pending route's entry. */
  lemma EveryRunPartitionsComponents(cfg: Config, steps: seq<Step>)
    ensures var s := Run(cfg, Initial(cfg), steps);
            && Partition(s.pages, s.screen) && Shows(s.pages, s.screen, s.pendingRoute)
            && (s.screen.component.Some? ==>
                  s.screen.component.value < |s.screen.built| && s.screen.component.value !in s.screen.deleted)
  {
    InitialIsSound(cfg);
    RunsAreSound(cfg, Initial(cfg), steps);
    var s := Run(cfg, Initial(cfg), steps);
    if s.screen.component.Some? {
      ShownIsAlive(cfg, s);
    }
  }
}
