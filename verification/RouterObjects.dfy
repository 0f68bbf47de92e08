/**
 The objects themselves, updated in place: the router, the page loader and the desktop history. Every
 method is proved against the function of the same name in `Navigation`.
 */
module RouterObjects {
  import opened Prelude
  import opened RoutePatterns
  import opened RouteTables
  import opened Navigation
  import opened Ownership
  import opened Visits
  import opened Decisions
  import ResumePath

  /** The QML engine's components, and Qt's queue of deferred deletions. */
  class Engine {
    var built: seq<Origin>
    var deleted: multiset<nat>

    constructor ()
      ensures built == [] && deleted == multiset{}
    {
      built, deleted := [], multiset{};
    }

    method Build(origin: Origin) returns (component: nat)
      modifies this`built
      ensures component == |old(built)| && built == old(built) + [origin]
    {
      component := |built|;
      built := built + [origin];
    }

    method DeleteSoon(component: nat)
      modifies this`deleted
      ensures deleted == old(deleted) + multiset{component}
    {
      deleted := deleted + multiset{component};
    }
  }

  class RemotePageLoader {
    const engine: Engine
    var pages: map<string, Page>

    constructor (engine: Engine)
      ensures this.engine == engine && pages == map[]
    {
      this.engine, pages := engine, map[];
    }

    /** The screen of these components, for the functions that take one. */
    ghost function Held(v: Screen): Screen
      reads engine
    {
      v.(built := engine.built, deleted := engine.deleted)
    }

    method Deliver(env: Env, route: string, source: string, hash: string, ghost v: Screen) returns (outcome: Outcome)
      modifies this, engine
      ensures outcome == DeliverOutcome(env, old(pages), route, source, hash)
      ensures (pages, Held(v)) == Navigation.Deliver(env, old(pages), old(Held(v)), route, source, hash)
      ensures outcome == NotModified <==> route in old(pages) && old(pages)[route].hash == hash
      ensures outcome == Built <==> outcome != NotModified && env.accepts(source) && env.parses(source)
      ensures outcome == Failed <==> outcome != NotModified && env.accepts(source) && !env.parses(source)
      ensures outcome == Built ==>
                && pages == old(pages)[route := Page(hash, |old(engine.built)|)]
                && engine.built == old(engine.built) + [FromSource(source)]
      ensures outcome != Built ==> pages == old(pages)
    {
      if route in pages && pages[route].hash == hash {
        return NotModified;
      }
      if !env.accepts(source) {
        return Rejected;
      }
      var component := engine.Build(FromSource(source));
      if !env.parses(source) {
        engine.DeleteSoon(component);
        return Failed;
      }
      var previous := ComponentFor(pages, route);
      pages := pages[route := Page(hash, component)];
      if previous.Some? {
        engine.DeleteSoon(previous.value);
      }
      return Built;
    }

    method Invalidate(route: string, ghost v: Screen)
      modifies this, engine
      ensures pages == old(pages) - {route}
      ensures Held(v) == Invalidated(old(pages), old(Held(v)), route)
    {
      if route !in pages {
        assert pages - {route} == pages;
        return;
      }
      engine.DeleteSoon(pages[route].component);
      pages := pages - {route};
    }

    /** Frees every cached component, in whatever order the cache yields them. */
    method Clear(ghost v: Screen)
      requires forall a, b :: a in pages && b in pages && pages[a].component == pages[b].component ==> a == b
      modifies this, engine
      ensures pages == map[]
      ensures Held(v) == Cleared(old(pages), old(Held(v)))
    {
      var left := pages;
      while left != map[]
        invariant forall r :: r in left ==> r in pages && left[r] == pages[r]
        invariant pages == old(pages) && engine.built == old(engine.built)
        invariant engine.deleted + multiset(Cached(left)) == old(engine.deleted) + multiset(Cached(pages))
        decreases left.Keys
      {
        var route :| route in left;
        CachedAfterRemove(left, route);
        assert left[route].component in Cached(left);
        engine.DeleteSoon(left[route].component);
        left := left - {route};
      }
      assert Cached(left) == {};
      pages := map[];
    }
  }

  /** The desktop history. */
  class BrowserHistory {
    var stack: seq<string>
    var index: nat

    ghost predicate Valid()
      reads this
    {
      index < |stack|
    }

    ghost function View(): History
      reads this
    {
      History(stack, index)
    }

    constructor ()
      ensures Valid() && View() == History(["/"], 0)
    {
      stack, index := ["/"], 0;
    }

    method Push(path: string)
      requires Valid()
      modifies this
      ensures Valid() && View() == Navigation.Push(old(View()), path)
      ensures stack == old(stack)[..old(index) + 1] + [path] && stack[index] == path
    {
      stack := stack[..index + 1];
      stack := stack + [path];
      index := |stack| - 1;
    }

    method Replace(path: string)
      requires Valid()
      modifies this
      ensures Valid() && View() == ReplaceEntry(old(View()), path)
      ensures index == old(index) && stack == old(stack)[index := path]
    {
      stack := stack[index := path];
    }

    /** The entry moved to, if there was one to move to. */
    method Back() returns (popped: Option<string>)
      requires Valid()
      modifies this
      ensures Valid() && stack == old(stack)
      ensures old(index) == 0 ==> popped == None && index == old(index)
      ensures old(index) > 0 ==> index == old(index) - 1 && popped == Some(stack[index])
    {
      if index > 0 {
        index := index - 1;
        return Some(stack[index]);
      }
      return None;
    }

    method Forward() returns (popped: Option<string>)
      requires Valid()
      modifies this
      ensures Valid() && stack == old(stack)
      ensures old(index) + 1 == |stack| ==> popped == None && index == old(index)
      ensures old(index) + 1 < |stack| ==> index == old(index) + 1 && popped == Some(stack[index])
    {
      if index + 1 < |stack| {
        index := index + 1;
        return Some(stack[index]);
      }
      return None;
    }
  }

  class Router {
    const cfg: Config
    const engine: Engine
    const history: BrowserHistory
    const loader: RemotePageLoader?

    var routes: seq<Route>
    var path: string
    var query: string
    var component: Option<nat>
    var loaderOwned: bool
    var pageUrl: Option<string>
    var status: Status
    var seed: Seed
    var pendingRoute: string
    var pendingPath: string
    var remembered: string
    var requests: seq<Request>

    ghost predicate Wired()
      reads this, history
    {
      (loader != null <==> cfg.hasLoader) && (loader != null ==> loader.engine == engine) && history.Valid()
    }

    ghost function ScreenView(): Screen
      reads this, engine
    {
      Screen(component, loaderOwned, pageUrl, status, seed, engine.built, engine.deleted)
    }

    ghost function View(): State
      reads this, engine, history, loader
    {
      State(routes, path, query, pendingRoute, pendingPath, remembered, requests, history.View(),
            if loader == null then map[] else loader.pages, ScreenView())
    }

    /** Wired, and every component accounted for. */
    ghost predicate Valid()
      reads this, engine, history, loader
    {
      Wired() && Sound(cfg, View())
    }

    constructor (cfg: Config, engine: Engine, history: BrowserHistory, loader: RemotePageLoader?)
      requires engine.built == [] && engine.deleted == multiset{} && history.View() == History(["/"], 0)
      requires loader != null <==> cfg.hasLoader
      requires loader != null ==> loader.engine == engine && loader.pages == map[]
      ensures this.cfg == cfg && this.engine == engine && this.history == history && this.loader == loader
      ensures Valid() && View() == Initial(cfg)
    {
      this.cfg, this.engine, this.history, this.loader := cfg, engine, history, loader;
      path, query, pendingRoute, pendingPath, remembered := cfg.fallback, "", "", "", "";
      component, loaderOwned, pageUrl, status, seed, requests := None, false, None, NotFound, map[], [];
      routes := StableSort(CompileRoutes(cfg.routes, cfg.isName), Rank);
      new;
      assert View() == Initial(cfg);
      InitialIsSound(cfg);
    }

    method SetPageComponent(next: Option<nat>, status: Status, fromLoader: bool)
      modifies this`pageUrl, this`component, this`status, this`loaderOwned, engine`deleted
      ensures ScreenView() == Navigation.SetPageComponent(old(ScreenView()), next, status, fromLoader)
    {
      if component == next && this.status == status {
        return;
      }
      pageUrl := None;
      var previous := component;
      var previousWasOurs := !loaderOwned;
      component, this.status, loaderOwned := next, status, fromLoader;
      if previous.Some? && previous != next && previousWasOurs {
        engine.DeleteSoon(previous.value);
      }
    }

    method SetPageUrl(env: Env, url: string, status: Status)
      modifies this`pageUrl, this`component, this`status, this`loaderOwned, this`seed, engine
      ensures ScreenView() == Navigation.SetPageUrl(cfg, env, old(ScreenView()), url, status)
    {
      if url != "" && !cfg.hasEngine {
        SetPageComponent(None, Error, false);
        return;
      }
      seed := map[];
      if component.Some? && pageUrl == Some(url) {
        this.status := LoadStatus(env, component.value, status);
        return;
      }
      Mount(env, url, status);
    }

    /** Another view than the one on screen, or none. */
    method Mount(env: Env, url: string, status: Status)
      modifies this`pageUrl, this`component, this`status, this`loaderOwned, engine
      ensures var v := old(ScreenView());
              var w := if url == "" then Navigation.SetPageComponent(v, None, status, false)
                       else ShowBuilt(v, FromUrl(url), LoadStatus(env, |v.built|, status));
              ScreenView() == w.(pageUrl := Some(url))
    {
      if url == "" {
        SetPageComponent(None, status, false);
      } else {
        var built := engine.Build(FromUrl(url));
        SetPageComponent(Some(built), LoadStatus(env, built, status), false);
      }
      pageUrl := Some(url);
    }

    method FindRoute(path: string) returns (found: Option<Route>)
      ensures found == Lookup(routes, path)
    {
      var segments := SplitPath(path);
      if segments.None? {
        return None;
      }
      ghost var hit := RouteMatcher(segments.value);
      for i := 0 to |routes|
        invariant First(routes, hit) == First(routes[i..], hit)
      {
        if Matches(routes[i].pattern, segments.value) {
          return Some(routes[i]);
        }
      }
      return None;
    }

    /** Where the router stands, and what it waits for. */
    method MoveTo(path: string, pendingRoute: string, pendingPath: string)
      modifies this`path, this`pendingRoute, this`pendingPath
      ensures View() == old(View()).(path := path, pendingRoute := pendingRoute, pendingPath := pendingPath)
    {
      this.path := path;
      this.pendingRoute, this.pendingPath := pendingRoute, pendingPath;
    }

    /** setPageComponent, and nothing else moves. */
    method Display(next: Option<nat>, status: Status, fromLoader: bool)
      modifies this`pageUrl, this`component, this`status, this`loaderOwned, engine`deleted
      ensures View() == old(View()).(screen := Navigation.SetPageComponent(old(ScreenView()), next, status, fromLoader))
    {
      SetPageComponent(next, status, fromLoader);
    }

    method ResolveRemote(path: string, route: RouteConfig)
      requires Wired() && loader != null
      modifies this`path, this`pendingRoute, this`pendingPath, this`requests
      modifies this`pageUrl, this`component, this`status, this`loaderOwned, engine`deleted
      ensures View() == Navigation.ResolveRemote(old(View()), path, route)
    {
      MoveTo(path, route.path, path);
      var cached := ComponentFor(loader.pages, route.path);
      Display(cached, if cached.Some? then Ready else Loading, cached.Some?);
      requests := requests + [Request(path, HashFor(loader.pages, route.path))];
    }

    /** The refused half of resolve, with the fallback's view found. */
    method RedirectTo(env: Env, url: string, refusal: Status)
      modifies this`query, this`path, this`pendingRoute, this`pendingPath
      modifies this`pageUrl, this`component, this`status, this`loaderOwned, this`seed, engine
      ensures View() == Navigation.RedirectTo(cfg, env, old(View()), url, refusal)
    {
      query := "";
      MoveTo(cfg.fallback, "", "");
      SetPageUrl(env, url, refusal);
    }

    method Redirect(env: Env, refusal: Status)
      requires Wired()
      modifies this, engine
      ensures Wired()
      ensures View() == Navigation.Redirect(cfg, env, old(View()), refusal)
    {
      var fallback := FindRoute(cfg.fallback);
      RedirectTo(env, if fallback.Some? then fallback.value.config.componentUrl else "", refusal);
    }

    /** The half of resolve that shows something without the loader. */
    method ShowLocal(env: Env, route: RouteConfig)
      modifies this`pageUrl, this`component, this`status, this`loaderOwned, this`seed, engine
      ensures ScreenView() == LocalScreen(cfg, env, old(ScreenView()), route)
    {
      if route.accelerated && env.software {
        if cfg.hasEngine {
          var notice := engine.Build(FromNotice);
          SetPageComponent(Some(notice), Unsupported, false);
        } else {
          SetPageComponent(None, Unsupported, false);
        }
      } else if route.componentUrl == "" {
        SetPageComponent(None, Error, false);
      } else {
        SetPageUrl(env, route.componentUrl, Ready);
      }
    }

    /** The half of resolve that shows the page. */
    method Show(env: Env, path: string, route: RouteConfig)
      requires Wired()
      modifies this, engine
      ensures Wired()
      ensures View() == Navigation.Show(cfg, env, old(View()), path, route)
    {
      if route.componentUrl == "" && loader != null && !(route.accelerated && env.software) {
        ResolveRemote(path, route);
      } else {
        MoveTo(path, "", "");
        ShowLocal(env, route);
      }
    }

    /** The decision on a path, with its outcome on screen. */
    method Resolve(env: Env, path: string)
      requires Wired()
      modifies this, engine
      ensures Wired()
      ensures View() == Navigation.Resolve(cfg, env, old(View()), path)
      ensures FromItsUrl(old(ScreenView())) ==> Decided(cfg, env, old(View()), View(), path)
    {
      if FromItsUrl(ScreenView()) {
        ResolveIsDecided(cfg, env, View(), path);
      }
      Decide(env, path);
    }

    method Decide(env: Env, path: string)
      requires Wired()
      modifies this, engine
      ensures Wired()
      ensures View() == Navigation.Resolve(cfg, env, old(View()), path)
    {
      var found := FindRoute(path);
      if found.None? {
        Redirect(env, NotFound);
        return;
      }
      var route := found.value.config;
      var isRemoteRoute := route.componentUrl == "" && loader != null;
      if !isRemoteRoute && !Reachable(cfg, env, route) {
        remembered := path;
        Redirect(env, Forbidden);
      } else {
        Show(env, path, route);
      }
    }

    method Navigate(env: Env, pathWithQuery: string, push: bool)
      requires Valid()
      modifies this, engine, history
      ensures Valid()
      ensures View() == if push then Navigation.Go(cfg, env, old(View()), pathWithQuery)
                        else Navigation.Navigate(cfg, env, old(View()), pathWithQuery)
      ensures DecidedFrom(env, old(View()), pathWithQuery)
    {
      Settle(env, pathWithQuery);
      if push {
        history.Push(path);
      }
    }

    method Settle(env: Env, pathWithQuery: string)
      requires Valid()
      modifies this, engine
      ensures Valid() && View() == Navigation.Navigate(cfg, env, old(View()), pathWithQuery)
      ensures DecidedFrom(env, old(View()), pathWithQuery)
    {
      NavigateIsSound(cfg, env, View(), pathWithQuery);
      NavigateIsDecided(cfg, env, View(), pathWithQuery);
      var (target, asked) := SplitQuery(pathWithQuery);
      query := asked;
      Decide(env, target);
    }

    /** A navigation was decided on, the history aside: on the path in front of the question mark, with what is
        behind it as the query. */
    ghost predicate DecidedFrom(env: Env, before: State, target: string)
      reads this, engine, history, loader
    {
      var (page, query) := SplitQuery(target);
      Decided(cfg, env, before.(query := query), View().(history := before.history), page)
    }

    /** The current entry is navigated to. */
    method Start(env: Env)
      requires Valid()
      modifies this, engine, history
      ensures Valid() && View() == Navigation.Navigate(cfg, env, old(View()), CurrentEntry(old(history.View())))
      ensures DecidedFrom(env, old(View()), old(history.stack[history.index]))
      ensures history.View() == old(history.View())
    {
      Navigate(env, history.stack[history.index], false);
    }

    /** The page is the target's where that is served and the fallback elsewhere, and is the newest entry. */
    method Go(env: Env, target: string)
      requires Valid()
      modifies this, engine, history
      ensures Valid() && View() == Navigation.Go(cfg, env, old(View()), target)
      ensures var page := SplitQuery(target).0;
              path == if Served(cfg, env, old(routes), page) then page else cfg.fallback
      ensures history.stack == old(history.stack)[..old(history.index) + 1] + [path]
      ensures history.index == old(history.index) + 1
      ensures DecidedFrom(env, old(View()), target)
      ensures Lookup(routes, SplitQuery(target).0).None? ==> status != Forbidden
      ensures Refuses(cfg, env, routes, SplitQuery(target).0) ==> status != NotFound
    {
      GoFits(cfg, env, View(), target);
      Navigate(env, target, true);
    }

    /** As above, in the place of the current entry. */
    method Replace(env: Env, target: string)
      requires Valid()
      modifies this, engine, history
      ensures Valid() && View() == Navigation.Replace(cfg, env, old(View()), target)
      ensures var page := SplitQuery(target).0;
              path == if Served(cfg, env, old(routes), page) then page else cfg.fallback
      ensures history.index == old(history.index) && history.stack == old(history.stack)[history.index := path]
      ensures DecidedFrom(env, old(View()), target)
      ensures Lookup(routes, SplitQuery(target).0).None? ==> status != Forbidden
      ensures Refuses(cfg, env, routes, SplitQuery(target).0) ==> status != NotFound
    {
      NavigateFits(cfg, env, View(), target);
      Navigate(env, target, false);
      history.Replace(path);
    }

    /** The handler of the history's popped signal, run for the entry the history has moved to. */
    method OnPopped(env: Env, entry: string, ghost before: State)
      requires Valid() && history.stack[history.index] == entry
      requires View() == before.(history := before.history.(index := history.index))
      modifies this, engine, history
      ensures Valid()
      ensures old(history.index) < |before.history.stack| && View() == PopTo(cfg, env, before, old(history.index))
    {
      var landed := SplitQuery(entry).0;
      Navigate(env, entry, false);
      if landed != path && history.stack[history.index] == entry {
        history.Replace(path);
      }
    }

    /** One entry back, if there is one; the entry is the path of the page unless it loses a query. */
    method Back(env: Env)
      requires Valid()
      modifies this, engine, history
      ensures Valid() && View() == Navigation.Back(cfg, env, old(View()))
      ensures BackIndex(old(history.View())).None? ==> View() == old(View())
      ensures var to := BackIndex(old(history.View()));
              to.Some? ==> (history.stack[history.index] == path <==> !DropsQuery(cfg, env, old(View()), to.value))
    {
      PoppedIsInSync(cfg, env, View(), BackIndex(history.View()));
      MoveBack(env);
    }

    method MoveBack(env: Env)
      requires Valid()
      modifies this, engine, history
      ensures Valid() && View() == Popped(cfg, env, old(View()), BackIndex(old(history.View())))
    {
      ghost var before := View();
      ghost var index := BackIndex(before.history);
      var popped := history.Back();
      assert index == if popped.Some? then Some(history.index) else None;
      if popped.Some? {
        OnPopped(env, popped.value, before);
      }
      assert View() == Popped(cfg, env, before, index);
    }

    /** One entry forward, if there is one. */
    method Forward(env: Env)
      requires Valid()
      modifies this, engine, history
      ensures Valid() && View() == Navigation.Forward(cfg, env, old(View()))
      ensures ForwardIndex(old(history.View())).None? ==> View() == old(View())
      ensures var to := ForwardIndex(old(history.View()));
              to.Some? ==> (history.stack[history.index] == path <==> !DropsQuery(cfg, env, old(View()), to.value))
    {
      PoppedIsInSync(cfg, env, View(), ForwardIndex(history.View()));
      MoveForward(env);
    }

    method MoveForward(env: Env)
      requires Valid()
      modifies this, engine, history
      ensures Valid() && View() == Popped(cfg, env, old(View()), ForwardIndex(old(history.View())))
    {
      ghost var before := View();
      ghost var index := ForwardIndex(before.history);
      var popped := history.Forward();
      assert index == if popped.Some? then Some(history.index) else None;
      if popped.Some? {
        OnPopped(env, popped.value, before);
      }
      assert View() == Popped(cfg, env, before, index);
    }

    /** The remembered path is forgotten, and its page shown if it may be. */
    method ResumeAfterLogin(env: Env)
      requires Valid()
      modifies this, engine, history
      ensures Valid() && View() == Navigation.ResumeAfterLogin(cfg, env, old(View()))
      ensures remembered == ""
      ensures old(Resumable(cfg, env, View())) ==>
                path == SplitQuery(old(remembered)).0 && status != Forbidden && status != NotFound
    {
      ResumeLands(cfg, env, View());
      Resume(env);
    }

    method Resume(env: Env)
      requires Valid()
      modifies this, engine, history
      ensures Valid() && View() == Navigation.ResumeAfterLogin(cfg, env, old(View()))
    {
      var intended := remembered;
      remembered := "";
      var declared := [];
      for i := 0 to |routes|
        invariant declared == DeclaredPaths(routes[..i])
        invariant View() == old(View()).(remembered := "")
      {
        declared := declared + [routes[i].config.path];
      }
      assert routes[..|routes|] == routes;
      var acceptable := ResumePath.IsAcceptable(intended, declared, cfg.isName);
      if !acceptable {
        return;
      }
      var found := FindRoute(SplitQuery(intended).0);
      if found.None? || !Reachable(cfg, env, found.value.config) {
        return;
      }
      Navigate(env, intended, true);
    }

    /** The first half of the scopeChanged handler: drop what was delivered, and decide again. */
    method DecideAgain(env: Env)
      requires Valid()
      modifies this, engine, history, loader
      ensures Valid() && View() == ReResolve(cfg, env, old(View()))
    {
      ghost var before := View();
      ReResolveIsSound(cfg, env, before);
      var standing := path;
      if loader != null {
        loader.Clear(ScreenView());
      }
      seed := map[];
      assert View() == Dropped(cfg, before);
      Resolve(env, path);
      if path != standing {
        history.Replace(path);
      }
    }

    /** The handler of the session's scopeChanged signal: nothing is remembered, and nothing delivered before is
        held or shown. */
    method OnScopeChanged(env: Env)
      requires Valid()
      modifies this, engine, history, loader
      ensures Valid() && View() == ScopeChanged(cfg, env, old(View()))
      ensures remembered == "" && seed == map[] && (component.Some? ==> !loaderOwned)
      ensures loader != null ==> loader.pages == map[]
    {
      ScopeChangeDropsDeliveries(cfg, env, View());
      DecideAgain(env);
      ResumeAfterLogin(env);
    }

    /** What onPageDelivered does with a page it takes on. */
    method Take(env: Env, qml: string, hash: string, seed: Seed)
      requires Wired() && loader != null
      modifies this`pageUrl, this`component, this`status, this`loaderOwned, this`seed, engine, loader
      ensures (loader.pages, ScreenView()) ==
              Taken(env, old(loader.pages), old(ScreenView()), pendingRoute, qml, hash, seed)
    {
      var outcome := loader.Deliver(env, pendingRoute, qml, hash, ScreenView());
      if outcome == Rejected || outcome == Failed {
        SetPageComponent(None, Error, false);
        return;
      }
      var delivered := ComponentFor(loader.pages, pendingRoute);
      this.seed := seed;
      SetPageComponent(delivered, Ready, true);
    }

    /** A stale reply changes nothing; a refusal empties the screen; the path and the history stay. */
    method OnPageDelivered(env: Env, route: string, qml: string, hash: string, seed: Seed, answer: Answer)
      requires Valid()
      modifies this, engine, loader
      ensures Valid() && View() == PageDelivered(cfg, env, old(View()), route, qml, hash, seed, answer)
      ensures path == old(path) && requests == old(requests) && pendingPath == old(pendingPath)
      ensures route != pendingRoute && route != pendingPath ==> View() == old(View())
      ensures (route == pendingRoute || route == pendingPath) && answer == Refused ==>
                component == None && status == Forbidden
      ensures (route == pendingRoute || route == pendingPath) && answer == Missing ==>
                component == None && status == NotFound
      ensures Replied(cfg, env, old(View()), View(), route, qml, hash, seed, answer)
    {
      DeliveryIsReplied(cfg, env, View(), route, qml, hash, seed, answer);
      DeliveryIsSound(cfg, env, View(), route, qml, hash, seed, answer);
      if route != pendingRoute && route != pendingPath {
        return;
      }
      if answer == Refused {
        Display(None, Forbidden, false);
      } else if answer == Missing {
        Display(None, NotFound, false);
      } else if loader == null {
        Display(None, Error, false);
      } else {
        Take(env, qml, hash, seed);
      }
    }

    /** The route's page is held no longer, and is asked for again, without a hash, while it is the pending one. */
    method OnPageChanged(route: string)
      requires Valid()
      modifies this, engine, loader
      ensures Valid() && View() == PageChanged(cfg, old(View()), route)
      ensures loader != null ==> loader.pages == old(loader.pages) - {route}
      ensures loader != null && route == pendingRoute ==>
                component == None && status == Loading && requests == old(requests) + [Request(pendingPath, "")]
      ensures route != pendingRoute ==> requests == old(requests) && component == old(component)
    {
      ChangeIsSound(cfg, View(), route);
      if loader != null {
        Release(route);
      }
    }

    /** The page goes from the screen before its component does. */
    method Release(route: string)
      requires Wired() && loader != null
      modifies this, engine, loader
      ensures Wired() && View() == PageChanged(cfg, old(View()), route)
    {
      var isOnScreen := route == pendingRoute;
      if isOnScreen {
        Display(None, Loading, false);
      }
      loader.Invalidate(route, ScreenView());
      if isOnScreen {
        requests := requests + [Request(pendingPath, "")];
      }
    }

    /** The valid ones of the given entries, compiled. */
    method Compiled(configs: seq<RouteConfig>) returns (compiled: seq<Route>)
      ensures compiled == CompileRoutes(configs, cfg.isName)
    {
      compiled := [];
      for i := 0 to |configs|
        invariant compiled == CompileRoutes(configs[..i], cfg.isName)
      {
        var pattern := Compile(configs[i].path, cfg.isName);
        CompileRoutesOneMore(configs[..i], configs[i], cfg.isName);
        assert configs[..i + 1] == configs[..i] + [configs[i]];
        if pattern.valid {
          compiled := compiled + [Route(pattern, configs[i])];
        }
      }
      assert configs[..|configs|] == configs;
    }

    /** Every path the bundle alone would serve is still found. */
    method ApplyRemoteRouteTable(entries: seq<RouteConfig>)
      requires Valid()
      modifies this`routes
      ensures Valid() && View() == ApplyRemoteTable(cfg, old(View()), entries)
      ensures forall path :: Lookup(Initial(cfg).routes, path).Some? ==> Lookup(routes, path).Some?
    {
      var remote := Compiled(AsRemote(entries));
      var bundle := Compiled(cfg.routes);
      var merged := Merged(bundle, remote);
      routes := StableSort(merged, Rank);
      forall path | Lookup(Initial(cfg).routes, path).Some? ensures Lookup(routes, path).Some? {
        MergingKeepsTheBundle(bundle, remote, path);
      }
    }

    /** The bundle's routes, and those of the edge's it does not own. */
    method Merged(bundle: seq<Route>, remote: seq<Route>) returns (merged: seq<Route>)
      ensures merged == MergedRoutes(bundle, remote)
    {
      merged := bundle;
      var owned := PathsOf(bundle);
      for i := 0 to |remote|
        invariant merged == bundle + Unowned(remote[..i], owned)
      {
        UnownedOneMore(remote[..i], remote[i], owned);
        assert remote[..i + 1] == remote[..i] + [remote[i]];
        if remote[i].config.path !in owned {
          merged := merged + [remote[i]];
        }
      }
      assert remote[..|remote|] == remote;
    }
  }

  /** A navigation lands on its page or the fallback, and never shows a missing page as refused or a refused one as
      missing. */
  lemma NavigateFits(cfg: Config, env: Env, s: State, target: string)
    requires FromItsUrl(s.screen)
    ensures var t, page := Navigation.Navigate(cfg, env, s, target), SplitQuery(target).0;
            && t.path == (if Served(cfg, env, s.routes, page) then page else cfg.fallback) && t.routes == s.routes
            && (Lookup(s.routes, page).None? ==> t.screen.status != Forbidden)
            && (Refuses(cfg, env, s.routes, page) ==> t.screen.status != NotFound)
  {
    var (page, query) := SplitQuery(target);
    NavigateLands(cfg, env, s, target);
    NavigateFrame(cfg, env, s, target);
    NavigateIsDecided(cfg, env, s, target);
    MissingIsNotRefused(cfg, env, s.(query := query), Navigation.Navigate(cfg, env, s, target), page);
  }

  lemma GoFits(cfg: Config, env: Env, s: State, target: string)
    requires FromItsUrl(s.screen) && s.history.index < |s.history.stack|
    ensures var t, page := Navigation.Go(cfg, env, s, target), SplitQuery(target).0;
            && t.path == (if Served(cfg, env, s.routes, page) then page else cfg.fallback) && t.routes == s.routes
            && t.history.stack == s.history.stack[..s.history.index + 1] + [t.path]
            && t.history.index == s.history.index + 1
            && (Lookup(s.routes, page).None? ==> t.screen.status != Forbidden)
            && (Refuses(cfg, env, s.routes, page) ==> t.screen.status != NotFound)
  {
    NavigateFits(cfg, env, s, target);
    NavigateLands(cfg, env, s, target);
  }

  lemma PoppedIsInSync(cfg: Config, env: Env, s: State, index: Option<nat>)
    requires index.Some? ==> index.value < |s.history.stack|
    ensures index.Some? ==> (InSync(Popped(cfg, env, s, index)) <==> !DropsQuery(cfg, env, s, index.value))
    ensures index.None? ==> Popped(cfg, env, s, index) == s
  {
    if index.Some? {
      PopSyncsUnlessAQueryIsDropped(cfg, env, s, index.value);
    }
  }

  lemma {:induction false} CompileRoutesOneMore(configs: seq<RouteConfig>, last: RouteConfig, isName: string -> bool)
    ensures CompileRoutes(configs + [last], isName) ==
            CompileRoutes(configs, isName)
            + (if Compile(last.path, isName).valid then [Route(Compile(last.path, isName), last)] else [])
  {
    if configs == [] {
      assert CompileRoutes([last][1..], isName) == [];
    } else {
      assert (configs + [last])[1..] == configs[1..] + [last];
      CompileRoutesOneMore(configs[1..], last, isName);
    }
  }

  lemma {:induction false} UnownedOneMore(remote: seq<Route>, last: Route, owned: set<string>)
    ensures Unowned(remote + [last], owned) ==
              Unowned(remote, owned) + (if last.config.path in owned then [] else [last])
  {
    if remote == [] {
      assert Unowned([last][1..], owned) == [];
    } else {
      assert (remote + [last])[1..] == remote[1..] + [last];
      UnownedOneMore(remote[1..], last, owned);
    }
  }
}
