/**
 What each decision of the router leaves on screen and asks for, said of the outcome alone: where a page is
 missing, refused, delivered or shown from a view, and what a reply does (src/client/router.cpp).
 */
module Decisions {
  import opened Prelude
  import opened RoutePatterns
  import opened RouteTables
  import opened Navigation
  import opened Ownership

  // ---------------------------------------------------------------------------------------------
  // What is on screen
  // ---------------------------------------------------------------------------------------------

  /** Nothing is on screen, for the given reason. */
  predicate Blank(v: Screen, status: Status) {
    v.component == None && v.status == status
  }

  /** The status a component that is still loading, or broken, leaves of the one meant. */
  predicate StatusOf(env: Env, component: nat, meant: Status, status: Status) {
    && (env.load(component).Loaded? ==> status == meant)
    && (env.load(component).StillLoading? ==> status == Loading)
    && (env.load(component).Broken? ==> status == Error)
  }

  /** A component that was built from the given origin is on screen. */
  predicate ShowsBuilt(v: Screen, origin: Origin) {
    v.component.Some? && v.component.value < |v.built| && v.built[v.component.value] == origin
  }

  /** The view is on screen, or nothing where there is no view or no engine to build it. */
  predicate ShowsView(cfg: Config, env: Env, v: Screen, url: string, meant: Status) {
    if url == "" then Blank(v, meant)
    else if !cfg.hasEngine then Blank(v, Error)
    else ShowsBuilt(v, FromUrl(url)) && StatusOf(env, v.component.value, meant, v.status)
  }

  lemma UrlShowsView(cfg: Config, env: Env, v: Screen, url: string, meant: Status)
    requires FromItsUrl(v)
    ensures ShowsView(cfg, env, SetPageUrl(cfg, env, v, url, meant), url, meant)
    ensures url == "" || cfg.hasEngine ==> SetPageUrl(cfg, env, v, url, meant).seed == map[]
  {
    var bare := v.(seed := map[]);
    if (url == "" || cfg.hasEngine) && !(v.component.Some? && v.pageUrl == Some(url)) {
      if url == "" {
        NothingIsBlank(bare, meant);
      } else {
        NewViewShows(env, bare, url, LoadStatus(env, |v.built|, meant));
      }
    }
  }

  lemma NothingIsBlank(v: Screen, status: Status)
    ensures Blank(SetPageComponent(v, None, status, false), status)
    ensures SetPageComponent(v, None, status, false).seed == v.seed
  {
  }

  lemma NewViewShows(env: Env, v: Screen, url: string, status: Status)
    ensures var w := ShowBuilt(v, FromUrl(url), status);
            && w.built == v.built + [FromUrl(url)] && w.component == Some(|v.built|)
            && w.status == status && w.seed == v.seed
  {
  }

  // ---------------------------------------------------------------------------------------------
  // A navigation
  // ---------------------------------------------------------------------------------------------

  /** The view of the fallback's route, if it has a route and a view. */
  function FallbackView(cfg: Config, routes: seq<Route>): string {
    var route := Lookup(routes, cfg.fallback);
    if route.Some? then route.value.config.componentUrl else ""
  }

  /** The fallback, for the given reason: without the query, and waiting for nothing. */
  predicate Redirected(cfg: Config, env: Env, s: State, t: State, reason: Status) {
    && t.path == cfg.fallback && t.query == "" && t.pendingRoute == "" && t.pendingPath == ""
    && t.requests == s.requests && t.history == s.history && t.pages == s.pages
    && ShowsView(cfg, env, t.screen, FallbackView(cfg, s.routes), reason)
  }

  /** The page the edge delivers, asked for with the hash of the one held; that one is on screen, or nothing. */
  predicate Requested(s: State, t: State, path: string, route: string) {
    && t.path == path && t.query == s.query && t.pendingRoute == route && t.pendingPath == path
    && t.requests == s.requests + [Request(path, if route in s.pages then s.pages[route].hash else "")]
    && (if route in s.pages then t.screen.component == Some(s.pages[route].component) && t.screen.status == Ready
        else Blank(t.screen, Loading))
  }

  /** A page of the bundle's: its view; or the notice that this machine cannot show it. */
  predicate Displayed(cfg: Config, env: Env, s: State, t: State, path: string, route: RouteConfig) {
    && t.path == path && t.query == s.query && t.pendingRoute == "" && t.pendingPath == ""
    && t.requests == s.requests
    && if route.accelerated && env.software then
         (if cfg.hasEngine then ShowsBuilt(t.screen, FromNotice) && t.screen.status == Unsupported
          else Blank(t.screen, Unsupported))
       else if route.componentUrl == "" then Blank(t.screen, Error)
       else ShowsView(cfg, env, t.screen, route.componentUrl, Ready)
  }

  /** The scope a page asks for is not the session's. */
  predicate OutOfReach(cfg: Config, env: Env, scope: string) {
    scope != "" && (!cfg.hasSession || !env.hasScope(scope))
  }

  /** The decision on a path: missing without a route; the edge's to judge where it delivers the page; refused, and
      remembered, where the scope is out of reach; and shown otherwise. */
  ghost predicate Decided(cfg: Config, env: Env, s: State, t: State, path: string) {
    match Lookup(s.routes, path)
    case None => Redirected(cfg, env, s, t, NotFound) && t.remembered == s.remembered
    case Some(found) =>
      var route := found.config;
      var delivered := route.componentUrl == "" && cfg.hasLoader;
      if !delivered && OutOfReach(cfg, env, route.scope) then
        Redirected(cfg, env, s, t, Forbidden) && t.remembered == path
      else
        && t.remembered == s.remembered && t.history == s.history && t.pages == s.pages
        && if delivered && !(route.accelerated && env.software) then Requested(s, t, path, route.path)
           else Displayed(cfg, env, s, t, path, route)
  }

  lemma RedirectIsDecided(cfg: Config, env: Env, s: State, reason: Status)
    requires FromItsUrl(s.screen)
    ensures var t := Redirect(cfg, env, s, reason);
            Redirected(cfg, env, s, t, reason) && t.remembered == s.remembered
  {
    UrlShowsView(cfg, env, s.screen, FallbackView(cfg, s.routes), reason);
  }

  lemma LocalIsDisplayed(cfg: Config, env: Env, s: State, path: string, route: RouteConfig)
    requires FromItsUrl(s.screen) && (route.componentUrl != "" || !cfg.hasLoader || (route.accelerated && env.software))
    ensures Displayed(cfg, env, s, Show(cfg, env, s, path, route), path, route)
  {
    if !(route.accelerated && env.software) && route.componentUrl != "" {
      UrlShowsView(cfg, env, s.screen, route.componentUrl, Ready);
    }
  }

  lemma RemoteIsRequested(s: State, path: string, route: RouteConfig)
    ensures Requested(s, ResolveRemote(s, path, route), path, route.path)
  {
  }

  lemma ResolveIsDecided(cfg: Config, env: Env, s: State, path: string)
    requires FromItsUrl(s.screen)
    ensures Decided(cfg, env, s, Resolve(cfg, env, s, path), path)
  {
    match Lookup(s.routes, path)
    case None => RedirectIsDecided(cfg, env, s, NotFound);
    case Some(found) =>
      var route := found.config;
      if !(route.componentUrl == "" && cfg.hasLoader) && OutOfReach(cfg, env, route.scope) {
        RedirectIsDecided(cfg, env, s.(remembered := path), Forbidden);
      } else {
        ShowIsDecided(cfg, env, s, path, route);
      }
  }

  lemma ShowIsDecided(cfg: Config, env: Env, s: State, path: string, route: RouteConfig)
    requires FromItsUrl(s.screen)
    ensures var t := Show(cfg, env, s, path, route);
            && t.remembered == s.remembered && t.history == s.history && t.pages == s.pages
            && if route.componentUrl == "" && cfg.hasLoader && !(route.accelerated && env.software)
               then Requested(s, t, path, route.path) else Displayed(cfg, env, s, t, path, route)
  {
    if route.componentUrl == "" && cfg.hasLoader && !(route.accelerated && env.software) {
      RemoteIsRequested(s, path, route);
    } else {
      LocalIsDisplayed(cfg, env, s, path, route);
    }
  }

  /** A navigation decides on the path in front of the question mark, with the text behind it as the query. */
  lemma NavigateIsDecided(cfg: Config, env: Env, s: State, target: string)
    requires FromItsUrl(s.screen)
    ensures Decided(cfg, env, s.(query := SplitQuery(target).1), Navigate(cfg, env, s, target), SplitQuery(target).0)
  {
    ResolveIsDecided(cfg, env, s.(query := SplitQuery(target).1), SplitQuery(target).0);
  }

  /** So a missing page never shows as refused, and a refused one never as missing; each shows as what it is where
      the fallback has no view, or its view is loaded. */
  lemma MissingIsNotRefused(cfg: Config, env: Env, s: State, t: State, path: string)
    requires Decided(cfg, env, s, t, path)
    ensures Lookup(s.routes, path).None? ==>
              && t.screen.status != Forbidden
              && (t.screen.status == NotFound <==>
                    FallbackView(cfg, s.routes) == ""
                    || (cfg.hasEngine && t.screen.component.Some? && env.load(t.screen.component.value).Loaded?))
    ensures Lookup(s.routes, path).Some? ==>
              var route := Lookup(s.routes, path).value.config;
              !(route.componentUrl == "" && cfg.hasLoader) && OutOfReach(cfg, env, route.scope) ==>
                && t.screen.status != NotFound
                && (t.screen.status == Forbidden <==>
                      FallbackView(cfg, s.routes) == ""
                      || (cfg.hasEngine && t.screen.component.Some? && env.load(t.screen.component.value).Loaded?))
  {
  }

  // ---------------------------------------------------------------------------------------------
  // A reply
  // ---------------------------------------------------------------------------------------------

  /** A reply that is taken on: a page held with that hash already, or one that the palette admits and that parses,
      is on screen with the seed delivered; anything else is an error and leaves cache and seed as they were. */
  predicate TakenOn(env: Env, s: State, t: State, qml: string, hash: string, seed: Seed) {
    var route := s.pendingRoute;
    if route in s.pages && s.pages[route].hash == hash then
      && t.pages == s.pages && t.screen.built == s.screen.built
      && t.screen.component == Some(s.pages[route].component) && t.screen.status == Ready && t.screen.seed == seed
    else if env.accepts(qml) && env.parses(qml) then
      && ShowsBuilt(t.screen, FromSource(qml)) && t.screen.status == Ready && t.screen.seed == seed
      && t.pages == s.pages[route := Page(hash, t.screen.component.value)]
      && t.screen.built == s.screen.built + [FromSource(qml)]
    else
      t.pages == s.pages && Blank(t.screen, Error) && t.screen.seed == s.screen.seed
  }

  /** What a reply does: nothing if it is stale; and of the others a refusal or a missing page empties the screen. */
  predicate Replied(cfg: Config, env: Env, s: State, t: State, route: string, qml: string, hash: string, seed: Seed,
                    answer: Answer)
  {
    if route != s.pendingRoute && route != s.pendingPath then t == s
    else
      && t.path == s.path && t.query == s.query && t.remembered == s.remembered && t.history == s.history
      && t.pendingRoute == s.pendingRoute && t.pendingPath == s.pendingPath && t.requests == s.requests
      && if answer == Refused then Blank(t.screen, Forbidden) && t.pages == s.pages
         else if answer == Missing then Blank(t.screen, NotFound) && t.pages == s.pages
         else if !cfg.hasLoader then Blank(t.screen, Error) && t.pages == s.pages
         else TakenOn(env, s, t, qml, hash, seed)
  }

  lemma TakenIsTakenOn(env: Env, s: State, t: State, qml: string, hash: string, seed: Seed)
    requires var (pages, v) := Taken(env, s.pages, s.screen, s.pendingRoute, qml, hash, seed);
             t == s.(pages := pages, screen := v)
    ensures TakenOn(env, s, t, qml, hash, seed)
  {
    var (after, w) := Deliver(env, s.pages, s.screen, s.pendingRoute, qml, hash);
    NothingIsBlank(w, Error);
    CachedIsShown(w.(seed := seed), after, s.pendingRoute);
  }

  lemma CachedIsShown(v: Screen, pages: Pages, route: string)
    ensures var w := SetPageComponent(v, ComponentFor(pages, route), Ready, true);
            && w.component == (if route in pages then Some(pages[route].component) else None)
            && w.status == Ready && w.seed == v.seed && w.built == v.built
  {
  }

  lemma DeliveryIsReplied(cfg: Config, env: Env, s: State, route: string, qml: string, hash: string, seed: Seed,
                          answer: Answer)
    ensures Replied(cfg, env, s, PageDelivered(cfg, env, s, route, qml, hash, seed, answer), route, qml, hash, seed,
                    answer)
  {
    if route == s.pendingRoute || route == s.pendingPath {
      if answer == Refused {
        NothingIsBlank(s.screen, Forbidden);
      } else if answer == Missing {
        NothingIsBlank(s.screen, NotFound);
      } else if !cfg.hasLoader {
        NothingIsBlank(s.screen, Error);
      } else {
        var t := PageDelivered(cfg, env, s, route, qml, hash, seed, answer);
        TakenIsTakenOn(env, s, t, qml, hash, seed);
      }
    }
  }

  // ---------------------------------------------------------------------------------------------
  // Over every run
  // ---------------------------------------------------------------------------------------------

  /** After any run, a navigation decides as above; and what is on screen of a view is the view of the URL it is kept
      under. */
  lemma EveryNavigationIsDecided(cfg: Config, steps: seq<Step>, env: Env, target: string)
    ensures var s := Run(cfg, Initial(cfg), steps);
            && FromItsUrl(s.screen)
            && Decided(cfg, env, s.(query := SplitQuery(target).1), Navigate(cfg, env, s, target), SplitQuery(target).0)
  {
    InitialIsSound(cfg);
    RunsAreSound(cfg, Initial(cfg), steps);
    NavigateIsDecided(cfg, env, Run(cfg, Initial(cfg), steps), target);
  }
}
