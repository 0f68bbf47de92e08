/**
 The client router with the two objects it shares state with, the page loader's cache and the
 desktop history, as one state and one function per entry point (src/client/router.cpp,
 src/client/remotepageloader.cpp, src/client/browserhistory.cpp).

 The QML engine, the session and the palette are oracles: an `Env` holds the answers they give
 while one step runs, and nothing ties one step's answers to the next one's.
 */
module Navigation {
  import opened Prelude
  import opened RoutePatterns
  import opened RouteTables
  import ResumePath

  datatype Status = Ready | Loading | Forbidden | NotFound | Error | Unsupported

  /** What the engine says of a component. */
  datatype Load = Loaded | StillLoading | Broken

  /** What a component was built from. A component is named by its position among all ever built. */
  datatype Origin = FromUrl(url: string) | FromNotice | FromSource(source: string)

  datatype Page = Page(hash: string, component: nat)

  datatype Request = Request(path: string, haveHash: string)

  type Seed = map<string, string>

  datatype Config = Config(routes: seq<RouteConfig>, fallback: string, isName: string -> bool,
                           hasEngine: bool, hasSession: bool, hasLoader: bool)

  datatype Env = Env(hasScope: string -> bool, load: nat -> Load, software: bool,
                     accepts: string -> bool, parses: string -> bool)

  /** The page on screen, with every component ever built and those handed to deleteSoon. */
  datatype Screen = Screen(component: Option<nat>, loaderOwned: bool, pageUrl: Option<string>, status: Status,
                           seed: Seed, built: seq<Origin>, deleted: multiset<nat>)

  datatype History = History(stack: seq<string>, index: nat)

  type Pages = map<string, Page>

  /** The router, the path the resume remembers, the history, the loader's cache, and the
      pageRequested signals emitted and not yet answered for. */
  datatype State = State(routes: seq<Route>, path: string, query: string, pendingRoute: string, pendingPath: string,
                         remembered: string, requests: seq<Request>, history: History, pages: Pages, screen: Screen)

  // ---------------------------------------------------------------------------------------------
  // The page on screen
  // ---------------------------------------------------------------------------------------------

  function LoadStatus(env: Env, component: nat, status: Status): Status {
    match env.load(component)
    case Broken => Error
    case StillLoading => Loading
    case Loaded => status
  }

  function SetPageComponent(v: Screen, component: Option<nat>, status: Status, fromLoader: bool): Screen {
    if v.component == component && v.status == status then v
    else v.(pageUrl := None, component := component, status := status, loaderOwned := fromLoader,
            deleted := if v.component.Some? && v.component != component && !v.loaderOwned
                       then v.deleted + multiset{v.component.value} else v.deleted)
  }

  /** A component built and put on screen as the router's own. */
  function ShowBuilt(v: Screen, origin: Origin, status: Status): Screen {
    SetPageComponent(v.(built := v.built + [origin]), Some(|v.built|), status, false)
  }

  function SetPageUrl(cfg: Config, env: Env, v: Screen, url: string, status: Status): Screen {
    if url != "" && !cfg.hasEngine then SetPageComponent(v, None, Error, false)
    else
      var bare := v.(seed := map[]);
      if v.component.Some? && v.pageUrl == Some(url) then
        bare.(status := LoadStatus(env, v.component.value, status))
      else if url == "" then
        SetPageComponent(bare, None, status, false).(pageUrl := Some(url))
      else
        ShowBuilt(bare, FromUrl(url), LoadStatus(env, |v.built|, status)).(pageUrl := Some(url))
  }

  // ---------------------------------------------------------------------------------------------
  // RemotePageLoader
  // ---------------------------------------------------------------------------------------------

  datatype Outcome = Built | NotModified | Rejected | Failed

  function DeliverOutcome(env: Env, pages: Pages, route: string, source: string, hash: string): Outcome {
    if route in pages && pages[route].hash == hash then NotModified
    else if !env.accepts(source) then Rejected
    else if !env.parses(source) then Failed
    else Built
  }

  /** The cache and the components after a delivery. A page that does not parse is built and freed. */
  function Deliver(env: Env, pages: Pages, v: Screen, route: string, source: string, hash: string): (Pages, Screen) {
    var c := |v.built|;
    var built := v.built + [FromSource(source)];
    match DeliverOutcome(env, pages, route, source, hash)
    case NotModified => (pages, v)
    case Rejected => (pages, v)
    case Failed => (pages, v.(built := built, deleted := v.deleted + multiset{c}))
    case Built =>
      (pages[route := Page(hash, c)],
       v.(built := built,
          deleted := if route in pages then v.deleted + multiset{pages[route].component} else v.deleted))
  }

  function ComponentFor(pages: Pages, route: string): Option<nat> {
    if route in pages then Some(pages[route].component) else None
  }

  function HashFor(pages: Pages, route: string): string {
    if route in pages then pages[route].hash else ""
  }

  function Invalidated(pages: Pages, v: Screen, route: string): Screen {
    if route in pages then v.(deleted := v.deleted + multiset{pages[route].component}) else v
  }

  function Cached(pages: Pages): set<nat> {
    set r | r in pages :: pages[r].component
  }

  function Cleared(pages: Pages, v: Screen): Screen {
    v.(deleted := v.deleted + multiset(Cached(pages)))
  }

  // ---------------------------------------------------------------------------------------------
  // BrowserHistory, on the desktop
  // ---------------------------------------------------------------------------------------------

  function CurrentEntry(h: History): string {
    if h.index < |h.stack| then h.stack[h.index] else "/"
  }

  function Push(h: History, path: string): History {
    var kept := if h.index < |h.stack| then h.stack[..h.index + 1] else h.stack;
    History(kept + [path], |kept|)
  }

  /** Where a step back or forward leads, if anywhere. */
  function BackIndex(h: History): (index: Option<nat>)
    ensures index.Some? ==> index.value < |h.stack|
  {
    if 0 < h.index <= |h.stack| then Some(h.index - 1) else None
  }

  function ForwardIndex(h: History): (index: Option<nat>)
    ensures index.Some? ==> index.value < |h.stack|
  {
    if h.index + 1 < |h.stack| then Some(h.index + 1) else None
  }

  function ReplaceEntry(h: History, path: string): History {
    if h.stack == [] then History([path], 0)
    else if h.index < |h.stack| then h.(stack := h.stack[h.index := path])
    else h
  }

  // ---------------------------------------------------------------------------------------------
  // Router
  // ---------------------------------------------------------------------------------------------

  predicate Reachable(cfg: Config, env: Env, route: RouteConfig) {
    route.scope == "" || (cfg.hasSession && env.hasScope(route.scope))
  }

  function FallbackUrl(cfg: Config, routes: seq<Route>): string {
    var fallback := Lookup(routes, cfg.fallback);
    if fallback.Some? then fallback.value.config.componentUrl else ""
  }

  /** A refused navigation: the fallback, without the query, with nothing pending. */
  function RedirectTo(cfg: Config, env: Env, s: State, url: string, status: Status): State {
    s.(path := cfg.fallback, query := "", pendingRoute := "", pendingPath := "",
       screen := SetPageUrl(cfg, env, s.screen, url, status))
  }

  function Redirect(cfg: Config, env: Env, s: State, status: Status): State {
    RedirectTo(cfg, env, s, FallbackUrl(cfg, s.routes), status)
  }

  /** A page the edge delivers: shown from the cache if it is held, and asked for either way. */
  function ResolveRemote(s: State, path: string, route: RouteConfig): State {
    var cached := ComponentFor(s.pages, route.path);
    s.(path := path, pendingRoute := route.path, pendingPath := path,
       screen := if cached.Some? then SetPageComponent(s.screen, cached, Ready, true)
                 else SetPageComponent(s.screen, None, Loading, false),
       requests := s.requests + [Request(path, HashFor(s.pages, route.path))])
  }

  /** What takes the screen when the page is not the edge's to deliver. */
  function LocalScreen(cfg: Config, env: Env, v: Screen, route: RouteConfig): Screen {
    if route.accelerated && env.software then
      if cfg.hasEngine then ShowBuilt(v, FromNotice, Unsupported) else SetPageComponent(v, None, Unsupported, false)
    else if route.componentUrl == "" then SetPageComponent(v, None, Error, false)
    else SetPageUrl(cfg, env, v, route.componentUrl, Ready)
  }

  predicate Remote(cfg: Config, env: Env, route: RouteConfig) {
    !(route.accelerated && env.software) && route.componentUrl == "" && cfg.hasLoader
  }

  /** The route is there and may be shown. */
  function Show(cfg: Config, env: Env, s: State, path: string, route: RouteConfig): State {
    if Remote(cfg, env, route) then ResolveRemote(s, path, route)
    else s.(path := path, pendingRoute := "", pendingPath := "", screen := LocalScreen(cfg, env, s.screen, route))
  }

  function Resolve(cfg: Config, env: Env, s: State, path: string): State {
    match Lookup(s.routes, path)
    case None => Redirect(cfg, env, s, NotFound)
    case Some(route) =>
      if !(route.config.componentUrl == "" && cfg.hasLoader) && !Reachable(cfg, env, route.config)
      then Redirect(cfg, env, s.(remembered := path), Forbidden)
      else Show(cfg, env, s, path, route.config)
  }

  function Navigate(cfg: Config, env: Env, s: State, pathWithQuery: string): State {
    var (path, query) := SplitQuery(pathWithQuery);
    Resolve(cfg, env, s.(query := query), path)
  }

  function Pushed(s: State): State { s.(history := Push(s.history, s.path)) }

  function Replaced(s: State): State { s.(history := ReplaceEntry(s.history, s.path)) }

  function Go(cfg: Config, env: Env, s: State, path: string): State {
    Pushed(Navigate(cfg, env, s, path))
  }

  function Replace(cfg: Config, env: Env, s: State, path: string): State {
    Replaced(Navigate(cfg, env, s, path))
  }

  /** The history moved to the entry at `index`, and the popped handler ran for it. */
  function PopTo(cfg: Config, env: Env, s: State, index: nat): State
    requires index < |s.history.stack|
  {
    var entry := s.history.stack[index];
    var t := Navigate(cfg, env, s.(history := s.history.(index := index)), entry);
    if SplitQuery(entry).0 != t.path && CurrentEntry(t.history) == entry then Replaced(t) else t
  }

  function Popped(cfg: Config, env: Env, s: State, index: Option<nat>): State
    requires index.Some? ==> index.value < |s.history.stack|
  {
    if index.Some? then PopTo(cfg, env, s, index.value) else s
  }

  function Back(cfg: Config, env: Env, s: State): State {
    Popped(cfg, env, s, BackIndex(s.history))
  }

  function Forward(cfg: Config, env: Env, s: State): State {
    Popped(cfg, env, s, ForwardIndex(s.history))
  }

  function DeclaredPaths(routes: seq<Route>): seq<string> {
    seq(|routes|, i requires 0 <= i < |routes| => routes[i].config.path)
  }

  /** The remembered path may be resumed: it passes the resume's own test, and its route is there
      and within the session's reach. */
  ghost predicate Resumable(cfg: Config, env: Env, s: State) {
    && ResumePath.Acceptable(s.remembered, DeclaredPaths(s.routes), cfg.isName)
    && var route := Lookup(s.routes, SplitQuery(s.remembered).0);
       route.Some? && Reachable(cfg, env, route.value.config)
  }

  ghost function ResumeAfterLogin(cfg: Config, env: Env, s: State): State {
    var taken := s.(remembered := "");
    if Resumable(cfg, env, s) then Go(cfg, env, taken, s.remembered) else taken
  }

  /** What the scopeChanged handler drops before it decides again. */
  function Dropped(cfg: Config, s: State): State {
    var v := if cfg.hasLoader then Cleared(s.pages, s.screen) else s.screen;
    s.(pages := if cfg.hasLoader then map[] else s.pages, screen := v.(seed := map[]))
  }

  function ReResolve(cfg: Config, env: Env, s: State): State {
    var t := Resolve(cfg, env, Dropped(cfg, s), s.path);
    if t.path != s.path then Replaced(t) else t
  }

  ghost function ScopeChanged(cfg: Config, env: Env, s: State): State {
    ResumeAfterLogin(cfg, env, ReResolve(cfg, env, s))
  }

  /** The edge's four answers, and the caller's own report that the call failed. */
  datatype Answer = Ok | Unchanged | Refused | Missing | CallFailed

  /** A delivery the router takes on: it answers the pending request and refuses nothing. */
  predicate Considered(cfg: Config, s: State, route: string, answer: Answer) {
    (route == s.pendingRoute || route == s.pendingPath) && answer != Refused && answer != Missing && cfg.hasLoader
  }

  /** A delivery taken on: shown if it was built or is held already. */
  function Taken(env: Env, pages: Pages, v: Screen, route: string, qml: string, hash: string, seed: Seed)
    : (Pages, Screen)
  {
    var (after, w) := Deliver(env, pages, v, route, qml, hash);
    var outcome := DeliverOutcome(env, pages, route, qml, hash);
    (after, if outcome == Rejected || outcome == Failed then SetPageComponent(w, None, Error, false)
            else SetPageComponent(w.(seed := seed), ComponentFor(after, route), Ready, true))
  }

  function PageDelivered(cfg: Config, env: Env, s: State, route: string, qml: string, hash: string,
                         seed: Seed, answer: Answer): State
  {
    if route != s.pendingRoute && route != s.pendingPath then s
    else if answer == Refused then s.(screen := SetPageComponent(s.screen, None, Forbidden, false))
    else if answer == Missing then s.(screen := SetPageComponent(s.screen, None, NotFound, false))
    else if !cfg.hasLoader then s.(screen := SetPageComponent(s.screen, None, Error, false))
    else
      var (pages, v) := Taken(env, s.pages, s.screen, s.pendingRoute, qml, hash, seed);
      s.(pages := pages, screen := v)
  }

  function PageChanged(cfg: Config, s: State, route: string): State {
    if !cfg.hasLoader then s
    else if route == s.pendingRoute then
      s.(pages := s.pages - {route},
         screen := Invalidated(s.pages, SetPageComponent(s.screen, None, Loading, false), route),
         requests := s.requests + [Request(s.pendingPath, "")])
    else s.(pages := s.pages - {route}, screen := Invalidated(s.pages, s.screen, route))
  }

  function ApplyRemoteTable(cfg: Config, s: State, entries: seq<RouteConfig>): State {
    s.(routes := ClientTable(CompileRoutes(cfg.routes, cfg.isName),
                             CompileRoutes(AsRemote(entries), cfg.isName)))
  }

  function Initial(cfg: Config): State {
    State(StableSort(CompileRoutes(cfg.routes, cfg.isName), Rank), cfg.fallback, "", "", "", "", [],
          History(["/"], 0), map[], Screen(None, false, None, NotFound, map[], [], multiset{}))
  }

  // ---------------------------------------------------------------------------------------------
  // Runs
  // ---------------------------------------------------------------------------------------------

  datatype Event =
    | Start
    | GoTo(target: string)
    | ReplaceWith(target: string)
    | GoBack
    | GoForward
    | Rescope
    | Resume
    | Table(entries: seq<RouteConfig>)
    | Delivery(route: string, qml: string, hash: string, seed: Seed, answer: Answer)
    | Changed(route: string)

  datatype Step = Step(event: Event, env: Env)

  /** A navigation of the visitor's own. */
  predicate Moves(event: Event) {
    event.Start? || event.GoTo? || event.ReplaceWith? || event.GoBack? || event.GoForward?
  }

  ghost function Next(cfg: Config, s: State, step: Step): State {
    var env := step.env;
    match step.event
    case Start => Navigate(cfg, env, s, CurrentEntry(s.history))
    case GoTo(target) => Go(cfg, env, s, target)
    case ReplaceWith(target) => Replace(cfg, env, s, target)
    case GoBack => Back(cfg, env, s)
    case GoForward => Forward(cfg, env, s)
    case Rescope => ScopeChanged(cfg, env, s)
    case Resume => ResumeAfterLogin(cfg, env, s)
    case Table(entries) => ApplyRemoteTable(cfg, s, entries)
    case Delivery(route, qml, hash, seed, answer) => PageDelivered(cfg, env, s, route, qml, hash, seed, answer)
    case Changed(route) => PageChanged(cfg, s, route)
  }

  ghost function Run(cfg: Config, s: State, steps: seq<Step>): State
    decreases |steps|
  {
    if steps == [] then s else Run(cfg, Next(cfg, s, steps[0]), steps[1..])
  }
}
