/**
 The client and the edge together, over one connection that keeps order: the pages a client holds
 against the pages the edge holds.
 */
module PageProtocol {
  import opened Prelude
  import opened RoutePatterns
  import opened RouteTables
  import opened Navigation
  import opened Ownership
  import opened Visits
  import opened EdgePages

  datatype Message =
    | Reply(path: string, response: Response)
    | Push(route: string)

  /** What does not change while the connection lasts. */
  datatype Setting = Setting(cfg: Config, entries: seq<RouteConfig>, declared: seq<string>,
                             hash: string -> string)

  /** The client's unanswered requests are the queue to the edge; `inbox` is the queue back. */
  datatype World = World(client: State, inbox: seq<Message>, edge: map<string, EdgePage>)

  function Table(k: Setting): seq<Route> {
    ClientTable(CompileRoutes(k.cfg.routes, k.cfg.isName), CompileRoutes(AsRemote(k.entries), k.cfg.isName))
  }

  datatype Event =
    | Visitor(step: Step)
    | CallFails(env: Env, path: string) // reported for a path, whatever becomes of its request
    | CallIsLost(env: Env, i: nat)      // the i-th request never reaches the edge, and its call fails
    | Receive(env: Env)
    | Answer(hasScope: string -> bool, seedFor: string -> Seed)
    | Reload(route: string, source: string)

  /** An event that can happen now. An empty source never parses, and a step of the visitor is not
      one of the edge's own messages. */
  ghost predicate Enabled(w: World, e: Event) {
    match e
    case Visitor(step) => !step.event.Table? && !step.event.Delivery? && !step.event.Changed?
    case CallFails(env, path) => !env.parses("")
    case CallIsLost(env, i) => i < |w.client.requests| && !env.parses("")
    case Receive(env) => w.inbox != [] && !env.parses("")
    case Answer(_, _) => w.client.requests != []
    case Reload(route, _) => route in w.edge
  }

  ghost function Receipt(message: Message): Navigation.Event {
    match message
    case Reply(path, r) => Delivery(path, r.qml, r.hash, r.seed, r.answer)
    case Push(route) => Changed(route)
  }

  ghost function Without(requests: seq<Request>, i: nat): seq<Request>
    requires i < |requests|
  {
    requests[..i] + requests[i + 1..]
  }

  /** The caller's report that a call failed. */
  ghost function Failed(k: Setting, env: Env, s: State, path: string): State {
    PageDelivered(k.cfg, env, s, path, "", "", map[], CallFailed)
  }

  ghost function Happen(k: Setting, w: World, e: Event): World
    requires Enabled(w, e)
  {
    match e
    case Visitor(step) => w.(client := Next(k.cfg, w.client, step))
    case CallFails(env, path) => w.(client := Failed(k, env, w.client, path))
    case CallIsLost(env, i) =>
      var lost := w.client.requests[i];
      w.(client := Failed(k, env, w.client.(requests := Without(w.client.requests, i)), lost.path))
    case Receive(env) => w.(client := Next(k.cfg, w.client, Step(Receipt(w.inbox[0]), env)), inbox := w.inbox[1..])
    case Answer(hasScope, seedFor) =>
      var ask := w.client.requests[0];
      var reply := Fetch(k.declared, k.cfg.isName, w.edge, ask.path, ask.haveHash, hasScope, seedFor);
      w.(client := w.client.(requests := w.client.requests[1..]), inbox := w.inbox + [Reply(ask.path, reply)])
    case Reload(route, source) =>
      var page := EdgePage(source, k.hash(source), w.edge[route].scope);
      w.(edge := w.edge[route := page],
         inbox := if page.hash != w.edge[route].hash then w.inbox + [Push(route)] else w.inbox)
  }

  // ---------------------------------------------------------------------------------------------
  // The invariant
  // ---------------------------------------------------------------------------------------------

  /** An announcement for `route` is on its way, behind position `i`. */
  ghost predicate Announced(inbox: seq<Message>, i: int, route: string) {
    exists j :: 0 <= j < |inbox| && i < j && inbox[j] == Push(route)
  }

  /** The edge's content for the route hashes to `hash`, or a change is on its way. */
  ghost predicate Fresh(w: World, i: int, route: string, hash: string) {
    route in w.edge && (w.edge[route].hash == hash || Announced(w.inbox, i, route))
  }

  /** The cached page was built from a source with the cached hash, and is fresh. */
  ghost predicate CoherentPage(k: Setting, w: World, route: string)
    requires route in w.client.pages
  {
    var page := w.client.pages[route];
    && page.component < |w.client.screen.built|
    && w.client.screen.built[page.component].FromSource?
    && k.hash(w.client.screen.built[page.component].source) == page.hash
    && Fresh(w, -1, route, page.hash)
  }

  ghost predicate Coherent(k: Setting, w: World) {
    forall route :: route in w.client.pages ==> CoherentPage(k, w, route)
  }

  /** A path the client can ask the edge for: an address, or the fallback decided again as it is written. */
  ghost predicate Asked(k: Setting, path: string) {
    && k.cfg.hasLoader && Neat(k.cfg, path) && Lookup(Table(k), path).Some?
    && Lookup(Table(k), path).value.config.componentUrl == ""
  }

  /** The route the client keeps the page of an asked path under. */
  ghost function Mine(k: Setting, path: string): string
    requires Asked(k, path)
  {
    Lookup(Table(k), path).value.config.path
  }

  /** The route whose page the edge answers a request with. */
  ghost function Theirs(k: Setting, path: string): Option<string> {
    EdgeMatch(k.declared, k.cfg.isName, SplitQuery(path).0)
  }

  /** No asked path is answered with another route's page. */
  ghost predicate AnsweredAlike(k: Setting) {
    forall path :: Asked(k, path) ==> Theirs(k, path) == None || Theirs(k, path) == Some(Mine(k, path))
  }

  ghost predicate PendingIsAsked(k: Setting, route: string, path: string) {
    (route == "" && path == "") || (Asked(k, path) && route == Mine(k, path))
  }

  /** A request on its way. A change of the page without a path is asked about too, and answered as missing. */
  ghost predicate Wanted(k: Setting, path: string) {
    path == "" || Asked(k, path)
  }

  ghost predicate AllWanted(k: Setting, requests: seq<Request>) {
    forall i :: 0 <= i < |requests| ==> Wanted(k, requests[i].path)
  }

  ghost predicate Asks(k: Setting, s: State) {
    PendingIsAsked(k, s.pendingRoute, s.pendingPath) && AllWanted(k, s.requests)
  }

  ghost predicate ClientInv(k: Setting, s: State) {
    && s.routes == Table(k) && Tidy(k.cfg, s) && Asks(k, s)
    && (!k.cfg.hasLoader ==> s.pages == map[])
  }

  /** A page holds what was read with its hash, or nothing where the file could not be read. */
  ghost predicate EdgeInv(k: Setting, edge: map<string, EdgePage>) {
    && (forall d :: d in k.declared <==> d in edge)
    && (forall r :: r in edge ==>
          edge[r].hash == k.hash(edge[r].source) || (edge[r].source == "" && edge[r].hash == ""))
  }

  /** A reply in flight: it answers something asked, and its page is the one the edge holds for it
      or one whose replacement is announced behind it. */
  ghost predicate GoodReply(k: Setting, w: World, i: int, path: string, r: Response) {
    && (if path == "" then r.answer == Missing
        else Asked(k, path) && (r.answer == Ok ==> Fresh(w, i, Mine(k, path), r.hash)))
    && (r.qml != "" ==> k.hash(r.qml) == r.hash)
    && (r.answer != Ok ==> r.qml == "")
  }

  ghost predicate GoodMessage(k: Setting, w: World, i: int)
    requires 0 <= i < |w.inbox|
  {
    w.inbox[i].Reply? ==> GoodReply(k, w, i, w.inbox[i].path, w.inbox[i].response)
  }

  ghost predicate Inv(k: Setting, w: World) {
    && ClientInv(k, w.client)
    && EdgeInv(k, w.edge)
    && (forall i :: 0 <= i < |w.inbox| ==> GoodMessage(k, w, i))
    && Coherent(k, w)
  }

  // ---------------------------------------------------------------------------------------------
  // Which page a reply is for
  // ---------------------------------------------------------------------------------------------

  lemma TableRoutes(k: Setting)
    ensures forall r :: r in Table(k) ==> Compiled(r, k.cfg.isName)
    ensures forall r :: r in Table(k) && r.config !in k.cfg.routes ==>
              r.config.path !in PathsOf(CompileRoutes(k.cfg.routes, k.cfg.isName))
  {
    var compiled := CompileRoutes(k.cfg.routes, k.cfg.isName);
    var remote := CompileRoutes(AsRemote(k.entries), k.cfg.isName);
    CompileRoutesSpec(k.cfg.routes, k.cfg.isName);
    CompileRoutesSpec(AsRemote(k.entries), k.cfg.isName);
    SortPermutes(MergedRoutes(compiled, remote), Rank);
    forall r | r in Table(k)
      ensures Compiled(r, k.cfg.isName) && (r in compiled || r.config.path !in PathsOf(compiled))
    {
      assert r in multiset(MergedRoutes(compiled, remote));
    }
  }

  lemma FoundInTable(k: Setting, path: string)
    requires Lookup(Table(k), path).Some?
    ensures Lookup(Table(k), path).value in Table(k)
  {
    FirstIsMember(Table(k), RouteMatcher(SplitPath(path).value));
  }

  /** A path spelled like a pattern that some path resolves to resolves to that pattern. */
  lemma PatternPathIsItself(k: Setting, path: string, other: string)
    requires Lookup(Table(k), path).Some? && Lookup(Table(k), other).Some?
    requires Lookup(Table(k), other).value.config.path == path
    ensures Lookup(Table(k), path).value == Lookup(Table(k), other).value
  {
    var merged := MergedRoutes(CompileRoutes(k.cfg.routes, k.cfg.isName),
                               CompileRoutes(AsRemote(k.entries), k.cfg.isName));
    TableRoutes(k);
    FoundInTable(k, path);
    FoundInTable(k, other);
    LookupIsMostLiteralFirstDeclared(merged, path);
    LookupIsMostLiteralFirstDeclared(merged, other);
    var q, r := Lookup(Table(k), path).value, Lookup(Table(k), other).value;
    var i :| 0 <= i < |merged| && merged[i] == q && MostLiteralFirst(merged, path, i);
    var j :| 0 <= j < |merged| && merged[j] == r && MostLiteralFirst(merged, other, j);
    OneFirst(merged, k.cfg.isName, path, other, i, j);
  }

  lemma OneFirst(routes: seq<Route>, isName: string -> bool, path: string, other: string, i: int, j: int)
    requires MostLiteralFirst(routes, path, i) && MostLiteralFirst(routes, other, j)
    requires Compiled(routes[i], isName) && Compiled(routes[j], isName) && routes[j].config.path == path
    ensures i == j
  {
    var q, r := routes[i].pattern, routes[j].pattern;
    PatternTextSegments(path, isName);
    EquallyLiteralPatternsAreOne(q, r, SplitPath(other).value);
    assert MatchesPath(r, path);
  }

  /** A reply that is taken is for the pending route. */
  lemma TakenReplyIsForThePendingRoute(k: Setting, s: State, path: string)
    requires PendingIsAsked(k, s.pendingRoute, s.pendingPath) && Asked(k, path)
    requires path == s.pendingRoute || path == s.pendingPath
    ensures s.pendingRoute == Mine(k, path)
  {
    assert path != "";
    if path == s.pendingRoute {
      PatternPathIsItself(k, path, s.pendingPath);
    }
  }

  // ---------------------------------------------------------------------------------------------
  // Each event keeps the invariant
  // ---------------------------------------------------------------------------------------------

  /** Pages and messages are judged by the edge and the inbox alone. */
  lemma SameMessages(k: Setting, w: World, client: State)
    requires forall i :: 0 <= i < |w.inbox| ==> GoodMessage(k, w, i)
    ensures var t := w.(client := client); forall i :: 0 <= i < |t.inbox| ==> GoodMessage(k, t, i)
  {
    var t := w.(client := client);
    forall i | 0 <= i < |t.inbox| ensures GoodMessage(k, t, i) {
      assert GoodMessage(k, w, i);
    }
  }

  lemma SamePages(k: Setting, w: World, client: State)
    requires Coherent(k, w)
    requires AddsNoPage(w.client, client)
    ensures Coherent(k, w.(client := client))
  {
    forall r | r in client.pages ensures CoherentPage(k, w.(client := client), r) {
      assert CoherentPage(k, w, r);
    }
  }

  /** A navigation asks for the page it resolves to, or for nothing. */
  lemma NavigationAsks(k: Setting, s: State, t: State, path: string)
    requires s.routes == Table(k) && Asks(k, s) && Neat(k.cfg, path) && PendingAfter(k.cfg, s, t, path)
    ensures Asks(k, t)
  {
  }

  lemma MoveAsks(k: Setting, s: State, step: Step)
    requires s.routes == Table(k) && Asks(k, s) && Moves(step.event)
    ensures Asks(k, Next(k.cfg, s, step))
  {
    var path := MoveFrame(k.cfg, s, step);
    var t := Next(k.cfg, s, step);
    if t != s {
      NavigationAsks(k, s, t, path);
    }
  }

  lemma ReResolveAsks(k: Setting, env: Env, s: State)
    requires s.routes == Table(k) && Asks(k, s) && Neat(k.cfg, s.path)
    ensures Asks(k, ReResolve(k.cfg, env, s))
  {
    ReResolveFrame(k.cfg, env, s);
    NavigationAsks(k, Dropped(k.cfg, s), ReResolve(k.cfg, env, s), s.path);
  }

  lemma ResumeAsks(k: Setting, env: Env, s: State)
    requires s.routes == Table(k) && Asks(k, s)
    ensures Asks(k, ResumeAfterLogin(k.cfg, env, s))
  {
    ResumeFrame(k.cfg, env, s);
    var t, taken := ResumeAfterLogin(k.cfg, env, s), s.(remembered := "");
    if t != taken {
      NavigationAsks(k, taken, t, SplitQuery(s.remembered).0);
    }
  }

  /** No page in the cache that was not there before. */
  ghost predicate AddsNoPage(s: State, t: State) {
    && s.screen.built <= t.screen.built
    && forall r :: r in t.pages ==> r in s.pages && t.pages[r] == s.pages[r]
  }

  lemma VisitorAsks(k: Setting, s: State, step: Step)
    requires ClientInv(k, s) && !step.event.Table? && !step.event.Delivery? && !step.event.Changed?
    ensures Asks(k, Next(k.cfg, s, step))
  {
    if Moves(step.event) {
      MoveAsks(k, s, step);
    } else if step.event.Rescope? {
      ReResolveAsks(k, step.env, s);
      ReResolveFrame(k.cfg, step.env, s);
      ResumeAsks(k, step.env, ReResolve(k.cfg, step.env, s));
    } else {
      ResumeAsks(k, step.env, s);
    }
  }

  lemma VisitorAddsNoPage(cfg: Config, s: State, step: Step)
    requires !step.event.Table? && !step.event.Delivery? && !step.event.Changed?
    ensures AddsNoPage(s, Next(cfg, s, step))
  {
    if Moves(step.event) {
      MoveKeepsPages(cfg, s, step);
    } else if step.event.Rescope? {
      ReResolveFrame(cfg, step.env, s);
      ResumeFrame(cfg, step.env, ReResolve(cfg, step.env, s));
    } else {
      ResumeFrame(cfg, step.env, s);
    }
  }

  lemma VisitorKeeps(k: Setting, w: World, step: Step)
    requires Inv(k, w) && Enabled(w, Visitor(step))
    ensures Inv(k, Happen(k, w, Visitor(step)))
  {
    var client := Next(k.cfg, w.client, step);
    VisitorAsks(k, w.client, step);
    VisitorAddsNoPage(k.cfg, w.client, step);
    RoutesStay(k.cfg, w.client, step);
    StepStaysTidy(k.cfg, w.client, step);
    SameMessages(k, w, client);
    SamePages(k, w, client);
  }

  lemma CallFailsKeeps(k: Setting, w: World, env: Env, path: string)
    requires Inv(k, w) && !env.parses("")
    ensures Inv(k, w.(client := Failed(k, env, w.client, path)))
  {
    var client := Failed(k, env, w.client, path);
    DeliveryFrame(k.cfg, env, w.client, path, "", "", map[], CallFailed);
    SameMessages(k, w, client);
    SamePages(k, w, client);
  }

  lemma CallIsLostKeeps(k: Setting, w: World, env: Env, i: nat)
    requires Inv(k, w) && !env.parses("") && i < |w.client.requests|
    ensures Inv(k, Happen(k, w, CallIsLost(env, i)))
  {
    var client := w.client.(requests := Without(w.client.requests, i));
    SameMessages(k, w, client);
    SamePages(k, w, client);
    CallFailsKeeps(k, w.(client := client), env, w.client.requests[i].path);
  }

  /** The head of the inbox is gone; what lay behind it still lies behind what it lay behind. */
  lemma HeadGone(k: Setting, w: World)
    requires w.inbox != [] && forall i :: 0 <= i < |w.inbox| ==> GoodMessage(k, w, i)
    ensures var t := w.(inbox := w.inbox[1..]); forall i :: 0 <= i < |t.inbox| ==> GoodMessage(k, t, i)
  {
    var t := w.(inbox := w.inbox[1..]);
    forall i | 0 <= i < |t.inbox| ensures GoodMessage(k, t, i) {
      assert GoodMessage(k, w, i + 1) && t.inbox[i] == w.inbox[i + 1];
      if t.inbox[i].Reply? && t.inbox[i].path != "" {
        var route := Mine(k, t.inbox[i].path);
        if Announced(w.inbox, i + 1, route) {
          var j :| 0 <= j < |w.inbox| && i + 1 < j && w.inbox[j] == Push(route);
          assert t.inbox[j - 1] == Push(route);
        }
      }
    }
  }

  /** Dropping a head that announces nothing for the route loses no announcement for it. */
  lemma StillAnnounced(w: World, i: int, route: string)
    requires w.inbox != [] && (i == 0 || w.inbox[0] != Push(route)) && -1 <= i <= 0 && Announced(w.inbox, i, route)
    ensures Announced(w.inbox[1..], -1, route)
  {
    var j :| 0 <= j < |w.inbox| && i < j && w.inbox[j] == Push(route);
    assert w.inbox[1..][j - 1] == Push(route);
  }

  /** A page just taken is the edge's, or one whose replacement is announced behind the reply. */
  lemma TakenPageIsFresh(k: Setting, w: World, route: string)
    requires PendingIsAsked(k, w.client.pendingRoute, w.client.pendingPath) && w.inbox != [] && w.inbox[0].Reply?
    requires GoodMessage(k, w, 0) && w.inbox[0].response.answer == Ok && route == w.client.pendingRoute
    requires w.inbox[0].path == w.client.pendingRoute || w.inbox[0].path == w.client.pendingPath
    ensures Fresh(w.(inbox := w.inbox[1..]), -1, route, w.inbox[0].response.hash)
  {
    TakenReplyIsForThePendingRoute(k, w.client, w.inbox[0].path);
    if Announced(w.inbox, 0, route) {
      StillAnnounced(w, 0, route);
    }
  }

  lemma ReplyKeeps(k: Setting, w: World, env: Env)
    requires Inv(k, w) && w.inbox != [] && !env.parses("") && w.inbox[0].Reply?
    ensures Inv(k, Happen(k, w, Receive(env)))
  {
    var Reply(path, r) := w.inbox[0];
    var t := PageDelivered(k.cfg, env, w.client, path, r.qml, r.hash, r.seed, r.answer);
    var after := w.(client := t, inbox := w.inbox[1..]);
    assert after == Happen(k, w, Receive(env));
    DeliveryFrame(k.cfg, env, w.client, path, r.qml, r.hash, r.seed, r.answer);
    HeadGone(k, w);
    SameMessages(k, w.(inbox := w.inbox[1..]), t);
    forall route | route in t.pages ensures CoherentPage(k, after, route) {
      TakenPageIsCoherent(k, w, env, t, route);
    }
  }

  /** A page the client holds after a reply: the one just taken, or one it held before. */
  lemma TakenPageIsCoherent(k: Setting, w: World, env: Env, t: State, route: string)
    requires Inv(k, w) && w.inbox != [] && !env.parses("") && w.inbox[0].Reply? && route in t.pages
    requires var Reply(path, r) := w.inbox[0];
             && TookAtMost(env, w.client.pages, w.client.screen, t.pages, t.screen, w.client.pendingRoute,
                           r.qml, r.hash)
             && (t.pages != w.client.pages ==> Considered(k.cfg, w.client, path, r.answer))
    ensures CoherentPage(k, w.(client := t, inbox := w.inbox[1..]), route)
  {
    var s, r := w.client, w.inbox[0].response;
    assert GoodMessage(k, w, 0);
    if t.pages != s.pages && route == s.pendingRoute {
      assert t.pages[route] == Page(r.hash, |s.screen.built|) && r.qml != "";
      TakenPageIsFresh(k, w, route);
    } else {
      assert CoherentPage(k, w, route);
      if Announced(w.inbox, -1, route) {
        StillAnnounced(w, -1, route);
      }
    }
  }

  /** After an announcement the client holds its route no longer, and asks only for what it shows. */
  lemma PushKeepsClient(k: Setting, s: State, route: string)
    requires ClientInv(k, s)
    ensures var t := PageChanged(k.cfg, s, route); ClientInv(k, t) && AddsNoPage(s, t) && route !in t.pages
  {
    ChangeFrame(k.cfg, s, route);
  }

  lemma PushKeeps(k: Setting, w: World, env: Env)
    requires Inv(k, w) && w.inbox != [] && w.inbox[0].Push? && !env.parses("")
    ensures Inv(k, Happen(k, w, Receive(env)))
  {
    var pushed := w.inbox[0].route;
    var t := PageChanged(k.cfg, w.client, pushed);
    PushKeepsClient(k, w.client, pushed);
    HeadGone(k, w);
    var after := Happen(k, w, Receive(env));
    assert after == w.(client := t, inbox := w.inbox[1..]);
    SameMessages(k, w.(inbox := w.inbox[1..]), t);
    forall route | route in t.pages ensures CoherentPage(k, after, route) {
      assert CoherentPage(k, w, route);
      if Announced(w.inbox, -1, route) {
        StillAnnounced(w, -1, route);
      }
    }
  }

  /** The edge's answer to a request is good where it stands, at the end of the queue. */
  lemma AnswerIsGood(k: Setting, w: World, i: int, ask: Request, hasScope: string -> bool, seedFor: string -> Seed)
    requires AnsweredAlike(k) && EdgeInv(k, w.edge) && Wanted(k, ask.path)
    ensures GoodReply(k, w, i, ask.path,
                      Fetch(k.declared, k.cfg.isName, w.edge, ask.path, ask.haveHash, hasScope, seedFor))
  {
    if ask.path != "" && Theirs(k, ask.path).Some? {
      TheirsIsDeclared(k, ask.path);
      var route := Theirs(k, ask.path).value;
      GrantedIsGood(k, w, i, ask.path, w.edge[route], ask.haveHash, seedFor(route));
    }
  }

  lemma GrantedIsGood(k: Setting, w: World, i: int, path: string, page: EdgePage, haveHash: string, seed: Seed)
    requires Asked(k, path) && Mine(k, path) in w.edge && w.edge[Mine(k, path)] == page
    requires page.hash == k.hash(page.source) || page.source == ""
    ensures GoodReply(k, w, i, path, Granted(page, haveHash, seed))
  {
  }

  lemma TheirsIsDeclared(k: Setting, path: string)
    requires Theirs(k, path).Some?
    ensures Theirs(k, path).value in k.declared
  {
    EdgeMatchIsMostLiteralFirstDeclared(k.declared, k.cfg.isName, SplitQuery(path).0);
  }

  lemma AnswerKeeps(k: Setting, w: World, hasScope: string -> bool, seedFor: string -> Seed)
    requires AnsweredAlike(k) && Inv(k, w) && w.client.requests != []
    ensures Inv(k, Happen(k, w, Answer(hasScope, seedFor)))
  {
    var after := Happen(k, w, Answer(hasScope, seedFor));
    var ask := w.client.requests[0];
    AnswerIsGood(k, after, |w.inbox|, ask, hasScope, seedFor);
    forall i | 0 <= i < |after.inbox| ensures GoodMessage(k, after, i) {
      if i < |w.inbox| {
        assert GoodMessage(k, w, i);
        MoreAnnounced(w.inbox, after.inbox, i);
      }
    }
    MoreAnnounced(w.inbox, after.inbox, -1);
    forall route | route in after.client.pages ensures CoherentPage(k, after, route) {
      assert CoherentPage(k, w, route);
    }
  }

  /** Messages appended behind take no announcement away. */
  lemma MoreAnnounced(inbox: seq<Message>, longer: seq<Message>, i: int)
    requires inbox <= longer && -1 <= i
    ensures forall route :: Announced(inbox, i, route) ==> Announced(longer, i, route)
  {
    forall route | Announced(inbox, i, route) ensures Announced(longer, i, route) {
      var j :| 0 <= j < |inbox| && i < j && inbox[j] == Push(route);
      assert longer[j] == Push(route);
    }
  }

  lemma ReloadKeeps(k: Setting, w: World, route: string, source: string)
    requires Inv(k, w) && route in w.edge
    ensures Inv(k, Happen(k, w, Reload(route, source)))
  {
    var after := Happen(k, w, Reload(route, source));
    if after.inbox != w.inbox {
      assert after.inbox[|w.inbox|] == Push(route);
    }
    forall i | 0 <= i < |after.inbox| ensures GoodMessage(k, after, i) {
      if i < |w.inbox| {
        assert GoodMessage(k, w, i);
        MoreAnnounced(w.inbox, after.inbox, i);
      }
    }
    MoreAnnounced(w.inbox, after.inbox, -1);
    forall r | r in after.client.pages ensures CoherentPage(k, after, r) {
      assert CoherentPage(k, w, r);
    }
  }

  lemma EventKeeps(k: Setting, w: World, e: Event)
    requires AnsweredAlike(k) && Inv(k, w) && Enabled(w, e)
    ensures Inv(k, Happen(k, w, e))
  {
    match e
    case Visitor(step) => VisitorKeeps(k, w, step);
    case CallFails(env, path) => CallFailsKeeps(k, w, env, path);
    case CallIsLost(env, i) => CallIsLostKeeps(k, w, env, i);
    case Receive(env) => if w.inbox[0].Reply? { ReplyKeeps(k, w, env); } else { PushKeeps(k, w, env); }
    case Answer(hasScope, seedFor) => AnswerKeeps(k, w, hasScope, seedFor);
    case Reload(route, source) => ReloadKeeps(k, w, route, source);
  }

  /** A connection just opened: an empty loader and the edge's table in place, and nothing on its way from the
      edge. The visitor may have navigated before. */
  ghost predicate Opened(k: Setting, w: World) {
    ClientInv(k, w.client) && w.client.pages == map[] && w.inbox == [] && EdgeInv(k, w.edge)
  }

  /** The first connection of a launch. */
  ghost predicate Launched(k: Setting, w: World) {
    && w.client == ApplyRemoteTable(k.cfg, Initial(k.cfg), k.entries)
    && w.inbox == [] && EdgeInv(k, w.edge)
  }

  lemma LaunchedIsOpened(k: Setting, w: World)
    requires Launched(k, w)
    ensures Opened(k, w)
  {
  }

  /** The world after a run, or nothing for a run with an event that could not happen. */
  ghost function RunWorld(k: Setting, w: World, events: seq<Event>): Option<World>
    decreases |events|
  {
    if events == [] then Some(w)
    else if !Enabled(w, events[0]) then None
    else RunWorld(k, Happen(k, w, events[0]), events[1..])
  }

  lemma {:induction false} RunKeeps(k: Setting, w: World, events: seq<Event>)
    requires AnsweredAlike(k) && Inv(k, w)
    ensures RunWorld(k, w, events).Some? ==> Inv(k, RunWorld(k, w, events).value)
    decreases |events|
  {
    if events != [] && Enabled(w, events[0]) {
      EventKeeps(k, w, events[0]);
      RunKeeps(k, Happen(k, w, events[0]), events[1..]);
    }
  }

  /** Over every run of one connection, through navigations, sign-ins, hot reloads, unchanged and
      stale replies and failed calls, where no asked path is answered with another route's page: every
      cached page was built from a source with the cached hash, and that hash is the edge's current one
      or a change for the route is on its way; so with nothing on its way, the cache agrees with the edge. */
  lemma CacheStaysCoherent(k: Setting, w: World, events: seq<Event>)
    requires AnsweredAlike(k) && Opened(k, w)
    requires RunWorld(k, w, events).Some?
    ensures var t := RunWorld(k, w, events).value;
            && Coherent(k, t)
            && (t.inbox == [] ==> forall route :: route in t.client.pages ==>
                  route in t.edge && t.client.pages[route].hash == t.edge[route].hash)
  {
    RunKeeps(k, w, events);
    var t := RunWorld(k, w, events).value;
    forall route | route in t.client.pages && t.inbox == []
      ensures route in t.edge && t.client.pages[route].hash == t.edge[route].hash
    {
      assert CoherentPage(k, t, route);
    }
  }

  // ---------------------------------------------------------------------------------------------
  // A page that is waited for
  // ---------------------------------------------------------------------------------------------

  /** A request for the path, or a reply to one, is on its way. */
  ghost predicate InFlight(w: World, path: string) {
    || (exists i :: 0 <= i < |w.client.requests| && w.client.requests[i].path == path)
    || (exists i :: 0 <= i < |w.inbox| && w.inbox[i].Reply? && w.inbox[i].path == path)
  }

  ghost predicate Waiting(s: State) {
    s.pendingRoute != "" && s.screen.status == Loading
  }

  /** A page that shows as loading is on its way. */
  ghost predicate Awaits(w: World) {
    Waiting(w.client) ==> InFlight(w, w.client.pendingPath)
  }

  /** Nothing is pending, or the page pending was the last one asked for. */
  ghost predicate JustAsked(s: State) {
    s.pendingRoute == "" || (s.requests != [] && s.requests[|s.requests| - 1].path == s.pendingPath)
  }

  ghost predicate WaitsAsBefore(s: State, t: State) {
    && t.pendingRoute == s.pendingRoute && t.pendingPath == s.pendingPath
    && t.requests == s.requests && t.screen.status == s.screen.status
  }

  lemma ResumeWaits(cfg: Config, env: Env, s: State)
    ensures var t := ResumeAfterLogin(cfg, env, s); JustAsked(t) || WaitsAsBefore(s, t)
  {
    ResumeFrame(cfg, env, s);
  }

  lemma VisitorWaits(cfg: Config, s: State, step: Step)
    requires !step.event.Table? && !step.event.Delivery? && !step.event.Changed?
    ensures var t := Next(cfg, s, step); JustAsked(t) || WaitsAsBefore(s, t)
  {
    if Moves(step.event) {
      var _ := MoveFrame(cfg, s, step);
    } else if step.event.Rescope? {
      ReResolveFrame(cfg, step.env, s);
      ResumeWaits(cfg, step.env, ReResolve(cfg, step.env, s));
    } else {
      ResumeWaits(cfg, step.env, s);
    }
  }

  /** A reply for what is pending ends the wait, whatever it says; any other leaves the page as it was. */
  lemma DeliveryEndsTheWait(cfg: Config, env: Env, s: State, path: string, qml: string, hash: string, seed: Seed,
                            answer: Navigation.Answer)
    ensures var t := PageDelivered(cfg, env, s, path, qml, hash, seed, answer);
            && t.pendingRoute == s.pendingRoute && t.pendingPath == s.pendingPath && t.requests == s.requests
            && (path == s.pendingPath ==> !Waiting(t))
            && (Waiting(t) ==> Waiting(s))
  {
    DeliveryFrame(cfg, env, s, path, qml, hash, seed, answer);
    if path == s.pendingPath || path == s.pendingRoute {
      if answer == Refused {
        ComponentFrame(s.screen, None, Forbidden, false);
      } else if answer == Missing {
        ComponentFrame(s.screen, None, NotFound, false);
      } else if !cfg.hasLoader {
        ComponentFrame(s.screen, None, Error, false);
      } else {
        TakenIsDecided(env, s.pages, s.screen, s.pendingRoute, qml, hash, seed);
      }
    }
  }

  lemma TakenIsDecided(env: Env, pages: Pages, v: Screen, route: string, qml: string, hash: string, seed: Seed)
    ensures Taken(env, pages, v, route, qml, hash, seed).1.status != Loading
  {
    var (after, w) := Deliver(env, pages, v, route, qml, hash);
    ComponentFrame(w, None, Error, false);
    ComponentFrame(w.(seed := seed), ComponentFor(after, route), Ready, true);
  }

  lemma ChangeWaits(cfg: Config, s: State, route: string)
    ensures var t := PageChanged(cfg, s, route); JustAsked(t) || WaitsAsBefore(s, t)
  {
  }

  /** What waits after a step of the client's own waits for something on its way. */
  lemma ClientAwaits(w: World, client: State)
    requires Awaits(w) && (JustAsked(client) || WaitsAsBefore(w.client, client))
    ensures Awaits(w.(client := client))
  {
  }

  lemma FailureAwaits(k: Setting, w: World, env: Env, path: string)
    requires Waiting(w.client) && w.client.pendingPath != path ==> InFlight(w, w.client.pendingPath)
    ensures Awaits(w.(client := Failed(k, env, w.client, path)))
  {
    DeliveryEndsTheWait(k.cfg, env, w.client, path, "", "", map[], CallFailed);
  }

  lemma LossAwaits(k: Setting, w: World, env: Env, i: nat)
    requires Awaits(w) && i < |w.client.requests|
    ensures Awaits(w.(client := Failed(k, env, w.client.(requests := Without(w.client.requests, i)),
                                       w.client.requests[i].path)))
  {
    var rest := Without(w.client.requests, i);
    var left := w.(client := w.client.(requests := rest));
    var path := w.client.pendingPath;
    if Waiting(w.client) && path != w.client.requests[i].path {
      if j :| 0 <= j < |w.client.requests| && w.client.requests[j].path == path {
        assert rest[if j < i then j else j - 1].path == path;
      }
    }
    FailureAwaits(k, left, env, w.client.requests[i].path);
  }

  lemma ReceiptAwaits(k: Setting, w: World, env: Env)
    requires Awaits(w) && w.inbox != [] && !env.parses("")
    ensures Awaits(Happen(k, w, Receive(env)))
  {
    var t := Happen(k, w, Receive(env));
    match w.inbox[0] {
      case Reply(path, r) =>
        DeliveryEndsTheWait(k.cfg, env, w.client, path, r.qml, r.hash, r.seed, r.answer);
        RestInFlight(w, t);
      case Push(route) =>
        ChangeWaits(k.cfg, w.client, route);
        RestInFlight(w, t);
    }
  }

  /** What was on its way still is, but for the message taken. */
  lemma RestInFlight(w: World, t: World)
    requires w.inbox != [] && t.inbox == w.inbox[1..] && w.client.requests <= t.client.requests
    ensures forall path :: InFlight(w, path) && !(w.inbox[0].Reply? && w.inbox[0].path == path) ==> InFlight(t, path)
  {
  }

  lemma AnswerAwaits(k: Setting, w: World, hasScope: string -> bool, seedFor: string -> Seed)
    requires Awaits(w) && w.client.requests != []
    ensures Awaits(Happen(k, w, Answer(hasScope, seedFor)))
  {
    var t := Happen(k, w, Answer(hasScope, seedFor));
    var path := w.client.pendingPath;
    if i :| 0 <= i < |w.client.requests| && w.client.requests[i].path == path {
      if i == 0 {
        assert t.inbox[|w.inbox|].path == path;
      } else {
        assert t.client.requests[i - 1].path == path;
      }
    } else if i :| 0 <= i < |w.inbox| && w.inbox[i].Reply? && w.inbox[i].path == path {
      assert t.inbox[i] == w.inbox[i];
    }
  }

  lemma EventAwaits(k: Setting, w: World, e: Event)
    requires Awaits(w) && Enabled(w, e)
    ensures Awaits(Happen(k, w, e))
  {
    match e
    case Visitor(step) =>
      VisitorWaits(k.cfg, w.client, step);
      ClientAwaits(w, Next(k.cfg, w.client, step));
    case CallFails(env, path) => FailureAwaits(k, w, env, path);
    case CallIsLost(env, i) => LossAwaits(k, w, env, i);
    case Receive(env) => ReceiptAwaits(k, w, env);
    case Answer(hasScope, seedFor) => AnswerAwaits(k, w, hasScope, seedFor);
    case Reload(route, source) => ReloadAwaits(k, w, route, source);
  }

  lemma ReloadAwaits(k: Setting, w: World, route: string, source: string)
    requires Awaits(w) && route in w.edge
    ensures Awaits(Happen(k, w, Reload(route, source)))
  {
    var t := Happen(k, w, Reload(route, source));
    assert w.inbox <= t.inbox;
    if i :| 0 <= i < |w.inbox| && w.inbox[i].Reply? && w.inbox[i].path == w.client.pendingPath {
      assert t.inbox[i] == w.inbox[i];
    }
  }

  /** No page is left loading, in any run on any tables: while one shows as loading its request or a reply to it
      is on its way, and a request that fails ends the wait; so with nothing on its way nothing is loading. */
  lemma {:induction false} NeverLeftLoading(k: Setting, w: World, events: seq<Event>)
    requires Awaits(w) && RunWorld(k, w, events).Some?
    ensures var t := RunWorld(k, w, events).value;
            && Awaits(t)
            && (t.client.requests == [] && t.inbox == [] && t.client.pendingRoute != "" ==>
                  t.client.screen.status != Loading)
    decreases |events|
  {
    if events != [] {
      EventAwaits(k, w, events[0]);
      NeverLeftLoading(k, Happen(k, w, events[0]), events[1..]);
    }
  }

  // ---------------------------------------------------------------------------------------------
  // Where the two sides part
  // ---------------------------------------------------------------------------------------------

  /** Ask for `path` on a connection just opened, and take the answer. */
  ghost function AskingRun(path: string): seq<Event> {
    var step := if '?' in path then Rescope else GoTo(path);
    [Visitor(Step(step, Lenient())), Answer((scope: string) => true, (route: string) => map[]), Receive(Lenient())]
  }

  /** A first request: nothing is held, and the page asked for is the one pending. */
  ghost predicate Waits(k: Setting, s: State, path: string) {
    s.requests == [Request(path, "")] && Pends(k, s, path)
  }

  ghost predicate Pends(k: Setting, s: State, path: string) {
    Asked(k, path) && s.pages == map[] && s.pendingPath == path && s.pendingRoute == Mine(k, path)
  }

  lemma ResolveWaits(k: Setting, s: State, path: string)
    requires Asked(k, path) && s.routes == Table(k) && s.requests == [] && s.pages == map[]
    ensures Waits(k, Resolve(k.cfg, Lenient(), s, path), path)
    ensures Resolve(k.cfg, Lenient(), s, path).path == path
    ensures Resolve(k.cfg, Lenient(), s, path).remembered == s.remembered
  {
    assert Remote(k.cfg, Lenient(), Lookup(Table(k), path).value.config);
  }

  lemma FirstAsk(k: Setting, w: World, path: string)
    requires Launched(k, w) && Asked(k, path)
    ensures Waits(k, Happen(k, w, AskingRun(path)[0]).client, path)
  {
    if '?' in path {
      DecidedAgainWaits(k, w.client, path);
    } else {
      GoWaits(k, w.client, path);
    }
  }

  lemma GoWaits(k: Setting, s: State, path: string)
    requires Asked(k, path) && s.routes == Table(k) && s.requests == [] && s.pages == map[] && '?' !in path
    ensures Waits(k, Go(k.cfg, Lenient(), s, path), path)
  {
    ResolveWaits(k, s.(query := ""), path);
  }

  lemma DecidedAgainWaits(k: Setting, s: State, path: string)
    requires Asked(k, path) && s.routes == Table(k) && s.requests == [] && s.pages == map[]
    requires s.path == path && s.remembered == ""
    ensures Waits(k, ScopeChanged(k.cfg, Lenient(), s), path)
  {
    ResolveWaits(k, Dropped(k.cfg, s), path);
    var t := ReResolve(k.cfg, Lenient(), s);
    assert Lookup(t.routes, SplitQuery(t.remembered).0) == None;
    assert ScopeChanged(k.cfg, Lenient(), s) == t.(remembered := "");
  }

  /** The first page taken is kept under the client's route with the hash of the edge's. */
  lemma FirstTaken(k: Setting, s: State, path: string, page: EdgePage)
    requires Pends(k, s, path) && page.source != ""
    ensures var t := PageDelivered(k.cfg, Lenient(), s, path, page.source, page.hash, map[], Ok);
            && t.pages == map[Mine(k, path) := Page(page.hash, |s.screen.built|)]
            && t.screen.built == s.screen.built + [FromSource(page.source)]
  {
  }

  lemma ReplyIsDelivered(k: Setting, w: World, env: Env, path: string, r: Response)
    requires w.inbox != [] && w.inbox[0] == Reply(path, r) && !env.parses("")
    ensures Happen(k, w, Receive(env)) ==
            w.(client := PageDelivered(k.cfg, env, w.client, path, r.qml, r.hash, r.seed, r.answer),
               inbox := w.inbox[1..])
  {
  }

  lemma FirstReceived(k: Setting, w: World, path: string, page: EdgePage)
    requires Pends(k, w.client, path) && page.source != ""
    requires w.inbox == [Reply(path, Response(Ok, page.source, page.hash, map[]))]
    ensures var t := Happen(k, w, Receive(Lenient()));
            && t.inbox == [] && t.edge == w.edge
            && t.client.pages == map[Mine(k, path) := Page(page.hash, |w.client.screen.built|)]
            && t.client.screen.built == w.client.screen.built + [FromSource(page.source)]
  {
    FirstTaken(k, w.client, path, page);
    ReplyIsDelivered(k, w, Lenient(), path, Response(Ok, page.source, page.hash, map[]));
  }

  /** Asked, answered and received. */
  lemma FirstRound(k: Setting, w: World, path: string, page: EdgePage) returns (t: World, built: seq<Origin>)
    requires Launched(k, w) && Asked(k, path) && Theirs(k, path).Some? && page.source != ""
    requires Theirs(k, path).value in w.edge && w.edge[Theirs(k, path).value] == page
    ensures RunWorld(k, w, AskingRun(path)) == Some(t)
    ensures t.inbox == [] && t.edge == w.edge && t.client.pages == map[Mine(k, path) := Page(page.hash, |built|)]
    ensures t.client.screen.built == built + [FromSource(page.source)]
  {
    var run := AskingRun(path);
    FirstAsk(k, w, path);
    var w1 := Happen(k, w, run[0]);
    FirstAnswer(k, w1, path, page);
    var w2 := Happen(k, w1, run[1]);
    FirstReceived(k, w2, path, page);
    ThreeEvents(k, w, run);
    t, built := Happen(k, w2, run[2]), w2.client.screen.built;
  }

  /** From the first connection of any launch the page answered for an asked path is kept, and the cache is coherent
      exactly when the edge holds one page under both sides' routes. */
  lemma AnotherPageIsKept(k: Setting, w: World, path: string)
    requires Launched(k, w) && Asked(k, path) && Theirs(k, path).Some?
    requires Theirs(k, path).value in w.edge && w.edge[Theirs(k, path).value].source != ""
    ensures RunWorld(k, w, AskingRun(path)).Some?
    ensures var theirs, t := w.edge[Theirs(k, path).value], RunWorld(k, w, AskingRun(path)).value;
            && t.inbox == [] && t.edge == w.edge && t.client.pages.Keys == {Mine(k, path)}
            && t.client.pages[Mine(k, path)].hash == theirs.hash
            && (Coherent(k, t) <==> Mine(k, path) in w.edge && w.edge[Mine(k, path)].hash == theirs.hash)
  {
    var page := w.edge[Theirs(k, path).value];
    var t, built := FirstRound(k, w, path, page);
    OneEntry(k, t, built, Mine(k, path), page);
  }

  lemma FirstAnswer(k: Setting, w: World, path: string, page: EdgePage)
    requires Waits(k, w.client, path) && w.inbox == []
    requires Theirs(k, path).Some? && Theirs(k, path).value in w.edge && w.edge[Theirs(k, path).value] == page
    ensures var t := Happen(k, w, AskingRun(path)[1]);
            && t.inbox == [Reply(path, Response(Ok, page.source, page.hash, map[]))]
            && t.edge == w.edge && t.client == w.client.(requests := [])
  {
  }

  lemma ThreeEvents(k: Setting, w: World, run: seq<Event>)
    requires |run| == 3 && Enabled(w, run[0])
    requires Enabled(Happen(k, w, run[0]), run[1])
    requires Enabled(Happen(k, Happen(k, w, run[0]), run[1]), run[2])
    ensures RunWorld(k, w, run) == Some(Happen(k, Happen(k, Happen(k, w, run[0]), run[1]), run[2]))
  {
    var w1 := Happen(k, w, run[0]);
    var w2 := Happen(k, w1, run[1]);
    assert run[1..][1..] == [run[2]] && [run[2]][1..] == [];
    assert RunWorld(k, w2, [run[2]]) == Some(Happen(k, w2, run[2]));
  }

  lemma OneEntry(k: Setting, w: World, built: seq<Origin>, mine: string, page: EdgePage)
    requires w.inbox == [] && k.hash(page.source) == page.hash
    requires w.client.pages == map[mine := Page(page.hash, |built|)]
    requires w.client.screen.built == built + [FromSource(page.source)]
    ensures Coherent(k, w) <==> mine in w.edge && w.edge[mine].hash == page.hash
  {
    assert mine in w.client.pages;
    assert CoherentPage(k, w, mine) <==> mine in w.edge && w.edge[mine].hash == page.hash;
  }

  /** Every run from every opening of the connection keeps the cache coherent. */
  ghost predicate StaysCoherent(k: Setting) {
    forall w, events :: Opened(k, w) && RunWorld(k, w, events).Some? ==> Coherent(k, RunWorld(k, w, events).value)
  }

  /** An edge that can read one page only. */
  ghost function OnePage(k: Setting, route: string): map<string, EdgePage> {
    map d | d in k.declared :: if d == route then EdgePage("x", k.hash("x"), "") else EdgePage("", "", "")
  }

  lemma AnotherAnswerParts(k: Setting, path: string)
    requires Asked(k, path) && Theirs(k, path).Some? && Theirs(k, path) != Some(Mine(k, path))
    requires k.hash("x") != ""
    ensures !StaysCoherent(k)
  {
    TheirsIsDeclared(k, path);
    var w := World(ApplyRemoteTable(k.cfg, Initial(k.cfg), k.entries), [], OnePage(k, Theirs(k, path).value));
    LaunchedIsOpened(k, w);
    AnotherPageIsKept(k, w, path);
  }

  /** The cache stays coherent in every run exactly when no asked path is answered with another route's page.
      A page that was read has a hash. */
  lemma CoherentExactlyWhenAnsweredAlike(k: Setting)
    requires k.hash("x") != ""
    ensures StaysCoherent(k) <==> AnsweredAlike(k)
  {
    if AnsweredAlike(k) {
      forall w, events | Opened(k, w) && RunWorld(k, w, events).Some?
        ensures Coherent(k, RunWorld(k, w, events).value)
      {
        CacheStaysCoherent(k, w, events);
      }
    } else {
      var path :| Asked(k, path) && !(Theirs(k, path) == None || Theirs(k, path) == Some(Mine(k, path)));
      AnotherAnswerParts(k, path);
    }
  }

  /** The edge does not part from the client on a path: it declares the route with no equally literal match before
      it, or it does not declare it and no declared pattern matches. */
  ghost predicate Unparted(k: Setting, path: string, route: string) {
    if route in k.declared then NothingTiedBefore(k.declared, k.cfg.isName, path, route)
    else forall d :: d in k.declared ==> !MatchesPath(Compile(d, k.cfg.isName), path)
  }

  /** No path the bundle claims without a view of its own is one the edge parts on. */
  ghost predicate OwnClaimsComeFirst(k: Setting) {
    forall path :: Asked(k, path) && Mine(k, path) in PathsOf(CompileRoutes(k.cfg.routes, k.cfg.isName)) ==>
      Unparted(k, path, Mine(k, path))
  }

  lemma OnePathAnsweredAlike(k: Setting, path: string)
    requires Publishes(k.entries, k.declared) && '?' !in k.cfg.fallback && Asked(k, path)
    ensures Theirs(k, path) == None || Theirs(k, path) == Some(Mine(k, path)) <==> Unparted(k, path, Mine(k, path))
    ensures Mine(k, path) !in PathsOf(CompileRoutes(k.cfg.routes, k.cfg.isName)) ==>
              Theirs(k, path) == Some(Mine(k, path))
  {
    var mine := Lookup(Table(k), path).value;
    NothingDeclaredOutranks(k.cfg.routes, k.entries, k.declared, k.cfg.isName, path, mine);
    ClientAndEdgeAgree(k.cfg.routes, k.entries, k.declared, k.cfg.isName, path);
    AnsweredOrUnmatched(k, path, Mine(k, path));
  }

  lemma AnsweredOrUnmatched(k: Setting, path: string, route: string)
    requires '?' !in path && MatchesPath(Compile(route, k.cfg.isName), path)
    ensures route in k.declared ==> Theirs(k, path).Some?
    ensures route !in k.declared ==> Theirs(k, path) != Some(route)
    ensures Theirs(k, path) == None <==> forall d :: d in k.declared ==> !MatchesPath(Compile(d, k.cfg.isName), path)
  {
    EdgeMissesExactly(k.declared, k.cfg.isName, path);
    EdgeMatchIsMostLiteralFirstDeclared(k.declared, k.cfg.isName, path);
  }

  /** With an edge that publishes what it declares and a fallback without a query, only a route of the bundle's
      own without a view can be answered with another's page, and only if it is not declared or an equally
      literal one stands before it; ties among the edge's own do no harm. */
  lemma PublishedTablesAnswerAlike(k: Setting)
    requires Publishes(k.entries, k.declared) && '?' !in k.cfg.fallback
    ensures AnsweredAlike(k) <==> OwnClaimsComeFirst(k)
    ensures (forall c :: c in k.cfg.routes ==> c.componentUrl != "") ==> AnsweredAlike(k)
  {
    TableRoutes(k);
    forall path | Asked(k, path)
      ensures Lookup(Table(k), path).value in Table(k)
      ensures Theirs(k, path) == None || Theirs(k, path) == Some(Mine(k, path)) <==> Unparted(k, path, Mine(k, path))
      ensures Mine(k, path) !in PathsOf(CompileRoutes(k.cfg.routes, k.cfg.isName)) ==>
                Theirs(k, path) == Some(Mine(k, path))
    {
      FoundInTable(k, path);
      OnePathAnsweredAlike(k, path);
    }
  }

  ghost predicate BothMatch(k: Setting, path: string, d: string, e: string) {
    MatchesPath(Compile(d, k.cfg.isName), path) && MatchesPath(Compile(e, k.cfg.isName), path)
  }

  /** So all is well where the edge declares every route of the bundle's without a view, and no path is matched
      by two equally literal declared patterns. */
  lemma UntiedTablesAnswerAlike(k: Setting)
    requires Publishes(k.entries, k.declared) && '?' !in k.cfg.fallback
    requires forall c :: c in k.cfg.routes && c.componentUrl == "" ==> c.path in k.declared
    requires forall path, d, e :: d in k.declared && e in k.declared && d != e && BothMatch(k, path, d, e) ==>
               Compile(d, k.cfg.isName).literals != Compile(e, k.cfg.isName).literals
    ensures AnsweredAlike(k)
  {
    TableRoutes(k);
    forall path | Asked(k, path) ensures Theirs(k, path) == Some(Mine(k, path)) {
      var mine := Lookup(Table(k), path).value;
      FoundInTable(k, path);
      NothingDeclaredOutranks(k.cfg.routes, k.entries, k.declared, k.cfg.isName, path, mine);
      if mine.config in k.cfg.routes {
        forall d | d in k.declared && MatchesPath(Compile(d, k.cfg.isName), path) && d != mine.config.path
          ensures Compile(d, k.cfg.isName).literals != Compile(mine.config.path, k.cfg.isName).literals
        {
          assert BothMatch(k, path, d, mine.config.path);
        }
        AgreeWithoutATie(k.cfg.routes, k.entries, k.declared, k.cfg.isName, path, Mine(k, path));
      } else {
        ClientAndEdgeAgree(k.cfg.routes, k.entries, k.declared, k.cfg.isName, path);
      }
    }
  }

  lemma OneAskParts(k: Setting, path: string, mine: Route, theirs: string)
    requires k.cfg.hasLoader && k.hash("x") != "" && '?' !in path
    requires Lookup(Table(k), path) == Some(mine) && mine.config.componentUrl == ""
    requires EdgeMatch(k.declared, k.cfg.isName, path) == Some(theirs) && theirs != mine.config.path
    ensures !StaysCoherent(k)
  {
    AnotherAnswerParts(k, path);
  }

  /** The cache parts from the edge for a bundle route without a view that the edge does not declare. */
  lemma AnUndeclaredRouteParts(k: Setting)
    requires k.cfg.isName("x") && k.cfg.hasLoader && k.hash("x") != ""
    requires k.cfg.routes == [RouteConfig("/a", "", "", false)]
    requires k.entries == [RouteConfig("/:x", "", "", false)] && k.declared == ["/:x"]
    ensures !StaysCoherent(k)
  {
    UndeclaredRoutesCanPart(k.cfg.isName);
    assert "/a"[1] != "/:x"[1];
    OneAskParts(k, "/a", Route(Compile("/a", k.cfg.isName), k.cfg.routes[0]), "/:x");
  }

  /** So it does for such a route tied with one of the edge's, though the edge declares both. */
  lemma ATieParts(k: Setting)
    requires k.cfg.isName("x") && k.cfg.isName("y") && k.cfg.hasLoader && k.hash("x") != ""
    requires k.cfg.routes == [RouteConfig("/:y", "", "", false)] && k.declared == ["/:x", "/:y"]
    requires k.entries == [RouteConfig("/:x", "", "", false), RouteConfig("/:y", "", "", false)]
    ensures !StaysCoherent(k)
  {
    TiesCanPart(k.cfg.isName);
    assert "/:x"[2] != "/:y"[2];
    OneAskParts(k, "/a", Route(Compile("/:y", k.cfg.isName), k.cfg.routes[0]), "/:x");
  }
}
