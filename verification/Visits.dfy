/**
 Where a visit stands, over every run of the router: the address bar agrees with the page, a resume
 lands where the visitor was heading, and a scope change leaves nothing delivered before it.
 */
module Visits {
  import opened Prelude
  import opened RoutePatterns
  import opened RouteTables
  import opened Navigation
  import opened Ownership
  import ResumePath

  // ---------------------------------------------------------------------------------------------
  // What one navigation can change
  // ---------------------------------------------------------------------------------------------

  /** Nothing is being fetched, or exactly the page `path` resolves to has just been asked for. */
  ghost predicate PendingAfter(cfg: Config, s: State, t: State, path: string) {
    || (t.pendingRoute == "" && t.pendingPath == "" && t.requests == s.requests)
    || (&& cfg.hasLoader && Lookup(s.routes, path).Some?
        && var route := Lookup(s.routes, path).value.config;
           && route.componentUrl == "" && t.pendingRoute == route.path && t.pendingPath == path
           && t.requests == s.requests + [Request(path, HashFor(s.pages, route.path))])
  }

  /** What a navigation to `path` leaves alone, and the choices it has elsewhere. */
  ghost predicate ResolvedFrom(cfg: Config, s: State, t: State, path: string) {
    && t.routes == s.routes && t.pages == s.pages && t.history == s.history
    && s.screen.built <= t.screen.built
    && (t.screen.seed == s.screen.seed || t.screen.seed == map[])
    && (t.path == path || t.path == cfg.fallback)
    && (t.remembered == s.remembered || t.remembered == path)
    && PendingAfter(cfg, s, t, path)
  }

  lemma ComponentFrame(v: Screen, component: Option<nat>, status: Status, fromLoader: bool)
    ensures var w := SetPageComponent(v, component, status, fromLoader);
            w.built == v.built && w.seed == v.seed && w.status == status
  {
  }

  lemma UrlFrame(cfg: Config, env: Env, v: Screen, url: string, status: Status)
    ensures var w := SetPageUrl(cfg, env, v, url, status);
            && v.built <= w.built && (w.seed == v.seed || w.seed == map[])
            && (w.status == status || w.status == Loading || w.status == Error)
  {
    var bare := v.(seed := map[]);
    if url != "" && !cfg.hasEngine {
      ComponentFrame(v, None, Error, false);
    } else if !(v.component.Some? && v.pageUrl == Some(url)) {
      if url == "" {
        ComponentFrame(bare, None, status, false);
      } else {
        var built := bare.(built := v.built + [FromUrl(url)]);
        ComponentFrame(built, Some(|v.built|), LoadStatus(env, |v.built|, status), false);
      }
    }
  }

  lemma LocalFrame(cfg: Config, env: Env, v: Screen, route: RouteConfig)
    ensures var w := LocalScreen(cfg, env, v, route);
            && v.built <= w.built && (w.seed == v.seed || w.seed == map[])
            && w.status != Forbidden && w.status != NotFound
  {
    if !(route.accelerated && env.software) && route.componentUrl != "" {
      UrlFrame(cfg, env, v, route.componentUrl, Ready);
    }
  }

  lemma RedirectFrame(cfg: Config, env: Env, s: State, status: Status, path: string)
    ensures ResolvedFrom(cfg, s, Redirect(cfg, env, s, status), path)
  {
    UrlFrame(cfg, env, s.screen, FallbackUrl(cfg, s.routes), status);
  }

  /** A route that is shown is neither refused nor missing, and remembers nothing. */
  lemma ShowFrame(cfg: Config, env: Env, s: State, path: string)
    requires Lookup(s.routes, path).Some?
    ensures var t := Show(cfg, env, s, path, Lookup(s.routes, path).value.config);
            && ResolvedFrom(cfg, s, t, path)
            && t.path == path && t.screen.status != Forbidden && t.screen.status != NotFound
            && t.remembered == s.remembered
  {
    LocalFrame(cfg, env, s.screen, Lookup(s.routes, path).value.config);
  }

  lemma ResolveFrame(cfg: Config, env: Env, s: State, path: string)
    ensures ResolvedFrom(cfg, s, Resolve(cfg, env, s, path), path)
  {
    RedirectFrame(cfg, env, s, NotFound, path);
    RedirectFrame(cfg, env, s.(remembered := path), Forbidden, path);
    if Lookup(s.routes, path).Some? {
      ShowFrame(cfg, env, s, path);
    }
  }

  lemma NavigateFrame(cfg: Config, env: Env, s: State, target: string)
    ensures ResolvedFrom(cfg, s, Navigate(cfg, env, s, target), SplitQuery(target).0)
  {
    var (path, query) := SplitQuery(target);
    ResolveFrame(cfg, env, s.(query := query), path);
  }

  /** A pop is a navigation to the entry, except for the history. */
  lemma PopFrame(cfg: Config, env: Env, s: State, index: nat)
    requires index < |s.history.stack|
    ensures var t := PopTo(cfg, env, s, index);
            ResolvedFrom(cfg, s, t.(history := s.history), SplitQuery(s.history.stack[index]).0)
  {
    NavigateFrame(cfg, env, s.(history := s.history.(index := index)), s.history.stack[index]);
  }

  /** Nothing, or a navigation to `path` except for the history. */
  ghost predicate MovedFrom(cfg: Config, s: State, t: State, path: string) {
    t == s || ResolvedFrom(cfg, s, t.(history := s.history), path)
  }

  /** Where the history would move to. */
  function PopIndex(h: History, event: Event): (index: Option<nat>)
    ensures index.Some? ==> index.value < |h.stack|
  {
    if event.GoBack? then BackIndex(h) else if event.GoForward? then ForwardIndex(h) else None
  }

  lemma PopsToIndex(cfg: Config, s: State, step: Step)
    requires step.event.GoBack? || step.event.GoForward?
    ensures Next(cfg, s, step) == Popped(cfg, step.env, s, PopIndex(s.history, step.event))
  {
  }

  lemma PoppedFrame(cfg: Config, env: Env, s: State, index: Option<nat>, t: State) returns (path: string)
    requires (index.Some? ==> index.value < |s.history.stack|) && t == Popped(cfg, env, s, index)
    ensures '?' !in path && MovedFrom(cfg, s, t, path)
  {
    path := "";
    if index.Some? {
      PopFrame(cfg, env, s, index.value);
      path := SplitQuery(s.history.stack[index.value]).0;
    }
  }

  lemma MoveFrame(cfg: Config, s: State, step: Step) returns (path: string)
    requires Moves(step.event)
    ensures '?' !in path && MovedFrom(cfg, s, Next(cfg, s, step), path)
  {
    if step.event.GoBack? || step.event.GoForward? {
      PopsToIndex(cfg, s, step);
      path := PoppedFrame(cfg, step.env, s, PopIndex(s.history, step.event), Next(cfg, s, step));
    } else {
      var target := if step.event.Start? then CurrentEntry(s.history) else step.event.target;
      NavigateFrame(cfg, step.env, s, target);
      path := SplitQuery(target).0;
    }
  }

  lemma ReResolveFrame(cfg: Config, env: Env, s: State)
    ensures var t := ReResolve(cfg, env, s);
            ResolvedFrom(cfg, Dropped(cfg, s), t.(history := s.history), s.path)
  {
    ResolveFrame(cfg, env, Dropped(cfg, s), s.path);
  }

  /** A resume is a navigation to the remembered path, or nothing. */
  lemma ResumeFrame(cfg: Config, env: Env, s: State)
    ensures var t := ResumeAfterLogin(cfg, env, s);
            || t == s.(remembered := "")
            || ResolvedFrom(cfg, s.(remembered := ""), t.(history := s.history), SplitQuery(s.remembered).0)
  {
    NavigateFrame(cfg, env, s.(remembered := ""), s.remembered);
  }

  /** The edge's messages move neither the path nor the history. */
  ghost predicate SamePlace(s: State, t: State) {
    && t.routes == s.routes && t.history == s.history && t.path == s.path && t.remembered == s.remembered
    && t.pendingRoute == s.pendingRoute && t.pendingPath == s.pendingPath
  }

  /** The cache is as it was, or has one entry more: a page that parses, built just now. */
  ghost predicate TookAtMost(env: Env, pages: Pages, v: Screen, after: Pages, w: Screen, route: string, qml: string,
                             hash: string) {
    || (after == pages && v.built <= w.built)
    || (after == pages[route := Page(hash, |v.built|)] && env.parses(qml) && w.built == v.built + [FromSource(qml)])
  }

  lemma DeliverFrame(env: Env, pages: Pages, v: Screen, route: string, qml: string, hash: string)
    ensures var (after, w) := Deliver(env, pages, v, route, qml, hash);
            TookAtMost(env, pages, v, after, w, route, qml, hash)
  {
  }

  lemma DeliveryFrame(cfg: Config, env: Env, s: State, route: string, qml: string, hash: string, seed: Seed,
                      answer: Answer)
    ensures var t := PageDelivered(cfg, env, s, route, qml, hash, seed, answer);
            && SamePlace(s, t) && t.requests == s.requests && s.screen.built <= t.screen.built
            && TookAtMost(env, s.pages, s.screen, t.pages, t.screen, s.pendingRoute, qml, hash)
            && (t.pages != s.pages ==> Considered(cfg, s, route, answer))
  {
    if Considered(cfg, s, route, answer) {
      DeliverFrame(env, s.pages, s.screen, s.pendingRoute, qml, hash);
    }
  }

  lemma ChangeFrame(cfg: Config, s: State, route: string)
    ensures var t := PageChanged(cfg, s, route);
            && SamePlace(s, t) && t.screen.built == s.screen.built && t.screen.seed == s.screen.seed
            && t.pages == (if cfg.hasLoader then s.pages - {route} else s.pages)
            && (t.requests == s.requests
                || (cfg.hasLoader && route == s.pendingRoute
                    && t.requests == s.requests + [Request(s.pendingPath, "")]))
  {
  }

  // ---------------------------------------------------------------------------------------------
  // The history agrees with the page
  // ---------------------------------------------------------------------------------------------

  ghost predicate InRange(s: State) {
    s.history.index < |s.history.stack|
  }

  ghost predicate InSync(s: State) {
    InRange(s) && s.history.stack[s.history.index] == s.path
  }

  /** A navigation to `path` shows it: its route is there, and is the edge's to judge or within reach. */
  predicate Served(cfg: Config, env: Env, routes: seq<Route>, path: string) {
    var route := Lookup(routes, path);
    route.Some? && ((route.value.config.componentUrl == "" && cfg.hasLoader) || Reachable(cfg, env, route.value.config))
  }

  lemma ResolveLands(cfg: Config, env: Env, s: State, path: string)
    ensures Resolve(cfg, env, s, path).path == if Served(cfg, env, s.routes, path) then path else cfg.fallback
    ensures Resolve(cfg, env, s, path).history == s.history
  {
    if Served(cfg, env, s.routes, path) {
      ShowFrame(cfg, env, s, path);
    }
  }

  lemma NavigateLands(cfg: Config, env: Env, s: State, target: string)
    ensures var t, page := Navigate(cfg, env, s, target), SplitQuery(target).0;
            t.history == s.history && t.path == if Served(cfg, env, s.routes, page) then page else cfg.fallback
  {
    var (page, query) := SplitQuery(target);
    ResolveLands(cfg, env, s.(query := query), page);
  }

  /** The entry at `index` carries a query, and without it names a page that is shown, or the fallback. */
  predicate DropsQuery(cfg: Config, env: Env, s: State, index: nat)
    requires index < |s.history.stack|
  {
    var entry := s.history.stack[index];
    var page := SplitQuery(entry).0;
    '?' in entry && (page == cfg.fallback || Served(cfg, env, s.routes, page))
  }

  /** A pop ends in step with the page exactly when it drops no query. */
  lemma PopSyncsUnlessAQueryIsDropped(cfg: Config, env: Env, s: State, index: nat)
    requires index < |s.history.stack|
    ensures InRange(PopTo(cfg, env, s, index))
    ensures InSync(PopTo(cfg, env, s, index)) <==> !DropsQuery(cfg, env, s, index)
  {
    NavigateLands(cfg, env, s.(history := s.history.(index := index)), s.history.stack[index]);
  }

  lemma RecordedIsInSync(s: State)
    requires InRange(s)
    ensures InSync(Pushed(s)) && InSync(Replaced(s))
  {
  }

  lemma GoSyncs(cfg: Config, env: Env, s: State, target: string)
    requires InRange(s)
    ensures InSync(Go(cfg, env, s, target)) && InSync(Replace(cfg, env, s, target))
  {
    NavigateLands(cfg, env, s, target);
    RecordedIsInSync(Navigate(cfg, env, s, target));
  }

  lemma ReResolveSyncs(cfg: Config, env: Env, s: State)
    requires InRange(s)
    ensures InRange(ReResolve(cfg, env, s)) && (InSync(s) ==> InSync(ReResolve(cfg, env, s)))
  {
    ResolveLands(cfg, env, Dropped(cfg, s), s.path);
    RecordedIsInSync(Resolve(cfg, env, Dropped(cfg, s), s.path));
  }

  lemma ResumeSyncs(cfg: Config, env: Env, s: State)
    requires InRange(s)
    ensures InRange(ResumeAfterLogin(cfg, env, s)) && (InSync(s) ==> InSync(ResumeAfterLogin(cfg, env, s)))
  {
    GoSyncs(cfg, env, s.(remembered := ""), s.remembered);
  }

  lemma ScopeChangeSyncs(cfg: Config, env: Env, s: State)
    requires InRange(s)
    ensures InRange(ScopeChanged(cfg, env, s)) && (InSync(s) ==> InSync(ScopeChanged(cfg, env, s)))
  {
    ReResolveSyncs(cfg, env, s);
    ResumeSyncs(cfg, env, ReResolve(cfg, env, s));
  }

  /** The step names a page: a navigation, or a pop that has somewhere to go. */
  predicate Names(s: State, event: Event) {
    event.GoTo? || event.ReplaceWith? || PopIndex(s.history, event).Some?
  }

  /** The step is a pop that drops a query. */
  predicate Drops(cfg: Config, s: State, step: Step) {
    var index := PopIndex(s.history, step.event);
    index.Some? && DropsQuery(cfg, step.env, s, index.value)
  }

  lemma MessagesMoveNothing(cfg: Config, s: State, step: Step)
    requires step.event.Table? || step.event.Delivery? || step.event.Changed?
    ensures var t := Next(cfg, s, step); t.history == s.history && t.path == s.path && t.remembered == s.remembered
  {
    match step.event
    case Table(_) =>
    case Delivery(route, qml, hash, seed, answer) => DeliveryFrame(cfg, step.env, s, route, qml, hash, seed, answer);
    case Changed(route) => ChangeFrame(cfg, s, route);
  }

  /** A step that names a page ends in step with it exactly when it drops no query, and no other step but a
      start parts the two. */
  lemma StepSyncs(cfg: Config, s: State, step: Step)
    requires InRange(s)
    ensures InRange(Next(cfg, s, step))
    ensures Names(s, step.event) ==> (InSync(Next(cfg, s, step)) <==> !Drops(cfg, s, step))
    ensures InSync(s) && !Names(s, step.event) && !step.event.Start? ==> InSync(Next(cfg, s, step))
  {
    var env := step.env;
    if step.event.Table? || step.event.Delivery? || step.event.Changed? {
      MessagesMoveNothing(cfg, s, step);
    } else if step.event.GoBack? || step.event.GoForward? {
      PopsToIndex(cfg, s, step);
      PoppedSyncs(cfg, env, s, PopIndex(s.history, step.event), Next(cfg, s, step));
    } else {
      match step.event
      case Start => NavigateLands(cfg, env, s, CurrentEntry(s.history));
      case GoTo(target) => GoSyncs(cfg, env, s, target);
      case ReplaceWith(target) => GoSyncs(cfg, env, s, target);
      case Rescope => ScopeChangeSyncs(cfg, env, s);
      case Resume => ResumeSyncs(cfg, env, s);
    }
  }

  lemma PoppedSyncs(cfg: Config, env: Env, s: State, index: Option<nat>, t: State)
    requires InRange(s) && (index.Some? ==> index.value < |s.history.stack|) && t == Popped(cfg, env, s, index)
    ensures InRange(t) && (index.Some? ==> (InSync(t) <==> !DropsQuery(cfg, env, s, index.value)))
  {
    if index.Some? {
      PopSyncsUnlessAQueryIsDropped(cfg, env, s, index.value);
    }
  }

  /** In step at every point of the run. */
  ghost predicate AllInSync(cfg: Config, s: State, steps: seq<Step>)
    decreases |steps|
  {
    InSync(s) && (steps == [] || AllInSync(cfg, Next(cfg, s, steps[0]), steps[1..]))
  }

  ghost predicate DropsNone(cfg: Config, s: State, steps: seq<Step>)
    decreases |steps|
  {
    steps == [] || (!Drops(cfg, s, steps[0]) && DropsNone(cfg, Next(cfg, s, steps[0]), steps[1..]))
  }

  predicate NoStart(steps: seq<Step>) {
    forall i :: 0 <= i < |steps| ==> !steps[i].event.Start?
  }

  lemma {:induction false} InSyncUnlessAQueryIsDropped(cfg: Config, s: State, steps: seq<Step>)
    requires InSync(s) && NoStart(steps)
    ensures AllInSync(cfg, s, steps) <==> DropsNone(cfg, s, steps)
    decreases |steps|
  {
    if steps != [] {
      StepSyncs(cfg, s, steps[0]);
      if !Drops(cfg, s, steps[0]) {
        InSyncUnlessAQueryIsDropped(cfg, Next(cfg, s, steps[0]), steps[1..]);
      }
    }
  }

  lemma {:induction false} RunsStayInRange(cfg: Config, s: State, steps: seq<Step>)
    requires InRange(s)
    ensures InRange(Run(cfg, s, steps))
    decreases |steps|
  {
    if steps != [] {
      StepSyncs(cfg, s, steps[0]);
      RunsStayInRange(cfg, Next(cfg, s, steps[0]), steps[1..]);
    }
  }

  /** From the first go, replace or pop onward, in every run without a second start and for every fallback:
      the history's current entry is the path of the page at every point exactly when no pop drops a query;
      and the index is within the stack. */
  lemma HistoryAgreesWithThePage(cfg: Config, before: seq<Step>, first: Step, after: seq<Step>)
    requires Names(Run(cfg, Initial(cfg), before), first.event) && NoStart(after)
    ensures var s := Run(cfg, Initial(cfg), before);
            && InRange(Next(cfg, s, first))
            && (AllInSync(cfg, Next(cfg, s, first), after) <==> DropsNone(cfg, s, [first] + after))
  {
    var s := Run(cfg, Initial(cfg), before);
    RunsStayInRange(cfg, Initial(cfg), before);
    StepSyncs(cfg, s, first);
    assert ([first] + after)[1..] == after;
    if InSync(Next(cfg, s, first)) {
      InSyncUnlessAQueryIsDropped(cfg, Next(cfg, s, first), after);
    }
  }

  // Which fallbacks let a query be dropped.

  predicate Neat(cfg: Config, path: string) {
    '?' !in path || path == cfg.fallback
  }

  /** Only the fallback can bring a query into the path, the remembered path or an entry. */
  ghost predicate Tidy(cfg: Config, s: State) {
    && InRange(s) && Neat(cfg, s.path) && Neat(cfg, s.remembered)
    && forall entry :: entry in s.history.stack ==> Neat(cfg, entry)
  }

  lemma NavigateStaysTidy(cfg: Config, env: Env, s: State, target: string)
    requires Tidy(cfg, s)
    ensures var t := Navigate(cfg, env, s, target); Tidy(cfg, t) && Tidy(cfg, Pushed(t)) && Tidy(cfg, Replaced(t))
  {
    NavigateFrame(cfg, env, s, target);
  }

  lemma PopStaysTidy(cfg: Config, env: Env, s: State, index: nat)
    requires Tidy(cfg, s) && index < |s.history.stack|
    ensures Tidy(cfg, PopTo(cfg, env, s, index))
  {
    NavigateStaysTidy(cfg, env, s.(history := s.history.(index := index)), s.history.stack[index]);
  }

  lemma PoppedStaysTidy(cfg: Config, env: Env, s: State, index: Option<nat>, t: State)
    requires Tidy(cfg, s) && (index.Some? ==> index.value < |s.history.stack|) && t == Popped(cfg, env, s, index)
    ensures Tidy(cfg, t)
  {
    if index.Some? {
      PopStaysTidy(cfg, env, s, index.value);
    }
  }

  lemma ReResolveStaysTidy(cfg: Config, env: Env, s: State)
    requires Tidy(cfg, s)
    ensures Tidy(cfg, ReResolve(cfg, env, s))
  {
    ResolveFrame(cfg, env, Dropped(cfg, s), s.path);
  }

  lemma ResumeStaysTidy(cfg: Config, env: Env, s: State)
    requires Tidy(cfg, s)
    ensures Tidy(cfg, ResumeAfterLogin(cfg, env, s))
  {
    NavigateStaysTidy(cfg, env, s.(remembered := ""), s.remembered);
  }

  lemma StepStaysTidy(cfg: Config, s: State, step: Step)
    requires Tidy(cfg, s)
    ensures Tidy(cfg, Next(cfg, s, step))
  {
    var env := step.env;
    if step.event.Table? || step.event.Delivery? || step.event.Changed? {
      MessagesMoveNothing(cfg, s, step);
    } else if step.event.GoBack? || step.event.GoForward? {
      PopsToIndex(cfg, s, step);
      PoppedStaysTidy(cfg, env, s, PopIndex(s.history, step.event), Next(cfg, s, step));
    } else {
      match step.event
      case Start => NavigateStaysTidy(cfg, env, s, CurrentEntry(s.history));
      case GoTo(target) => NavigateStaysTidy(cfg, env, s, target);
      case ReplaceWith(target) => NavigateStaysTidy(cfg, env, s, target);
      case Rescope =>
        ReResolveStaysTidy(cfg, env, s);
        ResumeStaysTidy(cfg, env, ReResolve(cfg, env, s));
      case Resume => ResumeStaysTidy(cfg, env, s);
    }
  }

  lemma {:induction false} RunsStayTidy(cfg: Config, s: State, steps: seq<Step>)
    requires Tidy(cfg, s)
    ensures Tidy(cfg, Run(cfg, s, steps))
    decreases |steps|
  {
    if steps != [] {
      StepStaysTidy(cfg, s, steps[0]);
      RunsStayTidy(cfg, Next(cfg, s, steps[0]), steps[1..]);
    }
  }

  /** Some session is shown the page: it is the edge's to judge, open to all, or there is a session to judge by. */
  predicate Servable(cfg: Config, routes: seq<Route>, path: string) {
    var route := Lookup(routes, path);
    && route.Some?
    && ((route.value.config.componentUrl == "" && cfg.hasLoader) || route.value.config.scope == "" || cfg.hasSession)
  }

  /** The fallback carries a query, and without it names a page of the table. */
  predicate FallbackParts(cfg: Config, routes: seq<Route>) {
    '?' in cfg.fallback && Servable(cfg, routes, SplitQuery(cfg.fallback).0)
  }

  predicate NoTable(steps: seq<Step>) {
    forall i :: 0 <= i < |steps| ==> !steps[i].event.Table?
  }

  lemma RoutesStay(cfg: Config, s: State, step: Step)
    requires !step.event.Table?
    ensures Next(cfg, s, step).routes == s.routes
  {
    var env := step.env;
    if Moves(step.event) {
      MoveKeepsPages(cfg, s, step);
    } else {
      match step.event
      case Rescope =>
        ReResolveFrame(cfg, env, s);
        ResumeFrame(cfg, env, ReResolve(cfg, env, s));
      case Resume => ResumeFrame(cfg, env, s);
      case Delivery(route, qml, hash, seed, answer) => DeliveryFrame(cfg, env, s, route, qml, hash, seed, answer);
      case Changed(route) => ChangeFrame(cfg, s, route);
    }
  }

  lemma TidyEntryDropsNothing(cfg: Config, env: Env, s: State, index: nat)
    requires Tidy(cfg, s) && !FallbackParts(cfg, s.routes) && index < |s.history.stack|
    ensures !DropsQuery(cfg, env, s, index)
  {
    assert s.history.stack[index] in s.history.stack;
  }

  lemma TidyDropsNothing(cfg: Config, s: State, step: Step)
    requires Tidy(cfg, s) && !FallbackParts(cfg, s.routes)
    ensures !Drops(cfg, s, step)
  {
    var index := PopIndex(s.history, step.event);
    if index.Some? {
      TidyEntryDropsNothing(cfg, step.env, s, index.value);
    }
  }

  lemma {:induction false} TidyRunsDropNothing(cfg: Config, s: State, steps: seq<Step>)
    requires Tidy(cfg, s) && !FallbackParts(cfg, s.routes) && NoTable(steps)
    ensures DropsNone(cfg, s, steps)
    decreases |steps|
  {
    if steps != [] {
      TidyDropsNothing(cfg, s, steps[0]);
      StepStaysTidy(cfg, s, steps[0]);
      RoutesStay(cfg, s, steps[0]);
      TidyRunsDropNothing(cfg, Next(cfg, s, steps[0]), steps[1..]);
    }
  }

  /** A path that is not rooted is nobody's page. */
  lemma MissingLandsOnTheFallback(cfg: Config, env: Env, s: State)
    ensures var t := Go(cfg, env, s, "");
            t.path == cfg.fallback && t.routes == s.routes && t.history == Push(s.history, cfg.fallback)
  {
    assert Lookup(s.routes, "") == None;
  }

  /** An engine and a session that let everything through. */
  function Lenient(): Env {
    Env((scope: string) => true, (c: nat) => Loaded, false, (source: string) => true, (source: string) => source != "")
  }

  /** Two missing pages and a step back. */
  function PartingSteps(): seq<Step> {
    [Step(GoTo(""), Lenient()), Step(GoTo(""), Lenient()), Step(GoBack, Lenient())]
  }

  lemma AFallbackWithAQueryParts(cfg: Config, s: State)
    requires InRange(s) && FallbackParts(cfg, s.routes)
    ensures !DropsNone(cfg, s, PartingSteps())
  {
    var env, steps := Lenient(), PartingSteps();
    MissingLandsOnTheFallback(cfg, env, s);
    var s1 := Go(cfg, env, s, "");
    MissingLandsOnTheFallback(cfg, env, s1);
    FallbackTwice(cfg, Go(cfg, env, s1, ""));
    DropsThird(cfg, s, steps);
  }

  /** Two entries of such a fallback, one behind the other: a step back drops the query of the first. */
  lemma FallbackTwice(cfg: Config, s: State)
    requires FallbackParts(cfg, s.routes) && 0 < s.history.index < |s.history.stack|
    requires s.history.stack[s.history.index - 1] == cfg.fallback
    ensures Drops(cfg, s, Step(GoBack, Lenient()))
  {
  }

  lemma DropsThird(cfg: Config, s: State, steps: seq<Step>)
    requires |steps| == 3 && Drops(cfg, Next(cfg, Next(cfg, s, steps[0]), steps[1]), steps[2])
    ensures !DropsNone(cfg, s, steps)
  {
    var s1 := Next(cfg, s, steps[0]);
    assert !DropsNone(cfg, Next(cfg, s1, steps[1]), [steps[2]]);
    assert steps[1..][1..] == [steps[2]];
    assert !DropsNone(cfg, s1, steps[1..]);
  }

  /** Once in step, the history stays in step through every run on this table exactly when the fallback
      carries no query or names, without it, no page that anyone is shown. */
  lemma FallbackDecides(cfg: Config, before: seq<Step>)
    requires InSync(Run(cfg, Initial(cfg), before))
    ensures var s := Run(cfg, Initial(cfg), before);
            (forall after :: NoStart(after) && NoTable(after) ==> AllInSync(cfg, s, after))
            <==> !FallbackParts(cfg, s.routes)
  {
    var s := Run(cfg, Initial(cfg), before);
    RunsStayTidy(cfg, Initial(cfg), before);
    if FallbackParts(cfg, s.routes) {
      PartingStepsPart(cfg, s);
    } else {
      forall after | NoStart(after) && NoTable(after) ensures AllInSync(cfg, s, after) {
        TidyRunsDropNothing(cfg, s, after);
        InSyncUnlessAQueryIsDropped(cfg, s, after);
      }
    }
  }

  lemma PartingStepsPart(cfg: Config, s: State)
    requires InSync(s) && FallbackParts(cfg, s.routes)
    ensures NoStart(PartingSteps()) && NoTable(PartingSteps()) && !AllInSync(cfg, s, PartingSteps())
  {
    AFallbackWithAQueryParts(cfg, s);
    InSyncUnlessAQueryIsDropped(cfg, s, PartingSteps());
  }

  // ---------------------------------------------------------------------------------------------
  // Tables
  // ---------------------------------------------------------------------------------------------

  /** The entries of the last table the edge sent. */
  function LastTable(steps: seq<Step>, entries: seq<RouteConfig>): seq<RouteConfig>
    decreases |steps|
  {
    if steps == [] then entries
    else LastTable(steps[1..], if steps[0].event.Table? then steps[0].event.entries else entries)
  }

  /** Through any run the table is the bundle with the entries last sent; earlier ones leave no trace. */
  lemma {:induction false} RoutesAreTheLastTable(cfg: Config, s: State, entries: seq<RouteConfig>, steps: seq<Step>)
    requires s.routes == ApplyRemoteTable(cfg, s, entries).routes
    ensures Run(cfg, s, steps).routes == ApplyRemoteTable(cfg, s, LastTable(steps, entries)).routes
    decreases |steps|
  {
    if steps != [] {
      var t := Next(cfg, s, steps[0]);
      var last := if steps[0].event.Table? then steps[0].event.entries else entries;
      TableAfter(cfg, s, entries, steps[0]);
      RoutesAreTheLastTable(cfg, t, last, steps[1..]);
    }
  }

  lemma TableAfter(cfg: Config, s: State, entries: seq<RouteConfig>, step: Step)
    requires s.routes == ApplyRemoteTable(cfg, s, entries).routes
    ensures var t := Next(cfg, s, step);
            t.routes == ApplyRemoteTable(cfg, t, if step.event.Table? then step.event.entries else entries).routes
  {
    if !step.event.Table? {
      RoutesStay(cfg, s, step);
    }
  }

  /** So it is from the start, where no table has been sent: the bundle alone. */
  lemma RoutesFromTheStart(cfg: Config, steps: seq<Step>)
    ensures Initial(cfg).routes == ApplyRemoteTable(cfg, Initial(cfg), []).routes
    ensures Run(cfg, Initial(cfg), steps).routes == ApplyRemoteTable(cfg, Initial(cfg), LastTable(steps, [])).routes
  {
    var compiled := CompileRoutes(cfg.routes, cfg.isName);
    assert CompileRoutes(AsRemote([]), cfg.isName) == [];
    assert MergedRoutes(compiled, []) == compiled;
    RoutesAreTheLastTable(cfg, Initial(cfg), [], steps);
  }

  // ---------------------------------------------------------------------------------------------
  // Resuming after a sign-in
  // ---------------------------------------------------------------------------------------------

  /** A resume takes the remembered path whatever happens; when it may be resumed its page is the one shown
      and the entry pushed, in normal form, never refused and never missing; otherwise nothing else moves. */
  lemma ResumeLands(cfg: Config, env: Env, s: State)
    ensures var t, page := ResumeAfterLogin(cfg, env, s), SplitQuery(s.remembered).0;
            && t.remembered == ""
            && (Resumable(cfg, env, s) ==>
                  && t.path == page && t.history == Push(s.history, page)
                  && (t.path == s.remembered <==> '?' !in s.remembered)
                  && t.screen.status != Forbidden && t.screen.status != NotFound
                  && ResumePath.PathAbsolute(t.path) && ResumePath.RemoveDotSegments(t.path, "") == t.path
                  && ResumePath.DecodeSeparators(t.path) == t.path)
            && (!Resumable(cfg, env, s) ==> t == s.(remembered := ""))
  {
    if Resumable(cfg, env, s) {
      ResumePath.AcceptedPathsAreNormal(s.remembered, DeclaredPaths(s.routes), cfg.isName);
      ReachableIsShown(cfg, env, s.(remembered := ""), s.remembered);
    }
  }

  lemma ReachableIsShown(cfg: Config, env: Env, s: State, target: string)
    requires var route := Lookup(s.routes, SplitQuery(target).0); route.Some? && Reachable(cfg, env, route.value.config)
    ensures var t := Navigate(cfg, env, s, target);
            && t.path == SplitQuery(target).0 && t.screen.status != Forbidden && t.screen.status != NotFound
            && t.remembered == s.remembered && t.history == s.history && t.routes == s.routes
  {
    var (page, query) := SplitQuery(target);
    ShowFrame(cfg, env, s.(query := query), page);
  }

  /** After a scope change in any state nothing is remembered, and a resume inside it landed on the page that
      was remembered when the old page had been decided again, exactly on that path unless it carries a query. */
  lemma ScopeChangeForgets(cfg: Config, env: Env, s: State)
    ensures var t, decided := ScopeChanged(cfg, env, s), ReResolve(cfg, env, s);
            && t.remembered == ""
            && (Resumable(cfg, env, decided) ==>
                  && t.path == SplitQuery(decided.remembered).0
                  && (t.path == decided.remembered <==> '?' !in decided.remembered)
                  && t.screen.status != Forbidden && t.screen.status != NotFound)
  {
    ResumeLands(cfg, env, ReResolve(cfg, env, s));
  }

  /** Only the fallback is ever remembered with a query, in any run. */
  lemma RememberedIsNeat(cfg: Config, steps: seq<Step>, env: Env)
    ensures Neat(cfg, ReResolve(cfg, env, Run(cfg, Initial(cfg), steps)).remembered)
  {
    RunsStayTidy(cfg, Initial(cfg), steps);
    ReResolveStaysTidy(cfg, env, Run(cfg, Initial(cfg), steps));
  }

  /** The route is there, is not the edge's to judge, and is out of reach. */
  predicate Refuses(cfg: Config, env: Env, routes: seq<Route>, path: string) {
    var route := Lookup(routes, path);
    && route.Some? && !(route.value.config.componentUrl == "" && cfg.hasLoader)
    && !Reachable(cfg, env, route.value.config)
  }

  lemma RefusalRemembers(cfg: Config, env: Env, s: State, target: string)
    requires Refuses(cfg, env, s.routes, SplitQuery(target).0)
    ensures var t := Go(cfg, env, s, target);
            t.path == cfg.fallback && t.remembered == SplitQuery(target).0 && t.routes == s.routes
  {
    var (page, query) := SplitQuery(target);
    RedirectFrame(cfg, env, s.(query := query, remembered := page), Forbidden, page);
  }

  /** Deciding the fallback again forgets what was remembered only where the fallback itself is refused. */
  lemma FallbackDecidedAgain(cfg: Config, env: Env, s: State)
    requires s.path == cfg.fallback
    ensures var t := ReResolve(cfg, env, s);
            && t.path == cfg.fallback && t.routes == s.routes
            && t.remembered == if Refuses(cfg, env, s.routes, cfg.fallback) then cfg.fallback else s.remembered
  {
    var d := Dropped(cfg, s);
    ResolveFrame(cfg, env, d, s.path);
    if Lookup(s.routes, cfg.fallback).Some? && !Refuses(cfg, env, s.routes, cfg.fallback) {
      ShowFrame(cfg, env, d, cfg.fallback);
    }
  }

  /** A deep link refused for want of a scope is the page shown once the scope has come, exactly when the
      fallback is not itself refused by then, or names that very page behind a query. */
  lemma RefusedLinkIsResumed(cfg: Config, env: Env, later: Env, s: State, target: string)
    requires var page := SplitQuery(target).0;
             && Refuses(cfg, env, s.routes, page) && Reachable(cfg, later, Lookup(s.routes, page).value.config)
             && ResumePath.Acceptable(page, DeclaredPaths(s.routes), cfg.isName)
    ensures var page, refused := SplitQuery(target).0, Go(cfg, env, s, target);
            && refused.path == cfg.fallback && refused.remembered == page
            && (ScopeChanged(cfg, later, refused).path == page <==>
                || !Refuses(cfg, later, s.routes, cfg.fallback)
                || (SplitQuery(cfg.fallback).0 == page
                    && ResumePath.Acceptable(cfg.fallback, DeclaredPaths(s.routes), cfg.isName)))
  {
    RefusalRemembers(cfg, env, s, target);
    var page, refused := SplitQuery(target).0, Go(cfg, env, s, target);
    FallbackDecidedAgain(cfg, later, refused);
    var decided := ReResolve(cfg, later, refused);
    ResumeLands(cfg, later, decided);
    assert SplitQuery(page).0 == page;
  }

  // ---------------------------------------------------------------------------------------------
  // A scope change leaves nothing delivered before it
  // ---------------------------------------------------------------------------------------------

  /** Nothing the edge delivered is held or shown. */
  ghost predicate NothingDelivered(s: State) {
    s.pages == map[] && s.screen.seed == map[] && (s.screen.component.Some? ==> !s.screen.loaderOwned)
  }

  /** The step hands over a page that is taken. */
  ghost predicate Accepts(cfg: Config, s: State, step: Step) {
    && step.event.Delivery? && Considered(cfg, s, step.event.route, step.event.answer)
    && var outcome := DeliverOutcome(step.env, s.pages, s.pendingRoute, step.event.qml, step.event.hash);
       outcome == Built || outcome == NotModified
  }

  lemma NavigateDeliversNothing(cfg: Config, env: Env, s: State, target: string)
    requires Accounted(cfg, s) && s.pages == map[] && s.screen.seed == map[]
    ensures NothingDelivered(Navigate(cfg, env, s, target))
  {
    NavigateFrame(cfg, env, s, target);
    NavigateIsSound(cfg, env, s, target);
  }

  lemma ScopeChangeDropsDeliveries(cfg: Config, env: Env, s: State)
    requires Sound(cfg, s)
    ensures NothingDelivered(ReResolve(cfg, env, s)) && NothingDelivered(ScopeChanged(cfg, env, s))
  {
    DropBalances(cfg, s);
    ResolveFrame(cfg, env, Dropped(cfg, s), s.path);
    ReResolveIsSound(cfg, env, s);
    var decided := ReResolve(cfg, env, s);
    NavigateDeliversNothing(cfg, env, decided.(remembered := ""), decided.remembered);
  }

  lemma UntakenDeliversNothing(cfg: Config, s: State, step: Step)
    requires NothingDelivered(s) && step.event.Delivery? && !Accepts(cfg, s, step)
    ensures NothingDelivered(Next(cfg, s, step))
  {
  }

  lemma ChangeDeliversNothing(cfg: Config, s: State, route: string)
    requires NothingDelivered(s)
    ensures NothingDelivered(PageChanged(cfg, s, route))
  {
  }

  /** The cache is as it was, and so is the seed unless it is gone. */
  ghost predicate KeepsPages(s: State, t: State) {
    && t.pages == s.pages && t.routes == s.routes && s.screen.built <= t.screen.built
    && (t.screen.seed == s.screen.seed || t.screen.seed == map[])
  }

  lemma MoveKeepsPages(cfg: Config, s: State, step: Step)
    requires Moves(step.event)
    ensures KeepsPages(s, Next(cfg, s, step))
  {
    var _ := MoveFrame(cfg, s, step);
  }

  lemma MoveDeliversNothing(cfg: Config, s: State, t: State)
    requires NothingDelivered(s) && KeepsPages(s, t) && Sound(cfg, t)
    ensures NothingDelivered(t)
  {
  }

  lemma StepDeliversNothing(cfg: Config, s: State, step: Step)
    requires Sound(cfg, s) && NothingDelivered(s) && !Accepts(cfg, s, step)
    ensures NothingDelivered(Next(cfg, s, step))
  {
    if Moves(step.event) {
      MoveKeepsPages(cfg, s, step);
      StepIsSound(cfg, s, step);
      MoveDeliversNothing(cfg, s, Next(cfg, s, step));
    } else {
      match step.event
      case Rescope => ScopeChangeDropsDeliveries(cfg, step.env, s);
      case Resume =>
        ResumeFrame(cfg, step.env, s);
        ResumeIsSound(cfg, step.env, s);
      case Table(_) =>
      case Delivery(route, qml, hash, seed, answer) => UntakenDeliversNothing(cfg, s, step);
      case Changed(route) => ChangeDeliversNothing(cfg, s, route);
    }
  }

  /** No step of the run hands over a page that is taken. */
  ghost predicate AcceptsNone(cfg: Config, s: State, steps: seq<Step>)
    decreases |steps|
  {
    steps == [] || (!Accepts(cfg, s, steps[0]) && AcceptsNone(cfg, Next(cfg, s, steps[0]), steps[1..]))
  }

  lemma {:induction false} RunDeliversNothing(cfg: Config, s: State, steps: seq<Step>)
    requires Sound(cfg, s) && NothingDelivered(s) && AcceptsNone(cfg, s, steps)
    ensures NothingDelivered(Run(cfg, s, steps))
    decreases |steps|
  {
    if steps != [] {
      StepDeliversNothing(cfg, s, steps[0]);
      StepIsSound(cfg, s, steps[0]);
      RunDeliversNothing(cfg, Next(cfg, s, steps[0]), steps[1..]);
    }
  }

  /** Every cached component was built no earlier than the `n`-th. */
  ghost predicate BuiltSince(s: State, n: nat) {
    n <= |s.screen.built| && forall r :: r in s.pages ==> s.pages[r].component >= n
  }

  lemma MoveBuiltSince(s: State, t: State, n: nat)
    requires BuiltSince(s, n) && KeepsPages(s, t)
    ensures BuiltSince(t, n)
  {
  }

  lemma StepBuiltSince(cfg: Config, s: State, step: Step, n: nat)
    requires BuiltSince(s, n)
    ensures BuiltSince(Next(cfg, s, step), n)
  {
    var env := step.env;
    if Moves(step.event) {
      MoveKeepsPages(cfg, s, step);
      MoveBuiltSince(s, Next(cfg, s, step), n);
    } else {
      match step.event
      case Rescope =>
        ReResolveFrame(cfg, env, s);
        ResumeFrame(cfg, env, ReResolve(cfg, env, s));
      case Resume => ResumeFrame(cfg, env, s);
      case Table(_) =>
      case Delivery(route, qml, hash, seed, answer) => DeliveryFrame(cfg, env, s, route, qml, hash, seed, answer);
      case Changed(route) => ChangeFrame(cfg, s, route);
    }
  }

  lemma {:induction false} RunBuiltSince(cfg: Config, s: State, steps: seq<Step>, n: nat)
    requires BuiltSince(s, n)
    ensures BuiltSince(Run(cfg, s, steps), n)
    decreases |steps|
  {
    if steps != [] {
      StepBuiltSince(cfg, s, steps[0], n);
      RunBuiltSince(cfg, Next(cfg, s, steps[0]), steps[1..], n);
    }
  }

  /** After a scope change anywhere in any run, no component delivered before it is ever shown again,
      whichever routes are resolved; and until a later delivery is taken nothing delivered, neither a
      component nor a seed, is held or shown at all. */
  lemma NothingSurvivesAScopeChange(cfg: Config, before: seq<Step>, env: Env, after: seq<Step>)
    ensures var changed := Next(cfg, Run(cfg, Initial(cfg), before), Step(Rescope, env));
            var s := Run(cfg, changed, after);
            && (s.screen.component.Some? && s.screen.loaderOwned ==> s.screen.component.value >= |changed.screen.built|)
            && (AcceptsNone(cfg, changed, after) ==> NothingDelivered(s))
  {
    InitialIsSound(cfg);
    RunsAreSound(cfg, Initial(cfg), before);
    var s1 := Run(cfg, Initial(cfg), before);
    StepIsSound(cfg, s1, Step(Rescope, env));
    ScopeChangeDropsDeliveries(cfg, env, s1);
    AfterTheChange(cfg, Next(cfg, s1, Step(Rescope, env)), after);
  }

  lemma AfterTheChange(cfg: Config, changed: State, after: seq<Step>)
    requires Sound(cfg, changed) && NothingDelivered(changed)
    ensures var s := Run(cfg, changed, after);
            && (s.screen.component.Some? && s.screen.loaderOwned ==> s.screen.component.value >= |changed.screen.built|)
            && (AcceptsNone(cfg, changed, after) ==> NothingDelivered(s))
  {
    RunsAreSound(cfg, changed, after);
    RunBuiltSince(cfg, changed, after, |changed.screen.built|);
    if AcceptsNone(cfg, changed, after) {
      RunDeliversNothing(cfg, changed, after);
    }
  }
}
