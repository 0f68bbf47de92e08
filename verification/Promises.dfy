/**
 Promise chains (src/consumer/promise.cpp), the trace a callback runs under (src/consumer/tracescope.cpp)
 and the facade that abandons what an old Replica still owed (src/consumer/consumerbase.cpp).

 Promises live on the heap and settle recursively. Callbacks are functions of their argument.
 */
module Promises {
  import opened Prelude

  type Trace = string

  datatype Outcome = Pending | Fulfilled(value: string) | Rejected(reason: string)

  /** What a callback is called with: without an engine there is nothing to convert the value with. */
  datatype Argument = Undefined | Of(text: string)

  datatype Answer = Returned(value: string) | Threw(reason: string)

  datatype Callback = NotCallable | Callable(run: Argument -> Answer)

  datatype Handler = Handler(callback: Callback, next: Promise, onRejected: bool)

  /** One run of a callback, and the trace that was installed while it ran. */
  datatype Call = Call(trace: Trace, argument: Argument)

  // ---------------------------------------------------------------------------------------------
  // The reference evaluator: what one link makes of an outcome
  // ---------------------------------------------------------------------------------------------

  predicate RunsOn(outcome: Outcome, onRejected: bool) {
    (outcome.Fulfilled? && !onRejected) || (outcome.Rejected? && onRejected)
  }

  function ArgumentOf(outcome: Outcome, engine: bool): Argument
    requires !outcome.Pending?
  {
    if !engine then Undefined else Of(if outcome.Fulfilled? then outcome.value else outcome.reason)
  }

  function OutcomeOf(answer: Answer): Outcome {
    match answer
    case Returned(value) => Fulfilled(value)
    case Threw(reason) => Rejected(reason)
  }

  function Evaluate(outcome: Outcome, engine: bool, callback: Callback, onRejected: bool): Outcome {
    if RunsOn(outcome, onRejected) && callback.Callable?
    then OutcomeOf(callback.run(ArgumentOf(outcome, engine)))
    else outcome
  }

  /** The callback runs that settling the next promise takes: one, or none. */
  function Runs(outcome: Outcome, engine: bool, trace: Trace, callback: Callback, onRejected: bool): seq<Call> {
    if RunsOn(outcome, onRejected) && callback.Callable? then [Call(trace, ArgumentOf(outcome, engine))] else []
  }

  // ---------------------------------------------------------------------------------------------
  // The promises of a thread, as values
  // ---------------------------------------------------------------------------------------------

  /** Where a promise stands: what it was made with, the promise it was chained from and every handler
      ever attached to it, in order. */
  datatype Place = Place(engine: bool, trace: Trace, parent: Option<Promise>, birth: nat, links: seq<Handler>)

  /** How a promise stands. `dispatches` and `runs` count what the parent's handler did on its behalf. */
  datatype State = State(outcome: Outcome, handlers: seq<Handler>, disposalScheduled: bool, dispatches: nat,
                         runs: seq<Call>)

  type Tree = map<Promise, Place>
  type World = map<Promise, State>

  ghost predicate IsLink(t: Tree, older p: Promise, i: int) {
    p in t && 0 <= i < |t[p].links|
  }

  /** Each chained promise hangs from one handler of one older promise, and inherits its engine. */
  ghost predicate Shape(t: Tree) {
    && (forall p, i :: IsLink(t, p, i) ==>
          var next := t[p].links[i].next;
          next in t && t[next].parent == Some(p) && t[next].birth > t[p].birth && t[next].engine == t[p].engine)
    && (forall p, i, j :: IsLink(t, p, i) && IsLink(t, p, j) && i < j ==> t[p].links[i].next != t[p].links[j].next)
  }

  ghost function Result(place: Place, state: State, handler: Handler): Outcome {
    Evaluate(state.outcome, place.engine, handler.callback, handler.onRejected)
  }

  /** What a promise's state says of itself. */
  ghost predicate Settles(place: Place, state: State, due: bool, inProgress: bool) {
    && (due ==> state.outcome == Pending && place.parent.Some?)
    && (state.outcome == Pending ==> state.handlers == place.links && !state.disposalScheduled)
    && (state.outcome != Pending && !inProgress ==> state.handlers == [] && state.disposalScheduled)
    && (place.parent.None? ==> state.dispatches == 0 && state.runs == [])
  }

  /** What it says of a promise chained from it: dispatched once, and only once it settled. */
  ghost predicate Follows(place: Place, state: State, handler: Handler, next: State, due: bool, inProgress: bool) {
    if state.outcome == Pending || due then
      && (state.outcome == Pending ==> !due && !inProgress)
      && next.outcome == Pending && next.dispatches == 0 && next.runs == []
    else
      && next.dispatches == 1
      && next.runs == Runs(state.outcome, place.engine, place.trace, handler.callback, handler.onRejected)
      && (next.outcome == Result(place, state, handler) || (inProgress && next.outcome == Pending))
  }

  /** `todo` holds chained promises whose parent has settled and which have not been dispatched yet,
      `busy` the promises whose settlement is in progress. */
  ghost predicate Consistent(t: Tree, w: World, todo: set<Promise>, busy: set<Promise>) {
    && Shape(t) && w.Keys == t.Keys && todo !! busy
    && (forall p :: p in w ==> Settles(t[p], w[p], p in todo, p in busy))
    && (forall p, i :: IsLink(t, p, i) ==> Holds(t, w, p, i, todo, busy))
  }

  ghost predicate Holds(t: Tree, w: World, p: Promise, i: int, todo: set<Promise>, busy: set<Promise>)
    requires IsLink(t, p, i)
  {
    var h := t[p].links[i];
    p in w && h.next in w && Follows(t[p], w[p], h, w[h.next], h.next in todo, h.next in busy)
  }

  /** Nothing owed, nothing in progress. */
  ghost predicate AtRest(t: Tree, w: World) {
    Consistent(t, w, {}, {})
  }

  /** A set that holds the promises `due`, all that was chained from its members, and not `p`. */
  ghost predicate Below(t: Tree, p: Promise, due: set<Promise>, below: set<Promise>) {
    && p in t && p !in below && due <= below <= t.Keys
    && (forall q, i :: IsLink(t, q, i) && q in below ==> t[q].links[i].next in below)
  }

  lemma BelowNext(t: Tree, p: Promise, k: nat, below: set<Promise>)
    requires Shape(t) && IsLink(t, p, k)
    requires var next := t[p].links[k].next; Below(t, p, {next}, below)
    ensures var next := t[p].links[k].next; next in t && Below(t, next, Nexts(t[next].links), below - {next})
  {
    OneLink(t, p, k);
    var next := t[p].links[k].next;
    forall q | q in Nexts(t[next].links) ensures q in below - {next} {
      var i :| 0 <= i < |t[next].links| && t[next].links[i].next == q;
      assert IsLink(t, next, i);
    }
  }

  /** No promise that had settled has changed its mind. */
  ghost predicate Onward(w: World, w': World) {
    w'.Keys == w.Keys && forall p :: p in w && w[p].outcome != Pending ==> w'[p].outcome == w[p].outcome
  }

  /** The promises some handlers lead to. */
  ghost function Nexts(handlers: seq<Handler>): set<Promise> {
    set i | 0 <= i < |handlers| :: handlers[i].next
  }

  lemma NextsGrow(handlers: seq<Handler>, i: nat)
    requires i < |handlers|
    ensures Nexts(handlers[..i + 1]) == Nexts(handlers[..i]) + {handlers[i].next}
  {
    assert handlers[..i + 1] == handlers[..i] + [handlers[i]];
    forall p | p in Nexts(handlers[..i]) + {handlers[i].next} ensures p in Nexts(handlers[..i + 1]) {
      if p == handlers[i].next {
        assert handlers[..i + 1][i].next == p;
      } else {
        var j :| 0 <= j < i && handlers[..i][j].next == p;
        assert handlers[..i + 1][j].next == p;
      }
    }
  }

  /** The last of the handlers. */
  ghost predicate Tail(taken: seq<Handler>, links: seq<Handler>) {
    |taken| <= |links| && taken == links[|links| - |taken|..]
  }

  /** The next handler of the tail leads to a promise that is still due. */
  lemma StillDue(t: Tree, p: Promise, taken: seq<Handler>, i: nat, todo: set<Promise>)
    requires Shape(t) && p in t && Tail(taken, t[p].links) && i < |taken| && Nexts(taken) <= todo
    ensures var k := |t[p].links| - |taken| + i; IsLink(t, p, k) && t[p].links[k] == taken[i]
    ensures taken[i].next in todo - Nexts(taken[..i])
    ensures todo - Nexts(taken[..i]) - {taken[i].next} == todo - Nexts(taken[..i + 1])
  {
    var k := |t[p].links| - |taken| + i;
    assert IsLink(t, p, k) && t[p].links[k] == taken[i];
    forall j | 0 <= j < i ensures taken[..i][j].next != taken[i].next {
      assert IsLink(t, p, k - i + j) && t[p].links[k - i + j] == taken[j];
    }
    NextsGrow(taken, i);
  }

  lemma Without(s: set<Promise>, p: Promise)
    requires p !in s
    ensures s + {p} - {p} == s
  {
  }

  // What each write does to the invariant.

  /** A link between two promises that were not rewritten says what it said. */
  lemma LinkKept(t: Tree, w: World, p: Promise, state: State, q: Promise, i: int,
                 todo: set<Promise>, busy: set<Promise>, todo': set<Promise>, busy': set<Promise>)
    requires IsLink(t, q, i) && Holds(t, w, q, i, todo, busy) && p != q && t[q].links[i].next != p
    requires t[q].links[i].next in todo' <==> t[q].links[i].next in todo
    requires t[q].links[i].next in busy' <==> t[q].links[i].next in busy
    ensures Holds(t, w[p := state], q, i, todo', busy')
  {
  }

  /** Only the rewritten promise, the ones chained from it and its own parent need to be looked at. */
  lemma Rewritten(t: Tree, w: World, p: Promise, state: State,
                  todo: set<Promise>, busy: set<Promise>, todo': set<Promise>, busy': set<Promise>)
    requires Consistent(t, w, todo, busy) && p in w && todo' !! busy'
    requires Settles(t[p], state, p in todo', p in busy')
    requires forall q :: q in w && q != p ==> Settles(t[q], w[q], q in todo', q in busy')
    requires forall q :: q in w && q != p && t[q].parent != Some(p) ==>
               (q in todo' <==> q in todo) && (q in busy' <==> q in busy)
    requires forall i :: IsLink(t, p, i) ==> Holds(t, w[p := state], p, i, todo', busy')
    requires forall q, i :: IsLink(t, q, i) && t[q].links[i].next == p ==> Holds(t, w[p := state], q, i, todo', busy')
    ensures Consistent(t, w[p := state], todo', busy')
  {
    forall q: Promise, i | IsLink(t, q, i) ensures Holds(t, w[p := state], q, i, todo', busy') {
      var next := t[q].links[i].next;
      if q != p && next != p {
        assert next in w && t[next].parent == Some(q);
        LinkKept(t, w, p, state, q, i, todo, busy, todo', busy');
      }
    }
  }

  /** The outcome the parent's handler leads to, if there is a parent. */
  ghost predicate Owed(t: Tree, w: World, p: Promise, outcome: Outcome) {
    forall q, i :: IsLink(t, q, i) && q in w && t[q].links[i].next == p ==> outcome == Result(t[q], w[q], t[q].links[i])
  }

  /** Taking an outcome makes every chained promise due. */
  lemma SettlingOpens(t: Tree, w: World, p: Promise, outcome: Outcome, todo: set<Promise>, busy: set<Promise>)
    requires Consistent(t, w, todo, busy) && p in w && p in busy
    requires w[p].outcome == Pending && outcome != Pending && Owed(t, w, p, outcome)
    ensures var due := Nexts(t[p].links);
            && Consistent(t, w[p := w[p].(outcome := outcome)], todo + due, busy)
            && todo + due - due == todo && w[p].handlers == t[p].links
  {
    var due := Nexts(t[p].links);
    forall q | q in due ensures q in w && w[q].outcome == Pending && t[q].parent.Some? && q !in busy && q !in todo {
      var i :| 0 <= i < |t[p].links| && t[p].links[i].next == q;
      assert IsLink(t, p, i) && Holds(t, w, p, i, todo, busy);
    }
    assert forall i :: IsLink(t, p, i) ==> Holds(t, w, p, i, todo, busy);
    assert forall q: Promise, i :: IsLink(t, q, i) && t[q].links[i].next == p ==> Holds(t, w, q, i, todo, busy);
    Rewritten(t, w, p, w[p].(outcome := outcome), todo, busy, todo + due, busy);
  }

  /** A promise that has settled drops its handlers. */
  lemma ClearingKeeps(t: Tree, w: World, p: Promise, todo: set<Promise>, busy: set<Promise>)
    requires Consistent(t, w, todo, busy) && p in w && p in busy && w[p].outcome != Pending
    ensures Consistent(t, w[p := w[p].(handlers := [])], todo, busy)
  {
    assert forall i :: IsLink(t, p, i) ==> Holds(t, w, p, i, todo, busy);
    assert forall q: Promise, i :: IsLink(t, q, i) && t[q].links[i].next == p ==> Holds(t, w, q, i, todo, busy);
    Rewritten(t, w, p, w[p].(handlers := []), todo, busy, todo, busy);
  }

  /** With the disposal scheduled the settlement is over. */
  lemma SchedulingCloses(t: Tree, w: World, p: Promise, todo: set<Promise>, busy: set<Promise>)
    requires Consistent(t, w, todo, busy) && p in w && p in busy && w[p].outcome != Pending && w[p].handlers == []
    ensures Consistent(t, w[p := w[p].(disposalScheduled := true)], todo, busy - {p})
  {
    assert forall i :: IsLink(t, p, i) ==> Holds(t, w, p, i, todo, busy);
    assert forall q: Promise, i :: IsLink(t, q, i) && t[q].links[i].next == p ==> Holds(t, w, q, i, todo, busy);
    Rewritten(t, w, p, w[p].(disposalScheduled := true), todo, busy, todo, busy - {p});
  }

  /** A chained promise hangs from one link. */
  lemma OneLink(t: Tree, p: Promise, k: nat)
    requires Shape(t) && IsLink(t, p, k)
    ensures forall q: Promise, i :: IsLink(t, q, i) && t[q].links[i].next == t[p].links[k].next ==> q == p && i == k
  {
  }

  lemma NextIsYounger(t: Tree, p: Promise, k: nat)
    requires Shape(t) && IsLink(t, p, k)
    ensures var next := t[p].links[k].next; next in t && t[next].birth > t[p].birth
  {
  }

  ghost function Started(t: Tree, w: World, p: Promise, h: Handler): State
    requires p in t && p in w && h.next in w
  {
    w[h.next].(dispatches := 1, runs := Runs(w[p].outcome, t[p].engine, t[p].trace, h.callback, h.onRejected))
  }

  /** Counting the dispatch, and the run of the callback if there is one, puts the next promise in progress. */
  lemma DispatchingStarts(t: Tree, w: World, p: Promise, k: nat, todo: set<Promise>, busy: set<Promise>)
    requires Consistent(t, w, todo, busy) && IsLink(t, p, k) && w[p].outcome != Pending && t[p].links[k].next in todo
    ensures var next := t[p].links[k].next; next in w && next != p && w[next].outcome == Pending
    ensures var next := t[p].links[k].next; w[next].dispatches == 0 && w[next].runs == []
    ensures var h := t[p].links[k]; Consistent(t, w[h.next := Started(t, w, p, h)], todo - {h.next}, busy + {h.next})
    ensures var h := t[p].links[k]; Owed(t, w[h.next := Started(t, w, p, h)], h.next, Result(t[p], w[p], h))
  {
    var h := t[p].links[k];
    assert Holds(t, w, p, k, todo, busy);
    OneLink(t, p, k);
    assert forall i :: IsLink(t, h.next, i) ==> Holds(t, w, h.next, i, todo, busy);
    Rewritten(t, w, h.next, Started(t, w, p, h), todo, busy, todo - {h.next}, busy + {h.next});
  }

  const NEWBORN := State(Pending, [], false, 0, [])

  /** A promise of its own. */
  lemma RootAdded(t: Tree, w: World, p: Promise, place: Place)
    requires AtRest(t, w) && p !in t && place.links == [] && place.parent == None
    ensures AtRest(t[p := place], w[p := NEWBORN])
  {
    var t' := t[p := place];
    assert forall q: Promise, i :: IsLink(t', q, i) <==> IsLink(t, q, i);
    assert forall q: Promise, i :: IsLink(t, q, i) ==> Holds(t, w, q, i, {}, {});
  }

  ghost function Chained(t: Tree, p: Promise, h: Handler, place: Place): Tree
    requires p in t
  {
    var t := t[h.next := place];
    t[p := t[p].(links := t[p].links + [h])]
  }

  lemma ChainedShape(t: Tree, p: Promise, h: Handler, place: Place)
    requires Shape(t) && p in t && h.next !in t && place.links == []
    requires place.parent == Some(p) && place.birth > t[p].birth && place.engine == t[p].engine
    ensures Shape(Chained(t, p, h, place))
    ensures forall q: Promise, i :: IsLink(Chained(t, p, h, place), q, i) ==>
        if q == p && i == |t[p].links| then Chained(t, p, h, place)[q].links[i] == h
        else IsLink(t, q, i) && Chained(t, p, h, place)[q].links[i] == t[q].links[i]
  {
    ChainedLinks(t, p, h, place);
    var t' := Chained(t, p, h, place);
    forall q: Promise, i, j | IsLink(t', q, i) && IsLink(t', q, j) && i < j
      ensures t'[q].links[i].next != t'[q].links[j].next
    {
      assert IsLink(t, q, i);
      assert t[q].links[i].next in t;
    }
  }

  lemma ChainedLinks(t: Tree, p: Promise, h: Handler, place: Place)
    requires p in t && h.next !in t && place.links == []
    ensures forall q: Promise, i :: IsLink(Chained(t, p, h, place), q, i) ==>
        if q == p && i == |t[p].links| then Chained(t, p, h, place)[q].links[i] == h
        else IsLink(t, q, i) && Chained(t, p, h, place)[q].links[i] == t[q].links[i]
  {
  }

  ghost function ChainedWorld(w: World, p: Promise, h: Handler): World
    requires p in w
  {
    var w := w[h.next := NEWBORN];
    w[p := w[p].(handlers := w[p].handlers + [h])]
  }

  /** A promise chained from another: pending with it, or due at once. */
  lemma ChainingKeeps(t: Tree, w: World, p: Promise, h: Handler, place: Place, todo: set<Promise>, busy: set<Promise>)
    requires AtRest(t, w) && p in t && h.next !in t && place.links == []
    requires place.parent == Some(p) && place.birth > t[p].birth && place.engine == t[p].engine
    requires if w[p].outcome == Pending then todo == busy == {} else todo == {h.next} && busy == {p}
    ensures Consistent(Chained(t, p, h, place), ChainedWorld(w, p, h), todo, busy)
    ensures w[p].outcome != Pending ==> w[p].handlers == []
  {
    var t', w' := Chained(t, p, h, place), ChainedWorld(w, p, h);
    ChainedShape(t, p, h, place);
    forall q: Promise, i | IsLink(t', q, i) ensures Holds(t', w', q, i, todo, busy) {
      if !(q == p && i == |t[p].links|) {
        assert IsLink(t, q, i) && t'[q].links[i] == t[q].links[i];
        assert Holds(t, w, q, i, {}, {});
      }
    }
  }

  lemma NextsOfOne(h: Handler)
    ensures Nexts([h]) == {h.next}
  {
    assert [h][0] == h;
  }

  lemma NewestFollows(t: Tree, t': Tree, w: World, p: Promise, h: Handler, place: Place)
    requires p in t && h.next != p && t' == Chained(t, p, h, place) && AtRest(t', w)
    ensures p in w && h.next in w && w[h.next].outcome == Evaluate(w[p].outcome, t[p].engine, h.callback, h.onRejected)
  {
    assert IsLink(t', p, |t[p].links|);
    assert Holds(t', w, p, |t[p].links|, {}, {});
  }

  /** A promise of its own may start to settle at any time. */
  lemma RootStarts(t: Tree, w: World, p: Promise)
    requires AtRest(t, w) && p in t && t[p].parent == None
    ensures Consistent(t, w, {}, {p})
    ensures forall outcome :: Owed(t, w, p, outcome)
  {
    forall q: Promise, i | IsLink(t, q, i) ensures Holds(t, w, q, i, {}, {p}) {
      assert Holds(t, w, q, i, {}, {});
    }
  }

  /** A set of promises that holds what was chained from them. */
  ghost predicate Closed(t: Tree, region: set<Promise>) {
    region <= t.Keys && forall p, i :: IsLink(t, p, i) && p in region ==> t[p].links[i].next in region
  }

  /** The chained promises of a region. */
  ghost function ChainedIn(t: Tree, region: set<Promise>): set<Promise> {
    set p | p in region && p in t && t[p].parent.Some?
  }

  lemma RootsTopTheirRegion(t: Tree, p: Promise, region: set<Promise>)
    requires Shape(t) && Closed(t, region) && p in region && t[p].parent == None
    ensures Below(t, p, Nexts(t[p].links), ChainedIn(t, region))
  {
    forall q | q in Nexts(t[p].links) ensures q in ChainedIn(t, region) {
      var i :| 0 <= i < |t[p].links| && t[p].links[i].next == q;
      assert IsLink(t, p, i);
    }
  }

  /** Of the promises of their own, only `p` may have changed. */
  ghost predicate OnlyRoot(t: Tree, w: World, w': World, p: Promise) {
    w'.Keys == w.Keys == t.Keys && forall q :: q in t && q != p && t[q].parent == None ==> w'[q] == w[q]
  }

  /** The first `n` promises have the given outcome, unless they had one before; the others are as they were. */
  ghost predicate Abandoned(w: World, w': World, held: seq<Promise>, n: int, reason: Outcome) {
    && w'.Keys == w.Keys
    && forall i :: 0 <= i < |held| && held[i] in w ==>
         w'[held[i]].outcome == if i < n && w[held[i]].outcome == Pending then reason else w[held[i]].outcome
  }

  ghost predicate HeldRoots(t: Tree, region: set<Promise>, held: seq<Promise>) {
    && (forall i :: 0 <= i < |held| ==> held[i] in region && held[i] in t && t[held[i]].parent == None)
    && (forall i, j :: 0 <= i < j < |held| ==> held[i] != held[j])
  }

  lemma AbandonOne(t: Tree, w: World, w1: World, w2: World, region: set<Promise>, held: seq<Promise>, n: nat,
                   reason: Outcome)
    requires HeldRoots(t, region, held) && n < |held| && w.Keys == t.Keys
    requires Abandoned(w, w1, held, n, reason) && OnlyRoot(t, w1, w2, held[n])
    requires w2[held[n]].outcome == if w1[held[n]].outcome == Pending then reason else w1[held[n]].outcome
    ensures Abandoned(w, w2, held, n + 1, reason)
  {
  }

  // ---------------------------------------------------------------------------------------------
  // What holds whenever nothing is in progress
  // ---------------------------------------------------------------------------------------------

  /** The evaluator along a chain of handlers. */
  ghost function Chain(outcome: Outcome, engine: bool, handlers: seq<Handler>): Outcome
    decreases |handlers|
  {
    if handlers == [] then outcome
    else Chain(Evaluate(outcome, engine, handlers[0].callback, handlers[0].onRejected), engine, handlers[1..])
  }

  /** The handlers lead, one attached to the promise before it, from `p` to `last`. */
  ghost predicate Leads(t: Tree, p: Promise, handlers: seq<Handler>, last: Promise)
    decreases |handlers|
  {
    p in t &&
    if handlers == [] then p == last
    else
      && (exists i :: IsLink(t, p, i) && t[p].links[i] == handlers[0])
      && Leads(t, handlers[0].next, handlers[1..], last)
  }

  /** Whatever the order in which handlers were attached and promises settled, the outcome of a promise is
      the evaluator's along the path that leads to it. */
  lemma {:induction false} OutcomeIsTheChains(t: Tree, w: World, p: Promise, handlers: seq<Handler>, last: Promise)
    requires AtRest(t, w) && Leads(t, p, handlers, last)
    ensures p in w && last in w && w[last].outcome == Chain(w[p].outcome, t[p].engine, handlers)
    decreases |handlers|
  {
    if handlers != [] {
      var i :| IsLink(t, p, i) && t[p].links[i] == handlers[0];
      assert Holds(t, w, p, i, {}, {});
      OutcomeIsTheChains(t, w, handlers[0].next, handlers[1..], last);
    }
  }

  /** The evaluator answers as soon as there is something to evaluate, and not before. */
  lemma {:induction false} ChainsSettleTogether(outcome: Outcome, engine: bool, handlers: seq<Handler>)
    ensures Chain(outcome, engine, handlers) == Pending <==> outcome == Pending
    decreases |handlers|
  {
    if handlers != [] {
      ChainsSettleTogether(Evaluate(outcome, engine, handlers[0].callback, handlers[0].onRejected), engine,
                           handlers[1..]);
    }
  }

  /** Nothing chained from a promise that has settled is pending, and nothing chained from a pending one is not. */
  lemma SettledAllTheWayDown(t: Tree, w: World, p: Promise, handlers: seq<Handler>, last: Promise)
    requires AtRest(t, w) && Leads(t, p, handlers, last)
    ensures p in w && last in w && (w[last].outcome == Pending <==> w[p].outcome == Pending)
  {
    OutcomeIsTheChains(t, w, p, handlers, last);
    ChainsSettleTogether(w[p].outcome, t[p].engine, handlers);
  }

  /** Two histories that made the same chain of callbacks on promises with the same outcome agree at its end. */
  lemma {:induction false} HistoryDoesNotMatter(t: Tree, w: World, p: Promise, handlers: seq<Handler>, last: Promise,
                                                t': Tree, w': World, p': Promise, handlers': seq<Handler>,
                                                last': Promise)
    requires AtRest(t, w) && Leads(t, p, handlers, last)
    requires AtRest(t', w') && Leads(t', p', handlers', last')
    requires |handlers| == |handlers'|
    requires forall i :: 0 <= i < |handlers| ==>
               handlers[i].callback == handlers'[i].callback && handlers[i].onRejected == handlers'[i].onRejected
    requires p in w && p' in w' && w[p].outcome == w'[p'].outcome && t[p].engine == t'[p'].engine
    ensures last in w && last' in w' && w[last].outcome == w'[last'].outcome
    decreases |handlers|
  {
    OutcomeIsTheChains(t, w, p, handlers, last);
    OutcomeIsTheChains(t', w', p', handlers', last');
    ChainsAgree(w[p].outcome, t[p].engine, handlers, handlers');
  }

  lemma {:induction false} ChainsAgree(outcome: Outcome, engine: bool, handlers: seq<Handler>, handlers': seq<Handler>)
    requires |handlers| == |handlers'|
    requires forall i :: 0 <= i < |handlers| ==>
               handlers[i].callback == handlers'[i].callback && handlers[i].onRejected == handlers'[i].onRejected
    ensures Chain(outcome, engine, handlers) == Chain(outcome, engine, handlers')
    decreases |handlers|
  {
    if handlers != [] {
      ChainsAgree(Evaluate(outcome, engine, handlers[0].callback, handlers[0].onRejected), engine, handlers[1..],
                  handlers'[1..]);
    }
  }

  /** What the next promise becomes, branch by branch: a handler that is called with the value or the reason (with
      nothing, where there is no engine) fulfils it with what it returns and rejects it with what it throws; and an
      outcome the handler is not for passes unchanged. */
  ghost predicate Becomes(outcome: Outcome, engine: bool, callback: Callback, onRejected: bool, next: Outcome) {
    && (callback.NotCallable? || outcome.Pending? || outcome.Fulfilled? == onRejected ==> next == outcome)
    && (callback.Callable? && outcome.Fulfilled? && !onRejected ==>
          var answer := callback.run(if engine then Of(outcome.value) else Undefined);
          && (answer.Returned? ==> next == Fulfilled(answer.value))
          && (answer.Threw? ==> next == Rejected(answer.reason)))
    && (callback.Callable? && outcome.Rejected? && onRejected ==>
          var answer := callback.run(if engine then Of(outcome.reason) else Undefined);
          && (answer.Returned? ==> next == Fulfilled(answer.value))
          && (answer.Threw? ==> next == Rejected(answer.reason)))
  }

  lemma EvaluatedBecomes(outcome: Outcome, engine: bool, callback: Callback, onRejected: bool)
    ensures Becomes(outcome, engine, callback, onRejected, Evaluate(outcome, engine, callback, onRejected))
    ensures forall next :: Becomes(outcome, engine, callback, onRejected, next) ==>
              next == Evaluate(outcome, engine, callback, onRejected)
  {
  }

  /** So it does for every handler of every promise whenever nothing is in progress, and its callback was called with
      that value or reason. */
  lemma EveryHandlerBecomes(t: Tree, w: World, p: Promise, i: int)
    requires AtRest(t, w) && IsLink(t, p, i)
    ensures var h := t[p].links[i];
            && p in w && h.next in w
            && Becomes(w[p].outcome, t[p].engine, h.callback, h.onRejected, w[h.next].outcome)
            && forall j :: 0 <= j < |w[h.next].runs| ==>
                 w[h.next].runs[j].argument ==
                 (if !t[p].engine then Undefined
                  else if w[p].outcome.Fulfilled? then Of(w[p].outcome.value)
                  else if w[p].outcome.Rejected? then Of(w[p].outcome.reason) else Undefined)
  {
    assert Holds(t, w, p, i, {}, {});
    var h := t[p].links[i];
    EvaluatedBecomes(w[p].outcome, t[p].engine, h.callback, h.onRejected);
  }

  /** A handler is dispatched once its promise has settled, once and for all; its callback runs at most once,
      under the trace its promise was made under. */
  lemma DispatchedOnce(t: Tree, w: World, p: Promise, i: int)
    requires AtRest(t, w) && IsLink(t, p, i)
    ensures var h := t[p].links[i];
            && p in w && h.next in w
            && w[h.next].dispatches == (if w[p].outcome == Pending then 0 else 1)
            && |w[h.next].runs| == (if RunsOn(w[p].outcome, h.onRejected) && h.callback.Callable? then 1 else 0)
            && forall j :: 0 <= j < |w[h.next].runs| ==> w[h.next].runs[j].trace == t[p].trace
  {
    assert Holds(t, w, p, i, {}, {});
  }

  // ---------------------------------------------------------------------------------------------
  // The objects
  // ---------------------------------------------------------------------------------------------

  /** The thread: the trace installed on it, and the promises made on it. */
  class Runtime {
    var installed: Trace
    ghost var tree: Tree
    ghost var world: World
    ghost var clock: nat

    constructor (trace: Trace)
      ensures installed == trace && tree == map[] && Valid({}, {})
    {
      installed := trace;
      tree, world, clock := map[], map[], 0;
    }

    /** The world is what the promises on the heap hold. */
    ghost predicate Mirrors()
      reads this`tree, this`world, this`clock, world.Keys
    {
      && (forall p {:trigger world[p]} :: p in world ==> p.Is(world[p]))
      && (forall p {:trigger tree[p]} :: p in tree ==>
          p.engine == tree[p].engine && p.trace == tree[p].trace && p.birth == tree[p].birth < clock)
    }

    ghost predicate Valid(todo: set<Promise>, busy: set<Promise>)
      reads this`tree, this`world, this`clock, world.Keys
    {
      Mirrors() && Consistent(tree, world, todo, busy)
    }
  }

  /** Installs a trace for as long as the object lives. */
  class TraceScope {
    const runtime: Runtime
    const displaced: Trace

    constructor (runtime: Runtime, context: Trace)
      modifies runtime`installed
      ensures this.runtime == runtime && displaced == old(runtime.installed) && runtime.installed == context
    {
      this.runtime := runtime;
      displaced := runtime.installed;
      new;
      runtime.installed := context;
    }

    /** The destructor. */
    method Leave()
      modifies runtime`installed
      ensures runtime.installed == displaced
    {
      runtime.installed := displaced;
    }
  }

  class Promise {
    const engine: bool
    const trace: Trace
    var outcome: Outcome
    var handlers: seq<Handler>
    var disposalScheduled: bool
    ghost const birth: nat
    ghost var dispatches: nat
    ghost var runs: seq<Call>

    constructor (runtime: Runtime, engine: bool)
      ensures this.engine == engine && trace == runtime.installed && birth == runtime.clock && Is(NEWBORN)
    {
      this.engine, this.trace, birth := engine, runtime.installed, runtime.clock;
      outcome, handlers, disposalScheduled, dispatches, runs := Pending, [], false, 0, [];
    }

    ghost predicate Is(state: State)
      reads this
    {
      && outcome == state.outcome && handlers == state.handlers && disposalScheduled == state.disposalScheduled
      && dispatches == state.dispatches && runs == state.runs
    }

    /** The first settlement wins; a later one changes nothing. */
    method Settle(runtime: Runtime, settled: Outcome,
                  ghost todo: set<Promise>, ghost busy: set<Promise>, ghost below: set<Promise>)
      requires runtime.Valid(todo, busy) && this in runtime.tree
               && Below(runtime.tree, this, Nexts(runtime.tree[this].links), below)
      requires settled != Pending
      requires outcome == Pending ==> this in busy && Owed(runtime.tree, runtime.world, this, settled)
      modifies runtime`installed, runtime`world, this, below
      ensures runtime.Valid(todo, if old(outcome) == Pending then busy - {this} else busy)
      ensures Onward(old(runtime.world), runtime.world)
      ensures runtime.installed == old(runtime.installed)
      ensures outcome == if old(outcome) == Pending then settled else old(outcome)
      decreases runtime.clock - birth, 7
    {
      if outcome == Pending {
        SettlePending(runtime, settled, todo, busy, below);
      }
    }

    method SettlePending(runtime: Runtime, settled: Outcome,
                         ghost todo: set<Promise>, ghost busy: set<Promise>, ghost below: set<Promise>)
      requires runtime.Valid(todo, busy) && this in runtime.tree
               && Below(runtime.tree, this, Nexts(runtime.tree[this].links), below)
      requires outcome == Pending && settled != Pending && this in busy
               && Owed(runtime.tree, runtime.world, this, settled)
      modifies runtime`installed, runtime`world, this, below
      ensures runtime.Valid(todo, busy - {this})
      ensures Onward(old(runtime.world), runtime.world)
      ensures runtime.installed == old(runtime.installed) && outcome == settled
      decreases runtime.clock - birth, 6
    {
      ghost var due := Nexts(handlers);
      TakeOutcome(runtime, settled, todo, busy);
      Flush(runtime, due, todo + due, busy, below);
    }

    method TakeOutcome(runtime: Runtime, settled: Outcome, ghost todo: set<Promise>, ghost busy: set<Promise>)
      requires runtime.Valid(todo, busy) && this in busy && this in runtime.world
      requires outcome == Pending && settled != Pending && Owed(runtime.tree, runtime.world, this, settled)
      modifies runtime`world, this`outcome
      ensures outcome == settled && handlers == runtime.tree[this].links
      ensures runtime.Valid(todo + Nexts(handlers), busy) && todo + Nexts(handlers) - Nexts(handlers) == todo
      ensures Onward(old(runtime.world), runtime.world)
    {
      SettlingOpens(runtime.tree, runtime.world, this, settled, todo, busy);
      SetOutcome(runtime, settled);
    }

    method SetOutcome(runtime: Runtime, settled: Outcome)
      requires runtime.Mirrors() && this in runtime.world
      modifies runtime`world, this`outcome
      ensures runtime.Mirrors() && outcome == settled
      ensures runtime.world == old(runtime.world)[this := old(runtime.world)[this].(outcome := settled)]
    {
      outcome := settled;
      runtime.world := runtime.world[this := runtime.world[this].(outcome := settled)];
    }

    /** Every handler taken once. They are the last ones attached. */
    method Flush(runtime: Runtime, ghost due: set<Promise>,
                 ghost todo: set<Promise>, ghost busy: set<Promise>, ghost below: set<Promise>)
      requires runtime.Valid(todo, busy) && Below(runtime.tree, this, due, below)
      requires outcome != Pending && this in busy
      requires Tail(handlers, runtime.tree[this].links) && due == Nexts(handlers) && due <= todo
      modifies runtime`installed, runtime`world, this, below
      ensures runtime.Valid(todo - due, busy - {this})
      ensures Onward(old(runtime.world), runtime.world)
      ensures runtime.installed == old(runtime.installed) && outcome == old(outcome)
      decreases runtime.clock - birth, 5
    {
      var taken := TakeHandlers(runtime, todo, busy);
      DispatchTaken(runtime, taken, due, todo, busy, below);
    }

    method DispatchTaken(runtime: Runtime, taken: seq<Handler>, ghost due: set<Promise>,
                         ghost todo: set<Promise>, ghost busy: set<Promise>, ghost below: set<Promise>)
      requires runtime.Valid(todo, busy) && Below(runtime.tree, this, due, below)
      requires outcome != Pending && this in busy && handlers == []
      requires Tail(taken, runtime.tree[this].links) && due == Nexts(taken) && due <= todo
      modifies runtime`installed, runtime`world, this`disposalScheduled, below
      ensures runtime.Valid(todo - due, busy - {this})
      ensures Onward(old(runtime.world), runtime.world)
      ensures runtime.installed == old(runtime.installed)
      decreases runtime.clock - birth, 4
    {
      DispatchEach(runtime, taken, due, todo, busy, below);
      ScheduleDisposal(runtime, todo - due, busy);
    }

    method TakeHandlers(runtime: Runtime, ghost todo: set<Promise>, ghost busy: set<Promise>)
      returns (taken: seq<Handler>)
      requires runtime.Valid(todo, busy) && this in busy && this in runtime.world && outcome != Pending
      modifies runtime`world, this`handlers
      ensures taken == old(handlers) && handlers == []
      ensures runtime.Valid(todo, busy) && Onward(old(runtime.world), runtime.world)
    {
      ClearingKeeps(runtime.tree, runtime.world, this, todo, busy);
      taken := handlers;
      ClearHandlers(runtime);
    }

    method ClearHandlers(runtime: Runtime)
      requires runtime.Mirrors() && this in runtime.world
      modifies runtime`world, this`handlers
      ensures runtime.Mirrors() && handlers == []
      ensures runtime.world == old(runtime.world)[this := old(runtime.world)[this].(handlers := [])]
    {
      handlers := [];
      runtime.world := runtime.world[this := runtime.world[this].(handlers := [])];
    }

    method ScheduleDisposal(runtime: Runtime, ghost todo: set<Promise>, ghost busy: set<Promise>)
      requires runtime.Valid(todo, busy) && this in busy && this in runtime.world && outcome != Pending
               && handlers == []
      modifies runtime`world, this`disposalScheduled
      ensures disposalScheduled
      ensures runtime.Valid(todo, busy - {this}) && Onward(old(runtime.world), runtime.world)
    {
      SchedulingCloses(runtime.tree, runtime.world, this, todo, busy);
      MarkDisposal(runtime);
    }

    method MarkDisposal(runtime: Runtime)
      requires runtime.Mirrors() && this in runtime.world
      modifies runtime`world, this`disposalScheduled
      ensures runtime.Mirrors() && disposalScheduled
      ensures runtime.world == old(runtime.world)[this := old(runtime.world)[this].(disposalScheduled := true)]
    {
      if !disposalScheduled {
        disposalScheduled := true;
      }
      runtime.world := runtime.world[this := runtime.world[this].(disposalScheduled := true)];
    }

    method DispatchEach(runtime: Runtime, taken: seq<Handler>, ghost due: set<Promise>,
                        ghost todo: set<Promise>, ghost busy: set<Promise>, ghost below: set<Promise>)
      requires runtime.Valid(todo, busy) && Below(runtime.tree, this, due, below)
      requires outcome != Pending && this in busy
      requires Tail(taken, runtime.tree[this].links) && due == Nexts(taken) && due <= todo
      modifies runtime`installed, runtime`world, below
      ensures runtime.Valid(todo - due, busy)
      ensures Onward(old(runtime.world), runtime.world)
      ensures runtime.installed == old(runtime.installed)
      decreases runtime.clock - birth, 3
    {
      assert todo - Nexts(taken[..0]) == todo;
      for i := 0 to |taken|
        invariant runtime.Valid(todo - Nexts(taken[..i]), busy)
        invariant Onward(old(runtime.world), runtime.world)
        invariant runtime.installed == old(runtime.installed)
      {
        DispatchAt(runtime, taken, i, due, todo, busy, below);
      }
      assert taken[..|taken|] == taken;
    }

    method DispatchAt(runtime: Runtime, taken: seq<Handler>, i: nat, ghost due: set<Promise>,
                      ghost todo: set<Promise>, ghost busy: set<Promise>, ghost below: set<Promise>)
      requires i < |taken| && runtime.Valid(todo - Nexts(taken[..i]), busy) && Below(runtime.tree, this, due, below)
      requires outcome != Pending && this in busy
      requires Tail(taken, runtime.tree[this].links) && due == Nexts(taken) && due <= todo
      modifies runtime`installed, runtime`world, below
      ensures runtime.Valid(todo - Nexts(taken[..i + 1]), busy)
      ensures Onward(old(runtime.world), runtime.world)
      ensures runtime.installed == old(runtime.installed)
      decreases runtime.clock - birth, 2
    {
      StillDue(runtime.tree, this, taken, i, todo);
      Dispatch(runtime, taken[i], |runtime.tree[this].links| - |taken| + i, todo - Nexts(taken[..i]), busy, below);
    }

    /** Notes that the handler is dispatched, and the runs of its callback. */
    ghost method Note(runtime: Runtime, handler: Handler, k: nat, calls: seq<Call>, todo: set<Promise>,
                      busy: set<Promise>)
      requires runtime.Valid(todo, busy) && IsLink(runtime.tree, this, k) && handler == runtime.tree[this].links[k]
      requires outcome != Pending && handler.next in todo
      requires calls == Runs(outcome, engine, trace, handler.callback, handler.onRejected)
      modifies runtime`world, handler.next`dispatches, handler.next`runs
      ensures runtime.Valid(todo - {handler.next}, busy + {handler.next}) && Onward(old(runtime.world), runtime.world)
      ensures handler.next.outcome == Pending && handler.next.birth > birth && handler.next != this
              && handler.next !in busy
      ensures Owed(runtime.tree, runtime.world, handler.next,
                   Evaluate(outcome, engine, handler.callback, handler.onRejected))
    {
      ghost var w := runtime.world;
      DispatchingStarts(runtime.tree, w, this, k, todo, busy);
      NextIsYounger(runtime.tree, this, k);
      handler.next.Begin(runtime, calls);
      assert runtime.world == w[handler.next := Started(runtime.tree, w, this, handler)];
    }

    /** The one dispatch, with its runs. */
    ghost method Begin(runtime: Runtime, calls: seq<Call>)
      requires runtime.Mirrors() && this in runtime.world
      requires runtime.world[this].dispatches == 0 && runtime.world[this].runs == []
      modifies runtime`world, this`dispatches, this`runs
      ensures runtime.Mirrors()
      ensures runtime.world == old(runtime.world)[this := old(runtime.world)[this].(dispatches := 1, runs := calls)]
    {
      dispatches := dispatches + 1;
      runs := runs + calls;
      runtime.world := runtime.world[this := runtime.world[this].(dispatches := 1, runs := calls)];
    }

    /** A fulfilled value goes through an onFulfilled handler, a rejection through an onRejected one; anything
        else passes as it is. */
    method Dispatch(runtime: Runtime, handler: Handler, ghost k: nat,
                    ghost todo: set<Promise>, ghost busy: set<Promise>, ghost below: set<Promise>)
      requires runtime.Valid(todo, busy) && Below(runtime.tree, this, {handler.next}, below)
      requires outcome != Pending && this in busy
      requires IsLink(runtime.tree, this, k) && handler == runtime.tree[this].links[k] && handler.next in todo
      modifies runtime`installed, runtime`world, below
      ensures runtime.Valid(todo - {handler.next}, busy)
      ensures Onward(old(runtime.world), runtime.world)
      ensures runtime.installed == old(runtime.installed)
      decreases runtime.clock - birth, 1
    {
      var runsHere := (outcome.Fulfilled? && !handler.onRejected) || (outcome.Rejected? && handler.onRejected);
      if !runsHere || handler.callback.NotCallable? {
        SettleNext(runtime, handler, k, [], outcome, todo, busy, below);
        return;
      }
      var argument := if !engine then Undefined else Of(if outcome.Fulfilled? then outcome.value else outcome.reason);
      var scope := new TraceScope(runtime, trace);
      ghost var call := Call(runtime.installed, argument);
      var answer := handler.callback.run(argument);
      var settled := if answer.Threw? then Rejected(answer.reason) else Fulfilled(answer.value);
      SettleNext(runtime, handler, k, [call], settled, todo, busy, below);
      scope.Leave();
    }

    /** The end of a dispatch, whichever way it went. */
    method SettleNext(runtime: Runtime, handler: Handler, ghost k: nat, ghost calls: seq<Call>, settled: Outcome,
                      ghost todo: set<Promise>, ghost busy: set<Promise>, ghost below: set<Promise>)
      requires runtime.Valid(todo, busy) && Below(runtime.tree, this, {handler.next}, below)
      requires outcome != Pending && this in busy
      requires IsLink(runtime.tree, this, k) && handler == runtime.tree[this].links[k] && handler.next in todo
      requires calls == Runs(outcome, engine, trace, handler.callback, handler.onRejected)
      requires settled == Evaluate(outcome, engine, handler.callback, handler.onRejected)
      modifies runtime`installed, runtime`world, below
      ensures runtime.Valid(todo - {handler.next}, busy)
      ensures Onward(old(runtime.world), runtime.world)
      ensures runtime.installed == old(runtime.installed)
      decreases runtime.clock - birth, 0
    {
      ghost var next := handler.next;
      BelowNext(runtime.tree, this, k, below);
      Note(runtime, handler, k, calls, todo, busy);
      handler.next.Settle(runtime, settled, todo - {next}, busy + {next}, below - {next});
      Without(busy, next);
    }

    /** Adds a handler and the promise it leads to: `then`, and `catchError` with `onRejected`. */
    method AddHandler(runtime: Runtime, callback: Callback, onRejected: bool) returns (next: Promise)
      requires runtime.Valid({}, {}) && this in runtime.tree
      modifies runtime, this
      ensures fresh(next) && runtime.Valid({}, {}) && runtime.installed == old(runtime.installed)
      ensures runtime.tree == Chained(old(runtime.tree), this, Handler(callback, next, onRejected),
                                Place(engine, runtime.installed, Some(this), old(runtime.clock), []))
      ensures outcome == old(outcome)
      ensures next.outcome == Evaluate(outcome, engine, callback, onRejected)
      ensures Becomes(outcome, engine, callback, onRejected, next.outcome)
    {
      EvaluatedBecomes(outcome, engine, callback, onRejected);
      next := new Promise(runtime, engine);
      Hook(runtime, Handler(callback, next, onRejected));
      NewestFollows(old(runtime.tree), runtime.tree, runtime.world, this, Handler(callback, next, onRejected),
                    Place(engine, runtime.installed, Some(this), old(runtime.clock), []));
    }

    method Hook(runtime: Runtime, handler: Handler)
      requires runtime.Valid({}, {}) && this in runtime.tree && handler.next !in runtime.tree
      requires handler.next.Is(NEWBORN) && handler.next.engine == engine
      requires handler.next.birth == runtime.clock && handler.next.trace == runtime.installed
      modifies runtime, this, handler.next
      ensures runtime.Valid({}, {}) && runtime.installed == old(runtime.installed) && outcome == old(outcome)
      ensures runtime.tree == Chained(old(runtime.tree), this, handler,
                                      Place(engine, runtime.installed, Some(this), old(runtime.clock), []))
    {
      if outcome == Pending {
        Attach(runtime, handler, {}, {});
      } else {
        Attach(runtime, handler, {handler.next}, {this});
        FlushNewest(runtime, handler);
      }
    }

    method FlushNewest(runtime: Runtime, handler: Handler)
      requires runtime.Valid({handler.next}, {this}) && this in runtime.tree && handler.next in runtime.tree
               && handler.next != this
      requires outcome != Pending && handlers == [handler] && Tail([handler], runtime.tree[this].links)
      requires runtime.tree[handler.next].links == []
      modifies runtime`installed, runtime`world, this, handler.next
      ensures runtime.Valid({}, {}) && runtime.installed == old(runtime.installed) && outcome == old(outcome)
    {
      NextsOfOne(handler);
      ghost var due := {handler.next};
      Flush(runtime, due, due, {this}, due);
      assert due - due == {} && {this} - {this} == {};
    }

    method Attach(runtime: Runtime, handler: Handler, ghost todo: set<Promise>, ghost busy: set<Promise>)
      requires runtime.Valid({}, {}) && this in runtime.tree && handler.next !in runtime.tree
      requires handler.next.Is(NEWBORN) && handler.next.engine == engine
      requires handler.next.birth == runtime.clock && handler.next.trace == runtime.installed
      requires if outcome == Pending then todo == busy == {} else todo == {handler.next} && busy == {this}
      modifies runtime`tree, runtime`world, runtime`clock, this`handlers
      ensures runtime.tree == Chained(old(runtime.tree), this, handler,
                                      Place(engine, runtime.installed, Some(this), old(runtime.clock), []))
      ensures runtime.Valid(todo, busy) && runtime.clock > old(runtime.clock)
      ensures outcome != Pending ==> handlers == [handler]
    {
      ghost var place := Place(engine, runtime.installed, Some(this), runtime.clock, []);
      ChainingKeeps(runtime.tree, runtime.world, this, handler, place, todo, busy);
      Append(runtime, handler, place);
    }

    method Append(runtime: Runtime, handler: Handler, ghost place: Place)
      requires runtime.Mirrors() && runtime.world.Keys == runtime.tree.Keys
      requires this in runtime.tree && handler.next !in runtime.tree && handler.next.Is(NEWBORN)
      requires handler.next.engine == place.engine && handler.next.trace == place.trace
               && handler.next.birth == place.birth == runtime.clock
      modifies runtime`tree, runtime`world, runtime`clock, this`handlers
      ensures runtime.Mirrors() && runtime.clock == old(runtime.clock) + 1
      ensures runtime.tree == Chained(old(runtime.tree), this, handler, place)
      ensures runtime.world == ChainedWorld(old(runtime.world), this, handler)
      ensures handlers == old(handlers) + [handler]
    {
      handler.next.Register(runtime, place);
      Push(runtime, handler);
    }

    method Push(runtime: Runtime, handler: Handler)
      requires runtime.Mirrors() && runtime.world.Keys == runtime.tree.Keys && this in runtime.tree
      modifies runtime`tree, runtime`world, this`handlers
      ensures runtime.Mirrors() && handlers == old(handlers) + [handler]
      ensures var place := old(runtime.tree)[this];
              runtime.tree == old(runtime.tree)[this := place.(links := place.links + [handler])]
      ensures var state := old(runtime.world)[this];
              runtime.world == old(runtime.world)[this := state.(handlers := state.handlers + [handler])]
    {
      handlers := handlers + [handler];
      runtime.tree := runtime.tree[this := runtime.tree[this].(links := runtime.tree[this].links + [handler])];
      ghost var state := runtime.world[this];
      runtime.world := runtime.world[this := state.(handlers := state.handlers + [handler])];
    }

    ghost method Register(runtime: Runtime, place: Place)
      requires runtime.Mirrors() && runtime.world.Keys == runtime.tree.Keys && this !in runtime.tree && Is(NEWBORN)
      requires engine == place.engine && trace == place.trace && birth == place.birth == runtime.clock
      modifies runtime`tree, runtime`world, runtime`clock
      ensures runtime.Mirrors() && runtime.clock == old(runtime.clock) + 1
      ensures runtime.tree == old(runtime.tree)[this := place] && runtime.world == old(runtime.world)[this := NEWBORN]
    {
      runtime.tree := runtime.tree[this := place];
      runtime.world := runtime.world[this := NEWBORN];
      runtime.clock := runtime.clock + 1;
    }

    /** A promise for a call that has not been answered. */
    static method Make(runtime: Runtime, engine: bool) returns (made: Promise)
      requires runtime.Valid({}, {})
      modifies runtime`tree, runtime`world, runtime`clock
      ensures fresh(made) && runtime.Valid({}, {}) && made.outcome == Pending
      ensures runtime.tree == old(runtime.tree)[made := Place(engine, runtime.installed, None, old(runtime.clock), [])]
    {
      made := new Promise(runtime, engine);
      ghost var place := Place(engine, runtime.installed, None, runtime.clock, []);
      RootAdded(runtime.tree, runtime.world, made, place);
      made.Register(runtime, place);
    }

    /** The answer to the call: its value or its failure, or the facade giving it up. Nothing outside a
        region that is closed under chaining changes. */
    method Answer(runtime: Runtime, settled: Outcome, ghost region: set<Promise>)
      requires runtime.Valid({}, {}) && Closed(runtime.tree, region) && this in region
               && runtime.tree[this].parent == None
      requires settled != Pending
      modifies runtime`installed, runtime`world, this, ChainedIn(runtime.tree, region)
      ensures runtime.Valid({}, {}) && Onward(old(runtime.world), runtime.world)
      ensures OnlyRoot(runtime.tree, old(runtime.world), runtime.world, this)
      ensures runtime.world[this].outcome == outcome && old(runtime.world)[this].outcome == old(outcome)
      ensures runtime.installed == old(runtime.installed)
      ensures outcome == if old(outcome) == Pending then settled else old(outcome)
    {
      if outcome != Pending {
        return;
      }
      RootStarts(runtime.tree, runtime.world, this);
      RootsTopTheirRegion(runtime.tree, this, region);
      SettlePending(runtime, settled, {}, {this}, ChainedIn(runtime.tree, region));
      assert {this} - {this} == {};
    }
  }

  // ---------------------------------------------------------------------------------------------
  // The facade
  // ---------------------------------------------------------------------------------------------

  datatype Replica = Replica(id: nat, dynamic: bool)

  datatype Connection = Initialized(replica: Replica) | Relay(replica: Replica, signal: string)

  class ConsumerBase {
    var point: string
    var replica: Option<Replica>
    var dynamic: bool
    var connections: seq<Connection>
    /** The promises parented to the facade. */
    var held: seq<Promise>
    const signals: seq<string>

    constructor (point: string, signals: seq<string>)
      ensures this.point == point && replica == None && connections == [] && held == [] && this.signals == signals
    {
      this.point, replica, dynamic, connections, held, this.signals := point, None, false, [], [], signals;
    }

    function LinkDropped(): Outcome
      reads this`point
    {
      Rejected("the '" + point + "' connect point's link dropped before the answer arrived")
    }

    /** Replacing the Replica settles every promise the facade holds, and changes none that had settled. */
    method SetReplica(runtime: Runtime, next: Option<Replica>, ghost region: set<Promise>)
      requires runtime.Valid({}, {}) && Closed(runtime.tree, region) && HeldRoots(runtime.tree, region, held)
      modifies this`replica, this`dynamic, this`connections, runtime`installed, runtime`world, region
      ensures runtime.Valid({}, {}) && Onward(old(runtime.world), runtime.world)
              && runtime.installed == old(runtime.installed)
      ensures replica == next
      ensures next != old(replica) ==> forall p :: p in held && old(runtime.world[p].outcome) == Pending ==>
                p in runtime.world && runtime.world[p].outcome
                == Rejected("the '" + point + "' connect point's link dropped before the answer arrived")
      ensures Abandoned(old(runtime.world), runtime.world, held,
                        if next == old(replica) then 0 else |held|, LinkDropped())
      ensures connections == if next == old(replica) then old(connections) else ConnectionsTo(next)
    {
      if replica == next {
        return;
      }
      AbandonHeld(runtime, region);
      Reconnect(next, runtime);
    }

    method AbandonHeld(runtime: Runtime, ghost region: set<Promise>)
      requires runtime.Valid({}, {}) && Closed(runtime.tree, region) && HeldRoots(runtime.tree, region, held)
      modifies runtime`installed, runtime`world, region
      ensures runtime.Valid({}, {}) && Onward(old(runtime.world), runtime.world)
              && runtime.installed == old(runtime.installed)
      ensures Abandoned(old(runtime.world), runtime.world, held, |held|, LinkDropped())
    {
      var children, reason := held, LinkDropped();
      for i := 0 to |children|
        invariant runtime.Valid({}, {}) && Onward(old(runtime.world), runtime.world)
                  && runtime.installed == old(runtime.installed)
        invariant Abandoned(old(runtime.world), runtime.world, children, i, reason)
      {
        Abandon(runtime, children, i, reason, region, old(runtime.world));
      }
    }

    static method Abandon(runtime: Runtime, children: seq<Promise>, i: nat, reason: Outcome,
                          ghost region: set<Promise>, ghost before: World)
      requires runtime.Valid({}, {}) && Closed(runtime.tree, region) && HeldRoots(runtime.tree, region, children)
      requires i < |children| && reason != Pending && Onward(before, runtime.world)
               && Abandoned(before, runtime.world, children, i, reason)
      modifies runtime`installed, runtime`world, region
      ensures runtime.Valid({}, {}) && runtime.installed == old(runtime.installed)
      ensures Onward(before, runtime.world) && Abandoned(before, runtime.world, children, i + 1, reason)
    {
      ghost var w := runtime.world;
      children[i].Answer(runtime, reason, region);
      AbandonOne(runtime.tree, before, w, runtime.world, region, children, i, reason);
    }

    /** The connections of the old Replica go, and the new one is bound. */
    method Reconnect(next: Option<Replica>, ghost runtime: Runtime)
      requires runtime.Valid({}, {})
      modifies this`replica, this`dynamic, this`connections
      ensures runtime.Valid({}, {})
      ensures replica == next && connections == ConnectionsTo(next) && dynamic == (next.Some? && next.value.dynamic)
    {
      var bound := [];
      if next.Some? {
        bound := bound + [Initialized(next.value)];
        bound := bound + Relays(next.value);
      }
      connections, replica, dynamic := bound, next, next.Some? && next.value.dynamic;
    }

    function Relays(replica: Replica): seq<Connection> {
      seq(|signals|, i requires 0 <= i < |signals| => Relay(replica, signals[i]))
    }

    function ConnectionsTo(replica: Option<Replica>): seq<Connection> {
      if replica.None? then [] else [Initialized(replica.value)] + Relays(replica.value)
    }
  }
}
