# SynQt: client, edge and benchmark logic, modelled and proved

This project models the parts of SynQt in which a mistake is hardest to see, and proves what they are for.

* **Edge-delivered pages** (`RoutePatterns`, `RouteTables`, `ResumePath`, `Navigation`, `Ownership`, `Visits`,
  `Decisions`, `EdgePages`, `PageProtocol`, `RouterObjects`). The client router, its page loader, the desktop
  history and the remembered path form one state machine; the edge's page store and page service answer it over a
  connection that keeps order. `Navigation` gives every entry point as a function on that state; `Ownership` and
  `Visits` prove what every run keeps, and `Decisions` what each decision and each reply leaves on screen;
  `PageProtocol` puts client and edge together; and `RouterObjects` and `EdgePages` hold the objects that update
  their fields in place, each method proved against its function.
* **The connection and the stored credential** (`DeviceCredentials`, `Connection`, `ConnectionRuns`,
  `ClientObject`, `Keychain`). Timers, socket events and HTTP replies arrive in any order. A log of what an
  observer sees is checked against a small monitor, for every run.
* **The palette** (`PaletteText`, `Palette`). The index-jumping scan against a one-character automaton, and the
  verdict on a page against one condition on the stripped text.
* **Promise chains** (`Promises`). Promises on the heap that settle recursively, against a reference evaluator.
* **Least squares and percentiles** (`Fit`, `Percentiles`), over the reals.
* **The line splitter** of the documentation site (`WrapLines`), over an abstract tree.

Qt is reduced to oracles. What the QML engine, the session and the palette answer while a router step runs is an
`Env`; how the platform's store answers while a connection event is handled is a `Keyring`; what a reply holds is
part of its event. Nothing ties the answers of one step to those of the next, so every statement over runs holds
for all of them. Callbacks of promises are functions of their argument. Unicode's letter-or-number test and the
test for a placeholder's name are parameters.

`dafny verify dfyconfig.toml` checks the whole project.

## Model

| member | source | states |
|---|---|---|
| `Prelude.JoinSplit` | src/transport/routepattern.cpp:32-37 | the parts a text is cut into at a separator, joined again, are the text |
| `RoutePatterns.PatternTextSegments` | src/transport/routepattern.cpp:39-106 | a valid pattern's own text, read as a path, has exactly the pattern's segments |
| `RoutePatterns.SplitPathExactly` | src/transport/routepattern.cpp:82-105 | a path has exactly the segments it is written with, none of them empty, and one slash behind them makes no difference |
| `RoutePatterns.SplitQueryJoins` | src/transport/routepattern.cpp:151-170 | the path and the query, with the question mark between them, are the text |
| `RoutePatterns.MatchingIsFilling` | src/transport/routepattern.cpp:39-149 | a valid pattern is rooted and names its placeholders by identifiers, and matches exactly the segments it can be filled to with one value for each placeholder |
| `RoutePatterns.LiteralsDominated` | src/transport/routepattern.cpp:120-149 | a pattern that matches another's text has no more literals than it, and with as many its placeholders are in the same places |
| `RoutePatterns.EquallyLiteralPatternsAreOne` | src/transport/routepattern.cpp:120-149 | two valid patterns of equal rank, one matching the other's text, match the same paths |
| `RouteTables.SearchFindsBest` | src/client/router.cpp:240-265 | the first hit of a table sorted stably by rank is the first-declared hit that none outranks, and there is none exactly when nothing hits |
| `RouteTables.LookupIsMostLiteralFirstDeclared` | src/client/router.cpp:240-265 | lookup answers the first-declared matching route of maximal literal count, and nothing only when no declared route matches |
| `RouteTables.MergingKeepsTheBundle` | src/client/router.cpp:174-222 | merging the edge's table never makes a served path missing, and changes an answer only to a remote pattern the bundle does not own with strictly more literals |
| `Visits.RoutesAreTheLastTable` | src/client/router.cpp:174-222 | through any run the table is the bundle merged with the entries last sent; earlier tables leave no trace, and nothing but a table changes it |
| `Visits.RoutesFromTheStart` | src/client/router.cpp:174-222 | from start-up the same holds with no entries: until a table is sent the routes are the bundle alone |
| `RouteTables.EdgeMatchIsMostLiteralFirstDeclared` | src/edge/pagesservice.cpp:46-102 | the edge's search answers the first-declared matching pattern of maximal literal count, and nothing exactly when no declared pattern matches |
| `RouteTables.EdgeAnswersExactly` | src/edge/pagesservice.cpp:79-102 | the edge answers with a given route if and only if it is the first of the most literal matching ones; an undeclared route is answered with another one if and only if some declared pattern matches the path |
| `RouteTables.NothingDeclaredOutranks` | src/client/router.cpp:174-265 | with the edge's routes published as declared, no declared pattern that matches a path is more literal than the client's pick for it, whichever side's the pick is |
| `RouteTables.ClientAndEdgeAgree` | src/edge/pagesservice.cpp:46-102 | the edge picks the client's route for a path if and only if it declares that route with no equally literal match declared before it; a pick that is none of the bundle's own is always the edge's, ties included |
| `RouteTables.AgreeWithoutATie` | src/edge/pagesservice.cpp:46-102 | the two sides agree on every declared route that is the only matching one of its literal count |
| `RouteTables.TiesCanPart` | src/client/router.cpp:174-222 | a bundle route without a view, tied with a route of the edge's: the client picks the bundle's, the edge the one declared first, though it declares both |
| `RouteTables.UndeclaredRoutesCanPart` | src/client/router.cpp:174-222 | a compiled route without a view that the edge does not declare is resolved to another pattern at the edge |
| `ResumePath.HasRewritingCharacter` | src/client/resumepath.cpp:70-98 | the loop finds a character exactly when one that a URL parser rewrites is there |
| `ResumePath.HasUnsafeSegment` | src/client/resumepath.cpp:100-125 | the loop answers true exactly when some segment is a dot segment or hides an escaped dot, slash or backslash |
| `ResumePath.IsAcceptable` | src/client/resumepath.cpp:127-161 | the method decides the acceptance condition, both ways, including the declared-route test |
| `ResumePath.AcceptedPathsAreNormal` | src/client/resumepath.cpp:127-161 | every accepted path is path-absolute (section 3.3 of RFC 3986), no network-path reference (section 4.2), and a fixed point of remove_dot_segments (section 5.2.4) before and after decoding %2e, %2f and %5c |
| `ResumePath.PlainPathsAreAccepted` | src/client/resumepath.cpp:127-161 | a path of a declared route that is rooted once, printable, at most 2048 long, without backslash, colon, hash, percent sign or dot segment is accepted |
| `Ownership.StepIsSound` | src/client/router.cpp:442-620 | every step keeps the partition of components and what the screen shows |
| `Ownership.EveryRunPartitionsComponents` | src/client/router.cpp:442-620 | in every run the components ever built split into freed (each once), the router's own and the cached; the one on screen is never freed, a loader's one is the cache entry of the pending route, and a view was built from the URL it is kept under |
| `Ownership.ShownIsAlive` | src/client/router.cpp:592-620 | the component on screen was built, is not freed, and is cached exactly when it is the loader's |
| `Ownership.DeliverBalances` | src/client/remotepageloader.cpp:25-64 | a delivery frees what it replaces and what does not parse, and keeps the partition |
| `Ownership.InvalidateBalances` | src/client/remotepageloader.cpp:76-86 | invalidating one route frees its component once and keeps the partition |
| `Ownership.DropBalances` | src/client/remotepageloader.cpp:88-96 | clearing frees every cached component exactly once |
| `Visits.HistoryAgreesWithThePage` | src/client/router.cpp:272-336 | from the first go, replace or pop onward, in every run and for every fallback: the history's current entry is the path of the page at every point if and only if no pop drops a query; the index is in range |
| `Visits.FallbackDecides` | src/client/router.cpp:338-424 | once in step, the history stays in step through every run on the same table if and only if the fallback carries no query, or its path without the query names no page that anyone is shown |
| `Visits.PopSyncsUnlessAQueryIsDropped` | src/client/router.cpp:67-96 | a pop ends in step with the page if and only if the entry, as it stands before the pop, carries no query, or names without it neither the fallback nor a page that is served |
| `Visits.AFallbackWithAQueryParts` | src/client/router.cpp:67-96 | with a fallback that carries a query and names a page of the table without it, two missing pages and a step back drop a query, from any state |
| `Visits.ResumeLands` | src/client/router.cpp:283-307 | in any state a resume forgets the path; if it may be resumed, its page is the one shown and pushed, in normal form, never Forbidden or NotFound; otherwise nothing else moves |
| `Visits.ScopeChangeForgets` | src/client/router.cpp:107-133 | in any state and for any fallback a scope change leaves nothing remembered, and a resume inside it lands on the remembered page, exactly on the remembered path unless that carries a query |
| `Visits.RefusedLinkIsResumed` | src/client/router.cpp:283-424 | a deep link refused for want of a scope is the page shown once the scope has come, if and only if the fallback is not itself refused by then, or names that very page behind a query |
| `Visits.NothingSurvivesAScopeChange` | src/client/router.cpp:107-133 | after a scope change anywhere in any run no component delivered before it is shown again, and until a later delivery is accepted no delivered component or seed is held or shown |
| `Decisions.ResolveIsDecided` | src/client/router.cpp:338-424 | without a route NotFound, and a scope out of reach Forbidden and remembered, both on the fallback's view with no query and nothing pending; a delivered page is asked for with the held hash, shown if held and waited for if not; and a view is on screen built from the route's own URL, with the status its load leaves |
| `Decisions.MissingIsNotRefused` | src/client/router.cpp:345-362 | a missing page never shows as Forbidden nor a refused one as NotFound, and each shows as what it is exactly where the fallback has no view or its view is loaded |
| `Decisions.DeliveryIsReplied` | src/client/router.cpp:467-528 | a stale reply changes nothing; a page held with that hash, or admitted and parsed, is Ready on screen with the seed delivered; anything else is an error and leaves cache and seed |
| `Decisions.EveryNavigationIsDecided` | src/client/router.cpp:319-424 | after any run a navigation decides so, on the path in front of the question mark with what is behind it as the query |
| `EdgePages.PageStore.AddPage` | src/edge/pagestore.cpp:44-59 | declaring a route replaces its page, and keeps its place if it was declared before |
| `EdgePages.PageStore.Reload` | src/edge/pagestore.cpp:61-77 | a reload replaces the source and answers whether the content moved |
| `EdgePages.PagesService.Candidates` | src/edge/pagesservice.cpp:46-72 | the memo keyed on the number of routes is the table built afresh |
| `EdgePages.FetchIsOwed` | src/edge/pagesservice.cpp:79-134 | a fetch is missing exactly where no declared pattern matches; of the first most literal match it is refused, telling nothing, exactly where the page's scope is not the caller's; unchanged exactly where granted and the held hash is the page's; and else the page's own source and hash, granted answers with the route's seed |
| `EdgePages.PagesService.FetchPageFor` | src/edge/pagesservice.cpp:79-134 | the loop over the memo answers just that: missing, refused, unchanged or the page, as owed |
| `PageProtocol.PublishedTablesAnswerAlike` | src/edge/pagestore.cpp:99-119 | with the declared routes published in order and a fallback without a query, no asked path is answered with another route's page if and only if every path the bundle claims without a view is declared with no equally literal match before it, or undeclared and matched by no declared pattern |
| `PageProtocol.UntiedTablesAnswerAlike` | src/edge/pagestore.cpp:99-119 | it is so where the edge declares every bundle route without a view and no path is matched by two equally literal declared patterns |
| `PageProtocol.TakenReplyIsForThePendingRoute` | src/client/router.cpp:467-528 | a reply that is taken, however stale, is for the pending route, whatever the tables |
| `PageProtocol.TakenPageIsFresh` | src/client/router.cpp:467-528 | a page just taken has the edge's hash, or its replacement is announced behind the reply |
| `PageProtocol.EventKeeps` | src/edge/pagesedgesource.cpp:23-39 | where no asked path is answered with another route's page, navigations, answers, failed calls, pushes and hot reloads all keep client, queue and edge consistent |
| `PageProtocol.CacheStaysCoherent` | src/client/remotepageloader.cpp:25-86 | where no asked path is answered with another route's page: from any client with an empty loader, wherever it has navigated, over every run of one connection each cached page was built from a source with the cached hash, which is the edge's current one or a change for its route is still in flight |
| `PageProtocol.NeverLeftLoading` | src/client/synclient.cpp:88-95 | in every run, on any tables: while a pending page shows as loading a request for it or a reply is in flight, also where calls fail or never reach the edge; with nothing in flight no pending page is loading |
| `PageProtocol.AnotherPageIsKept` | src/client/router.cpp:442-528 | from the first connection of any launch, asking for a path, the edge's answer and its delivery leave that page in the cache, coherent if and only if the edge holds a page with that hash under the client's route |
| `PageProtocol.CoherentExactlyWhenAnsweredAlike` | src/edge/pagesservice.cpp:79-134 | every run from every opening keeps the cache coherent if and only if no path the client can ask for is answered with another route's page |
| `PageProtocol.AnUndeclaredRouteParts` | src/client/router.cpp:174-222 | a bundle route without a view that the edge does not declare, with a declared pattern that matches it: some run leaves the cache incoherent |
| `PageProtocol.ATieParts` | src/client/router.cpp:174-222 | so does such a route tied with one of the edge's, though the edge declares both |
| `RouterObjects.RemotePageLoader.Deliver` | src/client/remotepageloader.cpp:25-64 | unchanged exactly where that hash is held, built exactly where the palette admits the page and it parses, and then cached under its route with its hash; otherwise the cache is as it was |
| `RouterObjects.RemotePageLoader.Invalidate` | src/client/remotepageloader.cpp:76-86 | the route leaves the cache and its component is freed |
| `RouterObjects.RemotePageLoader.Clear` | src/client/remotepageloader.cpp:88-96 | in whatever order the cache yields them, each component is freed once and the cache is empty |
| `RouterObjects.BrowserHistory.Push` | src/client/browserhistory.cpp:132-143 | entries ahead are dropped and the path becomes the current entry |
| `RouterObjects.BrowserHistory.Replace` | src/client/browserhistory.cpp:145-159 | only the current entry changes |
| `RouterObjects.BrowserHistory.Back` | src/client/browserhistory.cpp:161-171 | the index moves back and the entry is reported, or nothing happens at the first one |
| `RouterObjects.BrowserHistory.Forward` | src/client/browserhistory.cpp:173-183 | the index moves forward and the entry is reported, or nothing happens at the last one |
| `RouterObjects.Router.SetPageComponent` | src/client/router.cpp:592-620 | the screen after it, with the displaced component freed only when it was the router's own |
| `RouterObjects.Router.SetPageUrl` | src/client/router.cpp:551-590 | the screen after a view is shown: kept, built anew, cleared or in error |
| `RouterObjects.Router.FindRoute` | src/client/router.cpp:250-265 | the loop over the sorted table finds what lookup specifies |
| `RouterObjects.Router.ResolveRemote` | src/client/router.cpp:442-465 | the cached page is shown or the screen waits, and a request with the held hash is sent |
| `RouterObjects.Router.Resolve` | src/client/router.cpp:338-424 | the decision on the path, and its outcome: missing, forbidden, remote, accelerated or local |
| `RouterObjects.Router.Navigate` | src/client/router.cpp:319-336 | the path is resolved without its query and the result is sound |
| `RouterObjects.Router.Go` | src/client/router.cpp:272-275 | the target is decided on; the page is the target's where that is served and the fallback elsewhere, and its path the newest entry; a missing page is never Forbidden and a refused one never NotFound |
| `RouterObjects.Router.Replace` | src/client/router.cpp:277-281 | the same, with the current entry rewritten instead |
| `RouterObjects.Router.Back` | src/client/router.cpp:309-312 | nothing happens at the first entry; otherwise the entry landed on is the path of the page exactly when the pop drops no query |
| `RouterObjects.Router.Forward` | src/client/router.cpp:314-317 | the same at the last entry |
| `RouterObjects.Router.OnPopped` | src/client/router.cpp:67-96 | the popped handler, with the entry rewritten only where the navigation was redirected |
| `RouterObjects.Router.ResumeAfterLogin` | src/client/router.cpp:283-307 | the remembered path is forgotten, and if it may be resumed its page is shown, never Forbidden or NotFound |
| `RouterObjects.Router.OnScopeChanged` | src/client/router.cpp:107-133 | the cache and the seed are dropped before the page is decided again, and the resume follows; afterwards nothing is remembered and nothing delivered is held or shown |
| `RouterObjects.Router.OnPageDelivered` | src/client/router.cpp:467-528 | a stale reply changes nothing, a refusal or a missing page empties the screen, a built or unchanged page is Ready with the seed delivered, and the path and the requests stay |
| `RouterObjects.Router.OnPageChanged` | src/client/router.cpp:530-549 | the page leaves the cache, and while it is the pending one it leaves the screen and is asked for again without a hash |
| `RouterObjects.Router.ApplyRemoteRouteTable` | src/client/router.cpp:174-248 | the table is the bundle with the edge's unowned entries, sorted; an earlier table is forgotten, and every path the bundle serves is still found |
| `PaletteText.LiteralIsEmptied` | src/client/qmlpalette.cpp:60-84 | of the inside of a literal, up to where it ends, the automaton writes the closing quote alone |
| `PaletteText.ConsumeString` | src/client/qmlpalette.cpp:60-84 | jumping over a literal writes its two quotes and leaves the automaton in code |
| `PaletteText.BlockIsEmptied` | src/client/qmlpalette.cpp:89-107 | of the inside of a block comment the automaton writes one newline for each line terminator and nothing else |
| `PaletteText.ConsumeBlockComment` | src/client/qmlpalette.cpp:89-107 | jumping over a block comment writes what the automaton writes for it |
| `PaletteText.SkipLineComment` | src/client/qmlpalette.cpp:122-167 | jumping over a line comment writes nothing and stops at its terminator |
| `PaletteText.Stripped` | src/client/qmlpalette.cpp:122-167 | the index-jumping scan computes what the one-character automaton writes |
| `PaletteText.StrippedText` | src/client/qmlpalette.cpp:122-167 | the output has no carriage return, U+2028, U+2029 or byte order mark; quotes come in adjacent pairs; its newlines are the line terminators outside literals, CRLF counted once |
| `Palette.StatementsOf` | src/client/qmlpalette.cpp:181-204 | the list holds exactly the statements of the text, in order |
| `Palette.Approves` | src/client/qmlpalette.cpp:256-281 | an import line is approved exactly when whitespace and a declared, unquoted module word follow the keyword |
| `Palette.BadStatementRefutes` | src/client/qmlpalette.cpp:245-288 | an import statement below the header or naming no declared module refutes the condition |
| `Palette.ScanHeader` | src/client/qmlpalette.cpp:245-288 | a refusal refutes the condition; otherwise the approved offsets are good imports and every import statement is among them |
| `Palette.Sweep` | src/client/qmlpalette.cpp:295-308 | the sweep passes exactly when no standalone keyword stands outside the approved offsets |
| `Palette.IsAcceptable` | src/client/qmlpalette.cpp:239-309 | true if and only if every standalone `import` of the stripped text begins a statement, has only imports and pragmas before it, and is followed by whitespace and a declared, unquoted module |
| `Palette.UndeclaredImportIsRefused` | src/client/qmlpalette.cpp:239-309 | in an accepted text every statement that reads as an import is in the header and names a declared module |
| `Palette.OneImport` | src/client/qmlpalette.cpp:239-309 | a page that only imports a word is admitted if and only if the word is a declared module |
| `Palette.AQuotedImportIsRefused` | src/client/qmlpalette.cpp:256-281 | a page that begins with the import of a quoted path is refused, whatever is declared |
| `Palette.ALateImportIsRefused` | src/client/qmlpalette.cpp:245-288 | an import behind anything that is no import and no pragma is refused, whatever it names |
| `Promises.OutcomeIsTheChains` | src/consumer/promise.cpp:86-199 | whatever the order of attaching and settling, a promise's outcome is the evaluator's fold along the path that leads to it |
| `Promises.HistoryDoesNotMatter` | src/consumer/promise.cpp:86-199 | two histories with the same callbacks along the path and the same outcome at its start agree at its end |
| `Promises.SettledAllTheWayDown` | src/consumer/promise.cpp:133-141 | nothing chained from a settled promise is pending, so abandoning the promises a facade holds settles all that was chained from them; nothing chained from a pending one has settled |
| `Promises.DispatchedOnce` | src/consumer/promise.cpp:158-199 | a handler is dispatched once its promise settled and once only; its callback runs at most once, under its promise's trace |
| `Promises.EveryHandlerBecomes` | src/consumer/promise.cpp:158-199 | for every handler of every promise at rest: called with the value or the reason it fulfils the next promise with what it returns and rejects it with what it throws, and an outcome it is not for passes unchanged |
| `Promises.TraceScope.Leave` | src/consumer/tracescope.cpp:22-31 | the displaced trace is installed again |
| `Promises.Promise.Settle` | src/consumer/promise.cpp:108-131 | the first settlement wins; everything below settles with it, nothing settled changes, and the outer trace is restored |
| `Promises.Promise.Flush` | src/consumer/promise.cpp:133-156 | every handler due is dispatched, the list is empty and the disposal is scheduled |
| `Promises.Promise.Dispatch` | src/consumer/promise.cpp:158-199 | whichever branch it takes, the next promise settles as the evaluator says, with the callback run under the promise's trace |
| `Promises.Promise.AddHandler` | src/consumer/promise.cpp:86-106 | attached before or after settlement, the next promise is fulfilled by a return, rejected by a throw, or has the outcome passed on; it has the current trace and the parent's engine, and the parent keeps its outcome |
| `Promises.Promise.Answer` | src/consumer/promise.cpp:63-131 | the answer settles a pending promise and its chain, a second one changes nothing, and no promise outside the region changes |
| `Promises.ConsumerBase.SetReplica` | src/consumer/consumerbase.cpp:46-84 | replacing the Replica rejects every pending promise the facade holds with the message that names the connect point, changes none that had settled, and rebinds the connections; the same Replica changes nothing |
| `DeviceCredentials.PackingRoundTrips` | src/client/devicecredential.cpp:62-81 | a named pair survives the blob if and only if its name has no newline |
| `DeviceCredentials.UnpackedIsThePair` | src/client/devicecredential.cpp:62-81 | a blob names no pair exactly when it has no newline or begins with one, and otherwise is the blob of the pair it names |
| `DeviceCredentials.SavedIsLoaded` | src/client/devicecredential.cpp:132-202 | a pair whose write the store took is the pair a later load gives, if and only if its name has no newline |
| `DeviceCredentials.SaveLeavesNothingStale` | src/client/devicecredential.cpp:162-219 | after a save the store holds nothing or the new pair if and only if nothing else was stored, or it is in reach and the write or the erase after it took effect; after an erase it holds nothing if and only if it held nothing, or is in reach and the erase took effect |
| `DeviceCredentials.ARefusedEraseLeavesAStalePair` | src/client/devicecredential.cpp:162-219 | a store that refuses both the write and the erase keeps the retired pair |
| `DeviceCredentials.DeviceCredential.Save` | src/client/devicecredential.cpp:162-202 | true exactly when an available store took a valid pair, which is then stored; a refused or late write leaves nothing where the erase lands, and a late one writes the store off |
| `DeviceCredentials.DeviceCredential.Load` | src/client/devicecredential.cpp:132-160 | the stored pair exactly where the store is available and answers in time, and a late answer writes it off |
| `DeviceCredentials.DeviceCredential.Erase` | src/client/devicecredential.cpp:204-219 | the item is gone if the store took the call |
| `ConnectionRuns.NeverStalls` | src/client/synclient.cpp:505-766 | in every run reconnecting implies the reconnect timer is armed, connecting implies the handshake timer is armed or a bootstrap or redemption is outstanding, and at most one redemption is in flight |
| `ConnectionRuns.BackoffDoubles` | src/client/synclient.cpp:737-744 | the recurrence of the waits in closed form |
| `ConnectionRuns.WaitsDouble` | src/client/synclient.cpp:712-744 | for base <= max the k-th wait since the last connection is min(base * 2^k, max) |
| `ConnectionRuns.AcceptedBetween` | src/client/synclient.cpp:505-636 | between a session bought with the credential and the next redemption sent a connection is accepted |
| `ConnectionRuns.ConnectedBetween` | src/client/synclient.cpp:357-403 | in every run, between a step that buys a session with the credential, by a redemption or by an enrolment whose pair is kept, and the next step that sends a redemption, a socket connects |
| `ConnectionRuns.HeldOffUntilItHasPassed` | src/client/synclient.cpp:609-625 | a hold lasts more than 0 and at most 300000 ms, and no redemption is sent before it has passed |
| `ConnectionRuns.HoldIsTheOneNamed` | src/client/synclient.cpp:609-625 | the hold is the wait the edge named, up to five minutes, or a minute where it named none |
| `ConnectionRuns.OtherAnswersHoldOff` | src/client/synclient.cpp:609-625 | every answer that is neither a session, a 404 nor a transport failure holds redemption off for that long, and keeps the credential |
| `ConnectionRuns.StoredPairIsTheNewest` | src/client/synclient.cpp:552-636 | in every run, however the store answers: at every point what is stored is nothing or the newest pair received, if and only if each pair received found nothing older stored, or the store in reach and taking the write or the erase that makes up for it |
| `ConnectionRuns.NewestPairIsPresented` | src/client/synclient.cpp:505-566 | under that condition, with names the blob can carry, every redemption presented the newest pair of its time, whatever a load answers |
| `ConnectionRuns.NextLaunchPresentsIt` | src/client/synclient.cpp:505-636 | in every run a pair received by a store in reach that takes the write is, until one is received or dropped after it, the pair the next launch presents, if its name has no newline |
| `ConnectionRuns.ForgottenIsNotPresented` | src/client/synclient.cpp:420-452 | where dropping a pair erases it, a pair the edge refused or the visitor signed out of is not presented again: before the next redemption a new pair was received |
| `ConnectionRuns.SignOutErasesWhatItReaches` | src/client/synclient.cpp:420-452 | a sign-out leaves nothing held or stored if and only if the store held nothing, or had been opened, is still in reach and takes the erase; without a logout route it changes nothing |
| `ConnectionRuns.ALateLoadOutlivesTheSignOut` | src/client/devicecredential.cpp:132-160 | a launch whose first load misses its deadline, then a sign-out: the pair is still stored whatever the erase would answer, and the next launch presents it |
| `ConnectionRuns.OpeningSpendsWhatIsFree` | src/client/synclient.cpp:505-550 | opening a session sends a redemption exactly where the deployment allows it, no accepted session is there to go back to, none is in flight, none bought since a connection was accepted, the hold has passed and there is a pair, held or stored in reach, which is the one presented; elsewhere the session in hand is presented on a new socket, or an anonymous one asked for |
| `ConnectionRuns.AnswerLeaves` | src/client/synclient.cpp:568-636 | a session is adopted, spent, and its pair held and stored; a 404 leaves nothing held, and nothing stored exactly where the erase reaches it; any other refusal keeps the pair and holds off; no answer changes neither |
| `ConnectionRuns.ClaimLeaves` | src/client/synclient.cpp:357-403 | a granted claim is adopted, and a valid pair with it is held, stored where the store takes it, and spent; a refused one changes nothing |
| `ConnectionRuns.NextIsSound` | src/client/synclient.cpp:169-177 | every event keeps the client from stalling and its log admitted by the monitor |
| `ClientObject.SynClient.OnConnected` | src/client/synclient.cpp:712-726 | the handshake timer stops, the backoff restarts, the session counts as accepted and the credential as unspent |
| `ClientObject.SynClient.OnSocketLost` | src/client/synclient.cpp:728-744 | reconnecting with the timer armed, whatever the state was, and at most one wait more, of the current backoff |
| `ClientObject.SynClient.OnHandshakeTimeout` | src/client/synclient.cpp:169-174 | the socket is open no more, the connection counts as lost and the reconnect timer is armed |
| `ClientObject.SynClient.Start` | src/client/synclient.cpp:465-550 | a redemption only where the deployment allows it, with a valid pair, none in flight, none owed a connection and the hold passed; otherwise the session in hand is presented on a new socket, or an anonymous one asked for |
| `ClientObject.SynClient.OnReconnectTimeout` | src/client/synclient.cpp:177 | the session is opened again under the same conditions, and the client does not stall |
| `ClientObject.SynClient.OnBootstrapReply` | src/client/synclient.cpp:648-655 | whatever the jar holds is presented on a new socket |
| `ClientObject.SynClient.OnRedemptionReply` | src/client/synclient.cpp:568-636 | a session is adopted and presented, the credential spent and its pair held and stored; a 404 leaves nothing held, and nothing stored exactly where the erase reaches it; another status keeps the pair and holds off for the time named; no answer changes neither |
| `ClientObject.SynClient.OnClaimReply` | src/client/synclient.cpp:357-403 | a refused claim changes nothing but its own count; a granted one is adopted on a new socket, and its pair, where there is a store, is held, stored where the store takes it, and counts as spent |
| `ClientObject.SynClient.EndSession` | src/client/synclient.cpp:420-452 | the held pair goes before the request is answered, and the stored one exactly where the erase reaches it |
| `ClientObject.SynClient.OnLogoutReply` | src/client/synclient.cpp:453-461 | both cookies are dropped whatever the edge answered, and a session is opened as at the start |
| `Keychain.RefinesACell` | src/client/keychainstore.cpp:114-238 | for a fixed entitlement, any sequence of stores, loads, erases and process restarts acts on the visible item as on one cell |
| `Keychain.LastStoreIsFound` | src/client/keychainstore.cpp:166-212 | the last value stored is found after any number of loads and restarts |
| `Keychain.ErasedStaysGone` | src/client/keychainstore.cpp:214-238 | what was erased stays gone through any number of loads and restarts |
| `Keychain.KeychainStore.Store` | src/client/keychainstore.cpp:114-164 | the write succeeds in the reachable keychain, replacing what is there, and is what is then visible |
| `Keychain.KeychainStore.Load` | src/client/keychainstore.cpp:166-212 | the visible item is returned, however an unreachable keychain answers, and the fallback is kept only where the item is |
| `Keychain.KeychainStore.Erase` | src/client/keychainstore.cpp:214-238 | nothing is visible afterwards, whichever keychain held the item |
| `Fit.FitsWhenXsDiffer` | benchmarks/vs-frameworks/fit.py:75-90 | a line is fitted if and only if two points differ in x |
| `Fit.NormalEquations` | benchmarks/vs-frameworks/fit.py:91-92 | the residuals sum to zero, plain and weighted by x |
| `Fit.FitIsTheOnlyMinimiser` | benchmarks/vs-frameworks/fit.py:75-96 | no line has a smaller squared residual, and only the fitted one has as small a one |
| `Fit.QualityIsAShare` | benchmarks/vs-frameworks/fit.py:93-95 | the quality is in [0, 1] |
| `Fit.QualityIsTheShareExplained` | benchmarks/vs-frameworks/fit.py:91-96 | quality times the total is the total less the residual, 1 where there is nothing to explain; and the fit names the number of points |
| `Fit.RecoversTheLine` | benchmarks/vs-frameworks/fit.py:75-96 | points on a line give that line back, with quality 1 |
| `Percentiles.NearestIsNearest` | benchmarks/buildtime/measure.py:70-74 | the nearest-rank percentile is the one sample i with -0.5 < i - f * (n - 1) <= 0.5 |
| `Percentiles.AtInterpolates` | benchmarks/transport/bench_transport.cpp:117-131 | a whole rank gives the sample, and between two the distance is divided as the rank divides theirs |
| `Percentiles.InterpolatedIsOnTheLine` | benchmarks/transport/bench_transport.cpp:117-131 | the interpolated percentile is the value at f * (n - 1) on the straight line between the samples on either side of it, and there is one only |
| `Percentiles.NearestGrows` | benchmarks/buildtime/measure.py:70-74 | nearest-rank percentiles grow with the fraction and stay between the ends |
| `Percentiles.InterpolatedGrows` | benchmarks/transport/bench_transport.cpp:117-131 | interpolated percentiles grow with the fraction and stay between the ends |
| `Percentiles.Least` | benchmarks/transport/bench_transport.cpp:145-149 | the scan finds the first of the sorted samples |
| `Percentiles.Greatest` | benchmarks/transport/bench_transport.cpp:150-154 | the scan finds the last of the sorted samples |
| `Percentiles.MeanIsInside` | benchmarks/transport/bench_transport.cpp:133-143 | the mean lies between the ends |
| `Percentiles.NearestBlock` | benchmarks/buildtime/measure.py:66-86 | a block from samples holds their count, ends and mean, and at 0.50, 0.95 and 0.99 the samples nearest to f * (n - 1); ordered min <= p50 <= p95 <= p99 <= max with the mean inside; none gives zeros |
| `Percentiles.InterpolatedBlock` | benchmarks/transport/bench_transport.cpp:111-168 | the same with the values on the line at f * (n - 1) |
| `Percentiles.CheckDistributions` | benchmarks/baselines.py:358-385 | the two lists hold every finding and every empty block, in order; a block with a field that is no finite number is reported as that and not asked for its samples |
| `Percentiles.FindingsSay` | benchmarks/baselines.py:362-373 | a block is reported as not finite exactly when a field is no finite number, as disordered exactly when two present fields stand in the wrong order, and for its mean exactly when that is below the least (or zero) or above the greatest |
| `Percentiles.NothingFound` | benchmarks/baselines.py:358-385 | blocks that are ordered with the mean inside are never reported broken |
| `Percentiles.FullBlockIsSoundIffNothingIsFound` | benchmarks/baselines.py:364-373 | a block with all its fields and a numeric mean is reported if and only if a field is not finite, they are not ordered or the mean is outside |
| `WrapLines.Wrapper.StartLine` | docs/javascripts/home-flow.js:55-66 | a new line shows nothing, keeps the open elements and leaves the line before as it was shown |
| `WrapLines.Wrapper.AddText` | docs/javascripts/home-flow.js:72-84 | text goes to the lines as if typed a character at a time |
| `WrapLines.Wrapper.Add` | docs/javascripts/home-flow.js:72-101 | a node goes to the lines as if its characters were typed, each inside the open elements and its own |
| `WrapLines.TrimLines` | docs/javascripts/home-flow.js:107-109 | exactly the lines at the end that show nothing go, but never the first |
| `WrapLines.FedTextIsTheText` | docs/javascripts/home-flow.js:50-115 | the typed lines joined by newlines are the text |
| `WrapLines.FedGlyphsAreTheGlyphs` | docs/javascripts/home-flow.js:50-115 | the typed lines hold every character but the newlines, in order and with its chain of elements |
| `WrapLines.ShownInside` | docs/javascripts/home-flow.js:85-101 | every character inside an element is shown inside it and inside what is around it |
| `WrapLines.WrapLines` | docs/javascripts/home-flow.js:50-115 | no line holds a newline, the lines joined by newlines are the text but for newlines at its end, and every character keeps its chain of enclosing elements |

## Left out

- Parameters of a route, percent-decoding of a query, and the reasons and log lines of every operation: text that no branch depends on.
- WebAssembly branches, the browser's history and base path (`toBrowserPath`, `toApplicationPath`), and graphics probing; "software rendered" is an input.
- Signal handlers that run inside the step that emits the signal: each handler runs after the step.
- Surrogate pairs: a `char` stands for one code unit of a QString, and a device id is taken as its own UTF-8.
- CacheStaysCoherent: is false of tables for which the two sides answer a path with different routes; `PageProtocol.CoherentExactlyWhenAnsweredAlike` gives the exact condition, `PageProtocol.ATieParts` and `PageProtocol.AnUndeclaredRouteParts` two failing tables. Coherence is per connection and per table: page changes missed while disconnected are not announced again, and a table that arrives later in a connection is not part of its runs.
- HistoryAgreesWithThePage: a second `start` is left out; a fallback with a query can put the history out of step, and `Visits.FallbackDecides` says which.
- NothingSurvivesAScopeChange: speaks of deliveries accepted after the change, since replies are matched by route and not by session.
- FetchPageFor: the seed's JSON is a map and the provider an oracle. The comment that an empty seed leaves the client's previous one (src/edge/pagesservice.cpp:114-120) does not describe the router, which takes the seed of every accepted delivery; the model follows the router.
- Stripped: nothing is claimed about another lexer's tokens; a block comment without a terminator inside leaves nothing between what surrounds it.
- Settle: callbacks are functions, so one that attaches handlers or settles promises while it runs is not modelled; freeing the promises after the turn is a flag.
- Flush: that handlers are dispatched in the order of attachment is in the body of its loop, not in its contract.
- SetReplica: readiness signals, the resolver and the generated relays are a list of connections.
- The poll that settles a promise in the browser, and the watcher of a pending call: `Answer` is whichever comes first.
- WaitsDouble: the wait is an unbounded integer; doubling past 2^31 is not modelled. Timers fire at any time after they are armed.
- ForgottenIsNotPresented: a sign-out is meant to leave nothing redeemable on the disk (src/client/synclient.cpp:437-444), which the code does not keep for a store that was never opened or was written off after a late load; `ConnectionRuns.ALateLoadOutlivesTheSignOut` is such a run, and `ConnectionRuns.SignOutErasesWhatItReaches` the exact condition.
- OnClaimReply: the loopback sign-in that leads to a claim, its nonce and its verifier are not modelled.
- RefinesACell: keychain errors other than a missing item, a duplicate and a missing entitlement are left out, and one item stands for the account the store was built for.
- FitLine: x and y come in pairs, as its callers build them; floating-point rounding is not modelled, here or in `Percentiles`.
- CheckDistributions: a finding is a kind and a name; its text, the labels, the count and the remaining ratio checks of the baselines are left out.
- WrapLines: live nodes are frames of open elements, the last child of the one before; node identity and what a deep clone shares are not modelled. Comments are dropped at the top of an element that is split, and kept inside one that is not.
- Credential Manager, Secret Service, TLS, cookies, identity pickers, logging, privacy, client updates, read-only models, connect-point resolution and the code generators: thin layers over foreign calls, or easy members.
