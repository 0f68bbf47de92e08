/**
 What holds over every run of the client's connection: it never stalls, it spends the stored credential only
 when it may, and it holds no stored pair whose successor has arrived as long as the store can be made to drop it.
 */
module ConnectionRuns {
  import opened Prelude
  import opened DeviceCredentials
  import opened Connection

  // ---------------------------------------------------------------------------------------------
  // An observer of the log
  // ---------------------------------------------------------------------------------------------

  /** Whether a session was bought that no connection has been accepted on yet, whether a redemption is in
      flight, until when redemption is held off, and how many waits there were since the last connection. */
  datatype Monitor = Monitor(owing: bool, asking: bool, hold: int, waits: nat)

  function Observe(mo: Monitor, m: Milestone): Monitor {
    match m
    case RedeemSent(_, _) => mo.(asking := true)
    case RedeemAnswered => mo.(asking := false)
    case Received(_) => mo
    case Forgotten => mo
    case Bought => mo.(owing := true)
    case Accepted => mo.(owing := false, waits := 0)
    case HeldOff(_, until) => mo.(hold := until)
    case Waited(_) => mo.(waits := mo.waits + 1)
  }

  function Watch(log: seq<Milestone>): Monitor {
    if log == [] then Monitor(false, false, 0, 0) else Observe(Watch(log[..|log| - 1]), log[|log| - 1])
  }

  /** The wait after `k` others. */
  function Backoff(config: Config, k: nat): int {
    if k == 0 then config.baseMs else Min(Backoff(config, k - 1) * 2, config.maxMs)
  }

  /** What may come next. */
  predicate Admits(config: Config, mo: Monitor, m: Milestone) {
    match m
    case RedeemSent(at, _) => !mo.owing && !mo.asking && at >= mo.hold
    case RedeemAnswered => mo.asking
    case HeldOff(at, until) => 0 < until - at <= MAX_HOLD_MS && at >= mo.hold
    case Waited(ms) => ms == Backoff(config, mo.waits)
    case _ => true
  }

  predicate Admitted(config: Config, log: seq<Milestone>) {
    log == [] || (Admitted(config, log[..|log| - 1]) && Admits(config, Watch(log[..|log| - 1]), log[|log| - 1]))
  }

  lemma Appended(config: Config, log: seq<Milestone>, m: Milestone)
    requires Admitted(config, log) && Admits(config, Watch(log), m)
    ensures Admitted(config, log + [m]) && Watch(log + [m]) == Observe(Watch(log), m)
  {
    assert (log + [m])[..|log|] == log;
  }

  /** What was admitted was admitted all along. */
  lemma {:induction false} AdmittedThroughout(config: Config, log: seq<Milestone>, i: nat)
    requires Admitted(config, log) && i < |log|
    ensures Admitted(config, log[..i]) && Admits(config, Watch(log[..i]), log[i])
    decreases |log|
  {
    var front := log[..|log| - 1];
    if i < |log| - 1 {
      AdmittedThroughout(config, front, i);
      assert front[..i] == log[..i];
    }
  }

  // ---------------------------------------------------------------------------------------------
  // The invariant
  // ---------------------------------------------------------------------------------------------

  /** Something will happen: a timer that will fire, or a reply that will come or time out. */
  predicate Lively(l: Link, redeeming: bool) {
    && (l.phase == Reconnecting ==> l.reconnect)
    && (l.phase == Connecting ==> l.handshake || l.bootstraps > 0 || redeeming)
  }

  predicate Tracks(config: Config, backoffMs: int, s: Sign, now: nat, mo: Monitor) {
    && (mo.owing ==> s.spent) && mo.asking == s.redeeming && s.inFlight == (if s.redeeming then 1 else 0)
    && mo.hold == s.notBefore && (s.redeeming ==> s.notBefore <= now) && backoffMs == Backoff(config, mo.waits)
  }

  predicate Recorded(config: Config, c: Client) {
    Admitted(config, c.log) && Tracks(config, c.link.backoffMs, c.sign, c.now, Watch(c.log))
  }

  predicate Sound(config: Config, c: Client) {
    Recorded(config, c) && Lively(c.link, c.sign.redeeming)
  }

  lemma ResortIsSound(config: Config, c: Client)
    requires Recorded(config, c)
    ensures Sound(config, Resort(c))
  {
  }

  lemma RedeemIsSound(config: Config, c: Client)
    requires Recorded(config, c) && MayRedeem(config, c.sign, c.now)
    ensures Sound(config, Redeem(c))
  {
    Appended(config, c.log, RedeemSent(c.now, c.sign.held));
  }

  lemma OpenSessionIsSound(config: Config, c: Client, k: Keyring)
    requires Recorded(config, c)
    ensures Sound(config, OpenSession(config, c, k))
  {
    if !(c.configured != "" && c.sign.accepted) {
      var sign := Built(config, c.sign);
      var built := c.(sign := sign);
      assert Recorded(config, built);
      if !MayRedeem(config, sign, c.now) {
        ResortIsSound(config, built);
      } else {
        var ready := c.(sign := Remembered(sign, k));
        assert Recorded(config, ready) && MayRedeem(config, ready.sign, c.now);
        if IsValid(ready.sign.held) {
          RedeemIsSound(config, ready);
        } else {
          ResortIsSound(config, ready);
        }
      }
    }
  }

  lemma ConnectedIsSound(config: Config, c: Client)
    requires Sound(config, c)
    ensures Sound(config, OnConnected(config, c))
  {
    Appended(config, c.log, Accepted);
  }

  lemma DisconnectedIsSound(config: Config, c: Client)
    requires Recorded(config, c) && (c.link.phase == Reconnecting ==> c.link.reconnect)
    ensures Sound(config, OnDisconnected(config, c))
  {
    if c.link.phase != Reconnecting && !c.link.reconnect {
      Appended(config, c.log, Waited(c.link.backoffMs));
    }
  }

  lemma HandshakeTimeoutIsSound(config: Config, c: Client)
    requires Sound(config, c)
    ensures Sound(config, OnHandshakeTimeout(config, c))
  {
    DisconnectedIsSound(config, c.(link := AbortedLink(c.link)));
  }

  lemma KeepIsRecorded(config: Config, c: Client, pair: Held, k: Keyring)
    requires Recorded(config, c)
    ensures Recorded(config, Keep(c, pair, k)) && Keep(c, pair, k).sign.redeeming == c.sign.redeeming
  {
    if IsValid(pair) && c.sign.built {
      Appended(config, c.log, Received(pair));
    }
  }

  lemma SpendIsRecorded(config: Config, c: Client)
    requires Recorded(config, c)
    ensures Recorded(config, Spend(c))
  {
    Appended(config, c.log, Bought);
  }

  lemma AdoptIsSound(config: Config, c: Client, reply: Reply)
    requires Recorded(config, c)
    ensures Sound(config, Adopt(c, reply))
  {
  }

  lemma HoldIsBounded(retryAfter: Option<int>)
    ensures 0 < HoldMs(retryAfter) <= MAX_HOLD_MS
  {
  }

  lemma HoldIsRecorded(config: Config, c: Client, ms: int)
    requires Recorded(config, c) && !c.sign.redeeming && c.sign.notBefore <= c.now && 0 < ms <= MAX_HOLD_MS
    ensures Recorded(config, HoldOff(c, ms))
  {
    Appended(config, c.log, HeldOff(c.now, c.now + ms));
  }

  lemma RefusalIsRecorded(config: Config, c: Client, reply: Reply, k: Keyring)
    requires Recorded(config, c) && !c.sign.redeeming && c.sign.notBefore <= c.now
    ensures Recorded(config, Refusal(c, reply, k))
  {
    if reply.status == 404 {
      ForgetIsRecorded(config, c, k);
    } else if reply.status != 0 {
      HoldIsBounded(reply.retryAfter);
      var ms := HoldMs(reply.retryAfter);
      HoldIsRecorded(config, c, ms);
      assert Refusal(c, reply, k) == HoldOff(c, ms);
    }
  }

  lemma ForgetIsRecorded(config: Config, c: Client, k: Keyring)
    requires Recorded(config, c)
    ensures Recorded(config, Forget(c, k))
  {
    Appended(config, c.log, Forgotten);
  }

  lemma RedemptionIsSound(config: Config, c: Client, reply: Reply, k: Keyring)
    requires Recorded(config, c) && c.sign.inFlight > 0
    ensures Sound(config, OnRedemption(c, reply, k))
  {
    Appended(config, c.log, RedeemAnswered);
    var c1 := Logged(c.(sign := c.sign.(redeeming := false, inFlight := c.sign.inFlight - 1)), RedeemAnswered);
    assert Recorded(config, c1);
    if GrantsSession(reply) {
      KeepIsRecorded(config, c1, reply.pair, k);
      SpendIsRecorded(config, Keep(c1, reply.pair, k));
      AdoptIsSound(config, Spend(Keep(c1, reply.pair, k)), reply);
    } else {
      RefusalIsRecorded(config, c1, reply, k);
      ResortIsSound(config, Refusal(c1, reply, k));
    }
  }

  lemma ClaimIsSound(config: Config, c: Client, reply: Reply, k: Keyring)
    requires Sound(config, c) && c.claims > 0
    ensures Sound(config, OnClaim(c, reply, k))
  {
    var c1 := c.(claims := c.claims - 1);
    assert Sound(config, c1);
    if GrantsSession(reply) {
      if IsValid(reply.pair) && c.sign.built {
        KeepIsRecorded(config, c1, reply.pair, k);
        SpendIsRecorded(config, Keep(c1, reply.pair, k));
        AdoptIsSound(config, Spend(Keep(c1, reply.pair, k)), reply);
      } else {
        AdoptIsSound(config, c1, reply);
      }
    }
  }

  lemma EndSessionIsSound(config: Config, c: Client, k: Keyring)
    requires Sound(config, c)
    ensures Sound(config, EndSession(config, c, k))
  {
    ForgetIsRecorded(config, c, k);
  }

  /** The events that write nothing to the log. */
  predicate Quiet(event: Event) {
    event.BootstrapAnswered? || event.ClaimSent? || event.Passed?
  }

  lemma QuietIsSound(config: Config, c: Client, event: Event, k: Keyring)
    requires Sound(config, c) && Enabled(c, event) && Quiet(event)
    ensures Sound(config, Next(config, c, event, k))
  {
  }

  predicate Opens(event: Event) {
    event.Start? || event.ReconnectTimedOut? || event.LogoutAnswered?
  }

  lemma OpeningIsSound(config: Config, c: Client, event: Event, k: Keyring)
    requires Sound(config, c) && Enabled(c, event) && Opens(event)
    ensures Sound(config, Next(config, c, event, k))
  {
    match event
    case Start =>
      OpenSessionIsSound(config, c, k);
    case ReconnectTimedOut =>
      OpenSessionIsSound(config, c.(link := c.link.(reconnect := false)), k);
    case LogoutAnswered =>
      OpenSessionIsSound(config, c.(logouts := c.logouts - 1, configured := "", presented := ""), k);
  }

  lemma NextIsSound(config: Config, c: Client, event: Event, k: Keyring)
    requires Sound(config, c) && Enabled(c, event)
    ensures Sound(config, Next(config, c, event, k))
  {
    if Quiet(event) {
      QuietIsSound(config, c, event, k);
    } else if Opens(event) {
      OpeningIsSound(config, c, event, k);
    } else {
      match event
      case SocketConnected => ConnectedIsSound(config, c);
      case SocketDisconnected => DisconnectedIsSound(config, c);
      case HandshakeTimedOut => HandshakeTimeoutIsSound(config, c);
      case RedemptionAnswered(reply) => RedemptionIsSound(config, c, reply, k);
      case ClaimAnswered(reply) => ClaimIsSound(config, c, reply, k);
      case LoggedOut => EndSessionIsSound(config, c, k);
    }
  }

  // ---------------------------------------------------------------------------------------------
  // Over every run
  // ---------------------------------------------------------------------------------------------

  lemma {:induction false} RunsAreSound(config: Config, run: seq<Client>, steps: seq<Step>, i: nat)
    requires IsRun(config, run, steps) && i < |run|
    ensures Sound(config, run[i])
  {
    if i > 0 {
      RunsAreSound(config, run, steps, i - 1);
      NextIsSound(config, run[i - 1], steps[i - 1].event, steps[i - 1].keyring);
    }
  }

  /** The client never stalls, and has at most one redemption in flight. */
  lemma NeverStalls(config: Config, run: seq<Client>, steps: seq<Step>, i: nat)
    requires IsRun(config, run, steps) && i < |run|
    ensures run[i].link.phase == Reconnecting ==> run[i].link.reconnect
    ensures run[i].link.phase == Connecting ==>
              run[i].link.handshake || run[i].link.bootstraps > 0 || run[i].sign.inFlight > 0
    ensures run[i].sign.inFlight <= 1 && (run[i].sign.inFlight == 1 <==> run[i].sign.redeeming)
  {
    RunsAreSound(config, run, steps, i);
  }

  function Pow2(k: nat): nat {
    if k == 0 then 1 else 2 * Pow2(k - 1)
  }

  lemma {:induction false} BackoffDoubles(config: Config, k: nat)
    requires 0 <= config.maxMs
    ensures Backoff(config, k) == if k == 0 then config.baseMs else Min(config.baseMs * Pow2(k), config.maxMs)
  {
    if k > 1 {
      BackoffDoubles(config, k - 1);
      assert config.baseMs * Pow2(k) == 2 * (config.baseMs * Pow2(k - 1));
    } else if k == 1 {
      assert Pow2(1) == 2;
    }
  }

  /** The k-th wait since the last connection is the base doubled k times, up to the cap. */
  lemma WaitsDouble(config: Config, run: seq<Client>, steps: seq<Step>, i: nat, j: nat)
    requires IsRun(config, run, steps) && i < |run| && j < |run[i].log| && run[i].log[j].Waited?
    requires config.baseMs <= config.maxMs && 0 <= config.maxMs
    ensures run[i].log[j].ms == Min(config.baseMs * Pow2(Watch(run[i].log[..j]).waits), config.maxMs)
  {
    RunsAreSound(config, run, steps, i);
    AdmittedThroughout(config, run[i].log, j);
    BackoffDoubles(config, Watch(run[i].log[..j]).waits);
  }

  /** Since a session was bought the monitor owes, unless a connection was accepted. */
  lemma {:induction false} OwingSinceBought(log: seq<Milestone>, i: nat)
    requires i < |log| && log[i] == Bought && !Watch(log).owing
    ensures exists j :: i < j < |log| && log[j] == Accepted
    decreases |log|
  {
    var last := |log| - 1;
    if log[last] != Accepted {
      assert i < last;
      OwingSinceBought(log[..last], i);
      var j :| i < j < last && log[..last][j] == Accepted;
      assert log[j] == Accepted;
    } else {
      assert i < last;
    }
  }

  /** Between a session bought with the credential and the next redemption sent, a connection is accepted. */
  lemma AcceptedBetween(config: Config, run: seq<Client>, steps: seq<Step>, n: nat, i: nat, j: nat)
    requires IsRun(config, run, steps) && n < |run| && i < j < |run[n].log|
    requires run[n].log[i] == Bought && run[n].log[j].RedeemSent?
    ensures exists a :: i < a < j && run[n].log[a] == Accepted
  {
    RunsAreSound(config, run, steps, n);
    var log := run[n].log;
    AdmittedThroughout(config, log, j);
    OwingSinceBought(log[..j], i);
    var a :| i < a < j && log[..j][a] == Accepted;
    assert log[a] == Accepted;
  }

  // The same over the steps, whatever the log says.

  /** The step buys a session with the credential: a redemption that is granted, or a claim that is granted with a
      pair which is kept. */
  predicate Buys(c: Client, event: Event) {
    || (event.RedemptionAnswered? && Session(event.reply))
    || (event.ClaimAnswered? && Receives(c, event))
  }

  lemma BuyingSpends(config: Config, c: Client, event: Event, k: Keyring)
    requires Enabled(c, event) && Buys(c, event)
    ensures Next(config, c, event, k).sign.spent
  {
  }

  lemma SpentStays(config: Config, c: Client, event: Event, k: Keyring)
    requires Enabled(c, event) && c.sign.spent && !event.SocketConnected?
    ensures Next(config, c, event, k).sign.spent
    ensures Next(config, c, event, k).sign.inFlight <= c.sign.inFlight
  {
    if Opens(event) {
      OpeningStaysSpent(config, c, event, k);
    }
  }

  lemma OpeningStaysSpent(config: Config, c: Client, event: Event, k: Keyring)
    requires Enabled(c, event) && c.sign.spent && Opens(event)
    ensures var d := Next(config, c, event, k); d.sign.spent && d.sign.inFlight == c.sign.inFlight
  {
    match event
    case Start => SpentOpens(config, c, k);
    case ReconnectTimedOut => SpentOpens(config, c.(link := c.link.(reconnect := false)), k);
    case LogoutAnswered => SpentOpens(config, c.(logouts := c.logouts - 1, configured := "", presented := ""), k);
  }

  lemma SpentOpens(config: Config, c: Client, k: Keyring)
    requires c.sign.spent
    ensures var d := OpenSession(config, c, k); d.sign.spent && d.sign.inFlight == c.sign.inFlight
  {
  }

  lemma {:induction false} SpentUntilConnected(config: Config, run: seq<Client>, steps: seq<Step>, i: nat, j: nat)
    requires IsRun(config, run, steps) && i < j < |run| && Buys(run[i], steps[i].event)
    requires forall m :: i < m < j ==> !steps[m].event.SocketConnected?
    ensures run[j].sign.spent
    decreases j
  {
    if j == i + 1 {
      BuyingSpends(config, run[i], steps[i].event, steps[i].keyring);
    } else {
      SpentUntilConnected(config, run, steps, i, j - 1);
      SpentStays(config, run[j - 1], steps[j - 1].event, steps[j - 1].keyring);
    }
  }

  /** Between a step that buys a session with the credential, by a redemption or an enrolment, and the next one that
      sends a redemption, a socket connects. */
  lemma ConnectedBetween(config: Config, run: seq<Client>, steps: seq<Step>, i: nat, j: nat)
    requires IsRun(config, run, steps) && i < j < |steps| && Buys(run[i], steps[i].event)
    requires run[j + 1].sign.inFlight > run[j].sign.inFlight
    ensures exists m :: i < m < j && steps[m].event.SocketConnected?
  {
    if forall m :: i < m < j ==> !steps[m].event.SocketConnected? {
      SpentUntilConnected(config, run, steps, i, j);
      if steps[j].event.SocketConnected? {
        ConnectingSendsNothing(config, run[j], steps[j].keyring);
      } else {
        SpentStays(config, run[j], steps[j].event, steps[j].keyring);
      }
    }
  }

  lemma ConnectingSendsNothing(config: Config, c: Client, k: Keyring)
    requires c.link.socket == Open
    ensures Next(config, c, SocketConnected, k).sign.inFlight == c.sign.inFlight
  {
  }

  /** A hold ends no later than the one the monitor knows of. */
  lemma {:induction false} HoldsGrow(config: Config, log: seq<Milestone>, i: nat)
    requires Admitted(config, log) && i < |log| && log[i].HeldOff?
    ensures log[i].until <= Watch(log).hold
    decreases |log|
  {
    var last := |log| - 1;
    var front := log[..last];
    if i < last {
      HoldsGrow(config, front, i);
    }
  }

  /** An answer that is neither a session nor a 404 holds redemption off: for more than nothing, for at most
      five minutes, and no redemption is sent before it has passed. */
  lemma HeldOffUntilItHasPassed(config: Config, run: seq<Client>, steps: seq<Step>, n: nat, i: nat, j: nat)
    requires IsRun(config, run, steps) && n < |run| && i < j < |run[n].log|
    requires run[n].log[i].HeldOff? && run[n].log[j].RedeemSent?
    ensures 0 < run[n].log[i].until - run[n].log[i].at <= MAX_HOLD_MS
    ensures run[n].log[j].at >= run[n].log[i].until
  {
    RunsAreSound(config, run, steps, n);
    var log := run[n].log;
    AdmittedThroughout(config, log, i);
    AdmittedThroughout(config, log, j);
    HoldsGrow(config, log[..j], i);
  }

  /** The wait a refusal asks for: the one named, up to five minutes, or a minute. */
  lemma HoldIsTheOneNamed(retryAfter: Option<int>)
    ensures retryAfter.None? || retryAfter.value <= 0 ==> HoldMs(retryAfter) == 60 * 1000
    ensures retryAfter.Some? && 0 < retryAfter.value <= 300 ==> HoldMs(retryAfter) == retryAfter.value * 1000
    ensures retryAfter.Some? && retryAfter.value > 300 ==> HoldMs(retryAfter) == 300 * 1000
  {
  }

  /** Any other answer is on the record as a hold. */
  lemma OtherAnswersHoldOff(c: Client, reply: Reply, k: Keyring)
    requires c.sign.inFlight > 0 && !Session(reply) && reply.status != 404 && reply.status != 0
    ensures var after := OnRedemption(c, reply, k);
            var ms := after.sign.notBefore - c.now;
            && 0 < ms <= MAX_HOLD_MS
            && (reply.retryAfter.None? || reply.retryAfter.value <= 0 ==> ms == 60 * 1000)
            && (reply.retryAfter.Some? && 0 < reply.retryAfter.value <= 300 ==> ms == reply.retryAfter.value * 1000)
            && (reply.retryAfter.Some? && reply.retryAfter.value > 300 ==> ms == 300 * 1000)
            && after.log == c.log + [RedeemAnswered, HeldOff(c.now, c.now + ms)]
            && after.sign.held == c.sign.held && after.sign.device == c.sign.device
  {
    HoldIsTheOneNamed(reply.retryAfter);
  }

  /** The pair that could be presented: the one held, or else the one a store in reach gives in time. */
  function Presentable(config: Config, s: Sign, k: Keyring): Held {
    var reach := if s.built then s.device.available else config.storeAvailable;
    if s.held.id != "" && s.held.secret != "" then s.held
    else if reach && k.load.Done? && s.device.stored.Some? then Unpacked(s.device.stored.value)
    else NOTHING
  }

  /** A redemption is sent exactly when there is no accepted session to go back to, the deployment allows it, none
      is in flight, none has bought a session since a connection was accepted, the hold has passed and there is a
      pair to present. */
  predicate SendsRedemption(config: Config, c: Client, k: Keyring) {
    var pair := Presentable(config, c.sign, k);
    && (c.configured == "" || !c.sign.accepted)
    && config.deviceSession && !c.sign.redeeming && !c.sign.spent && c.now >= c.sign.notBefore
    && pair.id != "" && pair.secret != ""
  }

  /** Opening a session sends that pair, or else presents the session in hand on a new socket, or else asks for an
      anonymous one. */
  lemma OpeningSpendsWhatIsFree(config: Config, c: Client, k: Keyring)
    requires Recorded(config, c)
    ensures var d := OpenSession(config, c, k);
            && d.link.phase == Connecting && d.now == c.now && d.configured == c.configured
            && d.sign.notBefore == c.sign.notBefore && d.sign.spent == c.sign.spent
            && (c.configured != "" && c.sign.accepted ==> !d.sign.accepted && d.sign.device == c.sign.device)
            && if SendsRedemption(config, c, k) then
                 && d.log == c.log + [RedeemSent(c.now, Presentable(config, c.sign, k))]
                 && d.sign.held == Presentable(config, c.sign, k) && c.sign.inFlight == 0 && d.sign.inFlight == 1
               else
                 && d.log == c.log && d.sign.inFlight == c.sign.inFlight
                 && (c.configured != "" ==>
                       d.presented == c.configured && d.link.socket == Open && d.link.handshake)
                 && (c.configured == "" ==> d.link.bootstraps == c.link.bootstraps + 1)
  {
    if !(c.configured != "" && c.sign.accepted) {
      var sign := Built(config, c.sign);
      if MayRedeem(config, sign, c.now) {
        LoadingGives(sign, k);
        ResortKeeps(c.(sign := Remembered(sign, k)));
      } else {
        ResortKeeps(c.(sign := sign));
      }
    }
  }

  lemma LoadingGives(s: Sign, k: Keyring)
    ensures var r := Remembered(s, k);
            && r.built == s.built && r.spent == s.spent && r.redeeming == s.redeeming && r.notBefore == s.notBefore
            && r.inFlight == s.inFlight
            && r.held == if s.held.id != "" && s.held.secret != "" then s.held
                         else if s.device.available && k.load.Done? && s.device.stored.Some?
                         then Unpacked(s.device.stored.value) else NOTHING
  {
  }

  /** What the answer to a redemption leaves held and stored. */
  lemma AnswerLeaves(config: Config, c: Client, reply: Reply, k: Keyring)
    requires Recorded(config, c) && c.sign.inFlight > 0
    ensures var d := OnRedemption(c, reply, k);
            && d.sign.inFlight == 0 && d.link.phase == Connecting && d.now == c.now
            && if reply.status == 200 && reply.session != "" && reply.cookieName != "" then
                 && d.sign.spent && d.configured == d.presented == reply.cookieName + "=" + reply.session
                 && d.link.socket == Open && KeepsThePair(c.sign, d.sign, reply.pair, k)
               else
                 && d.configured == c.configured && RefusalDecided(c, d, reply, k)
                 && (c.configured != "" ==> d.presented == c.configured && d.link.socket == Open)
                 && (c.configured == "" ==> d.link.bootstraps == c.link.bootstraps + 1)
  {
    if GrantsSession(reply) {
      KeepLeaves(Answered(c), reply.pair, k);
    } else {
      RefusalLeaves(Answered(c), reply, k);
      ResortKeeps(Refusal(Answered(c), reply, k));
    }
  }

  /** A valid pair that came with a session is the one held, and the one stored where the store takes it. */
  predicate KeepsThePair(s: Sign, t: Sign, pair: Held, k: Keyring) {
    if pair.id != "" && pair.secret != "" && s.built then
      && t.held == pair
      && (s.device.available && k.store.Done? ==> t.device.stored == Some(pair.id + "\n" + pair.secret))
    else t.held == s.held && t.device == s.device
  }

  /** Without a session: a 404 drops the pair, any other status holds off, and no answer does neither. */
  predicate RefusalDecided(c: Client, d: Client, reply: Reply, k: Keyring) {
    if reply.status == 404 then
      && d.sign.held == NOTHING && d.sign.notBefore == c.sign.notBefore
      && (d.sign.device.stored == None <==> ErasesStored(c.sign, k))
    else
      && d.sign.held == c.sign.held && d.sign.device == c.sign.device
      && d.sign.notBefore == (if reply.status == 0 then c.sign.notBefore else d.now + HoldMs(reply.retryAfter))
  }

  /** What the answer to a claim leaves. */
  lemma ClaimLeaves(c: Client, reply: Reply, k: Keyring)
    requires c.claims > 0
    ensures var d := OnClaim(c, reply, k);
            if Session(reply) then
              && d.configured == d.presented == reply.cookieName + "=" + reply.session
              && d.link.socket == Open && d.link.handshake && KeepsThePair(c.sign, d.sign, reply.pair, k)
              && d.sign.spent == (c.sign.spent || Receives(c, ClaimAnswered(reply)))
            else d == c.(claims := c.claims - 1)
  {
    KeepLeaves(c.(claims := c.claims - 1), reply.pair, k);
  }

  lemma KeepLeaves(c: Client, pair: Held, k: Keyring)
    ensures KeepsThePair(c.sign, Keep(c, pair, k).sign, pair, k)
  {
  }

  lemma ResortKeeps(c: Client)
    ensures var d := Resort(c);
            && d.sign == c.sign && d.link.phase == Connecting && d.now == c.now && d.configured == c.configured
            && (c.configured != "" ==> d.presented == c.configured && d.link.socket == Open && d.link.handshake)
            && (c.configured == "" ==> d.link.bootstraps == c.link.bootstraps + 1)
  {
  }

  lemma RefusalLeaves(c: Client, reply: Reply, k: Keyring)
    requires !GrantsSession(reply)
    ensures var d := Refusal(c, reply, k);
            && d.sign.inFlight == c.sign.inFlight && d.now == c.now && d.link == c.link
            && d.configured == c.configured && RefusalDecided(c, d, reply, k)
  {
  }

  // ---------------------------------------------------------------------------------------------
  // The stored pair
  // ---------------------------------------------------------------------------------------------

  /** The newest pair received: the last one the log names, or the one an earlier launch had. */
  function LastReceived(first: Held, log: seq<Milestone>): Held {
    if log == [] then first
    else if log[|log| - 1].Received? then log[|log| - 1].pair
    else LastReceived(first, log[..|log| - 1])
  }

  /** No pair was forgotten since one was last received. */
  predicate HasPair(log: seq<Milestone>) {
    log == [] || log[|log| - 1].Received? || (log[|log| - 1] != Forgotten && HasPair(log[..|log| - 1]))
  }

  /** Every redemption presented the newest pair of its time. */
  predicate PresentsNewest(first: Held, log: seq<Milestone>) {
    log == [] ||
    (PresentsNewest(first, log[..|log| - 1]) &&
     (log[|log| - 1].RedeemSent? ==> log[|log| - 1].pair == LastReceived(first, log[..|log| - 1])))
  }

  /** No redemption presented a pair that had been forgotten. */
  predicate PresentsUnforgotten(log: seq<Milestone>) {
    log == [] || (PresentsUnforgotten(log[..|log| - 1]) && (log[|log| - 1].RedeemSent? ==> HasPair(log[..|log| - 1])))
  }

  lemma PresentedAppended(first: Held, log: seq<Milestone>, m: Milestone)
    ensures PresentsNewest(first, log + [m]) <==>
            PresentsNewest(first, log) && (m.RedeemSent? ==> m.pair == LastReceived(first, log))
    ensures PresentsUnforgotten(log + [m]) <==> PresentsUnforgotten(log) && (m.RedeemSent? ==> HasPair(log))
    ensures HasPair(log + [m]) == (m.Received? || (m != Forgotten && HasPair(log)))
    ensures LastReceived(first, log + [m]) == if m.Received? then m.pair else LastReceived(first, log)
  {
    assert (log + [m])[..|log|] == log;
  }

  /** A pair with a name the blob can carry. */
  predicate Proper(pair: Held) {
    IsValid(pair) && '\n' !in pair.id
  }

  predicate BringsProper(event: Event) {
    (event.RedemptionAnswered? || event.ClaimAnswered?) && IsValid(event.reply.pair) ==> Proper(event.reply.pair)
  }

  /** The reply holds a session. */
  predicate Session(reply: Reply) {
    reply.status == 200 && reply.session != "" && reply.cookieName != ""
  }

  /** The event brings a pair that is kept. */
  predicate Receives(c: Client, event: Event) {
    && (event.RedemptionAnswered? || event.ClaimAnswered?) && Session(event.reply)
    && event.reply.pair.id != "" && event.reply.pair.secret != "" && c.sign.built
  }

  /** The event has the pair dropped: the edge no longer knows it, or the visitor signs out. */
  predicate Forgets(config: Config, event: Event) {
    || (event.RedemptionAnswered? && event.reply.status == 404)
    || (event.LoggedOut? && config.canLogOut)
  }

  /** A pair received replaces the one stored. */
  predicate Retires(c: Client, event: Event, k: Keyring) {
    Receives(c, event) ==> Replaces(c.sign.device, event.reply.pair, k)
  }

  /** A pair dropped leaves the store: there is none in it, or it has been opened, can be reached and takes
      the erase. */
  predicate ErasesStored(s: Sign, k: Keyring) {
    s.device.stored == None || (s.built && Erases(s.device, k))
  }

  /** Neither held nor stored. */
  predicate Gone(s: Sign) {
    !IsValid(s.held) && s.device.stored == None
  }

  // Each of the two promises rests on its own condition.

  /** What is known of the store's answers: that pairs received replace the ones stored and can be read back,
      and that pairs dropped are erased. */
  datatype Given = Given(retired: bool, erased: bool)

  predicate Grants(g: Given, config: Config, c: Client, event: Event, k: Keyring) {
    && (g.retired ==> Retires(c, event, k) && BringsProper(event))
    && (g.erased ==> Forgets(config, event) ==> ErasesStored(c.sign, k))
  }

  predicate Kept(s: Sign) {
    && KeepsOnly(s.device, s.newest) && (s.device.stored.Some? ==> Proper(s.newest))
    && (IsValid(s.held) ==> s.held == s.newest)
  }

  predicate Fresh(g: Given, first: Held, c: Client) {
    && c.sign.newest == LastReceived(first, c.log)
    && (g.retired ==> Kept(c.sign) && PresentsNewest(first, c.log))
    && (g.erased ==> PresentsUnforgotten(c.log) && (!HasPair(c.log) ==> Gone(c.sign)))
  }

  lemma RememberedIsKept(s: Sign, k: Keyring)
    ensures var r := Remembered(s, k); r.newest == s.newest && (Kept(s) ==> Kept(r)) && (Gone(s) ==> Gone(r))
  {
    if Kept(s) && s.device.stored.Some? {
      PackingRoundTrips(s.newest);
    }
  }

  lemma OpenSessionIsFresh(g: Given, config: Config, first: Held, c: Client, k: Keyring)
    requires Fresh(g, first, c)
    ensures Fresh(g, first, OpenSession(config, c, k))
  {
    if !(c.configured != "" && c.sign.accepted) {
      var sign := Built(config, c.sign);
      if MayRedeem(config, sign, c.now) {
        RememberedIsKept(sign, k);
        PresentedIfRedeemed(g, first, c.(sign := Remembered(sign, k)));
      }
    }
  }

  lemma PresentedIfRedeemed(g: Given, first: Held, c: Client)
    requires Fresh(g, first, c)
    ensures IsValid(c.sign.held) ==> Fresh(g, first, Redeem(c))
    ensures Fresh(g, first, Resort(c))
  {
    PresentedAppended(first, c.log, RedeemSent(c.now, c.sign.held));
  }

  lemma LoggedIsFresh(g: Given, first: Held, c: Client, m: Milestone)
    requires Fresh(g, first, c) && !m.RedeemSent? && !m.Received? && m != Forgotten
    ensures Fresh(g, first, Logged(c, m))
  {
    PresentedAppended(first, c.log, m);
  }

  lemma KeepIsFresh(g: Given, first: Held, c: Client, pair: Held, k: Keyring)
    requires Fresh(g, first, c)
    requires g.retired && IsValid(pair) ==> Proper(pair) && (c.sign.built ==> Replaces(c.sign.device, pair, k))
    ensures Fresh(g, first, Keep(c, pair, k))
  {
    if IsValid(pair) && c.sign.built {
      PresentedAppended(first, c.log, Received(pair));
      SaveLeavesNothingStale(c.sign.device, pair, k);
    }
  }

  lemma GrantIsFresh(g: Given, first: Held, c: Client, reply: Reply, k: Keyring)
    requires Fresh(g, first, c)
    requires g.retired && IsValid(reply.pair) ==>
               Proper(reply.pair) && (c.sign.built ==> Replaces(c.sign.device, reply.pair, k))
    ensures Fresh(g, first, Adopt(Spend(Keep(c, reply.pair, k)), reply))
  {
    KeepIsFresh(g, first, c, reply.pair, k);
    var kept := Keep(c, reply.pair, k);
    LoggedIsFresh(g, first, kept.(sign := kept.sign.(spent := true)), Bought);
  }

  lemma ForgetIsFresh(g: Given, first: Held, c: Client, k: Keyring)
    requires Fresh(g, first, c) && (g.erased ==> ErasesStored(c.sign, k))
    ensures Fresh(g, first, Forget(c, k))
  {
    PresentedAppended(first, c.log, Forgotten);
  }

  lemma RefusalIsFresh(g: Given, first: Held, c: Client, reply: Reply, k: Keyring)
    requires Fresh(g, first, c) && (g.erased && reply.status == 404 ==> ErasesStored(c.sign, k))
    ensures Fresh(g, first, Refusal(c, reply, k))
  {
    if reply.status == 404 {
      ForgetIsFresh(g, first, c, k);
    } else if reply.status != 0 {
      HoldIsFresh(g, first, c, HoldMs(reply.retryAfter));
    }
  }

  lemma HoldIsFresh(g: Given, first: Held, c: Client, ms: int)
    requires Fresh(g, first, c)
    ensures Fresh(g, first, HoldOff(c, ms))
  {
    LoggedIsFresh(g, first, c.(sign := c.sign.(notBefore := c.now + ms)), HeldOff(c.now, c.now + ms));
  }

  lemma RedemptionIsFresh(g: Given, config: Config, first: Held, c: Client, reply: Reply, k: Keyring)
    requires Fresh(g, first, c) && c.sign.inFlight > 0 && Grants(g, config, c, RedemptionAnswered(reply), k)
    ensures Fresh(g, first, OnRedemption(c, reply, k))
  {
    LoggedIsFresh(g, first, c.(sign := c.sign.(redeeming := false, inFlight := c.sign.inFlight - 1)), RedeemAnswered);
    var c1 := Answered(c);
    if GrantsSession(reply) {
      GrantIsFresh(g, first, c1, reply, k);
    } else {
      RefusalIsFresh(g, first, c1, reply, k);
    }
  }

  lemma SocketIsFresh(g: Given, config: Config, first: Held, c: Client)
    requires Fresh(g, first, c)
    ensures Fresh(g, first, OnConnected(config, c)) && Fresh(g, first, OnDisconnected(config, c))
    ensures Fresh(g, first, OnHandshakeTimeout(config, c))
  {
    LoggedIsFresh(g, first, c.(sign := c.sign.(accepted := true, spent := false)), Accepted);
    LoggedIsFresh(g, first, c, Waited(c.link.backoffMs));
  }

  lemma OpeningIsFresh(g: Given, config: Config, first: Held, c: Client, event: Event, k: Keyring)
    requires Fresh(g, first, c) && Enabled(c, event) && Opens(event)
    ensures Fresh(g, first, Next(config, c, event, k))
  {
    match event
    case Start => OpenSessionIsFresh(g, config, first, c, k);
    case ReconnectTimedOut => OpenSessionIsFresh(g, config, first, c.(link := c.link.(reconnect := false)), k);
    case LogoutAnswered =>
      OpenSessionIsFresh(g, config, first, c.(logouts := c.logouts - 1, configured := "", presented := ""), k);
  }

  lemma ClaimIsFresh(g: Given, config: Config, first: Held, c: Client, reply: Reply, k: Keyring)
    requires Fresh(g, first, c) && c.claims > 0 && Grants(g, config, c, ClaimAnswered(reply), k)
    ensures Fresh(g, first, OnClaim(c, reply, k))
  {
    if Receives(c, ClaimAnswered(reply)) {
      GrantIsFresh(g, first, c.(claims := c.claims - 1), reply, k);
    }
  }

  lemma NextIsFresh(g: Given, config: Config, first: Held, c: Client, event: Event, k: Keyring)
    requires Fresh(g, first, c) && Enabled(c, event) && Grants(g, config, c, event, k)
    ensures Fresh(g, first, Next(config, c, event, k))
  {
    if Quiet(event) {
    } else if Opens(event) {
      OpeningIsFresh(g, config, first, c, event, k);
    } else if event.RedemptionAnswered? {
      RedemptionIsFresh(g, config, first, c, event.reply, k);
    } else if event.ClaimAnswered? {
      ClaimIsFresh(g, config, first, c, event.reply, k);
    } else if event.LoggedOut? {
      if config.canLogOut {
        ForgetIsFresh(g, first, c, k);
      }
    } else {
      SocketIsFresh(g, config, first, c);
    }
  }

  lemma {:induction false} RunsAreFresh(g: Given, config: Config, run: seq<Client>, steps: seq<Step>, i: nat)
    requires IsRun(config, run, steps) && i < |run| && (g.retired ==> Kept(run[0].sign))
    requires forall j :: 0 <= j < |steps| ==> Grants(g, config, run[j], steps[j].event, steps[j].keyring)
    ensures Fresh(g, run[0].sign.newest, run[i])
  {
    if i > 0 {
      RunsAreFresh(g, config, run, steps, i - 1);
      NextIsFresh(g, config, run[0].sign.newest, run[i - 1], steps[i - 1].event, steps[i - 1].keyring);
    }
  }

  /** The pair named is the same, and what is stored is the same or gone. */
  predicate AddsNothing(s: Sign, t: Sign) {
    t.newest == s.newest && (t.device.stored == s.device.stored || t.device.stored == None)
  }

  lemma OpeningAddsNothing(config: Config, c: Client, event: Event, k: Keyring)
    requires Enabled(c, event) && Opens(event)
    ensures AddsNothing(c.sign, Next(config, c, event, k).sign)
  {
    match event
    case Start => OpenSessionAddsNothing(config, c, k);
    case ReconnectTimedOut => OpenSessionAddsNothing(config, c.(link := c.link.(reconnect := false)), k);
    case LogoutAnswered =>
      OpenSessionAddsNothing(config, c.(logouts := c.logouts - 1, configured := "", presented := ""), k);
  }

  lemma OpenSessionAddsNothing(config: Config, c: Client, k: Keyring)
    ensures AddsNothing(c.sign, OpenSession(config, c, k).sign)
  {
  }

  lemma ReplyStores(config: Config, c: Client, event: Event, k: Keyring)
    requires Enabled(c, event) && (event.RedemptionAnswered? || event.ClaimAnswered?)
    ensures var s := Next(config, c, event, k).sign;
            if Receives(c, event) then s.newest == event.reply.pair && s.device == Saved(c.sign.device, s.newest, k)
            else AddsNothing(c.sign, s)
  {
  }

  lemma OthersAddNothing(config: Config, c: Client, event: Event, k: Keyring)
    requires Enabled(c, event) && !Opens(event) && !event.RedemptionAnswered? && !event.ClaimAnswered?
    ensures AddsNothing(c.sign, Next(config, c, event, k).sign)
  {
  }

  /** The one way the store comes to hold an older pair. */
  lemma StepStoresTheNewest(config: Config, c: Client, event: Event, k: Keyring)
    requires Enabled(c, event) && KeepsOnly(c.sign.device, c.sign.newest)
    ensures var s := Next(config, c, event, k).sign; KeepsOnly(s.device, s.newest) <==> Retires(c, event, k)
  {
    if Opens(event) {
      OpeningAddsNothing(config, c, event, k);
    } else if event.RedemptionAnswered? || event.ClaimAnswered? {
      ReplyStores(config, c, event, k);
      if Receives(c, event) {
        SaveLeavesNothingStale(c.sign.device, event.reply.pair, k);
      }
    } else {
      OthersAddNothing(config, c, event, k);
    }
  }

  lemma {:induction false} StoredWhileRetired(config: Config, run: seq<Client>, steps: seq<Step>, i: nat)
    requires IsRun(config, run, steps) && i < |run| && KeepsOnly(run[0].sign.device, run[0].sign.newest)
    requires forall j :: 0 <= j < |steps| ==> Retires(run[j], steps[j].event, steps[j].keyring)
    ensures KeepsOnly(run[i].sign.device, run[i].sign.newest)
  {
    if i > 0 {
      StoredWhileRetired(config, run, steps, i - 1);
      StepStoresTheNewest(config, run[i - 1], steps[i - 1].event, steps[i - 1].keyring);
    }
  }

  lemma RetiredWhereStored(config: Config, run: seq<Client>, steps: seq<Step>, j: nat)
    requires IsRun(config, run, steps) && j < |steps|
    requires KeepsOnly(run[j].sign.device, run[j].sign.newest)
    requires KeepsOnly(run[j + 1].sign.device, run[j + 1].sign.newest)
    ensures Retires(run[j], steps[j].event, steps[j].keyring)
  {
    StepStoresTheNewest(config, run[j], steps[j].event, steps[j].keyring);
  }

  /** Whatever the store answers: at every point of a run what is stored is nothing or the newest pair
      received, exactly when each pair received found the store empty, or in reach and taking the write or
      the erase that makes up for it. A load may fail or be late. */
  lemma StoredPairIsTheNewest(config: Config, run: seq<Client>, steps: seq<Step>)
    requires IsRun(config, run, steps) && KeepsOnly(run[0].sign.device, run[0].sign.newest)
    ensures (forall i :: 0 <= i < |run| ==>
               KeepsOnly(run[i].sign.device, LastReceived(run[0].sign.newest, run[i].log))) <==>
            (forall j :: 0 <= j < |steps| ==> Retires(run[j], steps[j].event, steps[j].keyring))
  {
    forall i | 0 <= i < |run| ensures run[i].sign.newest == LastReceived(run[0].sign.newest, run[i].log) {
      RunsAreFresh(Given(false, false), config, run, steps, i);
    }
    if forall j :: 0 <= j < |steps| ==> Retires(run[j], steps[j].event, steps[j].keyring) {
      forall i | 0 <= i < |run| ensures KeepsOnly(run[i].sign.device, run[i].sign.newest) {
        StoredWhileRetired(config, run, steps, i);
      }
    } else {
      var j :| 0 <= j < |steps| && !Retires(run[j], steps[j].event, steps[j].keyring);
      if KeepsOnly(run[j].sign.device, run[j].sign.newest)
         && KeepsOnly(run[j + 1].sign.device, run[j + 1].sign.newest) {
        RetiredWhereStored(config, run, steps, j);
      }
    }
  }

  /** Under that condition every redemption of the run presents the newest pair received. */
  lemma NewestPairIsPresented(config: Config, run: seq<Client>, steps: seq<Step>, i: nat)
    requires IsRun(config, run, steps) && i < |run| && Kept(run[0].sign)
    requires forall j :: 0 <= j < |steps| ==>
               Retires(run[j], steps[j].event, steps[j].keyring) && BringsProper(steps[j].event)
    ensures PresentsNewest(run[0].sign.newest, run[i].log)
  {
    RunsAreFresh(Given(true, false), config, run, steps, i);
  }

  lemma {:induction false} ForgottenUntilReceived(log: seq<Milestone>, i: nat)
    requires i < |log| && log[i] == Forgotten && HasPair(log)
    ensures exists j :: i < j < |log| && log[j].Received?
    decreases |log|
  {
    var last := |log| - 1;
    assert i < last;
    if !log[last].Received? {
      ForgottenUntilReceived(log[..last], i);
      var j :| i < j < last && log[..last][j].Received?;
      assert log[j].Received?;
    }
  }

  lemma {:induction false} UnforgottenThroughout(log: seq<Milestone>, j: nat)
    requires PresentsUnforgotten(log) && j < |log| && log[j].RedeemSent?
    ensures HasPair(log[..j])
    decreases |log|
  {
    var front := log[..|log| - 1];
    if j < |log| - 1 {
      UnforgottenThroughout(front, j);
      assert front[..j] == log[..j];
    }
  }

  /** A pair that the edge refused, or that the visitor signed out of, is presented no more where dropping it
      erases it: between the two and the next redemption a new pair was received. */
  lemma ForgottenIsNotPresented(config: Config, run: seq<Client>, steps: seq<Step>, n: nat, i: nat, j: nat)
    requires IsRun(config, run, steps) && n < |run|
    requires forall m :: 0 <= m < |steps| && Forgets(config, steps[m].event) ==>
               ErasesStored(run[m].sign, steps[m].keyring)
    requires i < j < |run[n].log| && run[n].log[i] == Forgotten && run[n].log[j].RedeemSent?
    ensures exists m :: i < m < j && run[n].log[m].Received?
  {
    RunsAreFresh(Given(false, true), config, run, steps, n);
    var log := run[n].log;
    UnforgottenThroughout(log, j);
    ForgottenUntilReceived(log[..j], i);
    var m :| i < m < j && log[..j][m].Received?;
    assert log[m].Received?;
  }

  /** Only a pair received or dropped changes what is stored. */
  lemma StoredIsLeftAlone(config: Config, c: Client, event: Event, k: Keyring)
    requires Enabled(c, event) && !Receives(c, event) && !Forgets(config, event)
    ensures Next(config, c, event, k).sign.device.stored == c.sign.device.stored
  {
    if Opens(event) {
      OpeningLeavesStored(config, c, event, k);
    }
  }

  lemma OpeningLeavesStored(config: Config, c: Client, event: Event, k: Keyring)
    requires Enabled(c, event) && Opens(event)
    ensures Next(config, c, event, k).sign.device.stored == c.sign.device.stored
  {
    match event
    case Start => SessionLeavesStored(config, c, k);
    case ReconnectTimedOut => SessionLeavesStored(config, c.(link := c.link.(reconnect := false)), k);
    case LogoutAnswered =>
      SessionLeavesStored(config, c.(logouts := c.logouts - 1, configured := "", presented := ""), k);
  }

  lemma SessionLeavesStored(config: Config, c: Client, k: Keyring)
    ensures OpenSession(config, c, k).sign.device.stored == c.sign.device.stored
  {
  }

  lemma ReceivedIsStored(config: Config, c: Client, event: Event, k: Keyring)
    requires Enabled(c, event) && Receives(c, event) && c.sign.device.available && k.store.Done?
    ensures var pair := event.reply.pair;
            Next(config, c, event, k).sign.device.stored == Some(pair.id + "\n" + pair.secret)
  {
  }

  lemma StoredUntilDropped(config: Config, run: seq<Client>, steps: seq<Step>, j: nat, n: nat)
    requires IsRun(config, run, steps) && j < n < |run| && Receives(run[j], steps[j].event)
    requires run[j].sign.device.available && steps[j].keyring.store.Done?
    requires forall m :: j < m < n ==> !Receives(run[m], steps[m].event) && !Forgets(config, steps[m].event)
    ensures var pair := steps[j].event.reply.pair;
            run[n].sign.device.stored == Some(pair.id + "\n" + pair.secret)
  {
    var stored := seq(|run|, i requires 0 <= i < |run| => run[i].sign.device.stored);
    StepStores(config, run, steps, j);
    forall m: nat | j < m < n ensures stored[m + 1] == stored[m] {
      StepLeavesStored(config, run, steps, m);
    }
    SameThroughout(stored, j + 1, n);
  }

  lemma {:induction false} SameThroughout(values: seq<Option<string>>, from: nat, n: nat)
    requires from <= n < |values| && forall m: nat :: from <= m < n ==> values[m + 1] == values[m]
    ensures values[n] == values[from]
  {
    if from < n {
      SameThroughout(values, from, n - 1);
      assert values[(n - 1) + 1] == values[n - 1];
    }
  }

  lemma StepStores(config: Config, run: seq<Client>, steps: seq<Step>, j: nat)
    requires IsRun(config, run, steps) && j < |steps| && Receives(run[j], steps[j].event)
    requires run[j].sign.device.available && steps[j].keyring.store.Done?
    ensures var pair := steps[j].event.reply.pair;
            run[j + 1].sign.device.stored == Some(pair.id + "\n" + pair.secret)
  {
    ReceivedIsStored(config, run[j], steps[j].event, steps[j].keyring);
  }

  lemma StepLeavesStored(config: Config, run: seq<Client>, steps: seq<Step>, j: nat)
    requires IsRun(config, run, steps) && j < |steps|
    requires !Receives(run[j], steps[j].event) && !Forgets(config, steps[j].event)
    ensures run[j + 1].sign.device.stored == run[j].sign.device.stored
  {
    StoredIsLeftAlone(config, run[j], steps[j].event, steps[j].keyring);
  }

  /** A pair received by a store in reach that takes the write is, until it is dropped or replaced, the pair the next
      launch presents, if its name has no newline. */
  lemma NextLaunchPresentsIt(config: Config, run: seq<Client>, steps: seq<Step>, j: nat, n: nat,
                             launched: Config, next: Client, k: Keyring)
    requires IsRun(config, run, steps) && j < n < |run| && Receives(run[j], steps[j].event)
    requires run[j].sign.device.available && steps[j].keyring.store.Done? && '\n' !in steps[j].event.reply.pair.id
    requires forall m :: j < m < n ==> !Receives(run[m], steps[m].event) && !Forgets(config, steps[m].event)
    requires Launch(launched, next) && launched.deviceSession && launched.storeAvailable && k.load.Done?
    requires next.sign.device.stored == run[n].sign.device.stored
    ensures OpenSession(launched, next, k).log == [RedeemSent(next.now, steps[j].event.reply.pair)]
  {
    StoredUntilDropped(config, run, steps, j, n);
    PackingRoundTrips(steps[j].event.reply.pair);
  }

  /** A sign-out leaves nothing held or stored exactly when the store held nothing, or had been opened, was
      still in reach and took the erase. */
  lemma SignOutErasesWhatItReaches(config: Config, c: Client, k: Keyring)
    ensures var s := EndSession(config, c, k).sign;
            Gone(s) <==> if config.canLogOut then ErasesStored(c.sign, k) else Gone(c.sign)
  {
  }

  lemma SignOutLeaves(config: Config, c: Client, k: Keyring)
    ensures var d := EndSession(config, c, k);
            && (config.canLogOut ==>
                  && d.sign.held == NOTHING && d.logouts == c.logouts + 1 && d.sign.built == c.sign.built
                  && d.sign.device.available == c.sign.device.available
                  && (d.sign.device.stored == None <==> ErasesStored(c.sign, k)))
            && (!config.canLogOut ==> d == c)
  {
  }

  /** A store that answered the first load too late is written off, so the sign-out does not reach it; the next
      launch presents the pair that was signed out of. */
  lemma ALateLoadOutlivesTheSignOut(config: Config, c: Client, pair: Held, late: Keyring, any: Keyring, next: Client)
    requires config.deviceSession && config.storeAvailable && config.canLogOut
    requires Launch(config, c) && Proper(pair) && c.sign.device.stored == Some(Packed(pair)) && late.load.Late?
    requires Launch(config, next)
    requires next.sign.device.stored == EndSession(config, OpenSession(config, c, late), any).sign.device.stored
    ensures var out := EndSession(config, OpenSession(config, c, late), any);
            && out.sign.built && out.sign.device.stored == Some(Packed(pair)) && out.log == [Forgotten]
    ensures OpenSession(config, next, Keyring(Done, Done, Done)).log == [RedeemSent(next.now, pair)]
  {
    PackingRoundTrips(pair);
  }
}
