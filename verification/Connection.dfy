/**
 The native client's connection to its edge (src/client/synclient.cpp): socket events, timers and HTTP
 replies interleave freely around the flags that say whether the stored credential may be spent.
 */
module Connection {
  import opened Prelude
  import opened DeviceCredentials

  // ---------------------------------------------------------------------------------------------
  // State
  // ---------------------------------------------------------------------------------------------

  datatype Config = Config(baseMs: int, maxMs: int, deviceSession: bool, storeAvailable: bool, canLogOut: bool)

  datatype Phase = Offline | Connecting | Connected | Reconnecting

  /** The socket under construction or in use; one whose handshake was given up stays until the next attempt. */
  datatype Socket = NoSocket | Open | Aborted

  /** The connection: the socket, its two timers, and the anonymous bootstraps not yet answered. */
  datatype Link = Link(phase: Phase, socket: Socket, handshake: bool, reconnect: bool, backoffMs: int, bootstraps: nat)

  /** The sign-in: what is held and stored, what may be spent, and the redemptions not yet answered. */
  datatype Sign = Sign(built: bool, device: Device, held: Held, accepted: bool, spent: bool, redeeming: bool,
                       notBefore: int, inFlight: nat, newest: Held)

  /** The session cookie kept for reconnects, the one presented, and the other requests outstanding. */
  datatype Client = Client(link: Link, sign: Sign, configured: string, presented: string,
                           claims: nat, logouts: nat, now: nat, log: seq<Milestone>)

  /** What an observer of the client sees, in order. */
  datatype Milestone =
    | RedeemSent(at: nat, pair: Held)
    | RedeemAnswered
    | Received(pair: Held)
    | Forgotten
    | Bought
    | Accepted
    | HeldOff(at: nat, until: int)
    | Waited(ms: int)

  /** An edge's answer to a claim or a redemption; `status` is 0 when there was none. */
  datatype Reply = Reply(status: int, session: string, cookieName: string, pair: Held, retryAfter: Option<int>)

  datatype Event =
    | Start
    | SocketConnected
    | SocketDisconnected
    | HandshakeTimedOut
    | ReconnectTimedOut
    | BootstrapAnswered(jar: string)
    | RedemptionAnswered(reply: Reply)
    | ClaimSent
    | ClaimAnswered(reply: Reply)
    | LoggedOut
    | LogoutAnswered
    | Passed(ms: nat)

  const DEFAULT_HOLD_MS := 60 * 1000
  const MAX_HOLD_MS := 5 * 60 * 1000

  // ---------------------------------------------------------------------------------------------
  // Connecting
  // ---------------------------------------------------------------------------------------------

  function Logged(c: Client, m: Milestone): Client {
    c.(log := c.log + [m])
  }

  /** Whatever socket there was is retired, and a new one waits for its handshake. */
  function ConnectToEdge(c: Client): Client {
    c.(link := c.link.(phase := Connecting, socket := Open, handshake := true))
  }

  function OnConnected(config: Config, c: Client): Client {
    Logged(c.(link := c.link.(phase := Connected, handshake := false, backoffMs := config.baseMs),
              sign := c.sign.(accepted := true, spent := false)), Accepted)
  }

  function Min(a: int, b: int): int {
    if a < b then a else b
  }

  function ScheduleReconnect(config: Config, c: Client): Client {
    if c.link.reconnect then c
    else
      var backoffMs := Min(c.link.backoffMs * 2, config.maxMs);
      Logged(c.(link := c.link.(reconnect := true, backoffMs := backoffMs)), Waited(c.link.backoffMs))
  }

  function OnDisconnected(config: Config, c: Client): Client {
    if c.link.phase == Reconnecting then c
    else ScheduleReconnect(config, c.(link := c.link.(phase := Reconnecting)))
  }

  function AbortedLink(l: Link): Link {
    l.(handshake := false, socket := if l.socket == NoSocket then NoSocket else Aborted)
  }

  function OnHandshakeTimeout(config: Config, c: Client): Client {
    OnDisconnected(config, c.(link := AbortedLink(c.link)))
  }

  // ---------------------------------------------------------------------------------------------
  // Opening a session
  // ---------------------------------------------------------------------------------------------

  function Bootstrap(c: Client): Client {
    c.(link := c.link.(phase := Connecting, bootstraps := c.link.bootstraps + 1))
  }

  /** The session in hand, or an anonymous one. */
  function Resort(c: Client): Client {
    if c.configured != "" then ConnectToEdge(c.(presented := c.configured)) else Bootstrap(c)
  }

  /** The store is built the first time anything asks for it. */
  function Built(config: Config, s: Sign): Sign {
    if config.deviceSession && !s.built
    then s.(built := true, device := s.device.(available := config.storeAvailable))
    else s
  }

  predicate MayRedeem(config: Config, s: Sign, now: nat) {
    config.deviceSession && !s.redeeming && !s.spent && now >= s.notBefore
  }

  function Remembered(s: Sign, k: Keyring): Sign {
    if IsValid(s.held) then s
    else
      var (device, held) := Loaded(s.device, k);
      s.(device := device, held := held)
  }

  function Redeem(c: Client): Client {
    Logged(c.(link := c.link.(phase := Connecting),
              sign := c.sign.(redeeming := true, inFlight := c.sign.inFlight + 1)),
           RedeemSent(c.now, c.sign.held))
  }

  function OpenSession(config: Config, c: Client, k: Keyring): Client {
    if c.configured != "" && c.sign.accepted then
      ConnectToEdge(c.(sign := c.sign.(accepted := false), presented := c.configured))
    else
      var sign := Built(config, c.sign);
      if !MayRedeem(config, sign, c.now) then Resort(c.(sign := sign))
      else
        var ready := c.(sign := Remembered(sign, k));
        if IsValid(ready.sign.held) then Redeem(ready) else Resort(ready)
  }

  // ---------------------------------------------------------------------------------------------
  // Replies
  // ---------------------------------------------------------------------------------------------

  predicate GrantsSession(reply: Reply) {
    reply.status == 200 && reply.session != "" && reply.cookieName != ""
  }

  /** A pair that came with a session replaces the one stored and held. */
  function Keep(c: Client, pair: Held, k: Keyring): Client {
    if IsValid(pair) && c.sign.built then
      var device := Saved(c.sign.device, pair, k);
      Logged(c.(sign := c.sign.(device := device, held := pair, newest := pair)), Received(pair))
    else c
  }

  function Spend(c: Client): Client {
    Logged(c.(sign := c.sign.(spent := true)), Bought)
  }

  function Adopt(c: Client, reply: Reply): Client {
    var cookie := reply.cookieName + "=" + reply.session;
    ConnectToEdge(c.(presented := cookie, configured := cookie))
  }

  function HoldMs(retryAfter: Option<int>): int {
    if retryAfter.Some? && retryAfter.value * 1000 > 0
    then Min(retryAfter.value * 1000, MAX_HOLD_MS)
    else DEFAULT_HOLD_MS
  }

  function HoldOff(c: Client, ms: int): Client {
    Logged(c.(sign := c.sign.(notBefore := c.now + ms)), HeldOff(c.now, c.now + ms))
  }

  /** The pair is dropped, and erased from the store if that has been built. */
  function Forget(c: Client, k: Keyring): Client {
    var device := if c.sign.built then Erased(c.sign.device, k) else c.sign.device;
    Logged(c.(sign := c.sign.(held := NOTHING, device := device)), Forgotten)
  }

  function Refusal(c: Client, reply: Reply, k: Keyring): Client {
    if reply.status == 404 then Forget(c, k)
    else if reply.status != 0 then HoldOff(c, HoldMs(reply.retryAfter))
    else c
  }

  function Answered(c: Client): Client
    requires c.sign.inFlight > 0
  {
    Logged(c.(sign := c.sign.(redeeming := false, inFlight := c.sign.inFlight - 1)), RedeemAnswered)
  }

  function ActOn(c: Client, reply: Reply, k: Keyring): Client {
    if GrantsSession(reply) then Adopt(Spend(Keep(c, reply.pair, k)), reply) else Resort(Refusal(c, reply, k))
  }

  function OnRedemption(c: Client, reply: Reply, k: Keyring): Client
    requires c.sign.inFlight > 0
  {
    ActOn(Answered(c), reply, k)
  }

  function OnClaim(c: Client, reply: Reply, k: Keyring): Client
    requires c.claims > 0
  {
    var c := c.(claims := c.claims - 1);
    if !GrantsSession(reply) then c
    else if IsValid(reply.pair) && c.sign.built then Adopt(Spend(Keep(c, reply.pair, k)), reply)
    else Adopt(c, reply)
  }

  function EndSession(config: Config, c: Client, k: Keyring): Client {
    if !config.canLogOut then c
    else
      var forgotten := Forget(c, k);
      forgotten.(logouts := c.logouts + 1)
  }

  function OnLogout(config: Config, c: Client, k: Keyring): Client
    requires c.logouts > 0
  {
    OpenSession(config, c.(logouts := c.logouts - 1, configured := "", presented := ""), k)
  }

  // ---------------------------------------------------------------------------------------------
  // Runs
  // ---------------------------------------------------------------------------------------------

  /** A timer fires if it is armed, a reply answers a request that is outstanding, and a socket reports
      while there is one. */
  predicate Enabled(c: Client, event: Event) {
    match event
    case SocketConnected => c.link.socket == Open
    case SocketDisconnected => c.link.socket != NoSocket
    case HandshakeTimedOut => c.link.handshake
    case ReconnectTimedOut => c.link.reconnect
    case BootstrapAnswered(_) => c.link.bootstraps > 0
    case RedemptionAnswered(_) => c.sign.inFlight > 0
    case ClaimAnswered(_) => c.claims > 0
    case LogoutAnswered => c.logouts > 0
    case _ => true
  }

  function Next(config: Config, c: Client, event: Event, k: Keyring): Client
    requires Enabled(c, event)
  {
    match event
    case Start => OpenSession(config, c, k)
    case SocketConnected => OnConnected(config, c)
    case SocketDisconnected => OnDisconnected(config, c)
    case HandshakeTimedOut => OnHandshakeTimeout(config, c)
    case ReconnectTimedOut => OpenSession(config, c.(link := c.link.(reconnect := false)), k)
    case BootstrapAnswered(jar) =>
      ConnectToEdge(c.(presented := jar, link := c.link.(bootstraps := c.link.bootstraps - 1)))
    case RedemptionAnswered(reply) => OnRedemption(c, reply, k)
    case ClaimSent => c.(claims := c.claims + 1, sign := Built(config, c.sign))
    case ClaimAnswered(reply) => OnClaim(c, reply, k)
    case LoggedOut => EndSession(config, c, k)
    case LogoutAnswered => OnLogout(config, c, k)
    case Passed(ms) => c.(now := c.now + ms)
  }

  datatype Step = Step(event: Event, keyring: Keyring)

  /** A launch: nothing outstanding, and what an earlier launch stored. */
  predicate Launch(config: Config, c: Client) {
    && c.link == Link(Offline, NoSocket, false, false, config.baseMs, 0)
    && c.sign.held == NOTHING && !c.sign.built && !c.sign.accepted && !c.sign.spent && !c.sign.redeeming
    && c.sign.notBefore == 0 && c.sign.inFlight == 0
    && c.claims == 0 && c.logouts == 0 && c.log == []
  }

  /** A run: states one step apart, each event enabled where it happens. */
  predicate IsRun(config: Config, run: seq<Client>, steps: seq<Step>) {
    && |run| == |steps| + 1 && Launch(config, run[0])
    && forall i :: 0 <= i < |steps| ==>
         Enabled(run[i], steps[i].event) && run[i + 1] == Next(config, run[i], steps[i].event, steps[i].keyring)
  }
}
