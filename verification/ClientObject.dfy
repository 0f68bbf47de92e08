/**
 The client as an object (src/client/synclient.cpp): its handlers update the state in place, each to the state
 the connection's step function gives, and each keeps the client from stalling.
 */
module ClientObject {
  import opened Prelude
  import opened DeviceCredentials
  import opened Connection
  import ConnectionRuns

  class SynClient {
    const config: Config
    const device: DeviceCredential
    // The connection.
    var phase: Phase
    var socket: Socket
    var handshakeArmed: bool
    var reconnectArmed: bool
    var backoffMs: int
    var bootstraps: nat
    // The sign-in.
    var built: bool
    var held: Held
    var accepted: bool
    var spent: bool
    var redeeming: bool
    var notBefore: int
    var configured: string
    var presented: string
    // Requests outstanding, and the clock.
    var inFlight: nat
    var claims: nat
    var logouts: nat
    var now: nat
    ghost var newest: Held
    ghost var log: seq<Milestone>

    constructor (config: Config, device: DeviceCredential, configured: string, now: nat, ghost newest: Held)
      ensures this.config == config && this.device == device && Launch(config, View()) && Valid()
      ensures View().configured == configured && View().sign.device == device.View() && View().sign.newest == newest
    {
      this.config, this.device := config, device;
      phase, socket, handshakeArmed, reconnectArmed := Offline, NoSocket, false, false;
      backoffMs, bootstraps := config.baseMs, 0;
      built, held, accepted, spent, redeeming, notBefore := false, NOTHING, false, false, false, 0;
      this.configured, presented := configured, "";
      inFlight, claims, logouts, this.now := 0, 0, 0, now;
      this.newest, log := newest, [];
    }

    ghost function LinkView(): Link
      reads this
    {
      Link(phase, socket, handshakeArmed, reconnectArmed, backoffMs, bootstraps)
    }

    ghost function SignView(): Sign
      reads this, device
    {
      Sign(built, device.View(), held, accepted, spent, redeeming, notBefore, inFlight, newest)
    }

    ghost function View(): Client
      reads this, device
    {
      Client(LinkView(), SignView(), configured, presented, claims, logouts, now, log)
    }

    ghost predicate Valid()
      reads this, device
    {
      ConnectionRuns.Sound(config, View())
    }

    // -------------------------------------------------------------------------------------------
    // Connecting
    // -------------------------------------------------------------------------------------------

    method Teardown()
      modifies this`handshakeArmed, this`socket
      ensures !handshakeArmed && socket == NoSocket
    {
      handshakeArmed := false;
      if socket != NoSocket {
        socket := NoSocket;
      }
    }

    method ConnectToEdge()
      modifies this`phase, this`socket, this`handshakeArmed
      ensures View() == Connection.ConnectToEdge(old(View()))
    {
      Teardown();
      phase := Connecting;
      socket := Open;
      handshakeArmed := true;
    }

    /** The edge accepted the session, so the stored credential is free to buy the next one. */
    method OnConnected()
      requires Valid()
      modifies this`handshakeArmed, this`backoffMs, this`accepted, this`spent, this`phase, this`log
      ensures Valid() && View() == Connection.OnConnected(config, old(View()))
      ensures phase == Connected && !handshakeArmed && backoffMs == config.baseMs && accepted && !spent
    {
      ConnectionRuns.ConnectedIsSound(config, View());
      ghost var after := Connection.OnConnected(config, View());
      handshakeArmed := false;
      backoffMs := config.baseMs;
      accepted := true;
      spent := false;
      log := log + [Accepted];
      phase := Connected;
      assert View() == after;
    }

    method ScheduleReconnect()
      modifies this`reconnectArmed, this`backoffMs, this`log
      ensures View() == Connection.ScheduleReconnect(config, old(View()))
    {
      if reconnectArmed {
        return;
      }
      reconnectArmed := true;
      log := log + [Waited(backoffMs)];
      backoffMs := Min(backoffMs * 2, config.maxMs);
    }

    method OnDisconnected()
      modifies this`phase, this`reconnectArmed, this`backoffMs, this`log
      ensures View() == Connection.OnDisconnected(config, old(View()))
    {
      if phase == Reconnecting {
        return;
      }
      phase := Reconnecting;
      ScheduleReconnect();
    }

    /** The socket closed, or failed. */
    method OnSocketLost()
      requires Valid() && socket != NoSocket
      modifies this`phase, this`reconnectArmed, this`backoffMs, this`log
      ensures Valid() && View() == Connection.OnDisconnected(config, old(View()))
      ensures phase == Reconnecting && reconnectArmed
      ensures log == old(log) || log == old(log) + [Waited(old(backoffMs))]
    {
      ConnectionRuns.DisconnectedIsSound(config, View());
      OnDisconnected();
    }

    method OnHandshakeTimeout()
      requires Valid() && handshakeArmed
      modifies this`phase, this`reconnectArmed, this`backoffMs, this`log, this`handshakeArmed, this`socket
      ensures Valid() && View() == Connection.OnHandshakeTimeout(config, old(View()))
      ensures phase == Reconnecting && reconnectArmed && !handshakeArmed && socket != Open
      ensures log == old(log) || log == old(log) + [Waited(old(backoffMs))]
    {
      ConnectionRuns.HandshakeTimeoutIsSound(config, View());
      ghost var after := Connection.OnHandshakeTimeout(config, View());
      AbortSocket();
      OnDisconnected();
      assert View() == after;
    }

    method AbortSocket()
      modifies this`handshakeArmed, this`socket
      ensures View() == old(View()).(link := AbortedLink(old(LinkView())))
    {
      handshakeArmed := false;
      if socket != NoSocket {
        socket := Aborted;
      }
    }

    // -------------------------------------------------------------------------------------------
    // Opening a session
    // -------------------------------------------------------------------------------------------

    method Bootstrap()
      modifies this`phase, this`bootstraps
      ensures View() == Connection.Bootstrap(old(View()))
    {
      phase := Connecting;
      bootstraps := bootstraps + 1;
    }

    method Resort()
      modifies this`phase, this`socket, this`handshakeArmed, this`bootstraps, this`presented
      ensures View() == Connection.Resort(old(View()))
    {
      if configured != "" {
        presented := configured;
        ConnectToEdge();
        return;
      }
      Bootstrap();
    }

    method DeviceStore()
      modifies this`built, device`available
      ensures View() == old(View()).(sign := Built(config, old(SignView())))
    {
      if config.deviceSession && !built {
        built := true;
        device.available := config.storeAvailable;
      }
    }

    method Redeem()
      modifies this`phase, this`redeeming, this`inFlight, this`log
      ensures View() == Connection.Redeem(old(View()))
    {
      phase := Connecting;
      redeeming := true;
      inFlight := inFlight + 1;
      log := log + [RedeemSent(now, held)];
    }

    /** The credential, if it may be spent and there is one. */
    method TryRedeem(k: Keyring) returns (sent: bool)
      modifies this`held, this`phase, this`redeeming, this`inFlight, this`log, device`available
      ensures var before := old(SignView());
              var ready := if MayRedeem(config, before, now) then Remembered(before, k) else before;
              && sent == (MayRedeem(config, before, now) && IsValid(ready.held))
              && View() == if sent then Connection.Redeem(old(View()).(sign := ready)) else old(View()).(sign := ready)
    {
      sent := false;
      if config.deviceSession && !redeeming && !spent && now >= notBefore {
        if !IsValid(held) {
          held := device.Load(k);
        }
        if IsValid(held) {
          Redeem();
          sent := true;
        }
      }
    }

    method OpenSession(k: Keyring)
      modifies this, device
      ensures View() == Connection.OpenSession(config, old(View()), k)
    {
      if configured != "" && accepted {
        accepted := false;
        presented := configured;
        ConnectToEdge();
        return;
      }
      DeviceStore();
      var sent := TryRedeem(k);
      if !sent {
        Resort();
      }
    }

    /** The session the edge accepted last, if there is one; a redemption only when none is in flight, none was
        bought since a connection was accepted, and the hold has passed. */
    method Start(k: Keyring)
      requires Valid()
      modifies this, device
      ensures Valid() && View() == Connection.OpenSession(config, old(View()), k)
      ensures phase == Connecting && (handshakeArmed || bootstraps > 0 || inFlight > 0)
      ensures log == old(log) || log == old(log) + [RedeemSent(now, held)]
      ensures log != old(log) ==>
                && config.deviceSession && held.id != "" && held.secret != ""
                && old(inFlight) == 0 && inFlight == 1 && !old(spent) && now >= old(notBefore)
      ensures log == old(log) && configured != "" ==> presented == configured && socket == Open && handshakeArmed
      ensures log == old(log) && configured == "" ==> bootstraps == old(bootstraps) + 1
      ensures old(configured) != "" && old(accepted) ==> log == old(log) && presented == old(configured) && !accepted
    {
      ConnectionRuns.OpenSessionIsSound(config, View(), k);
      ConnectionRuns.OpeningSpendsWhatIsFree(config, View(), k);
      OpenSession(k);
    }

    method OnReconnectTimeout(k: Keyring)
      requires Valid() && reconnectArmed
      modifies this, device
      ensures Valid() && View() == Next(config, old(View()), ReconnectTimedOut, k)
      ensures phase == Connecting && (handshakeArmed || bootstraps > 0 || inFlight > 0)
      ensures log == old(log) || log == old(log) + [RedeemSent(now, held)]
      ensures log != old(log) ==>
                && config.deviceSession && held.id != "" && held.secret != ""
                && old(inFlight) == 0 && inFlight == 1 && !old(spent) && now >= old(notBefore)
      ensures log == old(log) && configured != "" ==> presented == configured && socket == Open && handshakeArmed
      ensures log == old(log) && configured == "" ==> bootstraps == old(bootstraps) + 1
      ensures old(configured) != "" && old(accepted) ==> log == old(log) && presented == old(configured) && !accepted
    {
      reconnectArmed := false;
      ConnectionRuns.OpenSessionIsSound(config, View(), k);
      ConnectionRuns.OpeningSpendsWhatIsFree(config, View(), k);
      OpenSession(k);
    }

    method OnBootstrapReply(jar: string)
      requires Valid() && bootstraps > 0
      modifies this`bootstraps, this`presented, this`phase, this`socket, this`handshakeArmed
      ensures Valid() && forall k :: View() == Next(config, old(View()), BootstrapAnswered(jar), k)
      ensures presented == jar && phase == Connecting && socket == Open && handshakeArmed
      ensures bootstraps == old(bootstraps) - 1 && configured == old(configured)
    {
      bootstraps := bootstraps - 1;
      presented := jar;
      ConnectToEdge();
    }

    // -------------------------------------------------------------------------------------------
    // Replies
    // -------------------------------------------------------------------------------------------

    method Keep(pair: Held, k: Keyring)
      modifies this`held, this`newest, this`log, device
      ensures View() == Connection.Keep(old(View()), pair, k)
    {
      if IsValid(pair) && built {
        var _ := device.Save(pair, k);
        held := pair;
        newest := pair;
        log := log + [Received(pair)];
      }
    }

    method Adopt(reply: Reply)
      modifies this`presented, this`configured, this`phase, this`socket, this`handshakeArmed
      ensures View() == Connection.Adopt(old(View()), reply)
    {
      presented := reply.cookieName + "=" + reply.session;
      configured := presented;
      ConnectToEdge();
    }

    method Forget(k: Keyring)
      modifies this`held, this`log, device
      ensures View() == Connection.Forget(old(View()), k)
    {
      held := NOTHING;
      if built {
        device.Erase(k);
      }
      log := log + [Forgotten];
    }

    method Refuse(reply: Reply, k: Keyring)
      modifies this`held, this`notBefore, this`log, device
      ensures View() == Connection.Refusal(old(View()), reply, k)
    {
      if reply.status == 404 {
        Forget(k);
      } else if reply.status != 0 {
        var asked := if reply.retryAfter.Some? then reply.retryAfter.value * 1000 else 0;
        var hold := if asked > 0 then Min(asked, MAX_HOLD_MS) else DEFAULT_HOLD_MS;
        notBefore := now + hold;
        log := log + [HeldOff(now, now + hold)];
      }
    }

    /** The session in the reply is adopted, and the pair that bought it is spent. */
    method Grant(reply: Reply, k: Keyring)
      modifies this`held, this`newest, this`log, this`spent, this`presented, this`configured
      modifies this`phase, this`socket, this`handshakeArmed, device
      ensures View() == Connection.Adopt(Spend(Connection.Keep(old(View()), reply.pair, k)), reply)
    {
      Keep(reply.pair, k);
      spent := true;
      log := log + [Bought];
      Adopt(reply);
    }

    /** Granted: the session is adopted and the credential spent. A 404 drops the pair, from the store too if that
        can be reached and takes the erase; any other status keeps it and holds redemption off for at most five
        minutes; no answer at all changes neither. */
    method OnRedemptionReply(reply: Reply, k: Keyring)
      requires Valid() && inFlight > 0
      modifies this, device
      ensures Valid() && View() == OnRedemption(old(View()), reply, k)
      ensures inFlight == 0 && phase == Connecting && now == old(now)
      ensures ConnectionRuns.Session(reply) ==>
                && spent && configured == presented == reply.cookieName + "=" + reply.session && socket == Open
                && (reply.pair.id != "" && reply.pair.secret != "" && built ==>
                      && held == reply.pair
                      && (old(device.available) && k.store.Done? ==>
                            device.stored == Some(reply.pair.id + "\n" + reply.pair.secret)))
      ensures !ConnectionRuns.Session(reply) ==>
                && configured == old(configured)
                && (configured != "" ==> presented == configured && socket == Open)
                && (configured == "" ==> bootstraps == old(bootstraps) + 1)
      ensures reply.status == 404 ==> held == NOTHING
      ensures reply.status == 404 ==>
                (device.stored == None <==>
                 old(device.stored) == None || (old(built) && old(device.available) && Lands(k.erase)))
      ensures !ConnectionRuns.Session(reply) && reply.status != 404 ==>
                held == old(held) && device.View() == old(device.View())
      ensures !ConnectionRuns.Session(reply) && reply.status !in {0, 404} ==>
                notBefore - now == if reply.retryAfter.None? || reply.retryAfter.value <= 0 then 60 * 1000
                                   else if reply.retryAfter.value > 300 then 300 * 1000
                                   else reply.retryAfter.value * 1000
      ensures reply.status == 0 ==> notBefore == old(notBefore)
    {
      ConnectionRuns.RedemptionIsSound(config, View(), reply, k);
      ConnectionRuns.AnswerLeaves(config, View(), reply, k);
      ConnectionRuns.HoldIsTheOneNamed(reply.retryAfter);
      ghost var after := OnRedemption(View(), reply, k);
      MarkAnswered();
      ActOn(reply, k);
      assert View() == after;
    }

    method MarkAnswered()
      requires inFlight > 0
      modifies this`redeeming, this`inFlight, this`log
      ensures View() == Answered(old(View()))
    {
      redeeming := false;
      inFlight := inFlight - 1;
      log := log + [RedeemAnswered];
    }

    method ActOn(reply: Reply, k: Keyring)
      modifies this, device
      ensures View() == Connection.ActOn(old(View()), reply, k)
    {
      if reply.status == 200 && reply.session != "" && reply.cookieName != "" {
        Grant(reply, k);
        return;
      }
      Refuse(reply, k);
      Resort();
    }

    method SendClaim()
      requires Valid()
      modifies this`claims, this`built, device`available
      ensures Valid() && forall k :: View() == Next(config, old(View()), ClaimSent, k)
      ensures claims == old(claims) + 1 && built == (old(built) || config.deviceSession)
    {
      DeviceStore();
      claims := claims + 1;
    }

    /** A refused claim changes nothing; a granted one is adopted, and a pair with it is the one held and stored, and
        counts as spent. */
    method OnClaimReply(reply: Reply, k: Keyring)
      requires Valid() && claims > 0
      modifies this, device
      ensures Valid() && View() == OnClaim(old(View()), reply, k)
      ensures !ConnectionRuns.Session(reply) ==>
                View() == old(View()).(claims := old(claims) - 1)
      ensures ConnectionRuns.Session(reply) ==>
                configured == presented == reply.cookieName + "=" + reply.session && socket == Open && handshakeArmed
      ensures ConnectionRuns.Receives(old(View()), ClaimAnswered(reply)) ==>
                && held == reply.pair && spent
                && (old(device.available) && k.store.Done? ==>
                      device.stored == Some(reply.pair.id + "\n" + reply.pair.secret))
      ensures !ConnectionRuns.Receives(old(View()), ClaimAnswered(reply)) ==>
                held == old(held) && spent == old(spent) && device.View() == old(device.View())
    {
      ConnectionRuns.ClaimIsSound(config, View(), reply, k);
      ConnectionRuns.ClaimLeaves(View(), reply, k);
      ghost var after := OnClaim(View(), reply, k);
      Claimed(reply, k);
      assert View() == after;
    }

    method Claimed(reply: Reply, k: Keyring)
      requires claims > 0
      modifies this, device
      ensures View() == OnClaim(old(View()), reply, k)
    {
      claims := claims - 1;
      if reply.status != 200 || reply.session == "" || reply.cookieName == "" {
        return;
      }
      if IsValid(reply.pair) && built {
        Grant(reply, k);
      } else {
        Adopt(reply);
      }
    }

    /** The pair is dropped before the edge is asked, and leaves the store exactly when it can be made to. */
    method EndSession(k: Keyring)
      requires Valid()
      modifies this`held, this`log, this`logouts, device
      ensures Valid() && View() == Connection.EndSession(config, old(View()), k)
      ensures config.canLogOut ==> held == NOTHING && logouts == old(logouts) + 1
      ensures config.canLogOut ==>
                (device.stored == None <==> old(device.stored) == None || (built && device.available && Lands(k.erase)))
      ensures !config.canLogOut ==> View() == old(View())
    {
      ConnectionRuns.EndSessionIsSound(config, View(), k);
      ConnectionRuns.SignOutLeaves(config, View(), k);
      if config.canLogOut {
        SignOut(k);
      }
    }

    method SignOut(k: Keyring)
      requires config.canLogOut
      modifies this`held, this`log, this`logouts, device
      ensures View() == Connection.EndSession(config, old(View()), k)
    {
      Forget(k);
      logouts := logouts + 1;
    }

    /** Both cookies go, and a session is opened as at the start. */
    method OnLogoutReply(k: Keyring)
      requires Valid() && logouts > 0
      modifies this, device
      ensures Valid() && View() == OnLogout(config, old(View()), k)
      ensures configured == ""
      ensures phase == Connecting && (handshakeArmed || bootstraps > 0 || inFlight > 0)
      ensures log == old(log) || log == old(log) + [RedeemSent(now, held)]
      ensures log != old(log) ==>
                && config.deviceSession && held.id != "" && held.secret != ""
                && old(inFlight) == 0 && inFlight == 1 && !old(spent) && now >= old(notBefore)
      ensures log == old(log) && configured != "" ==> presented == configured && socket == Open && handshakeArmed
      ensures log == old(log) && configured == "" ==> bootstraps == old(bootstraps) + 1
    {
      ClearCookies();
      Start(k);
    }

    method ClearCookies()
      requires Valid() && logouts > 0
      modifies this`logouts, this`presented, this`configured
      ensures Valid() && View() == old(View()).(logouts := old(logouts) - 1, configured := "", presented := "")
    {
      logouts := logouts - 1;
      presented := "";
      configured := "";
    }
  }
}
