/** The relay client as the program runs it: every body its serial queue executes, proved against the step it takes. */
module RelayClientModel {
  import opened Common
  import opened RelayState
  import opened RelayLifecycle

  class RelayClient {
    const cfg: Config

    var wantsConnection: bool
    var task: Option<nat>
    var reconnectTimer: Option<Timer>
    var pingTimer: Option<nat>
    var reconnectAttempt: nat
    var missedPongs: nat
    var state: ConnectionState
    var connectionCause: Option<string>
    var isResuming: bool
    var resumeToken: Option<string>
    var kxKeyPair: Option<KeyPair>
    var sessionKeys: Option<SessionKeys>
    var epochPct: Option<string>
    var epochAdvertisedV: int
    var isPendingPhase: bool
    var helloReceived: bool
    var didAutoAttach: bool

    /** Sockets and timers made so far, and those of them not cancelled. */
    var issued: nat
    ghost var sockets: set<nat>
    ghost var armed: set<nat>
    ghost var pings: set<nat>

    ghost function Wire(): Link
      reads this`wantsConnection, this`task, this`reconnectTimer, this`pingTimer, this`sockets, this`armed, this`pings,
            this`issued
    {
      Link(wantsConnection, task, reconnectTimer, pingTimer, sockets, armed, pings, issued)
    }

    ghost function State(): Client
      reads this
    {
      Client(Wire(), reconnectAttempt, missedPongs, state, connectionCause, isResuming, resumeToken,
             kxKeyPair, sessionKeys, epochPct, epochAdvertisedV, isPendingPhase, helloReceived, didAutoAttach)
    }

    constructor (cfg: Config, resumeToken: Option<string>)
      ensures this.cfg == cfg && State() == Built(resumeToken)
    {
      this.cfg := cfg;
      wantsConnection, task, reconnectTimer, pingTimer, issued := false, None, None, None, 0;
      sockets, armed, pings := {}, {}, {};
      reconnectAttempt, missedPongs, state, connectionCause := 0, 0, Idle, None;
      isResuming := false;
      this.resumeToken := resumeToken;
      kxKeyPair, sessionKeys, epochPct, epochAdvertisedV := None, None, None, 1;
      isPendingPhase, helloReceived, didAutoAttach := true, false, false;
    }

    // Sockets and timers.

    method CancelReconnectTimer()
      modifies this`reconnectTimer, this`armed
      ensures State() == old(State()).(link := CancelReconnect(old(State()).link))
    {
      armed := Without(armed, IdOf(reconnectTimer));
      reconnectTimer := None;
    }

    method CancelPingTimer()
      modifies this`pingTimer, this`pings
      ensures State() == old(State()).(link := CancelPing(old(State()).link))
    {
      pings := Without(pings, pingTimer);
      pingTimer := None;
    }

    method CancelSocket()
      modifies this`task, this`sockets
      ensures State() == old(State()).(link := CancelTask(old(State()).link))
    {
      sockets := Without(sockets, task);
      task := None;
    }

    method OpenSocket()
      modifies this`task, this`sockets, this`issued
      ensures State() == old(State()).(link := Dialed(old(State()).link))
    {
      task := Some(issued);
      sockets := sockets + {issued};
      issued := issued + 1;
    }

    method ArmReconnectTimer(delay: nat)
      modifies this`reconnectTimer, this`armed, this`issued
      ensures State() == old(State()).(link := Armed(old(State()).link, delay))
    {
      reconnectTimer := Some(Timer(issued, delay));
      armed := armed + {issued};
      issued := issued + 1;
    }

    // Lifecycle.

    /** Deliberate teardown: clearing the intent first keeps later completions from reviving the client. */
    method DisconnectOnQueue()
      modifies this`wantsConnection, this`reconnectTimer, this`armed, this`pingTimer, this`pings, this`task,
               this`sockets
      ensures State() == Disconnected(old(State()))
    {
      hide CancelReconnect, CancelPing, CancelTask;
      wantsConnection := false;
      CancelReconnectTimer();
      CancelPingTimer();
      CancelSocket();
    }

    /** Terminal: nothing is scheduled. */
    method FailOnQueue(reason: string)
      modifies this
      ensures State() == Failed(old(State()), reason)
    {
      hide Disconnected;
      connectionCause := Some(reason);
      state := FailedState;
      DisconnectOnQueue();
    }

    method ConnectOnQueue(tokenFresh: bool)
      modifies this
      ensures State() == Connected(cfg, old(State()), tokenFresh)
    {
      wantsConnection := true;
      if task.None? {
        hide CancelReconnect, Dialed, Failed, AuthSent;
        CancelReconnectTimer();
        if cfg.endpoint == Unparseable {
          FailOnQueue("invalid relay URL");
        } else if cfg.endpoint == WrongScheme {
          FailOnQueue("relay URL must use ws:// or wss://");
        } else {
          OpenSocket();
          var resume := SendAuth(tokenFresh);
        }
      }
    }

    /** The token sent to resume with, or none for a full authentication. */
    method SendAuth(tokenFresh: bool) returns (resume: Option<string>)
      modifies this`isResuming, this`state
      ensures State() == AuthSent(old(State()), tokenFresh)
      ensures resume == if tokenFresh then resumeToken else None
      ensures resume.Some? ==> isResuming
    {
      resume := None;
      if resumeToken.Some? && tokenFresh {
        isResuming := true;
        resume := resumeToken;
      }
      state := Authenticating;
    }

    /** Forget the epoch: the next connection runs the whole handshake. The tag stays, without keys to go with it. */
    method ForgetEpoch()
      modifies this`sessionKeys, this`kxKeyPair, this`didAutoAttach, this`helloReceived
      ensures State() == old(State()).(keys := None, kp := None, autoAttached := false, helloReceived := false)
    {
      sessionKeys := None;
      kxKeyPair := None;
      didAutoAttach := false;
      helloReceived := false;
    }

    /** Drop the socket, the ping and the epoch, and arm one retry, unless unwanted or already retrying. */
    method ScheduleReconnect()
      modifies this
      ensures State() == Rescheduled(old(State()))
    {
      hide CancelPing, CancelTask, Armed, ReconnectDelay;
      if wantsConnection && reconnectTimer.None? {
        CancelPingTimer();
        CancelSocket();
        ForgetEpoch();
        var delay := ReconnectDelay(reconnectAttempt);
        reconnectAttempt := reconnectAttempt + 1;
        ArmReconnectTimer(delay);
      }
    }

    method ReconnectTimerFired(id: nat, tokenFresh: bool)
      modifies this
      ensures State() == Fired(cfg, old(State()), id, tokenFresh)
    {
      armed := armed - {id};
      reconnectTimer := None;
      state := Idle;
      ConnectOnQueue(tokenFresh);
    }

    method FailRecoverableOnQueue(reason: string)
      modifies this
      ensures State() == FailedRecoverably(old(State()), reason)
    {
      if !wantsConnection {
        return;
      }
      connectionCause := Some(reason);
      state := FailedState;
      ScheduleReconnect();
    }

    method StartPing()
      modifies this`pingTimer, this`pings, this`missedPongs, this`issued
      ensures State() == old(State()).(missedPongs := 0, link := Pinging(old(State()).link))
    {
      hide CancelPing;
      CancelPingTimer();
      missedPongs := 0;
      pingTimer := Some(issued);
      pings := pings + {issued};
      issued := issued + 1;
    }

    method PingTimerTicked()
      modifies this
      ensures State() == Ticked(old(State()))
    {
      missedPongs := missedPongs + 1;
      if missedPongs > MAX_MISSED {
        hide CancelPing, Rescheduled;
        CancelPingTimer();
        ScheduleReconnect();
      }
    }

    // Frames.

    method StartKeyExchange(gen: KeyGen) returns (effects: seq<Effect>)
      modifies this`kxKeyPair
      ensures (State(), effects) == KxStarted(old(State()), gen)
    {
      match gen
      case NoKey => effects := [];
      case Unsent(kp) =>
        kxKeyPair := Some(kp);
        effects := [];
      case Sent(kp) =>
        kxKeyPair := Some(kp);
        effects := [SendKx(kp.publicKey)];
    }

    method MarkAuthenticated(token: Option<string>)
      modifies this`resumeToken, this`isResuming, this`reconnectAttempt, this`state, this`connectionCause
      ensures State() == old(State()).(token := if token.Some? then token else old(resumeToken), resuming := false,
                                       attempt := 0, state := Authenticated, cause := None)
    {
      if token.Some? {
        resumeToken := token;
      }
      isResuming := false;
      reconnectAttempt := 0;
      state := Authenticated;
      connectionCause := None;
    }

    method OnAuthOk(token: Option<string>, gen: KeyGen) returns (effects: seq<Effect>)
      modifies this
      ensures (State(), effects) == Authorized(old(State()), token, gen)
    {
      hide Pinging, KxStarted;
      MarkAuthenticated(token);
      StartPing();
      effects := StartKeyExchange(gen);
    }

    method OnAuthErr(detail: string)
      modifies this
      ensures State() == Rejected(old(State()), detail)
    {
      if isResuming {
        isResuming := false;
        resumeToken := None;
        ScheduleReconnect();
      } else {
        FailRecoverableOnQueue("relay.auth.err: " + detail);
      }
    }

    /** Keys and tag of one epoch; a failed derivation throws before either is assigned. */
    method DeriveEpoch(kp: KeyPair, daemonPk: string)
      modifies this`sessionKeys, this`epochPct
      ensures State() == Keyed(cfg, old(State()), kp, daemonPk)
    {
      var keys := cfg.crypto.sessionKeys(kp, daemonPk);
      if keys.None? {
        return;
      }
      sessionKeys := keys;
      epochPct := cfg.crypto.tag(daemonPk, kp, keys.value);
    }

    /** A new pair first, which the new epoch is then derived from. */
    method ReexchangeKeys(daemonPk: string, gen: KeyGen) returns (effects: seq<Effect>)
      requires kxKeyPair.Some?
      modifies this`kxKeyPair, this`sessionKeys, this`epochPct, this`helloReceived, this`didAutoAttach
      ensures var (e, sent) := KxStarted(old(State()).(helloReceived := false, autoAttached := false), gen);
              e.kp.Some? && State() == Keyed(cfg, e, e.kp.value, daemonPk) && effects == sent
    {
      helloReceived := false;
      didAutoAttach := false;
      effects := StartKeyExchange(gen);
      DeriveEpoch(kxKeyPair.value, daemonPk);
    }

    method OnKeyExchangeFrame(fromDaemon: bool, ct: string, gen: KeyGen) returns (effects: seq<Effect>)
      modifies this
      ensures (State(), effects) == if fromDaemon then KxReceived(cfg, old(State()), ct, gen) else (old(State()), [])
    {
      effects := [];
      if !fromDaemon || kxKeyPair.None? {
        return;
      }
      var plaintext := cfg.crypto.open(ct, cfg.kxKey);
      if plaintext.None? || !plaintext.value.DaemonKx? {
        return;
      }
      var daemonPk := plaintext.value.publicKey;
      var alreadyKeyed := sessionKeys.Some?;
      epochAdvertisedV := plaintext.value.v.GetOr(1);
      effects := [RaiseFloor(isPendingPhase, epochAdvertisedV)];
      if alreadyKeyed {
        var sent := ReexchangeKeys(daemonPk, gen);
        effects := effects + sent;
      } else {
        DeriveEpoch(kxKeyPair.value, daemonPk);
      }
    }

    method ResolvePromotion(helloPct: Option<string>, storedFloor: int) returns (effects: seq<Effect>)
      ensures effects == PromotionResolved(cfg, State(), helloPct, storedFloor)
    {
      var effectiveV := Max(Max(epochAdvertisedV, cfg.floor), storedFloor);
      effects := [];
      if helloPct.Some? {
        effects := effects + [RaiseFloor(isPendingPhase, Max(effectiveV, 3))];
        if epochPct.Some? && epochPct == helloPct {
          if !isPendingPhase {
            effects := effects + [RecordPct(helloPct.value)];
          }
          effects := effects + [Confirmed(true)];
        } else if isPendingPhase {
          effects := effects + [ConfirmFailed(if epochPct.None? then "no-local-pct" else "pct-mismatch")];
        }
      } else if effectiveV < 3 {
        effects := effects + [Confirmed(false)];
      } else if isPendingPhase {
        effects := effects + [ConfirmFailed("pct-missing")];
      }
    }

    method OnRelayFrame(fromDaemon: bool, control: bool, ct: string, storedFloor: int) returns (effects: seq<Effect>)
      modifies this
      ensures (State(), effects)
              == if fromDaemon then DataReceived(cfg, old(State()), control, ct, storedFloor) else (old(State()), [])
    {
      effects := [];
      if !fromDaemon || sessionKeys.None? {
        return;
      }
      var plaintext := cfg.crypto.open(ct, sessionKeys.value.rx);
      if plaintext.None? {
        return;
      }
      if control {
        if plaintext.value.Unpair? {
          effects := [AskUnpair(plaintext.value.did)];
        }
      } else if plaintext.value.Hello? {
        helloReceived := true;
        effects := ResolvePromotion(plaintext.value.pct, storedFloor);
        var attach := OnHello(plaintext.value.sessions);
        effects := effects + attach;
      }
    }

    method OnHello(sessions: seq<string>) returns (effects: seq<Effect>)
      modifies this`didAutoAttach
      ensures State() == old(State()).(autoAttached := old(didAutoAttach) || sessions != [])
      ensures effects == if !old(didAutoAttach) && sessions != [] then [Attach(sessions[0])] else []
    {
      if didAutoAttach || sessions == [] {
        return [];
      }
      didAutoAttach := true;
      return [Attach(sessions[0])];
    }

    method Handle(frame: Frame, storedFloor: int) returns (effects: seq<Effect>)
      modifies this
      ensures (State(), effects) == Received(cfg, old(State()), frame, storedFloor)
    {
      effects := [];
      match frame
      case AuthOk(token, gen) => effects := OnAuthOk(token, gen);
      case AuthErr(detail) => OnAuthErr(detail);
      case RelayErr(code) =>
        if code == "RATE_LIMITED" {
          connectionCause := Some("sending too fast");
        }
      case Pong => missedPongs := 0;
      case KxFrame(fromDaemon, ct, gen) => effects := OnKeyExchangeFrame(fromDaemon, ct, gen);
      case DataFrame(fromDaemon, control, ct) => effects := OnRelayFrame(fromDaemon, control, ct, storedFloor);
      case OtherFrame =>
    }

    /** One block on the queue, whoever put it there: the connection invariant survives it. */
    method RunOnQueue(s: Step) returns (effects: seq<Effect>)
      requires Possible(State(), s)
      modifies this
      ensures (State(), effects) == Next(cfg, old(State()), s)
      ensures old(Lively(State().link)) ==> Lively(State().link)
    {
      if Lively(State().link) {
        StepIsLively(cfg, State(), s);
      }
      hide Lively, Connected, Disconnected, Fired, Ticked, Rescheduled, FailedRecoverably, Received;
      effects := [];
      match s
      case Connect(tokenFresh) => ConnectOnQueue(tokenFresh);
      case Disconnect => DisconnectOnQueue();
      case SetPhase(pending) => isPendingPhase := pending;
      case TimerFired(id, tokenFresh) => ReconnectTimerFired(id, tokenFresh);
      case PingTick(_) => PingTimerTicked();
      case ReceiveFailed => ScheduleReconnect();
      case SendFailed(reason) => FailRecoverableOnQueue(reason);
      case Closed(cause) => connectionCause := cause;
      case Receive(frame, storedFloor) => effects := Handle(frame, storedFloor);
    }
  }
}
