/**
 * What the client remembers of a run, and everything that takes effect outside it, by the frames and calls there were.
 */
module RelayHistory {
  import opened Common
  import opened RelayState
  import opened RelayLifecycle
  import opened RelayKeys

  // What a step reads.

  /** The step opens a daemon's key-exchange frame while a pair is held; the frame advertises this version, or none. */
  predicate Advertises(cfg: Config, c: Client, s: Step, v: int) {
    && s.Receive? && s.frame.KxFrame? && s.frame.fromDaemon && c.kp.Some?
    && var p := cfg.crypto.open(s.frame.ct, cfg.kxKey);
       p.Some? && p.value.DaemonKx? && v == if p.value.v.Some? then p.value.v.value else 1
  }

  /** The step reads a hello that lists these sessions. */
  predicate HearsSessions(cfg: Config, c: Client, s: Step, sessions: seq<string>) {
    && s.Receive? && s.frame.DataFrame? && s.frame.fromDaemon && !s.frame.control && c.keys.Some?
    && var p := cfg.crypto.open(s.frame.ct, c.keys.value.rx); p.Some? && p.value.Hello? && p.value.sessions == sessions
  }

  /** The step reads an unpair of this daemon on the control channel. */
  predicate HearsUnpair(cfg: Config, c: Client, s: Step, did: string) {
    && s.Receive? && s.frame.DataFrame? && s.frame.fromDaemon && s.frame.control && c.keys.Some?
    && cfg.crypto.open(s.frame.ct, c.keys.value.rx) == Some(Unpair(did))
  }

  // Steps.

  lemma RescheduledFrame(c: Client)
    ensures var d := Rescheduled(c);
            if Arms(c, d) then d == c.(link := d.link, keys := None, kp := None, autoAttached := false,
                                       helloReceived := false, attempt := c.attempt + 1)
            else d == c
  {
    hide CancelPing, CancelTask, ReconnectDelay;
  }

  lemma FailedFrame(c: Client, reason: string)
    ensures var d := Failed(c, reason); d == c.(link := d.link, state := d.state, cause := d.cause)
  {
    hide Down;
  }

  lemma AuthSentFrame(c: Client, tokenFresh: bool)
    ensures var d := AuthSent(c, tokenFresh); d == c.(state := d.state, resuming := d.resuming)
  {
  }

  lemma ConnectedFrame(cfg: Config, c: Client, tokenFresh: bool)
    ensures var d := Connected(cfg, c, tokenFresh);
            d == c.(link := d.link, state := d.state, cause := d.cause, resuming := d.resuming) && !Arms(c, d)
  {
    hide Down, Dialed, CancelReconnect, Failed, AuthSent;
    ConnectedCounts(cfg, c, tokenFresh);
    var l := CancelReconnect(c.link.(wants := true));
    FailedFrame(c.(link := l), "invalid relay URL");
    FailedFrame(c.(link := l), "relay URL must use ws:// or wss://");
    AuthSentFrame(c.(link := Dialed(l)), tokenFresh);
  }

  /** A step that is not a frame takes no effect outside, and touches what is remembered only by arming a retry. */
  lemma OtherSteps(cfg: Config, c: Client, s: Step)
    requires !s.Receive?
    ensures var (d, effects) := Next(cfg, c, s);
            && effects == [] && d.advertisedV == c.advertisedV && d.token == c.token
            && d.pendingPhase == (if s.SetPhase? then s.pending else c.pendingPhase)
            && d.autoAttached == (c.autoAttached && !Arms(c, d))
            && d.helloReceived == (c.helloReceived && !Arms(c, d))
  {
    hide Rescheduled, Connected, Down, CancelPing;
    match s
    case Connect(f) => { ConnectedFrame(cfg, c, f); }
    case TimerFired(id, f) => {
      ConnectedFrame(cfg, c.(link := c.link.(reconnect := None, armed := c.link.armed - {id}), state := Idle), f);
    }
    case PingTick(_) => { TickFrame(c); }
    case ReceiveFailed => { RescheduledFrame(c); }
    case SendFailed(reason) => { RescheduledFrame(c.(cause := Some(reason), state := FailedState)); }
    case Disconnect => { DownArmsNothing(c.link); }
    case _ =>
  }

  lemma DownArmsNothing(l: Link)
    ensures Down(l).reconnect.None?
  {
  }

  lemma TickFrame(c: Client)
    ensures var d := Ticked(c);
            && d.advertisedV == c.advertisedV && d.token == c.token && d.pendingPhase == c.pendingPhase
            && d.autoAttached == (c.autoAttached && !Arms(c, d)) && d.helloReceived == (c.helloReceived && !Arms(c, d))
  {
    hide Rescheduled;
    RescheduledFrame(c.(missedPongs := c.missedPongs + 1, link := CancelPing(c.link)));
  }

  lemma KeyedFrame(cfg: Config, c: Client, kp: KeyPair, daemonPk: string)
    ensures var d := Keyed(cfg, c, kp, daemonPk); d == c.(keys := d.keys, pct := d.pct)
  {
  }

  /** An opened key-exchange frame: what it changes, and what it sends and raises. */
  lemma KxOpened(cfg: Config, c: Client, ct: string, gen: KeyGen, kp: KeyPair, daemonPk: string, v: Option<int>)
    requires c.kp == Some(kp) && cfg.crypto.open(ct, cfg.kxKey) == Some(DaemonKx(daemonPk, v))
    ensures var (d, effects) := KxReceived(cfg, c, ct, gen);
            && d == c.(advertisedV := v.GetOr(1), autoAttached := c.autoAttached && c.keys.None?,
                       helloReceived := c.helloReceived && c.keys.None?, kp := d.kp, keys := d.keys, pct := d.pct)
            && |effects| > 0 && effects[0] == RaiseFloor(c.pendingPhase, v.GetOr(1))
            && forall i :: 0 < i < |effects| ==> effects[i].SendKx?
  {
    hide Keyed;
    var d := c.(advertisedV := v.GetOr(1));
    KeyedFrame(cfg, d, kp, daemonPk);
    var e := KxStarted(d.(helloReceived := false, autoAttached := false), gen).0;
    KeyedFrame(cfg, e, e.kp.value, daemonPk);
  }

  lemma KxFrameIs(cfg: Config, c: Client, ct: string, gen: KeyGen, floor: int)
    ensures var s := Receive(KxFrame(true, ct, gen), floor);
            var (d, effects) := KxReceived(cfg, c, ct, gen);
            && d == c.(advertisedV := d.advertisedV, autoAttached := d.autoAttached, helloReceived := d.helloReceived,
                       kp := d.kp, keys := d.keys, pct := d.pct)
            && (forall v :: Advertises(cfg, c, s, v) ==>
                  && d.advertisedV == v
                  && d.autoAttached == (c.autoAttached && c.keys.None?)
                  && d.helloReceived == (c.helloReceived && c.keys.None?)
                  && RaiseFloor(c.pendingPhase, v) in effects
                  && forall e :: e in effects ==> e.SendKx? || e == RaiseFloor(c.pendingPhase, v))
            && ((forall v :: !Advertises(cfg, c, s, v)) ==> d == c && effects == [])
  {
    match (c.kp, cfg.crypto.open(ct, cfg.kxKey))
    case (Some(kp), Some(DaemonKx(daemonPk, v))) =>
      assert Advertises(cfg, c, Receive(KxFrame(true, ct, gen), floor), v.GetOr(1));
      KxOpened(cfg, c, ct, gen, kp, daemonPk, v);
      hide KxReceived;
    case _ =>
  }

  lemma DataFrameIs(cfg: Config, c: Client, control: bool, ct: string, floor: int)
    ensures var s := Receive(DataFrame(true, control, ct), floor);
            var d := DataReceived(cfg, c, control, ct, floor).0;
            && d == c.(autoAttached := d.autoAttached, helloReceived := d.helloReceived)
            && (forall sessions :: HearsSessions(cfg, c, s, sessions) ==>
                  d.helloReceived && d.autoAttached == (c.autoAttached || sessions != []))
            && ((forall sessions :: !HearsSessions(cfg, c, s, sessions)) ==> d == c)
  {
    hide PromotionResolved;
    if c.keys.Some? {
      var p := cfg.crypto.open(ct, c.keys.value.rx);
      if p.Some? && p.value.Hello? && !control {
        assert HearsSessions(cfg, c, Receive(DataFrame(true, control, ct), floor), p.value.sessions);
      }
    }
  }

  lemma AuthErrIs(c: Client, detail: string)
    ensures var d := Rejected(c, detail);
            && d.advertisedV == c.advertisedV && d.pendingPhase == c.pendingPhase
            && d.token == (if c.resuming then None else c.token)
            && d.autoAttached == (c.autoAttached && !Arms(c, d)) && d.helloReceived == (c.helloReceived && !Arms(c, d))
  {
    hide Rescheduled;
    RescheduledFrame(c.(resuming := false, token := None));
    RescheduledFrame(c.(cause := Some("relay.auth.err: " + detail), state := FailedState));
  }

  /** What a step makes of the version the daemon last advertised. */
  lemma StepAdvertises(cfg: Config, c: Client, s: Step)
    ensures var (d, effects) := Next(cfg, c, s);
            && (forall v :: Advertises(cfg, c, s, v) ==> d.advertisedV == v && RaiseFloor(c.pendingPhase, v) in effects)
            && ((forall v :: !Advertises(cfg, c, s, v)) ==> d.advertisedV == c.advertisedV)
  {
    if !s.Receive? {
      OtherSteps(cfg, c, s);
      hide Next;
    } else {
      hide KxReceived, DataReceived, Rejected, Pinging;
      match s.frame
      case KxFrame(fromDaemon, ct, gen) => { KxFrameIs(cfg, c, ct, gen, s.floor); }
      case DataFrame(_, control, ct) => { DataFrameIs(cfg, c, control, ct, s.floor); }
      case AuthErr(detail) => { AuthErrIs(c, detail); }
      case _ =>
    }
  }

  /** What a step makes of the phase and the resume token. */
  lemma StepKeepsPhase(cfg: Config, c: Client, s: Step)
    ensures var d := Next(cfg, c, s).0;
            && d.pendingPhase == (if s.SetPhase? then s.pending else c.pendingPhase)
            && d.token == (if BringsToken(s) then s.frame.token
                           else if s.Receive? && s.frame.AuthErr? && c.resuming then None else c.token)
  {
    if !s.Receive? {
      OtherSteps(cfg, c, s);
      hide Next;
    } else {
      hide KxReceived, DataReceived, Rejected, Pinging;
      match s.frame
      case KxFrame(fromDaemon, ct, gen) => { KxFrameIs(cfg, c, ct, gen, s.floor); }
      case DataFrame(_, control, ct) => { DataFrameIs(cfg, c, control, ct, s.floor); }
      case AuthErr(detail) => { AuthErrIs(c, detail); }
      case _ =>
    }
  }

  /** The step forgets the connection's hello and attachment: it arms a retry, or re-exchanges keys. */
  ghost predicate StartsOver(cfg: Config, c: Client, s: Step, d: Client) {
    Arms(c, d) || (c.keys.Some? && exists v :: Advertises(cfg, c, s, v))
  }

  lemma StepAttaches(cfg: Config, c: Client, s: Step)
    ensures var d := Next(cfg, c, s).0;
            && (d.autoAttached <==> !StartsOver(cfg, c, s, d)
                                    && (c.autoAttached || exists ids :: HearsSessions(cfg, c, s, ids) && ids != []))
            && (d.helloReceived <==> !StartsOver(cfg, c, s, d)
                                     && (c.helloReceived || exists ids :: HearsSessions(cfg, c, s, ids)))
  {
    if !s.Receive? {
      OtherSteps(cfg, c, s);
      hide Next;
    } else {
      hide KxReceived, DataReceived, Rejected, Pinging;
      match s.frame
      case KxFrame(fromDaemon, ct, gen) => { KxFrameIs(cfg, c, ct, gen, s.floor); }
      case DataFrame(_, control, ct) => { DataFrameIs(cfg, c, control, ct, s.floor); }
      case AuthErr(detail) => { AuthErrIs(c, detail); }
      case _ =>
    }
  }

  // The epoch.

  /** The step opens a daemon's key-exchange frame while a pair is held; the frame gives this public key. */
  predicate GivesKey(cfg: Config, c: Client, s: Step, daemonPk: string) {
    && s.Receive? && s.frame.KxFrame? && s.frame.fromDaemon && c.kp.Some?
    && var p := cfg.crypto.open(s.frame.ct, cfg.kxKey); p.Some? && p.value.DaemonKx? && p.value.publicKey == daemonPk
  }

  /** The pair held after a step: none once a retry is armed, else the step's own if it made one, else the old one. */
  function PairAfter(cfg: Config, c: Client, s: Step, armed: bool): Option<KeyPair> {
    if armed then None else if Made(cfg, c, s).NoKey? then c.kp else Some(Made(cfg, c, s).kp)
  }

  /**
   * Pair, keys and tag after a step: a daemon's key gives new ones with the pair then held if keys can be derived at
   * all; a retry drops pair and keys; nothing else touches them.
   */
  ghost predicate EpochAfter(cfg: Config, c: Client, s: Step, d: Client) {
    && d.kp == PairAfter(cfg, c, s, Arms(c, d))
    && (forall pk :: GivesKey(cfg, c, s, pk) && d.kp.Some? ==>
          var keys := cfg.crypto.sessionKeys(d.kp.value, pk);
          if keys.Some? then d.keys == keys && d.pct == cfg.crypto.tag(pk, d.kp.value, keys.value)
          else d.keys == c.keys && d.pct == c.pct)
    && ((forall pk :: !GivesKey(cfg, c, s, pk)) ==> d.pct == c.pct && d.keys == if Arms(c, d) then None else c.keys)
  }

  lemma OtherStepsDerive(cfg: Config, c: Client, s: Step)
    requires !s.Receive?
    ensures EpochAfter(cfg, c, s, Next(cfg, c, s).0)
  {
    hide Rescheduled, Connected, Down, CancelPing;
    match s
    case Connect(f) => { ConnectedFrame(cfg, c, f); }
    case TimerFired(id, f) => {
      ConnectedFrame(cfg, c.(link := c.link.(reconnect := None, armed := c.link.armed - {id}), state := Idle), f);
    }
    case PingTick(_) => { TickKeepsEpoch(c); }
    case ReceiveFailed => { RescheduledFrame(c); }
    case SendFailed(reason) => { RescheduledFrame(c.(cause := Some(reason), state := FailedState)); }
    case Disconnect => { DownArmsNothing(c.link); }
    case _ =>
  }

  lemma TickKeepsEpoch(c: Client)
    ensures var d := Ticked(c);
            d.pct == c.pct && if Arms(c, d) then d.kp.None? && d.keys.None? else d.kp == c.kp && d.keys == c.keys
  {
    hide Rescheduled;
    RescheduledFrame(c.(missedPongs := c.missedPongs + 1, link := CancelPing(c.link)));
  }

  lemma KxGives(cfg: Config, c: Client, ct: string, gen: KeyGen, kp: KeyPair, daemonPk: string, v: Option<int>)
    requires c.kp == Some(kp) && cfg.crypto.open(ct, cfg.kxKey) == Some(DaemonKx(daemonPk, v))
    ensures var d := KxReceived(cfg, c, ct, gen).0;
            var pair := if c.keys.None? || gen.NoKey? then kp else gen.kp;
            var keys := cfg.crypto.sessionKeys(pair, daemonPk);
            && d.kp == Some(pair) && d.link == c.link
            && if keys.Some? then d.keys == keys && d.pct == cfg.crypto.tag(daemonPk, pair, keys.value)
               else d.keys == c.keys && d.pct == c.pct
  {
  }

  lemma KxDerives(cfg: Config, c: Client, ct: string, gen: KeyGen, floor: int)
    ensures EpochAfter(cfg, c, Receive(KxFrame(true, ct, gen), floor), KxReceived(cfg, c, ct, gen).0)
  {
    var s, d := Receive(KxFrame(true, ct, gen), floor), KxReceived(cfg, c, ct, gen).0;
    var p := cfg.crypto.open(ct, cfg.kxKey);
    if c.kp.Some? && p.Some? && p.value.DaemonKx? {
      var pk := p.value.publicKey;
      KxGives(cfg, c, ct, gen, c.kp.value, pk, p.value.v);
      hide KxReceived;
      assert GivesKey(cfg, c, s, pk) && forall other :: GivesKey(cfg, c, s, other) ==> other == pk;
      assert d.kp == PairAfter(cfg, c, s, false);
    } else {
      assert d == c;
    }
  }

  lemma AuthErrKeepsEpoch(c: Client, detail: string)
    ensures var d := Rejected(c, detail);
            d.pct == c.pct && if Arms(c, d) then d.kp.None? && d.keys.None? else d.kp == c.kp && d.keys == c.keys
  {
    hide Rescheduled;
    RescheduledFrame(c.(resuming := false, token := None));
    RescheduledFrame(c.(cause := Some("relay.auth.err: " + detail), state := FailedState));
  }

  lemma StepDerives(cfg: Config, c: Client, s: Step)
    ensures EpochAfter(cfg, c, s, Next(cfg, c, s).0)
  {
    if !s.Receive? {
      OtherStepsDerive(cfg, c, s);
      hide Next;
    } else if s.frame.KxFrame? && s.frame.fromDaemon {
      KxDerives(cfg, c, s.frame.ct, s.frame.gen, s.floor);
      hide KxReceived, EpochAfter;
    } else {
      hide KxReceived, DataReceived, Rejected, Pinging;
      match s.frame
      case DataFrame(_, control, ct) => { DataFrameIs(cfg, c, control, ct, s.floor); }
      case AuthErr(detail) => { AuthErrKeepsEpoch(c, detail); }
      case _ =>
    }
  }

  // Pings.

  /** The step ends the pinging: it arms a retry, tears down, finds no usable endpoint, or is the third silent tick. */
  predicate StopsPings(cfg: Config, c: Client, s: Step, d: Client) {
    Arms(c, d) || s.Disconnect? || (Dials(c, s) && cfg.endpoint != WebSocket) || (s.PingTick? && c.missedPongs >= 2)
  }

  lemma DialPings(cfg: Config, c: Client, tokenFresh: bool)
    ensures var d := Connected(cfg, c, tokenFresh);
            d.link.ping == if c.link.task.None? && cfg.endpoint != WebSocket then None else c.link.ping
  {
    hide Without;
  }

  lemma RetryPings(c: Client)
    ensures var d := Rescheduled(c); d.link.ping == if Arms(c, d) then None else c.link.ping
  {
    hide Without, ReconnectDelay;
  }

  lemma TickPings(c: Client)
    ensures var d := Ticked(c); d.link.ping == if Arms(c, d) || c.missedPongs >= 2 then None else c.link.ping
  {
    hide Rescheduled, Without;
    RetryPings(c.(missedPongs := c.missedPongs + 1, link := CancelPing(c.link)));
  }

  lemma FramePings(cfg: Config, c: Client, f: Frame, floor: int)
    requires !f.AuthOk?
    ensures var d := Received(cfg, c, f, floor).0; d.link.ping == if Arms(c, d) then None else c.link.ping
  {
    hide Rescheduled, KxReceived, DataReceived;
    match f
    case KxFrame(_, ct, gen) => { KxFrameIs(cfg, c, ct, gen, floor); }
    case DataFrame(_, control, ct) => { DataFrameIs(cfg, c, control, ct, floor); }
    case AuthErr(detail) => {
      RetryPings(c.(resuming := false, token := None));
      RetryPings(c.(cause := Some("relay.auth.err: " + detail), state := FailedState));
    }
    case _ =>
  }

  /** An authentication starts a new ping timer; until one of those steps ends it, that one stays. */
  lemma StepPings(cfg: Config, c: Client, s: Step)
    ensures var d := Next(cfg, c, s).0;
            d.link.ping == if Authenticates(s) then Some(c.link.issued) else if StopsPings(cfg, c, s, d) then None
                           else c.link.ping
  {
    hide Rescheduled, Connected, CancelTask, CancelReconnect, Received;
    match s
    case Connect(f) => { DialPings(cfg, c, f); ConnectedFrame(cfg, c, f); }
    case TimerFired(id, f) => {
      var b := c.(link := c.link.(reconnect := None, armed := c.link.armed - {id}), state := Idle);
      DialPings(cfg, b, f);
      ConnectedFrame(cfg, b, f);
    }
    case PingTick(_) => { TickPings(c); }
    case ReceiveFailed => { RetryPings(c); }
    case SendFailed(reason) => { RetryPings(c.(cause := Some(reason), state := FailedState)); }
    case Receive(frame, floor) => {
      if frame.AuthOk? {
        AuthPings(cfg, c, frame, floor);
      } else {
        FramePings(cfg, c, frame, floor);
      }
    }
    case _ => { DownPings(c.link); }
  }

  lemma AuthPings(cfg: Config, c: Client, f: Frame, floor: int)
    requires f.AuthOk?
    ensures Received(cfg, c, f, floor).0.link.ping == Some(c.link.issued)
  {
    hide CancelPing;
  }

  lemma DownPings(l: Link)
    ensures Down(l).ping.None?
  {
  }

  ghost predicate PingsOn(cfg: Config, steps: seq<Step>, states: seq<Client>, i: int, k: int)
    requires |states| == |steps| + 1
  {
    forall j :: i <= j < k && 0 <= j < |steps| ==> !StopsPings(cfg, states[j], steps[j], states[j + 1])
  }

  predicate AuthenticatesAt(steps: seq<Step>, i: int) {
    0 <= i < |steps| && Authenticates(steps[i])
  }

  /** In every run a client pings exactly from an authentication until a step that ends it. */
  lemma {:induction false} PingsSinceAuthentication(cfg: Config, steps: seq<Step>, states: seq<Client>, k: nat)
    requires Run(cfg, steps, states) && k < |states|
    ensures states[k].link.ping.Some?
            <==> exists i :: 0 <= i < k && AuthenticatesAt(steps, i) && PingsOn(cfg, steps, states, i + 1, k)
  {
    if k > 0 {
      hide Next, Possible, StopsPings, Authenticates;
      var l := k - 1;
      PingsSinceAuthentication(cfg, steps, states, l);
      StepPings(cfg, states[l], steps[l]);
      PingsOneMore(cfg, steps, states, l);
    }
  }

  lemma PingsOneMore(cfg: Config, steps: seq<Step>, states: seq<Client>, l: nat)
    requires |states| == |steps| + 1 && l < |steps|
    ensures (exists i :: 0 <= i < l + 1 && AuthenticatesAt(steps, i) && PingsOn(cfg, steps, states, i + 1, l + 1))
            <==> AuthenticatesAt(steps, l)
                 || (!StopsPings(cfg, states[l], steps[l], states[l + 1])
                     && exists i :: 0 <= i < l && AuthenticatesAt(steps, i) && PingsOn(cfg, steps, states, i + 1, l))
  {
    hide StopsPings, AuthenticatesAt;
    if AuthenticatesAt(steps, l) {
      assert PingsOn(cfg, steps, states, l + 1, l + 1);
    }
    if i :| 0 <= i < l && AuthenticatesAt(steps, i) && PingsOn(cfg, steps, states, i + 1, l + 1) {
      assert PingsOn(cfg, steps, states, i + 1, l);
    }
    if !StopsPings(cfg, states[l], steps[l], states[l + 1]) {
      if i :| 0 <= i < l && AuthenticatesAt(steps, i) && PingsOn(cfg, steps, states, i + 1, l) {
        assert PingsOn(cfg, steps, states, i + 1, l + 1);
      }
    }
  }

  // Everything a step does outside.

  /** The largest version known: advertised, recorded when the client was built, or stored now. */
  predicate KnownBelow3(cfg: Config, c: Client, s: Step) {
    s.Receive? && c.advertisedV < 3 && cfg.floor < 3 && s.floor < 3
  }

  /** A version of 3, or a higher one that is known. */
  predicate RaisedTo(cfg: Config, c: Client, s: Step, v: int) {
    && s.Receive? && v >= 3 && v >= c.advertisedV && v >= cfg.floor && v >= s.floor
    && v in {3, c.advertisedV, cfg.floor, s.floor}
  }

  /** When a step takes this effect. */
  ghost predicate Warranted(cfg: Config, c: Client, s: Step, e: Effect) {
    match e
    case SendKx(pk) => Made(cfg, c, s).Sent? && Made(cfg, c, s).kp.publicKey == pk
    case RaiseFloor(pending, v) =>
      pending == c.pendingPhase
      && (Advertises(cfg, c, s, v) || (RaisedTo(cfg, c, s, v) && exists tag :: HearsHello(cfg, c, s, Some(tag))))
    case RecordPct(tag) => !c.pendingPhase && HearsHello(cfg, c, s, Some(tag)) && c.pct == Some(tag)
    case Confirmed(confirmed) =>
      if confirmed then exists tag :: HearsHello(cfg, c, s, Some(tag)) && c.pct == Some(tag)
      else HearsHello(cfg, c, s, None) && KnownBelow3(cfg, c, s)
    case ConfirmFailed(reason) =>
      && c.pendingPhase
      && ((reason == "no-local-pct" && c.pct.None? && exists tag :: HearsHello(cfg, c, s, Some(tag)))
          || (reason == "pct-mismatch" && c.pct.Some?
              && exists tag :: HearsHello(cfg, c, s, Some(tag)) && c.pct != Some(tag))
          || (reason == "pct-missing" && HearsHello(cfg, c, s, None) && !KnownBelow3(cfg, c, s)))
    case AskUnpair(did) => HearsUnpair(cfg, c, s, did)
    case Attach(sid) =>
      !c.autoAttached && exists ids :: HearsSessions(cfg, c, s, ids) && ids != [] && ids[0] == sid
  }

  /** What resolving a hello does, effect by effect. */
  lemma HelloResolves(cfg: Config, c: Client, s: Step, pct: Option<string>, e: Effect)
    requires HearsHello(cfg, c, s, pct) && !e.Attach?
    ensures e in PromotionResolved(cfg, c, pct, s.floor) <==> Warranted(cfg, c, s, e)
  {
    assert forall other :: HearsHello(cfg, c, s, other) <==> other == pct;
    HelloIsNoOther(cfg, c, s, pct);
    var r := PromotionResolved(cfg, c, pct, s.floor);
    ResolutionTable(cfg, c, pct, s.floor);
    EffectiveIs(cfg, c, s);
    FailuresOf(cfg, c, pct, s.floor);
    hide HearsHello, PromotionResolved, Advertises, HearsUnpair, Made, KnownBelow3, RaisedTo, EffectiveV, HearsSessions;
    match e
    case SendKx(_) =>
    case AskUnpair(_) =>
    case RaiseFloor(pending, v) => { RaisesInPhase(cfg, c, pct, s.floor, pending, v); }
    case RecordPct(tag) =>
    case Confirmed(confirmed) => { assert pct.Some? ==> pct == Some(pct.value); }
    case ConfirmFailed(reason) => { assert pct.Some? ==> pct == Some(pct.value); }
  }

  lemma HelloIsNoOther(cfg: Config, c: Client, s: Step, pct: Option<string>)
    requires HearsHello(cfg, c, s, pct)
    ensures s.Receive? && Made(cfg, c, s).NoKey?
    ensures forall v :: !Advertises(cfg, c, s, v)
    ensures forall did :: !HearsUnpair(cfg, c, s, did)
  {
  }

  lemma EffectiveIs(cfg: Config, c: Client, s: Step)
    requires s.Receive?
    ensures EffectiveV(cfg, c, s.floor) < 3 <==> KnownBelow3(cfg, c, s)
    ensures forall v :: v == Max(EffectiveV(cfg, c, s.floor), 3) <==> RaisedTo(cfg, c, s, v)
  {
  }

  lemma RaisesInPhase(cfg: Config, c: Client, pct: Option<string>, floor: int, pending: bool, v: int)
    ensures RaiseFloor(pending, v) in PromotionResolved(cfg, c, pct, floor)
            <==> pct.Some? && pending == c.pendingPhase && v == Max(EffectiveV(cfg, c, floor), 3)
  {
    ResolutionTable(cfg, c, pct, floor);
  }

  lemma FailuresOf(cfg: Config, c: Client, pct: Option<string>, floor: int)
    ensures forall why :: ConfirmFailed(why) in PromotionResolved(cfg, c, pct, floor)
              <==> c.pendingPhase
                   && if pct.Some? then c.pct != pct && why == (if c.pct.None? then "no-local-pct" else "pct-mismatch")
                      else EffectiveV(cfg, c, floor) >= 3 && why == "pct-missing"
  {
    var r := PromotionResolved(cfg, c, pct, floor);
    hide EffectiveV;
    if pct.Some? && c.pct != pct && c.pendingPhase {
      assert r[1] == ConfirmFailed(if c.pct.None? then "no-local-pct" else "pct-mismatch");
    }
  }

  lemma AttachIs(cfg: Config, c: Client, s: Step, sid: string)
    ensures Attach(sid) in Next(cfg, c, s).1 <==> Warranted(cfg, c, s, Attach(sid))
  {
    if !s.Receive? {
      OtherSteps(cfg, c, s);
      hide Next;
    } else {
      hide KxReceived, Rejected, Pinging, PromotionResolved;
      match s.frame
      case KxFrame(_, ct, gen) => {
        KxFrameIs(cfg, c, ct, gen, s.floor);
        if v :| Advertises(cfg, c, Receive(KxFrame(true, ct, gen), s.floor), v) {
        }
      }
      case DataFrame(fromDaemon, control, ct) => {
        if fromDaemon && !control && c.keys.Some? {
          HelloAttaches(cfg, c, ct, s.floor, sid);
        }
      }
      case _ =>
    }
  }

  lemma HelloAttaches(cfg: Config, c: Client, ct: string, floor: int, sid: string)
    requires c.keys.Some?
    ensures var p := cfg.crypto.open(ct, c.keys.value.rx);
            Attach(sid) in DataReceived(cfg, c, false, ct, floor).1
            <==> !c.autoAttached && p.Some? && p.value.Hello? && p.value.sessions != [] && p.value.sessions[0] == sid
  {
    var p := cfg.crypto.open(ct, c.keys.value.rx);
    if p.Some? && p.value.Hello? {
      ResolutionTable(cfg, c, p.value.pct, floor);
      hide PromotionResolved;
    }
  }

  lemma NoHelloEffects(cfg: Config, c: Client, s: Step, e: Effect)
    requires (forall pct :: !HearsHello(cfg, c, s, pct)) && !e.Attach? && !e.SendKx?
    ensures e in Next(cfg, c, s).1 <==> Warranted(cfg, c, s, e)
  {
    if !s.Receive? {
      OtherSteps(cfg, c, s);
      hide Next;
    } else {
      hide KxReceived, Rejected, Pinging, PromotionResolved, KnownBelow3, RaisedTo;
      match s.frame
      case KxFrame(fromDaemon, ct, gen) => {
        if fromDaemon {
          KxEffects(cfg, c, ct, gen, s.floor, e);
        }
      }
      case DataFrame(fromDaemon, control, ct) => {
        if fromDaemon && c.keys.Some? {
          var p := cfg.crypto.open(ct, c.keys.value.rx);
          assert !control && p.Some? && p.value.Hello? ==> HearsHello(cfg, c, s, p.value.pct);
        }
      }
      case _ =>
    }
  }

  lemma KxEffects(cfg: Config, c: Client, ct: string, gen: KeyGen, floor: int, e: Effect)
    requires !e.SendKx?
    ensures e in KxReceived(cfg, c, ct, gen).1
            <==> exists v ::
                   Advertises(cfg, c, Receive(KxFrame(true, ct, gen), floor), v) && e == RaiseFloor(c.pendingPhase, v)
  {
    KxFrameIs(cfg, c, ct, gen, floor);
    hide KxReceived, Advertises;
  }

  /**
   * The whole table, over every step: everything a client does outside, each if and only if a frame calls for it. A
   * pair is announced when one was made to be sent; floors rise to what is advertised, and to 3 or what is known with a
   * tag; a tag that is the epoch's confirms, and is recorded once committed; a tag-less hello commits as legacy only
   * below version 3 in all that is known; and a pending pairing fails on every other hello.
   */
  lemma EffectsTable(cfg: Config, c: Client, s: Step, e: Effect)
    ensures e in Next(cfg, c, s).1 <==> Warranted(cfg, c, s, e)
  {
    if e.SendKx? {
      StepMakes(cfg, c, s);
      hide Next, Made;
    } else if e.Attach? {
      AttachIs(cfg, c, s, e.sid);
    } else if pct :| HearsHello(cfg, c, s, pct) {
      HelloEffects(cfg, c, s, pct);
      HelloResolves(cfg, c, s, pct, e);
      hide Next, Warranted, PromotionResolved;
    } else {
      NoHelloEffects(cfg, c, s, e);
    }
  }

  // Runs.

  /** The step at `i` opens a key-exchange frame that advertises this version. */
  predicate AdvertisedAt(cfg: Config, steps: seq<Step>, states: seq<Client>, i: int, v: int)
    requires |states| == |steps| + 1
  {
    0 <= i < |steps| && Advertises(cfg, states[i], steps[i], v)
  }

  /** Nothing was advertised from this step on. */
  ghost predicate SilentFrom(cfg: Config, steps: seq<Step>, states: seq<Client>, i: int, k: int)
    requires |states| == |steps| + 1
  {
    forall j, x :: i <= j < k ==> !AdvertisedAt(cfg, steps, states, j, x)
  }

  /** In every run the version known of the daemon is the one its last opened key-exchange frame advertised, or 1. */
  lemma {:induction false} AdvertisedIsLast(cfg: Config, steps: seq<Step>, states: seq<Client>, k: nat)
    requires Run(cfg, steps, states) && k < |states|
    ensures (states[k].advertisedV == 1 && SilentFrom(cfg, steps, states, 0, k))
            || exists i :: 0 <= i < k && AdvertisedAt(cfg, steps, states, i, states[k].advertisedV)
                           && SilentFrom(cfg, steps, states, i + 1, k)
  {
    if k > 0 {
      hide Next, Possible, Advertises;
      var l := k - 1;
      AdvertisedIsLast(cfg, steps, states, l);
      StepAdvertises(cfg, states[l], steps[l]);
      if v :| AdvertisedAt(cfg, steps, states, l, v) {
        assert SilentFrom(cfg, steps, states, l + 1, k);
      } else {
        SilentLonger(cfg, steps, states, l);
      }
    }
  }

  lemma SilentLonger(cfg: Config, steps: seq<Step>, states: seq<Client>, l: nat)
    requires |states| == |steps| + 1 && l < |steps| && forall x :: !AdvertisedAt(cfg, steps, states, l, x)
    ensures forall i :: SilentFrom(cfg, steps, states, i, l) ==> SilentFrom(cfg, steps, states, i, l + 1)
    ensures forall x :: !Advertises(cfg, states[l], steps[l], x)
  {
    forall x ensures !Advertises(cfg, states[l], steps[l], x) {
      assert !AdvertisedAt(cfg, steps, states, l, x);
    }
    hide AdvertisedAt;
  }

  /** The value of the last phase call, a client starting out pending. */
  function LastPhase(steps: seq<Step>, k: nat): bool
    requires k <= |steps|
  {
    if k == 0 then true else if steps[k - 1].SetPhase? then steps[k - 1].pending else LastPhase(steps, k - 1)
  }

  /** The token of the last authentication that brought one, unless a resume has been rejected since. */
  function LastToken(steps: seq<Step>, states: seq<Client>, k: nat): Option<string>
    requires k <= |steps| && |states| == |steps| + 1
  {
    if k == 0 then states[0].token
    else if BringsToken(steps[k - 1]) then steps[k - 1].frame.token
    else if steps[k - 1].Receive? && steps[k - 1].frame.AuthErr? && states[k - 1].resuming then None
    else LastToken(steps, states, k - 1)
  }

  /** Phase and resume token are those last given. */
  lemma {:induction false} PhaseAndTokenAreLast(cfg: Config, steps: seq<Step>, states: seq<Client>, k: nat)
    requires Run(cfg, steps, states) && k < |states|
    ensures states[k].pendingPhase == LastPhase(steps, k) && states[k].token == LastToken(steps, states, k)
  {
    if k > 0 {
      hide Next, Possible;
      PhaseAndTokenAreLast(cfg, steps, states, k - 1);
      StepKeepsPhase(cfg, states[k - 1], steps[k - 1]);
    }
  }

  /** A hello with sessions has been heard since the connection or its keys were last started over. */
  ghost predicate AttachedSince(cfg: Config, steps: seq<Step>, states: seq<Client>, k: nat)
    requires |states| == |steps| + 1 && k <= |steps|
  {
    exists i :: 0 <= i < k && ListedAt(cfg, steps, states, i) && GoesOn(cfg, steps, states, i, k)
  }

  ghost predicate ListedAt(cfg: Config, steps: seq<Step>, states: seq<Client>, i: int)
    requires |states| == |steps| + 1
  {
    0 <= i < |steps| && exists ids :: HearsSessions(cfg, states[i], steps[i], ids) && ids != []
  }

  /** No step from this one on starts the connection or its keys over. */
  ghost predicate GoesOn(cfg: Config, steps: seq<Step>, states: seq<Client>, i: int, k: int)
    requires |states| == |steps| + 1
  {
    forall j :: i <= j < k && 0 <= j < |steps| ==> !StartsOver(cfg, states[j], steps[j], states[j + 1])
  }

  lemma {:induction false} AttachmentIsRemembered(cfg: Config, steps: seq<Step>, states: seq<Client>, k: nat)
    requires Run(cfg, steps, states) && k < |states|
    ensures states[k].autoAttached <==> AttachedSince(cfg, steps, states, k)
  {
    if k > 0 {
      hide Next, Possible, StartsOver, ListedAt, HearsSessions, AttachedSince;
      var l := k - 1;
      AttachmentIsRemembered(cfg, steps, states, l);
      StepAttaches(cfg, states[l], steps[l]);
      AttachedOneMore(cfg, steps, states, l);
      ListedIs(cfg, steps, states, l);
    }
  }

  lemma ListedIs(cfg: Config, steps: seq<Step>, states: seq<Client>, i: nat)
    requires |states| == |steps| + 1 && i < |steps|
    ensures ListedAt(cfg, steps, states, i)
            <==> exists ids :: HearsSessions(cfg, states[i], steps[i], ids) && ids != []
  {
  }

  lemma AttachedOneMore(cfg: Config, steps: seq<Step>, states: seq<Client>, l: nat)
    requires |states| == |steps| + 1 && l < |steps|
    ensures AttachedSince(cfg, steps, states, l + 1)
            <==> !StartsOver(cfg, states[l], steps[l], states[l + 1])
                 && (AttachedSince(cfg, steps, states, l) || ListedAt(cfg, steps, states, l))
  {
    hide StartsOver, ListedAt;
    if i :| 0 <= i < l + 1 && ListedAt(cfg, steps, states, i) && GoesOn(cfg, steps, states, i, l + 1) {
      assert i < l ==> GoesOn(cfg, steps, states, i, l);
    }
    if !StartsOver(cfg, states[l], steps[l], states[l + 1]) {
      if ListedAt(cfg, steps, states, l) {
        assert GoesOn(cfg, steps, states, l, l + 1);
      } else if i :| 0 <= i < l && ListedAt(cfg, steps, states, i) && GoesOn(cfg, steps, states, i, l) {
        assert GoesOn(cfg, steps, states, i, l + 1);
      }
    }
  }

  /**
   * In every run a client attaches to a session exactly at the first hello with sessions since its connection was last
   * retried or its keys exchanged again, and to the first one listed.
   */
  lemma AttachesOnce(cfg: Config, steps: seq<Step>, states: seq<Client>, k: nat, sid: string)
    requires Run(cfg, steps, states) && k < |steps|
    ensures Attach(sid) in Next(cfg, states[k], steps[k]).1
            <==> !AttachedSince(cfg, steps, states, k)
                 && exists ids :: HearsSessions(cfg, states[k], steps[k], ids) && ids != [] && ids[0] == sid
  {
    AttachmentIsRemembered(cfg, steps, states, k);
    EffectsTable(cfg, states[k], steps[k], Attach(sid));
    hide Run, Next, AttachedSince, HearsSessions;
  }

  // What the user is told.

  /** The step dials, or fails to for want of a usable endpoint: it is asked to, and no socket lives. */
  predicate Dials(c: Client, s: Step) {
    (s.Connect? || s.TimerFired?) && c.link.task.None?
  }

  /** The failure this step reports, if it reports one: a reject, a throttling, a failed send, an unusable endpoint. */
  function Reports(cfg: Config, c: Client, s: Step): Option<string> {
    match s
    case Receive(AuthErr(detail), _) => if c.resuming || !c.link.wants then None else Some("relay.auth.err: " + detail)
    case Receive(RelayErr(code), _) => if code == "RATE_LIMITED" then Some("sending too fast") else None
    case SendFailed(reason) => if c.link.wants then Some(reason) else None
    case _ =>
      if !Dials(c, s) || cfg.endpoint == WebSocket then None
      else Some(if cfg.endpoint == Unparseable then "invalid relay URL" else "relay URL must use ws:// or wss://")
  }

  lemma DialTells(cfg: Config, c: Client, tokenFresh: bool)
    ensures var d := Connected(cfg, c, tokenFresh);
            && d.cause == (if c.link.task.Some? || cfg.endpoint == WebSocket then c.cause
                           else Some(if cfg.endpoint == Unparseable then "invalid relay URL"
                                     else "relay URL must use ws:// or wss://"))
            && d.state == (if c.link.task.Some? then c.state else if cfg.endpoint == WebSocket then Authenticating
                           else FailedState)
            && d.resuming == (c.resuming
                              || (c.link.task.None? && cfg.endpoint == WebSocket && c.token.Some? && tokenFresh))
  {
    hide Down, Dialed, CancelReconnect;
  }

  /** The cause shown is the failure last reported, or the close code last given, until an authentication clears it. */
  lemma CauseIsReported(cfg: Config, c: Client, s: Step)
    ensures Next(cfg, c, s).0.cause == if s.Receive? && s.frame.AuthOk? then None
                                       else if s.Closed? then s.cause
                                       else if Reports(cfg, c, s).Some? then Reports(cfg, c, s) else c.cause
  {
    hide Connected, Rescheduled, Down, CancelPing, KxReceived, DataReceived, Pinging;
    match s
    case Connect(f) => { DialTells(cfg, c, f); }
    case TimerFired(id, f) => {
      DialTells(cfg, c.(link := c.link.(reconnect := None, armed := c.link.armed - {id}), state := Idle), f);
    }
    case PingTick(_) => { RescheduledFrame(c.(missedPongs := c.missedPongs + 1, link := CancelPing(c.link))); }
    case ReceiveFailed => { RescheduledFrame(c); }
    case SendFailed(reason) => { RescheduledFrame(c.(cause := Some(reason), state := FailedState)); }
    case Receive(frame, floor) => { FrameTells(cfg, c, frame, floor); hide Received; }
    case _ =>
  }

  lemma FrameTells(cfg: Config, c: Client, f: Frame, floor: int)
    ensures Received(cfg, c, f, floor).0.cause == if f.AuthOk? then None
              else if Reports(cfg, c, Receive(f, floor)).Some? then Reports(cfg, c, Receive(f, floor)) else c.cause
  {
    hide Rescheduled, KxReceived, DataReceived, Pinging;
    match f
    case KxFrame(_, ct, gen) => { KxFrameIs(cfg, c, ct, gen, floor); }
    case DataFrame(_, control, ct) => { DataFrameIs(cfg, c, control, ct, floor); }
    case AuthErr(detail) => {
      RescheduledFrame(c.(resuming := false, token := None));
      RescheduledFrame(c.(cause := Some("relay.auth.err: " + detail), state := FailedState));
    }
    case _ =>
  }

  /** A client that dials authenticates, resuming if it holds a token that is fresh, else in full. */
  lemma DialResumesIff(cfg: Config, c: Client, s: Step)
    requires Dials(c, s) && cfg.endpoint == WebSocket && !c.resuming
    ensures var d := Next(cfg, c, s).0;
            d.state == Authenticating && (d.resuming <==> c.token.Some? && s.tokenFresh)
  {
    hide Connected;
    if s.Connect? {
      DialTells(cfg, c, s.tokenFresh);
    } else {
      DialTells(cfg, c.(link := c.link.(reconnect := None, armed := c.link.armed - {s.id}), state := Idle),
                s.tokenFresh);
    }
  }
}
