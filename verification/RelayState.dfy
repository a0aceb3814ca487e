/**
 * The relay client's connection and key-exchange state as a value, and each step its serial queue runs. Sockets and
 * timers are numbered; `sockets` and `armed` hold those not yet cancelled, so a leaked one would show. The crypto is
 * uninterpreted: deriving keys, tags and plaintexts are functions that may fail.
 */
module RelayState {
  import opened Common

  datatype KeyPair = KeyPair(publicKey: string, secretKey: string)
  datatype SessionKeys = SessionKeys(rx: string, tx: string)

  /** What an opened frame says. */
  datatype Plain =
    | DaemonKx(publicKey: string, v: Option<int>)
    | Hello(pct: Option<string>, sessions: seq<string>)
    | Unpair(did: string)
    | OtherPlain

  datatype Crypto = Crypto(
    sessionKeys: (KeyPair, string) -> Option<SessionKeys>,
    tag: (string, KeyPair, SessionKeys) -> Option<string>,
    open: (string, string) -> Option<Plain>)

  datatype Endpoint = Unparseable | WrongScheme | WebSocket

  /** What a client is built from; `floor` is the anti-downgrade floor of its pairing when it was built. */
  datatype Config = Config(endpoint: Endpoint, kxKey: string, floor: int, crypto: Crypto)

  datatype ConnectionState = Idle | Authenticating | Authenticated | FailedState

  datatype Timer = Timer(id: nat, delay: nat)

  /**
   * What is wanted and what is alive: the socket, the retry and the ping timer held, and everything not yet cancelled.
   */
  datatype Link = Link(
    wants: bool, task: Option<nat>, reconnect: Option<Timer>, ping: Option<nat>,
    sockets: set<nat>, armed: set<nat>, pings: set<nat>, issued: nat)

  datatype Client = Client(
    link: Link, attempt: nat, missedPongs: nat, state: ConnectionState, cause: Option<string>,
    resuming: bool, token: Option<string>,
    kp: Option<KeyPair>, keys: Option<SessionKeys>, pct: Option<string>, advertisedV: int,
    pendingPhase: bool, helloReceived: bool, autoAttached: bool)

  const NEW := Client(Link(false, None, None, None, {}, {}, {}, 0), 0, 0, Idle, None, false, None,
                      None, None, None, 1, true, false, false)

  /** A client just built, holding the resume token saved by an earlier one, if there is one. */
  function Built(token: Option<string>): Client {
    NEW.(token := token)
  }

  /** What a step does outside the client. */
  datatype Effect =
    | SendKx(publicKey: string)
    | RaiseFloor(pending: bool, v: int)
    | RecordPct(tag: string)
    | Confirmed(confirmed: bool)
    | ConfirmFailed(reason: string)
    | AskUnpair(did: string)
    | Attach(sid: string)

  /** A generated key pair, possibly with nothing sent for it; or none. */
  datatype KeyGen = NoKey | Unsent(kp: KeyPair) | Sent(kp: KeyPair)

  /** One frame from some socket, live or stale. `gen` is what generating a key pair yields, should the step do so. */
  datatype Frame =
    | AuthOk(token: Option<string>, gen: KeyGen)
    | AuthErr(detail: string)
    | RelayErr(code: string)
    | Pong
    | KxFrame(fromDaemon: bool, ct: string, gen: KeyGen)
    | DataFrame(fromDaemon: bool, control: bool, ct: string)
    | OtherFrame

  datatype Step =
    | Connect(tokenFresh: bool)
    | Disconnect
    | SetPhase(pending: bool)
    | TimerFired(id: nat, tokenFresh: bool)
    | PingTick(id: nat)
    | ReceiveFailed
    | SendFailed(reason: string)
    | Closed(cause: Option<string>)
    | Receive(frame: Frame, floor: int)

  const MAX_DELAY := 30
  const MAX_MISSED := 2

  /** 1, 2, 4, … seconds, never more than the cap. */
  function ReconnectDelay(attempt: nat): nat {
    if Pow2(attempt) < MAX_DELAY then Pow2(attempt) else MAX_DELAY
  }

  function Pow2(n: nat): nat {
    if n == 0 then 1 else 2 * Pow2(n - 1)
  }

  // Sockets and timers.

  function Without(alive: set<nat>, cancelled: Option<nat>): set<nat> {
    if cancelled.Some? then alive - {cancelled.value} else alive
  }

  function IdOf(t: Option<Timer>): Option<nat> {
    if t.Some? then Some(t.value.id) else None
  }

  function CancelReconnect(l: Link): Link {
    l.(reconnect := None, armed := Without(l.armed, IdOf(l.reconnect)))
  }

  function CancelPing(l: Link): Link {
    l.(ping := None, pings := Without(l.pings, l.ping))
  }

  function CancelTask(l: Link): Link {
    l.(task := None, sockets := Without(l.sockets, l.task))
  }

  function Down(l: Link): Link {
    CancelTask(CancelPing(CancelReconnect(l.(wants := false))))
  }

  function Armed(l: Link, delay: nat): Link {
    l.(reconnect := Some(Timer(l.issued, delay)), armed := l.armed + {l.issued}, issued := l.issued + 1)
  }

  function Retrying(l: Link, delay: nat): Link {
    Armed(CancelTask(CancelPing(l)), delay)
  }

  function Dialed(l: Link): Link {
    l.(task := Some(l.issued), sockets := l.sockets + {l.issued}, issued := l.issued + 1)
  }

  function Pinging(l: Link): Link {
    var m := CancelPing(l);
    m.(ping := Some(l.issued), pings := m.pings + {l.issued}, issued := l.issued + 1)
  }

  // Connecting, failing and retrying.

  function Disconnected(c: Client): Client {
    c.(link := Down(c.link))
  }

  function Failed(c: Client, reason: string): Client {
    Disconnected(c.(cause := Some(reason), state := FailedState))
  }

  function Rescheduled(c: Client): Client {
    if !c.link.wants || c.link.reconnect.Some? then c
    else c.(link := Retrying(c.link, ReconnectDelay(c.attempt)), keys := None, kp := None, autoAttached := false,
            helloReceived := false, attempt := c.attempt + 1)
  }

  function FailedRecoverably(c: Client, reason: string): Client {
    if !c.link.wants then c else Rescheduled(c.(cause := Some(reason), state := FailedState))
  }

  /** Resume while a token is fresh, otherwise authenticate in full. */
  function AuthSent(c: Client, tokenFresh: bool): Client {
    c.(resuming := if c.token.Some? && tokenFresh then true else c.resuming, state := Authenticating)
  }

  function Connected(cfg: Config, c: Client, tokenFresh: bool): Client {
    var l := c.link.(wants := true);
    if l.task.Some? then c.(link := l)
    else
      var d := c.(link := CancelReconnect(l));
      match cfg.endpoint
      case Unparseable => Failed(d, "invalid relay URL")
      case WrongScheme => Failed(d, "relay URL must use ws:// or wss://")
      case WebSocket => AuthSent(d.(link := Dialed(d.link)), tokenFresh)
  }

  /** A fired timer is no longer armed, and its handler forgets it. */
  function Fired(cfg: Config, c: Client, id: nat, tokenFresh: bool): Client {
    Connected(cfg, c.(link := c.link.(reconnect := None, armed := c.link.armed - {id}), state := Idle), tokenFresh)
  }

  function Ticked(c: Client): Client {
    var d := c.(missedPongs := c.missedPongs + 1);
    if d.missedPongs > MAX_MISSED then Rescheduled(d.(link := CancelPing(d.link))) else d
  }

  // Key exchange.

  function KxStarted(c: Client, gen: KeyGen): (Client, seq<Effect>) {
    match gen
    case NoKey => (c, [])
    case Unsent(kp) => (c.(kp := Some(kp)), [])
    case Sent(kp) => (c.(kp := Some(kp)), [SendKx(kp.publicKey)])
  }

  function Authorized(c: Client, token: Option<string>, gen: KeyGen): (Client, seq<Effect>) {
    var d := c.(token := if token.Some? then token else c.token, resuming := false, attempt := 0,
                state := Authenticated, cause := None);
    KxStarted(d.(missedPongs := 0, link := Pinging(d.link)), gen)
  }

  function Rejected(c: Client, detail: string): Client {
    if c.resuming then Rescheduled(c.(resuming := false, token := None))
    else FailedRecoverably(c, "relay.auth.err: " + detail)
  }

  /** Derive the epoch's keys from `kp`, and its tag, or no tag; a failed derivation keeps the old epoch. */
  function Keyed(cfg: Config, c: Client, kp: KeyPair, daemonPk: string): Client {
    match cfg.crypto.sessionKeys(kp, daemonPk)
    case None => c
    case Some(keys) => c.(keys := Some(keys), pct := cfg.crypto.tag(daemonPk, kp, keys))
  }

  /** A daemon's key-exchange frame: first keys, or a re-exchange with a key pair of this very step. */
  function KxReceived(cfg: Config, c: Client, ct: string, gen: KeyGen): (Client, seq<Effect>) {
    match (c.kp, cfg.crypto.open(ct, cfg.kxKey))
    case (Some(kp), Some(DaemonKx(daemonPk, v))) =>
      var d := c.(advertisedV := v.GetOr(1));
      var raise := [RaiseFloor(c.pendingPhase, d.advertisedV)];
      if c.keys.None? then (Keyed(cfg, d, kp, daemonPk), raise)
      else
        var (e, sent) := KxStarted(d.(helloReceived := false, autoAttached := false), gen);
        (if e.kp.Some? then Keyed(cfg, e, e.kp.value, daemonPk) else e, raise + sent)
    case _ => (c, [])
  }

  // The promotion table.

  function EffectiveV(cfg: Config, c: Client, storedFloor: int): int {
    Max(Max(c.advertisedV, cfg.floor), storedFloor)
  }

  function PromotionResolved(cfg: Config, c: Client, helloPct: Option<string>, storedFloor: int): seq<Effect> {
    var effectiveV := EffectiveV(cfg, c, storedFloor);
    match helloPct
    case Some(pct) =>
      [RaiseFloor(c.pendingPhase, Max(effectiveV, 3))] +
      (if c.pct == Some(pct) then
         (if c.pendingPhase then [] else [RecordPct(pct)]) + [Confirmed(true)]
       else if c.pendingPhase then [ConfirmFailed(if c.pct.None? then "no-local-pct" else "pct-mismatch")]
       else [])
    case None =>
      if effectiveV < 3 then [Confirmed(false)]
      else if c.pendingPhase then [ConfirmFailed("pct-missing")]
      else []
  }

  function DataReceived(cfg: Config, c: Client, control: bool, ct: string, storedFloor: int): (Client, seq<Effect>) {
    if c.keys.None? then (c, [])
    else
      match cfg.crypto.open(ct, c.keys.value.rx)
      case Some(Hello(pct, sessions)) =>
        if control then (c, [])
        else
          (c.(helloReceived := true, autoAttached := c.autoAttached || sessions != []),
           PromotionResolved(cfg, c, pct, storedFloor)
           + (if !c.autoAttached && sessions != [] then [Attach(sessions[0])] else []))
      case Some(Unpair(did)) => (c, if control then [AskUnpair(did)] else [])
      case _ => (c, [])
  }

  function Received(cfg: Config, c: Client, f: Frame, storedFloor: int): (Client, seq<Effect>) {
    match f
    case AuthOk(token, gen) => Authorized(c, token, gen)
    case AuthErr(detail) => (Rejected(c, detail), [])
    case RelayErr(code) => (if code == "RATE_LIMITED" then c.(cause := Some("sending too fast")) else c, [])
    case Pong => (c.(missedPongs := 0), [])
    case KxFrame(fromDaemon, ct, gen) => if fromDaemon then KxReceived(cfg, c, ct, gen) else (c, [])
    case DataFrame(fromDaemon, control, ct) =>
      if fromDaemon then DataReceived(cfg, c, control, ct, storedFloor) else (c, [])
    case OtherFrame => (c, [])
  }

  /** Steps that can happen: a cancelled or fired timer never fires again. */
  predicate Possible(c: Client, s: Step) {
    match s
    case TimerFired(id, _) => id in c.link.armed
    case PingTick(id) => id in c.link.pings
    case _ => true
  }

  function Next(cfg: Config, c: Client, s: Step): (Client, seq<Effect>) {
    match s
    case Connect(tokenFresh) => (Connected(cfg, c, tokenFresh), [])
    case Disconnect => (Disconnected(c), [])
    case SetPhase(pending) => (c.(pendingPhase := pending), [])
    case TimerFired(id, tokenFresh) => (Fired(cfg, c, id, tokenFresh), [])
    case PingTick(_) => (Ticked(c), [])
    case ReceiveFailed => (Rescheduled(c), [])
    case SendFailed(reason) => (FailedRecoverably(c, reason), [])
    case Closed(cause) => (c.(cause := cause), [])
    case Receive(frame, floor) => Received(cfg, c, frame, floor)
  }
}
