/** The connection lifecycle over every interleaving of steps. */
module RelayLifecycle {
  import opened Common
  import opened RelayState

  function Only(o: Option<nat>): set<nat> {
    if o.Some? then {o.value} else {}
  }

  /** The sockets and timers alive are the ones the client holds, and a number to come is new. */
  ghost predicate NoLeaks(l: Link) {
    && l.sockets == Only(l.task) && l.armed == Only(IdOf(l.reconnect)) && l.pings == Only(l.ping)
    && (l.task.Some? ==> l.task.value < l.issued) && (l.ping.Some? ==> l.ping.value < l.issued)
    && (l.reconnect.Some? ==> l.reconnect.value.id < l.issued && 1 <= l.reconnect.value.delay <= MAX_DELAY)
    && !(l.task.Some? && l.reconnect.Some?)
  }

  /**
   * A wanted client has exactly one of a live socket and a retry armed within the cap; an unwanted one has neither;
   * and there is no socket or timer beside those it holds.
   */
  ghost predicate Lively(l: Link) {
    NoLeaks(l) && (l.wants <==> l.task.Some? || l.reconnect.Some?)
  }

  // Back-off.

  lemma {:induction false} Pow2Grows(n: nat)
    ensures 1 <= Pow2(n) && (n >= 5 ==> Pow2(n) >= 32)
  {
    if n > 0 {
      Pow2Grows(n - 1);
      assert n == 5 ==> Pow2(0) == 1 && Pow2(1) == 2 && Pow2(2) == 4 && Pow2(3) == 8 && Pow2(4) == 16;
    }
  }

  /** The delays are 1, 2, 4, 8, 16 and from then on the cap. */
  lemma DelaysBackOff(n: nat)
    ensures 1 <= ReconnectDelay(n) <= MAX_DELAY
    ensures ReconnectDelay(n) <= ReconnectDelay(n + 1)
    ensures ReconnectDelay(n) == MAX_DELAY <==> n >= 5
    ensures n < 4 ==> ReconnectDelay(n + 1) == 2 * ReconnectDelay(n)
    ensures ReconnectDelay(0) == 1 && ReconnectDelay(4) == 16 && (n >= 5 ==> ReconnectDelay(n) == 30)
  {
    Pow2Grows(n);
    if n < 5 {
      assert Pow2(0) == 1 && Pow2(1) == 2 && Pow2(2) == 4 && Pow2(3) == 8 && Pow2(4) == 16 && Pow2(5) == 32;
    }
  }

  // Links.

  lemma DownIsQuiet(l: Link)
    requires NoLeaks(l)
    ensures Lively(Down(l)) && !Down(l).wants && Down(l).sockets == {} && Down(l).armed == {} && Down(l).pings == {}
  {
  }

  lemma RetryingIsLively(l: Link, delay: nat)
    requires Lively(l) && l.wants && l.reconnect.None? && 1 <= delay <= MAX_DELAY
    ensures Lively(Retrying(l, delay)) && Retrying(l, delay).wants
            && Retrying(l, delay).reconnect == Some(Timer(l.issued, delay))
  {
  }

  lemma DialedIsLively(l: Link)
    requires NoLeaks(l) && l.wants && l.task.None?
    ensures NoLeaks(CancelReconnect(l)) && Lively(Dialed(CancelReconnect(l))) && Dialed(CancelReconnect(l)).wants
  {
  }

  lemma PingingIsLively(l: Link)
    requires Lively(l)
    ensures Lively(CancelPing(l)) && Lively(Pinging(l)) && Pinging(l).wants == l.wants == CancelPing(l).wants
    ensures Pinging(l).sockets == l.sockets && Pinging(l).armed == l.armed
  {
  }

  lemma FiredIsClean(l: Link, id: nat)
    requires Lively(l) && id in l.armed
    ensures NoLeaks(l.(reconnect := None, armed := l.armed - {id})) && l.wants
  {
  }

  // Steps.

  lemma RescheduledIsLively(c: Client)
    requires Lively(c.link)
    ensures Lively(Rescheduled(c).link) && Rescheduled(c).link.wants == c.link.wants
    ensures c.link.wants ==> Rescheduled(c).link.reconnect.Some?
  {
    DelaysBackOff(c.attempt);
    if c.link.wants && c.link.reconnect.None? {
      RetryingIsLively(c.link, ReconnectDelay(c.attempt));
    }
    hide Lively, Retrying, ReconnectDelay;
  }

  lemma WantedIsClean(l: Link)
    requires NoLeaks(l)
    ensures NoLeaks(l.(wants := true))
  {
  }

  /** Dialing from any state without a socket; a retry still armed is taken over, not left to dial again. */
  lemma ConnectedIsLively(cfg: Config, c: Client, tokenFresh: bool)
    requires NoLeaks(c.link)
    ensures Lively(Connected(cfg, c, tokenFresh).link)
    ensures Connected(cfg, c, tokenFresh).link.wants == (c.link.task.Some? || cfg.endpoint == WebSocket)
  {
    var l := c.link.(wants := true);
    assert l.task.Some? ==> Lively(l);
    hide Lively, NoLeaks, Down, Dialed, CancelReconnect;
    if l.task.None? {
      WantedIsClean(c.link);
      DialedIsLively(l);
      DownIsQuiet(CancelReconnect(l));
    }
  }

  lemma ReceivedIsLively(cfg: Config, c: Client, f: Frame, floor: int)
    requires Lively(c.link)
    ensures Lively(Received(cfg, c, f, floor).0.link) && Received(cfg, c, f, floor).0.link.wants == c.link.wants
  {
    hide Lively;
    if f.AuthOk? {
      PingingIsLively(c.link);
      hide Pinging;
    } else if f.AuthErr? {
      RescheduledIsLively(c.(resuming := false, token := None));
      RescheduledIsLively(c.(cause := Some("relay.auth.err: " + f.detail), state := FailedState));
      hide Rescheduled;
    } else {
      hide PromotionResolved;
    }
  }

  /** Every step keeps the connection invariant. */
  lemma StepIsLively(cfg: Config, c: Client, s: Step)
    requires Lively(c.link) && Possible(c, s)
    ensures Lively(Next(cfg, c, s).0.link)
    ensures !c.link.wants && !s.Connect? ==> !Next(cfg, c, s).0.link.wants
    ensures c.link.wants && s != Disconnect && cfg.endpoint == WebSocket ==> Next(cfg, c, s).0.link.wants
  {
    hide Lively, Connected, Down, Rescheduled, Received, CancelPing;
    match s
    case Connect(f) => { LivelyIsClean(c.link); ConnectedIsLively(cfg, c, f); }
    case Disconnect => { LivelyIsClean(c.link); DownIsQuiet(c.link); }
    case TimerFired(id, f) => { FiredIsLively(cfg, c, id, f); }
    case PingTick(id) => { TickIsLively(cfg, c, id); }
    case ReceiveFailed => { RescheduledIsLively(c); }
    case SendFailed(reason) => { RescheduledIsLively(c.(cause := Some(reason), state := FailedState)); }
    case Receive(frame, floor) => { ReceivedIsLively(cfg, c, frame, floor); }
    case _ =>
  }

  lemma LivelyIsClean(l: Link)
    requires Lively(l)
    ensures NoLeaks(l)
  {
  }

  lemma FiredIsLively(cfg: Config, c: Client, id: nat, tokenFresh: bool)
    requires Lively(c.link) && id in c.link.armed
    ensures var d := Next(cfg, c, TimerFired(id, tokenFresh)).0.link;
            Lively(d) && c.link.wants && (cfg.endpoint == WebSocket ==> d.wants)
  {
    hide Lively, Connected;
    FiredIsClean(c.link, id);
    ConnectedIsLively(cfg, c.(link := c.link.(reconnect := None, armed := c.link.armed - {id}), state := Idle),
                      tokenFresh);
  }

  lemma TickIsLively(cfg: Config, c: Client, id: nat)
    requires Lively(c.link)
    ensures var d := Next(cfg, c, PingTick(id)).0.link;
            Lively(d) && d.wants == c.link.wants
  {
    hide Lively, Rescheduled, CancelPing;
    PingingIsLively(c.link);
    RescheduledIsLively(c.(missedPongs := c.missedPongs + 1, link := CancelPing(c.link)));
  }

  // Runs.

  /** A run of a client built with or without a resume token saved by an earlier one. */
  ghost predicate Run(cfg: Config, steps: seq<Step>, states: seq<Client>) {
    && |states| == |steps| + 1 && states[0] == Built(states[0].token)
    && forall i ::
         0 <= i < |steps| ==> Possible(states[i], steps[i]) && states[i + 1] == Next(cfg, states[i], steps[i]).0
  }

  /** In every reachable state a wanted client is connected, or about to retry within the cap, exactly once. */
  lemma {:induction false} EveryStateIsLively(cfg: Config, steps: seq<Step>, states: seq<Client>, k: nat)
    requires Run(cfg, steps, states) && k < |states|
    ensures Lively(states[k].link)
  {
    if k > 0 {
      hide Next, Possible, Lively;
      EveryStateIsLively(cfg, steps, states, k - 1);
      StepIsLively(cfg, states[k - 1], steps[k - 1]);
    }
  }

  /** A client whose last lifecycle call was a disconnect opens no socket and arms no retry, whatever arrives later. */
  lemma {:induction false} DisconnectIsFinal(cfg: Config, steps: seq<Step>, states: seq<Client>, i: nat, k: nat)
    requires Run(cfg, steps, states) && i < k < |states|
    requires steps[i] == Disconnect && forall j :: i < j < k ==> !steps[j].Connect?
    ensures !states[k].link.wants && states[k].link.sockets == {} && states[k].link.armed == {}
  {
    hide Next, Possible;
    EveryStateIsLively(cfg, steps, states, k - 1);
    StepIsLively(cfg, states[k - 1], steps[k - 1]);
    if k > i + 1 {
      DisconnectIsFinal(cfg, steps, states, i, k - 1);
    } else {
      NextDisconnects(cfg, states[i]);
    }
    QuietWhenUnwanted(states[k].link);
  }

  /**
   * A client once asked to connect stays connected or retrying until told to disconnect, if its endpoint can be dialed.
   */
  lemma {:induction false} NeverSilentlyOffline(cfg: Config, steps: seq<Step>, states: seq<Client>, i: nat, k: nat)
    requires Run(cfg, steps, states) && i < k < |states| && cfg.endpoint == WebSocket
    requires steps[i].Connect? && forall j :: i < j < k ==> steps[j] != Disconnect
    ensures states[k].link.wants && |states[k].link.sockets| + |states[k].link.armed| == 1
  {
    hide Next, Possible;
    EveryStateIsLively(cfg, steps, states, k - 1);
    StepIsLively(cfg, states[k - 1], steps[k - 1]);
    if k > i + 1 {
      NeverSilentlyOffline(cfg, steps, states, i, k - 1);
    } else {
      NextConnects(cfg, states[i], steps[i].tokenFresh);
    }
    QuietWhenUnwanted(states[k].link);
  }

  lemma NextDisconnects(cfg: Config, c: Client)
    ensures !Next(cfg, c, Disconnect).0.link.wants
  {
  }

  lemma NextConnects(cfg: Config, c: Client, tokenFresh: bool)
    requires Lively(c.link) && cfg.endpoint == WebSocket
    ensures Next(cfg, c, Connect(tokenFresh)).0.link.wants
  {
    ConnectedIsLively(cfg, c, tokenFresh);
    hide Connected;
  }

  lemma QuietWhenUnwanted(l: Link)
    requires Lively(l)
    ensures |l.sockets| + |l.armed| == if l.wants then 1 else 0
    ensures !l.wants ==> l.sockets == {} && l.armed == {}
  {
  }

  // Missed pongs over runs.

  /** Ticks since the last pong or authentication. */
  function MissedSince(steps: seq<Step>, k: nat): nat
    requires k <= |steps|
  {
    if k == 0 then 0
    else
      var s := steps[k - 1];
      if s.Receive? && (s.frame.Pong? || s.frame.AuthOk?) then 0
      else MissedSince(steps, k - 1) + (if s.PingTick? then 1 else 0)
  }

  lemma RescheduledMisses(c: Client)
    ensures Rescheduled(c).missedPongs == c.missedPongs
  {
    hide Retrying, ReconnectDelay;
  }

  lemma FailedKeeps(c: Client, reason: string)
    ensures var d := Failed(c, reason);
            d.kp == c.kp && d.keys == c.keys && d.pct == c.pct && d.missedPongs == c.missedPongs
  {
    hide Down;
  }

  lemma AuthSentKeeps(c: Client, tokenFresh: bool)
    ensures var d := AuthSent(c, tokenFresh);
            d.kp == c.kp && d.keys == c.keys && d.pct == c.pct && d.missedPongs == c.missedPongs
  {
  }

  /** Dialing touches neither the epoch nor the count of missed pongs. */
  lemma ConnectedKeeps(cfg: Config, c: Client, tokenFresh: bool)
    ensures var d := Connected(cfg, c, tokenFresh);
            d.kp == c.kp && d.keys == c.keys && d.pct == c.pct && d.missedPongs == c.missedPongs
  {
    hide Down, Dialed, CancelReconnect, Failed, AuthSent;
    var d := c.(link := CancelReconnect(c.link.(wants := true)));
    FailedKeeps(d, "invalid relay URL");
    FailedKeeps(d, "relay URL must use ws:// or wss://");
    AuthSentKeeps(d.(link := Dialed(d.link)), tokenFresh);
  }

  lemma ReceivedMisses(cfg: Config, c: Client, f: Frame, floor: int)
    ensures Received(cfg, c, f, floor).0.missedPongs == if f.Pong? || f.AuthOk? then 0 else c.missedPongs
  {
    if f.AuthErr? {
      RescheduledMisses(c.(resuming := false, token := None));
      RescheduledMisses(c.(cause := Some("relay.auth.err: " + f.detail), state := FailedState));
      hide Rescheduled;
    } else {
      hide PromotionResolved, Pinging;
    }
  }

  lemma StepMisses(cfg: Config, c: Client, s: Step)
    ensures Next(cfg, c, s).0.missedPongs
            == if s.Receive? && (s.frame.Pong? || s.frame.AuthOk?) then 0
            else c.missedPongs + (if s.PingTick? then 1 else 0)
  {
    match s
    case Connect(f) => { ConnectedKeeps(cfg, c, f); hide Connected; }
    case TimerFired(id, f) => {
      ConnectedKeeps(cfg, c.(link := c.link.(reconnect := None, armed := c.link.armed - {id}), state := Idle), f);
      hide Connected;
    }
    case PingTick(_) => {
      RescheduledMisses(c.(missedPongs := c.missedPongs + 1, link := CancelPing(c.link)));
      hide Rescheduled;
    }
    case ReceiveFailed => { RescheduledMisses(c); hide Rescheduled; }
    case SendFailed(reason) => { RescheduledMisses(c.(cause := Some(reason), state := FailedState)); hide Rescheduled; }
    case Receive(frame, floor) => { ReceivedMisses(cfg, c, frame, floor); hide Received; }
    case _ => { hide Down; }
  }

  lemma {:induction false} MissesAreCounted(cfg: Config, steps: seq<Step>, states: seq<Client>, k: nat)
    requires Run(cfg, steps, states) && k < |states|
    ensures states[k].missedPongs == MissedSince(steps, k)
  {
    if k > 0 {
      hide Next, Possible;
      MissesAreCounted(cfg, steps, states, k - 1);
      StepMisses(cfg, states[k - 1], steps[k - 1]);
    }
  }

  lemma TickDropsIff(c: Client)
    requires Lively(c.link)
    ensures var d := Ticked(c);
            && (c.link.task.Some? && d.link.task.None? <==> c.link.task.Some? && c.missedPongs >= MAX_MISSED)
            && (c.link.task.Some? && d.link.task.None? ==> d.link.reconnect.Some? && d.link.ping.None? && d.keys.None?)
  {
    hide ReconnectDelay;
  }

  /**
   * In every run a tick gives the socket up, and arms a retry, exactly when it is the third or later without a pong.
   */
  lemma PingGivesUpIff(cfg: Config, steps: seq<Step>, states: seq<Client>, k: nat)
    requires Run(cfg, steps, states) && k < |steps| && steps[k].PingTick? && states[k].link.task.Some?
    ensures states[k + 1].link.task.None? <==> MissedSince(steps, k + 1) >= 3
    ensures states[k + 1].link.task.None? ==> states[k + 1].link.reconnect.Some? && states[k + 1].keys.None?
  {
    hide Possible, Lively;
    MissesAreCounted(cfg, steps, states, k);
    EveryStateIsLively(cfg, steps, states, k);
    TickDropsIff(states[k]);
    hide Ticked;
  }

  // Back-off over runs.

  predicate Authenticates(s: Step) {
    s.Receive? && s.frame.AuthOk?
  }

  predicate Arms(c: Client, d: Client) {
    c.link.reconnect.None? && d.link.reconnect.Some?
  }

  /** Retries armed since the last authentication. */
  function RetriesSince(steps: seq<Step>, states: seq<Client>, k: nat): nat
    requires k <= |steps| && |states| == |steps| + 1
  {
    if k == 0 || Authenticates(steps[k - 1]) then 0
    else RetriesSince(steps, states, k - 1) + (if Arms(states[k - 1], states[k]) then 1 else 0)
  }

  /** A retry by the back-off reached, without keys and without pings. */
  predicate RetryOf(c: Client, d: Client)
    requires Arms(c, d)
  {
    && d.link.reconnect.value.delay == ReconnectDelay(c.attempt)
    && d.keys.None? && d.kp.None? && d.link.ping.None?
  }

  lemma RescheduledCounts(c: Client)
    ensures var d := Rescheduled(c);
            && d.attempt == c.attempt + (if Arms(c, d) then 1 else 0)
            && (Arms(c, d) ==> RetryOf(c, d))
  {
    hide ReconnectDelay, Without;
  }

  lemma FailedCounts(c: Client, reason: string)
    ensures Failed(c, reason).attempt == c.attempt && Failed(c, reason).link.reconnect.None?
  {
    hide Without;
  }

  lemma ConnectedCounts(cfg: Config, c: Client, tokenFresh: bool)
    ensures var d := Connected(cfg, c, tokenFresh); d.attempt == c.attempt && !Arms(c, d)
  {
    var d := c.(link := CancelReconnect(c.link.(wants := true)));
    FailedCounts(d, "invalid relay URL");
    FailedCounts(d, "relay URL must use ws:// or wss://");
    hide Failed, Without;
  }

  lemma ReceivedCounts(cfg: Config, c: Client, f: Frame, floor: int)
    ensures var d := Received(cfg, c, f, floor).0;
            && d.attempt == (if f.AuthOk? then 0 else c.attempt + (if Arms(c, d) then 1 else 0))
            && (Arms(c, d) ==> RetryOf(c, d))
  {
    if f.AuthErr? {
      RescheduledCounts(c.(resuming := false, token := None));
      RescheduledCounts(c.(cause := Some("relay.auth.err: " + f.detail), state := FailedState));
      hide Rescheduled;
    } else {
      hide PromotionResolved, CancelPing, RetryOf;
    }
  }

  lemma StepCounts(cfg: Config, c: Client, s: Step)
    requires Lively(c.link) && Possible(c, s)
    ensures var d := Next(cfg, c, s).0;
            && d.attempt == (if Authenticates(s) then 0 else c.attempt + (if Arms(c, d) then 1 else 0))
            && (Arms(c, d) ==> RetryOf(c, d))
  {
    match s
    case Connect(f) => { ConnectedCounts(cfg, c, f); hide Connected; }
    case TimerFired(id, f) => {
      ConnectedCounts(cfg, c.(link := c.link.(reconnect := None, armed := c.link.armed - {id}), state := Idle), f);
      hide Connected;
    }
    case PingTick(_) => {
      RescheduledCounts(c.(missedPongs := c.missedPongs + 1, link := CancelPing(c.link)));
      hide Rescheduled;
    }
    case ReceiveFailed => { RescheduledCounts(c); hide Rescheduled; }
    case SendFailed(reason) => { RescheduledCounts(c.(cause := Some(reason), state := FailedState)); hide Rescheduled; }
    case Receive(frame, floor) => { ReceivedCounts(cfg, c, frame, floor); hide Received; }
    case _ => { hide CancelPing, CancelTask; }
  }

  lemma {:induction false} AttemptCountsRetries(cfg: Config, steps: seq<Step>, states: seq<Client>, k: nat)
    requires Run(cfg, steps, states) && k < |states|
    ensures states[k].attempt == RetriesSince(steps, states, k)
  {
    if k > 0 {
      hide Next, Possible, Arms, Authenticates, Lively;
      AttemptCountsRetries(cfg, steps, states, k - 1);
      EveryStateIsLively(cfg, steps, states, k - 1);
      StepCounts(cfg, states[k - 1], steps[k - 1]);
    }
  }

  /** In every run a retry waits by the number of retries since the last authentication, and starts without keys. */
  lemma RetriesBackOff(cfg: Config, steps: seq<Step>, states: seq<Client>, k: nat)
    requires Run(cfg, steps, states) && k < |steps| && Arms(states[k], states[k + 1])
    ensures states[k + 1].link.reconnect.value.delay == ReconnectDelay(RetriesSince(steps, states, k))
    ensures states[k + 1].keys.None? && states[k + 1].kp.None? && states[k + 1].link.ping.None?
  {
    hide Next, Possible, Lively;
    AttemptCountsRetries(cfg, steps, states, k);
    EveryStateIsLively(cfg, steps, states, k);
    StepCounts(cfg, states[k], steps[k]);
  }

  // Resuming.

  /** The step is an authentication that brings a resume token. */
  predicate BringsToken(s: Step) {
    Authenticates(s) && s.frame.token.Some?
  }

  /** Without a token no attempt resumes. */
  predicate CannotResume(c: Client) {
    c.token.None? && !c.resuming
  }

  lemma ConnectedCannotResume(cfg: Config, c: Client, tokenFresh: bool)
    requires CannotResume(c)
    ensures CannotResume(Connected(cfg, c, tokenFresh))
  {
    hide Down, Dialed, CancelReconnect;
  }

  lemma ReceivedCannotResume(cfg: Config, c: Client, f: Frame, floor: int)
    requires CannotResume(c) && !(f.AuthOk? && f.token.Some?)
    ensures CannotResume(Received(cfg, c, f, floor).0)
  {
    hide PromotionResolved, Pinging, Retrying, ReconnectDelay;
  }

  lemma StepCannotResume(cfg: Config, c: Client, s: Step)
    requires CannotResume(c) && !BringsToken(s)
    ensures CannotResume(Next(cfg, c, s).0)
  {
    match s
    case Connect(f) => { ConnectedCannotResume(cfg, c, f); hide Connected; }
    case TimerFired(id, f) => {
      ConnectedCannotResume(cfg, c.(link := c.link.(reconnect := None, armed := c.link.armed - {id}), state := Idle),
                            f);
      hide Connected;
    }
    case Receive(frame, floor) => { ReceivedCannotResume(cfg, c, frame, floor); hide Received; }
    case _ => { hide Received, Connected, Retrying, ReconnectDelay, Down, CancelPing; }
  }

  lemma RejectionForgets(cfg: Config, c: Client, s: Step)
    requires s.Receive? && s.frame.AuthErr? && c.resuming
    ensures CannotResume(Next(cfg, c, s).0)
  {
    hide Retrying, ReconnectDelay;
  }

  /** In every run, after a rejected resume no attempt resumes until an authentication has brought a new token. */
  lemma {:induction false} RejectedResumeIsForgotten(cfg: Config, steps: seq<Step>, states: seq<Client>, i: nat, k: nat)
    requires Run(cfg, steps, states) && i < k < |states|
    requires steps[i].Receive? && steps[i].frame.AuthErr? && states[i].resuming
    requires forall j :: i < j < k ==> !BringsToken(steps[j])
    ensures CannotResume(states[k])
  {
    hide Next, Possible, CannotResume, BringsToken;
    if k == i + 1 {
      RejectionForgets(cfg, states[i], steps[i]);
    } else {
      RejectedResumeIsForgotten(cfg, steps, states, i, k - 1);
      StepCannotResume(cfg, states[k - 1], steps[k - 1]);
    }
  }
}
