/** Key-exchange epochs: which keys a tag belongs to, and what it takes to confirm a pairing. */
module RelayKeys {
  import opened Common
  import opened RelayState
  import opened RelayLifecycle

  /** The keys come from this pair and this daemon key, and the stored tag is the one these very keys give, if any. */
  ghost predicate EpochOf(cfg: Config, c: Client, kp: KeyPair, daemonPk: string) {
    && c.keys.Some? && cfg.crypto.sessionKeys(kp, daemonPk) == c.keys
    && c.pct == cfg.crypto.tag(daemonPk, kp, c.keys.value)
  }

  ghost predicate Bound(cfg: Config, c: Client) {
    c.keys.Some? ==> exists kp, daemonPk :: EpochOf(cfg, c, kp, daemonPk)
  }

  lemma KeyedIsBound(cfg: Config, c: Client, kp: KeyPair, daemonPk: string)
    requires Bound(cfg, c)
    ensures Bound(cfg, Keyed(cfg, c, kp, daemonPk))
    ensures cfg.crypto.sessionKeys(kp, daemonPk).Some? ==> EpochOf(cfg, Keyed(cfg, c, kp, daemonPk), kp, daemonPk)
  {
    if cfg.crypto.sessionKeys(kp, daemonPk).None? && c.keys.Some? {
      assert Keyed(cfg, c, kp, daemonPk) == c;
    } else if c.keys.Some? || cfg.crypto.sessionKeys(kp, daemonPk).Some? {
      assert EpochOf(cfg, Keyed(cfg, c, kp, daemonPk), kp, daemonPk);
    }
  }

  /** Clients with the same keys and tag are bound alike. */
  lemma BoundCarries(cfg: Config, c: Client, d: Client)
    requires Bound(cfg, c) && KeepsEpoch(c, d)
    ensures Bound(cfg, d)
  {
    if d.keys.Some? {
      var kp, daemonPk :| EpochOf(cfg, c, kp, daemonPk);
      assert EpochOf(cfg, d, kp, daemonPk);
    }
  }

  lemma KxKeepsBound(cfg: Config, c: Client, ct: string, gen: KeyGen)
    requires Bound(cfg, c)
    ensures Bound(cfg, KxReceived(cfg, c, ct, gen).0)
  {
    hide Bound, Keyed;
    match (c.kp, cfg.crypto.open(ct, cfg.kxKey))
    case (Some(kp), Some(DaemonKx(daemonPk, v))) =>
      var d := c.(advertisedV := v.GetOr(1));
      if c.keys.None? {
        BoundCarries(cfg, c, d);
        KeyedIsBound(cfg, d, kp, daemonPk);
      } else {
        var e := KxStarted(d.(helloReceived := false, autoAttached := false), gen).0;
        BoundCarries(cfg, c, e);
        KeyedIsBound(cfg, e, e.kp.value, daemonPk);
      }
    case _ =>
  }

  /** The epoch is dropped or left alone. */
  predicate KeepsEpoch(c: Client, d: Client) {
    d.keys.None? || (d.keys == c.keys && d.pct == c.pct)
  }

  lemma RescheduledKeepsEpoch(c: Client)
    ensures KeepsEpoch(c, Rescheduled(c))
  {
    hide Retrying, ReconnectDelay;
  }

  lemma FramesKeepEpoch(cfg: Config, c: Client, f: Frame, floor: int)
    requires !f.KxFrame?
    ensures KeepsEpoch(c, Received(cfg, c, f, floor).0)
  {
    hide PromotionResolved, ReconnectDelay, Retrying, Pinging;
  }

  lemma OtherStepsKeepEpoch(cfg: Config, c: Client, s: Step)
    requires !(s.Receive? && s.frame.KxFrame?)
    ensures KeepsEpoch(c, Next(cfg, c, s).0)
  {
    hide Received, Rescheduled, Connected;
    match s
    case Connect(f) => { ConnectedKeeps(cfg, c, f); }
    case TimerFired(id, f) => {
      ConnectedKeeps(cfg, c.(link := c.link.(reconnect := None, armed := c.link.armed - {id}), state := Idle), f);
    }
    case PingTick(_) => {
      RescheduledKeepsEpoch(c.(missedPongs := c.missedPongs + 1, link := CancelPing(c.link)));
      hide CancelPing;
    }
    case ReceiveFailed => { RescheduledKeepsEpoch(c); }
    case SendFailed(reason) => { RescheduledKeepsEpoch(c.(cause := Some(reason), state := FailedState)); }
    case Receive(frame, floor) => { FramesKeepEpoch(cfg, c, frame, floor); }
    case _ => { hide Down; }
  }

  lemma StepKeepsBound(cfg: Config, c: Client, s: Step)
    requires Bound(cfg, c)
    ensures Bound(cfg, Next(cfg, c, s).0)
  {
    hide Bound;
    if s.Receive? && s.frame.KxFrame? {
      KxKeepsBound(cfg, c, s.frame.ct, s.frame.gen);
      hide KxReceived;
    } else {
      OtherStepsKeepEpoch(cfg, c, s);
      BoundCarries(cfg, c, Next(cfg, c, s).0);
    }
  }

  /** In every reachable state the stored tag is the one the very session keys give, whatever order frames came in. */
  lemma {:induction false} TagBelongsToKeys(cfg: Config, steps: seq<Step>, states: seq<Client>, k: nat)
    requires Run(cfg, steps, states) && k < |states|
    ensures Bound(cfg, states[k])
  {
    if k > 0 {
      hide Next, Possible, Bound;
      TagBelongsToKeys(cfg, steps, states, k - 1);
      StepKeepsBound(cfg, states[k - 1], steps[k - 1]);
    }
  }

  // Which pair an epoch uses, over runs.

  /** Keys and tag are those this pair gives with some daemon key. */
  ghost predicate HasEpochOf(cfg: Config, c: Client, kp: KeyPair) {
    exists daemonPk :: EpochOf(cfg, c, kp, daemonPk)
  }

  /** The pair this step generates: on every authentication, and on a re-exchange. */
  function Made(cfg: Config, c: Client, s: Step): KeyGen {
    if s.Receive? && s.frame.AuthOk? then s.frame.gen
    else if s.Receive? && s.frame.KxFrame? && s.frame.fromDaemon && c.kp.Some? && c.keys.Some? then
      match cfg.crypto.open(s.frame.ct, cfg.kxKey)
      case Some(DaemonKx(_, _)) => s.frame.gen
      case _ => NoKey
    else NoKey
  }

  function LastMade(cfg: Config, steps: seq<Step>, states: seq<Client>, k: nat): KeyGen
    requires k <= |steps| && |states| == |steps| + 1
  {
    if k == 0 then NoKey
    else
      var made := Made(cfg, states[k - 1], steps[k - 1]);
      if made.NoKey? then LastMade(cfg, steps, states, k - 1) else made
  }

  lemma KxMakes(cfg: Config, c: Client, ct: string, gen: KeyGen)
    ensures var s := Receive(KxFrame(true, ct, gen), 0);
            var (d, effects) := KxReceived(cfg, c, ct, gen);
            var made := Made(cfg, c, s);
            && d.kp == (if made.NoKey? then c.kp else Some(made.kp))
            && (forall pk :: SendKx(pk) in effects <==> made.Sent? && pk == made.kp.publicKey)
            && (d.keys != c.keys ==> d.kp.Some? && exists daemonPk :: EpochOf(cfg, d, d.kp.value, daemonPk))
  {
    match (c.kp, cfg.crypto.open(ct, cfg.kxKey))
    case (Some(kp), Some(DaemonKx(daemonPk, v))) =>
      var d := KxReceived(cfg, c, ct, gen).0;
      assert d.keys != c.keys ==> EpochOf(cfg, d, d.kp.value, daemonPk);
      if c.keys.Some? && gen.Sent? {
        assert ([RaiseFloor(c.pendingPhase, v.GetOr(1))] + [SendKx(gen.kp.publicKey)])[1] == SendKx(gen.kp.publicKey);
      }
    case _ =>
  }

  lemma RescheduledKeepsPair(c: Client)
    ensures Rescheduled(c).kp in {None, c.kp} && Rescheduled(c).keys in {None, c.keys}
  {
    hide Retrying, ReconnectDelay;
  }

  /** What a step makes of the pair, the keys and the announcement. */
  lemma StepMakes(cfg: Config, c: Client, s: Step)
    ensures var (d, effects) := Next(cfg, c, s);
            var made := Made(cfg, c, s);
            && (d.kp.Some? ==> d.kp == if made.NoKey? then c.kp else Some(made.kp))
            && (forall pk :: SendKx(pk) in effects <==> made.Sent? && pk == made.kp.publicKey)
            && (d.keys.Some? && d.keys != c.keys
                ==> d.kp.Some? && exists daemonPk :: EpochOf(cfg, d, d.kp.value, daemonPk))
  {
    hide Received, Rescheduled, Connected, EpochOf;
    match s
    case Connect(f) => { ConnectedKeeps(cfg, c, f); }
    case TimerFired(id, f) => {
      ConnectedKeeps(cfg, c.(link := c.link.(reconnect := None, armed := c.link.armed - {id}), state := Idle), f);
    }
    case PingTick(_) => {
      RescheduledKeepsPair(c.(missedPongs := c.missedPongs + 1, link := CancelPing(c.link)));
      hide CancelPing;
    }
    case ReceiveFailed => { RescheduledKeepsPair(c); }
    case SendFailed(reason) => { RescheduledKeepsPair(c.(cause := Some(reason), state := FailedState)); }
    case Receive(frame, floor) => { ReceivedMakes(cfg, c, frame, floor); }
    case _ => { hide Down; }
  }

  lemma ReceivedMakes(cfg: Config, c: Client, f: Frame, floor: int)
    ensures var (d, effects) := Received(cfg, c, f, floor);
            var made := Made(cfg, c, Receive(f, floor));
            && (d.kp.Some? ==> d.kp == if made.NoKey? then c.kp else Some(made.kp))
            && (forall pk :: SendKx(pk) in effects <==> made.Sent? && pk == made.kp.publicKey)
            && (d.keys.Some? && d.keys != c.keys
                ==> d.kp.Some? && exists daemonPk :: EpochOf(cfg, d, d.kp.value, daemonPk))
  {
    match f
    case KxFrame(fromDaemon, ct, gen) => {
      hide EpochOf, KxReceived;
      if fromDaemon {
        KxMakes(cfg, c, ct, gen);
      }
    }
    case DataFrame(fromDaemon, control, ct) => {
      DataSendsNoPair(cfg, c, control, ct, floor);
      hide DataReceived, EpochOf;
    }
    case AuthErr(detail) => {
      RescheduledKeepsPair(c.(resuming := false, token := None));
      RescheduledKeepsPair(c.(cause := Some("relay.auth.err: " + detail), state := FailedState));
      hide Rescheduled, EpochOf;
    }
    case AuthOk(token, gen) => { hide Pinging, EpochOf; }
    case _ => { hide EpochOf; }
  }

  lemma DataSendsNoPair(cfg: Config, c: Client, control: bool, ct: string, floor: int)
    ensures var (d, effects) := DataReceived(cfg, c, control, ct, floor);
            d.kp == c.kp && d.keys == c.keys && forall pk :: SendKx(pk) !in effects
  {
    forall pct | true ensures forall e :: e in PromotionResolved(cfg, c, pct, floor) ==> !e.SendKx? {
      ResolutionTable(cfg, c, pct, floor);
    }
    hide PromotionResolved;
  }

  lemma {:induction false} PairIsLastMade(cfg: Config, steps: seq<Step>, states: seq<Client>, k: nat)
    requires Run(cfg, steps, states) && k < |states|
    ensures states[k].kp.Some?
            ==> !LastMade(cfg, steps, states, k).NoKey? && states[k].kp == Some(LastMade(cfg, steps, states, k).kp)
  {
    if k > 0 {
      hide Next, Possible, Made;
      PairIsLastMade(cfg, steps, states, k - 1);
      StepMakes(cfg, states[k - 1], steps[k - 1]);
    }
  }

  /**
   * In every run, whenever session keys change, the new ones come from the pair made last: the one of that very step,
   * if it made one, and otherwise the last one before.
   */
  lemma EpochsUseTheLastPair(cfg: Config, steps: seq<Step>, states: seq<Client>, k: nat)
    requires Run(cfg, steps, states) && k < |steps| && states[k + 1].keys.Some? && states[k + 1].keys != states[k].keys
    ensures var made := LastMade(cfg, steps, states, k + 1);
            !made.NoKey? && HasEpochOf(cfg, states[k + 1], made.kp)
            && made == (if Made(cfg, states[k], steps[k]).NoKey? then LastMade(cfg, steps, states, k)
                        else Made(cfg, states[k], steps[k]))
  {
    hide Next, Possible, Made, EpochOf;
    StepMakes(cfg, states[k], steps[k]);
    PairIsLastMade(cfg, steps, states, k + 1);
  }

  /** A daemon whose frames open to its public key, and with which every pair derives keys. */
  const OPEN_DAEMON := Config(WebSocket, "", 0,
                              Crypto((kp, pk) => Some(SessionKeys(pk, pk)), (pk, kp, keys) => None,
                                     (ct, key) => Some(DaemonKx(ct, None))))

  /** The run ends in a re-exchange that changes the keys and announces nothing, both epochs coming from one pair. */
  ghost predicate Reuses(cfg: Config, steps: seq<Step>, states: seq<Client>, kp: KeyPair) {
    && Run(cfg, steps, states) && |steps| > 0
    && var c, s, d := states[|steps| - 1], steps[|steps| - 1], states[|steps|];
       && s.Receive? && s.frame.KxFrame? && c.keys.Some? && d.keys.Some? && d.keys != c.keys
       && HasEpochOf(cfg, c, kp) && HasEpochOf(cfg, d, kp) && forall pk :: SendKx(pk) !in Next(cfg, c, s).1
  }

  /** A re-exchange need not use a pair of its own: where none can be generated it derives from the one before. */
  lemma ReexchangeReusesPair(kp: KeyPair)
    ensures exists steps, states :: Reuses(OPEN_DAEMON, steps, states, kp)
  {
    var s0, s1 := Receive(AuthOk(None, Sent(kp)), 0), Receive(KxFrame(true, "1", NoKey), 0);
    var s2 := Receive(KxFrame(true, "2", NoKey), 0);
    var c0 := Built(None);
    var c1 := Next(OPEN_DAEMON, c0, s0).0;
    var c2 := Next(OPEN_DAEMON, c1, s1).0;
    var c3 := Next(OPEN_DAEMON, c2, s2).0;
    assert c1.kp == Some(kp) && c1.keys.None?;
    assert c2.kp == Some(kp) && EpochOf(OPEN_DAEMON, c2, kp, "1") && c2.keys == Some(SessionKeys("1", "1"));
    assert c3.kp == Some(kp) && EpochOf(OPEN_DAEMON, c3, kp, "2") && c3.keys == Some(SessionKeys("2", "2"));
    assert "1"[0] != "2"[0];
    hide Next;
    assert Reuses(OPEN_DAEMON, [s0, s1, s2], [c0, c1, c2, c3], kp);
  }

  // The promotion table.

  /** The step reads a hello that the current session keys decrypt. */
  predicate HearsHello(cfg: Config, c: Client, s: Step, pct: Option<string>) {
    && s.Receive? && s.frame.DataFrame? && s.frame.fromDaemon && !s.frame.control && c.keys.Some?
    && var p := cfg.crypto.open(s.frame.ct, c.keys.value.rx); p.Some? && p.value.Hello? && p.value.pct == pct
  }

  lemma ResolutionTable(cfg: Config, c: Client, pct: Option<string>, floor: int)
    ensures var r := PromotionResolved(cfg, c, pct, floor);
            && (Confirmed(true) in r <==> pct.Some? && c.pct == pct)
            && (Confirmed(false) in r <==> pct.None? && EffectiveV(cfg, c, floor) < 3)
            && ((exists why :: ConfirmFailed(why) in r) <==>
                c.pendingPhase && (if pct.Some? then c.pct != pct else EffectiveV(cfg, c, floor) >= 3))
            && (forall tag :: RecordPct(tag) in r <==> !c.pendingPhase && c.pct == pct == Some(tag))
            && (forall pending, v ::
                  RaiseFloor(pending, v) in r ==> pct.Some? && v == Max(EffectiveV(cfg, c, floor), 3))
            && (pct.Some? ==> RaiseFloor(c.pendingPhase, Max(EffectiveV(cfg, c, floor), 3)) in r)
            && (forall e :: e in r ==> !e.SendKx? && !e.AskUnpair? && !e.Attach?)
  {
    var r := PromotionResolved(cfg, c, pct, floor);
    if pct.Some? && c.pct == pct {
      assert r[|r| - 1] == Confirmed(true);
      assert !c.pendingPhase ==> r[1] == RecordPct(pct.value);
    } else if pct.Some? {
      var why := if c.pct.None? then "no-local-pct" else "pct-mismatch";
      assert c.pendingPhase ==> r[1] == ConfirmFailed(why);
    } else if EffectiveV(cfg, c, floor) >= 3 && c.pendingPhase {
      assert ConfirmFailed("pct-missing") in r;
    }
    assert pct.Some? ==> r[0] == RaiseFloor(c.pendingPhase, Max(EffectiveV(cfg, c, floor), 3));
  }

  lemma AttachIsQuiet(r: seq<Effect>, more: seq<Effect>, e: Effect)
    requires forall x :: x in more ==> x.Attach?
    requires !e.Attach?
    ensures e in r + more <==> e in r
  {
  }

  /**
   * The whole table, over every step: a confirmation is a hello whose tag is the current epoch's; a legacy commit is a
   * tag-less hello below version 3 in all that is known; a pending pairing fails on the other two hellos, and on them
   * only.
   */
  lemma PromotionTable(cfg: Config, c: Client, s: Step)
    ensures var effects := Next(cfg, c, s).1;
            && (Confirmed(true) in effects <==> exists tag :: HearsHello(cfg, c, s, Some(tag)) && c.pct == Some(tag))
            && (Confirmed(false) in effects <==> HearsHello(cfg, c, s, None) && EffectiveV(cfg, c, s.floor) < 3)
            && ((exists why :: ConfirmFailed(why) in effects) <==>
                c.pendingPhase && ((exists tag :: HearsHello(cfg, c, s, Some(tag)) && c.pct != Some(tag))
                                   || (HearsHello(cfg, c, s, None) && EffectiveV(cfg, c, s.floor) >= 3)))
  {
    hide PromotionResolved, EffectiveV;
    if pct :| HearsHello(cfg, c, s, pct) {
      HelloEffects(cfg, c, s, pct);
      ResolutionTable(cfg, c, pct, s.floor);
      hide Next;
      assert forall other :: HearsHello(cfg, c, s, other) <==> other == pct;
      hide HearsHello;
      TableFromResolution(c, Next(cfg, c, s).1, PromotionResolved(cfg, c, pct, s.floor));
      assert pct.Some? ==> pct == Some(pct.value);
    } else {
      OtherEffects(cfg, c, s);
    }
  }

  lemma TableFromResolution(c: Client, effects: seq<Effect>, r: seq<Effect>)
    requires forall e: Effect :: !e.Attach? ==> (e in effects <==> e in r)
    ensures Confirmed(true) in effects <==> Confirmed(true) in r
    ensures Confirmed(false) in effects <==> Confirmed(false) in r
    ensures (exists why :: ConfirmFailed(why) in effects) <==> exists why :: ConfirmFailed(why) in r
  {
  }

  lemma HelloEffects(cfg: Config, c: Client, s: Step, pct: Option<string>)
    requires HearsHello(cfg, c, s, pct)
    ensures forall e: Effect ::
              !e.Attach? ==> (e in Next(cfg, c, s).1 <==> e in PromotionResolved(cfg, c, pct, s.floor))
  {
    hide PromotionResolved;
    var r := PromotionResolved(cfg, c, pct, s.floor);
    var effects := DataReceived(cfg, c, false, s.frame.ct, s.floor).1;
    var more := effects[|r|..];
    assert effects == r + more;
    forall e: Effect | !e.Attach? ensures e in effects <==> e in r {
      AttachIsQuiet(r, more, e);
    }
  }

  lemma OtherEffects(cfg: Config, c: Client, s: Step)
    requires forall pct :: !HearsHello(cfg, c, s, pct)
    ensures forall e :: e in Next(cfg, c, s).1 ==> e.SendKx? || e.RaiseFloor? || e.AskUnpair?
  {
    if s.Receive? && s.frame.DataFrame? && s.frame.fromDaemon && !s.frame.control && c.keys.Some? {
      var p := cfg.crypto.open(s.frame.ct, c.keys.value.rx);
      assert p.Some? && p.value.Hello? ==> HearsHello(cfg, c, s, p.value.pct);
    }
    hide PromotionResolved, ReconnectDelay, Retrying, Down, CancelReconnect, CancelPing, Dialed, Pinging, Keyed;
  }

  /** A confirmation compares the daemon's tag with the one given by the very keys that decrypted the hello. */
  lemma ConfirmationIsEarned(cfg: Config, steps: seq<Step>, states: seq<Client>, k: nat)
    requires Run(cfg, steps, states) && k < |steps| && Confirmed(true) in Next(cfg, states[k], steps[k]).1
    ensures exists tag, kp, daemonPk :: ProvenBy(cfg, states[k], steps[k], tag, kp, daemonPk)
  {
    TagBelongsToKeys(cfg, steps, states, k);
    PromotionTable(cfg, states[k], steps[k]);
    hide Run, Next;
    var c := states[k];
    var tag :| HearsHello(cfg, c, steps[k], Some(tag)) && c.pct == Some(tag);
    var kp, daemonPk :| EpochOf(cfg, c, kp, daemonPk);
    assert ProvenBy(cfg, c, steps[k], tag, kp, daemonPk);
  }

  ghost predicate ProvenBy(cfg: Config, c: Client, s: Step, tag: string, kp: KeyPair, daemonPk: string) {
    && HearsHello(cfg, c, s, Some(tag)) && cfg.crypto.sessionKeys(kp, daemonPk) == c.keys
    && cfg.crypto.tag(daemonPk, kp, c.keys.value) == Some(tag)
  }
}
