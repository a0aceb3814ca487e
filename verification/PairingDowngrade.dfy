/** No downgrade: what it takes to commit a pending pairing, and why a version 4 one is never committed as legacy. */
module PairingDowngrade {
  import opened Common
  import opened PairingRecords
  import opened PairingState
  import opened PairingReconcile
  import opened PairingFrames
  import opened PairingMirror
  import opened PairingMirrorSafety
  import opened PairingRuns
  import opened PairingSystem
  import Registry = PairingRegistry
  import Relay = RelayState
  import Keys = RelayKeys

  // Pending floors only rise, short of scanning the link again.

  /** Every pending pairing of `t` was one of `s`, at no higher a floor. */
  ghost predicate PendingRises(s: Store, t: Store, pid: Pid) {
    pid in t.pending ==> pid in s.pending && PendingFloor(s, pid) <= PendingFloor(t, pid)
                         && t.pending[pid].pairing.did == s.pending[pid].pairing.did
  }

  lemma PromotedRises(legacy: Did -> Pid, s: Store, p: Pid, now: int, secretOk: bool, saveOk: bool,
                      view: Option<seq<Blob>>, pid: Pid)
    ensures PendingRises(s, Promoted(legacy, s, p, now, secretOk, saveOk, view).0, pid)
    ensures p in s.pending && secretOk && saveOk ==> p !in Promoted(legacy, s, p, now, secretOk, saveOk, view).0.pending
  {
    if p in s.pending && secretOk && saveOk {
      PersistedFields(legacy, s, s.pending[p].pairing, now, view);
      hide Persisted, PidsFor, Without, FloorOf;
    }
  }

  lemma HiddenRises(s: Store, did: Did, view: Option<seq<Blob>>, pid: Pid)
    ensures PendingRises(s, Hidden(s, did, view), pid)
  {
    HiddenFrame(s, did, view);
    hide Hidden;
  }

  lemma {:induction false} AllHiddenRises(s: Store, dids: seq<Did>, rest: Did -> Option<seq<Blob>>, pid: Pid)
    ensures PendingRises(s, AllHidden(s, dids, rest), pid)
  {
    if dids != [] {
      hide Hidden;
      AllHiddenRises(s, dids[..|dids| - 1], rest, pid);
      HiddenRises(AllHidden(s, dids[..|dids| - 1], rest), dids[|dids| - 1], rest(dids[|dids| - 1]), pid);
    }
  }

  lemma AppliedRises(legacy: Did -> Pid, owner: Pid -> Did, s: Store, snap: Snapshot, w: Weather, pid: Pid)
    requires Sound(legacy, owner, s) && TakenUp(snap, w) && OwnedApplication(owner, snap, w)
    ensures PendingRises(s, SnapshotApplied(legacy, s, snap, w), pid)
  {
    AfterAdoptionFrame(legacy, owner, s, snap, w);
    hide AfterAdoption, Collapse, Reconciled, AllHidden, Absent, Walks;
    var a := AfterAdoption(legacy, s, snap, w);
    ReconcileFrame(a, w.recon);
    var (t, p) := Reconciled(a, w.recon);
    AllHiddenRises(t, Absent(p.order, Collapse(snap.pairings).Keys), w.rest, pid);
  }

  lemma OutsideRises(legacy: Did -> Pid, owner: Pid -> Did, s: Store, e: Event, t: Store, pid: Pid)
    requires Sound(legacy, owner, s) && Step(legacy, owner, s, e, t)
    requires !e.Ingesting? && !e.Promoting? && !e.Hiding? && !e.Unpairing?
    ensures PendingRises(s, t, pid)
  {
    match e
    case Reading(view) => { ReconcileFrame(s, view); hide Reconciled; }
    case Applying(snap, w) => {
      hide SnapshotApplied, OwnedApplication;
      if TakenUp(snap, w) {
        AppliedRises(legacy, owner, s, snap, w, pid);
      }
    }
    case _ => { hide SnapshotApplied, Reconciled, Hidden, Promoted, Unpaired, OwnedApplication, WellFormed; }
  }

  lemma {:induction false} EffectsRise(s: Store, p: Pid, did: Did, effects: seq<Relay.Effect>, pid: Pid)
    ensures PendingRises(s, StoreAfterAll(s, p, did, effects), pid)
  {
    if effects != [] {
      EffectsRise(s, p, did, effects[..|effects| - 1], pid);
    }
  }

  // The store stays sound.

  lemma EffectKeepsSound(legacy: Did -> Pid, owner: Pid -> Did, s: Store, pid: Pid, did: Did, e: Relay.Effect)
    requires Sound(legacy, owner, s)
    ensures Sound(legacy, owner, StoreAfter(s, pid, did, e))
  {
    match e
    case RaiseFloor(pending, v) => {
      if pending {
        StepKeepsSound(legacy, owner, s, RaisingPending(pid, v), PendingFloorRaised(s, pid, v));
      } else {
        StepKeepsSound(legacy, owner, s, Raising(did, v), FloorRaised(s, did, v));
      }
    }
    case RecordPct(tag) => { StepKeepsSound(legacy, owner, s, Confirming(did, tag), PctRecorded(s, did, tag)); }
    case _ => {
    }
  }

  lemma {:induction false} EffectsKeepSound(legacy: Did -> Pid, owner: Pid -> Did, s: Store, pid: Pid, did: Did,
                                            effects: seq<Relay.Effect>)
    requires Sound(legacy, owner, s)
    ensures Sound(legacy, owner, StoreAfterAll(s, pid, did, effects))
  {
    if effects != [] {
      hide Sound, StoreAfter;
      EffectsKeepSound(legacy, owner, s, pid, did, effects[..|effects| - 1]);
      EffectKeepsSound(legacy, owner, StoreAfterAll(s, pid, did, effects[..|effects| - 1]), pid, did,
                       effects[|effects| - 1]);
    }
  }

  lemma DeliveryKeepsSound(legacy: Did -> Pid, owner: Pid -> Did, w: World, m: Mail, now: int, secret: Reads,
                           saveOk: bool, view: Option<seq<Blob>>)
    requires Sound(legacy, owner, w.store)
    ensures Sound(legacy, owner, Delivered(legacy, w, m, now, secret, saveOk, view).store)
  {
    hide Sound, Registry.DroppedPending, Registry.Dropped, Registry.Rekeyed, Promoted, Unpaired;
    match m
    case Promote(pid, _) => PromotingKeepsSound(legacy, owner, w.store, pid, now, secret.store, saveOk, view);
    case UnpairedBy(did) => UnpairingKeepsSound(legacy, owner, w.store, did, view);
  }

  lemma HappeningKeepsSound(legacy: Did -> Pid, owner: Pid -> Did, w: World, h: Happening, v: World)
    requires Sound(legacy, owner, w.store) && Happens(legacy, owner, w, h, v)
    ensures Sound(legacy, owner, v.store)
  {
    var s := w.store;
    hide Sound, Registry.DroppedPending, Registry.DroppedPendings, Registry.Dropped, Registry.Rekeyed, Relay.Next,
         StoreAfterAll, Posted, Promoted, Hidden, Unpaired, Ingested, Registry.Opened, Registry.Begun, Registry.Called,
         PendingRemoved, OwnedEnumeration, Delivered, Step, Relay.Possible;
    match h
    case Scan(p, now, secretOk) => { IngestingKeepsSound(legacy, owner, s, p, now, secretOk); }
    case Cancel(pid) => { DroppingKeepsSound(legacy, owner, s, pid); }
    case Remove(did, view) => { UnpairingKeepsSound(legacy, owner, s, did, view); }
    case Hide(did, view) => { HidingKeepsSound(legacy, owner, s, did, view); }
    case Deliver(m, now, secret, saveOk, view) => {
      DeliveryKeepsSound(legacy, owner, w.(mail := w.mail - multiset{m}), m, now, secret, saveOk, view);
    }
    case Internal(c, step) => {
      var cell := w.cells[c];
      EffectsKeepSound(legacy, owner, s, cell.pid, cell.did, Relay.Next(cell.cfg, cell.state, step).1);
    }
    case Outside(e) => { StepKeepsSound(legacy, owner, s, e, v.store); }
    case Relaunch => { RelaunchKeepsSound(legacy, owner, s); }
    case _ => {
    }
  }

  lemma RelaunchKeepsSound(legacy: Did -> Pid, owner: Pid -> Did, s: Store)
    requires Sound(legacy, owner, s)
    ensures Sound(legacy, owner, s.(lastGood := None))
  {
  }

  // Wired clients stay in the pending phase; every client's tag belongs to its keys.

  predicate OnlyPending(q: seq<Registry.Call>) {
    forall i :: 0 <= i < |q| && q[i].SetPhase? ==> q[i].pending
  }

  /** A pending-phase queue stays one. */
  ghost predicate Carries(r: Registry.Registry<Cid>, s: Registry.Registry<Cid>, c: Cid) {
    OnlyPending(Registry.Queue(r, c)) ==> OnlyPending(Registry.Queue(s, c))
  }

  lemma CalledCarries(r: Registry.Registry<Cid>, x: Cid, more: seq<Registry.Call>, c: Cid)
    requires c != x || OnlyPending(more)
    ensures Carries(r, Registry.Called(r, x, more), c)
  {
  }

  lemma DroppedCarries(r: Registry.Registry<Cid>, did: Did, last: seq<Registry.Call>, c: Cid)
    requires OnlyPending(last)
    ensures Carries(r, Registry.Dropped(r, did, last), c)
  {
    if did in r.clients {
      CalledCarries(r, r.clients[did], last, c);
    }
  }

  lemma {:induction false} DroppedPendingsCarry(r: Registry.Registry<Cid>, pids: seq<Pid>, c: Cid)
    ensures Carries(r, Registry.DroppedPendings(r, pids), c)
  {
    if pids != [] {
      hide Registry.DroppedPending, OnlyPending;
      DroppedPendingsCarry(r, pids[..|pids| - 1], c);
      DroppedPendingCarries(Registry.DroppedPendings(r, pids[..|pids| - 1]), pids[|pids| - 1], c);
    }
  }

  lemma DroppedPendingCarries(r: Registry.Registry<Cid>, pid: Pid, c: Cid)
    ensures Carries(r, Registry.DroppedPending(r, pid), c)
  {
    if pid in r.pendings {
      CalledCarries(r, r.pendings[pid], [Registry.Disconnect], c);
    }
  }

  lemma OpenedCarries(r: Registry.Registry<Cid>, did: Did, x: Cid, c: Cid)
    requires c != x
    ensures Carries(r, Registry.Opened(r, did, x), c)
  {
    DroppedCarries(r, did, [Registry.Disconnect], c);
  }

  lemma RekeyedCarries(r: Registry.Registry<Cid>, pid: Pid, did: Did, c: Cid)
    requires pid in r.pendings && c != r.pendings[pid]
    ensures Carries(r, Registry.Rekeyed(r, pid, did), c)
  {
  }

  ghost predicate WellWired(w: World) {
    forall c :: c in w.wired ==> c in w.cells && w.cells[c].state.pendingPhase && OnlyPending(Registry.Queue(w.reg, c))
  }

  lemma InternalKeepsPhase(cfg: Relay.Config, c: Relay.Client, s: Relay.Step)
    requires IsInternal(s)
    ensures Relay.Next(cfg, c, s).0.pendingPhase == c.pendingPhase
  {
    if s.Receive? {
      ReceivingKeepsPhase(cfg, c, s.frame, s.floor);
      hide Relay.Received;
    } else {
      hide Relay.Received, Relay.Retrying, Relay.ReconnectDelay, Relay.Down, Relay.Dialed, Relay.CancelPing,
           Relay.CancelReconnect;
    }
  }

  lemma ReceivingKeepsPhase(cfg: Relay.Config, c: Relay.Client, f: Relay.Frame, floor: int)
    ensures Relay.Received(cfg, c, f, floor).0.pendingPhase == c.pendingPhase
  {
    hide Relay.PromotionResolved, Relay.Retrying, Relay.ReconnectDelay, Relay.Pinging;
  }

  lemma TakeKeepsPhase(cell: Cell, call: Registry.Call, tokenFresh: bool)
    requires cell.state.pendingPhase && (call.SetPhase? ==> call.pending)
    ensures var step := StepOf(call, tokenFresh);
            step.Some? ==> Relay.Next(cell.cfg, cell.state, step.value).0.pendingPhase
  {
    hide Relay.Down, Relay.Dialed, Relay.CancelReconnect;
  }

  lemma WiringCarries(w: World, v: World)
    requires WellWired(w) && v.wired <= w.wired && v.cells == w.cells
    requires forall c :: c in v.wired ==> Carries(w.reg, v.reg, c)
    ensures WellWired(v)
  {
  }

  lemma DeliveryKeepsWiring(legacy: Did -> Pid, w: World, m: Mail, now: int, secret: Reads, saveOk: bool,
                            view: Option<seq<Blob>>)
    requires WellWired(w)
    ensures WellWired(Delivered(legacy, w, m, now, secret, saveOk, view))
  {
    var v := Delivered(legacy, w, m, now, secret, saveOk, view);
    hide Registry.Dropped, Registry.DroppedPending, Registry.Rekeyed, Promoted, Unpaired, OnlyPending;
    forall c | c in v.wired ensures Carries(w.reg, v.reg, c) {
      match m {
        case UnpairedBy(did) =>
          DisconnectIsPending();
          DroppedCarries(w.reg, did, [Registry.Disconnect], c);
        case Promote(pid, _) =>
          if pid in w.reg.pendings {
            DroppedPendingCarries(w.reg, pid, c);
            if pid in w.store.pending && secret.owner && secret.store && saveOk {
              RekeyedCarries(w.reg, pid, w.store.pending[pid].pairing.did, c);
            }
          }
      }
    }
    WiringCarries(w, v);
  }

  lemma DisconnectIsPending()
    ensures OnlyPending([Registry.Disconnect]) && OnlyPending([Registry.SendUnpair, Registry.Disconnect])
    ensures OnlyPending([Registry.Connect]) && OnlyPending([Registry.SetPhase(true), Registry.Connect])
  {
  }

  lemma HappeningKeepsWiring(legacy: Did -> Pid, owner: Pid -> Did, w: World, h: Happening, v: World)
    requires WellWired(w) && Happens(legacy, owner, w, h, v)
    ensures WellWired(v)
  {
    hide Registry.Dropped, Registry.DroppedPending, Registry.DroppedPendings, Registry.Opened, Registry.Called, Hidden,
         Unpaired, Ingested, Delivered, Step, StoreAfterAll, Posted, Relay.Next, OnlyPending;
    DisconnectIsPending();
    match h
    case Begin(pid, c, cfg, token) => { BeginKeepsWiring(w, v, pid, c); }
    case Open(did, c, cfg, token) => {
      forall x | x in v.wired ensures Carries(w.reg, v.reg, x) {
        OpenedCarries(w.reg, did, c, x);
      }
    }
    case Nudge(c) => {
      forall x | x in v.wired ensures Carries(w.reg, v.reg, x) {
        CalledCarries(w.reg, c, [Registry.Connect], x);
      }
    }
    case Cancel(pid) => {
      forall x | x in v.wired ensures Carries(w.reg, v.reg, x) {
        DroppedPendingCarries(w.reg, pid, x);
      }
    }
    case Remove(did, view) => {
      forall x | x in v.wired ensures Carries(w.reg, v.reg, x) {
        DroppedCarries(w.reg, did, [Registry.SendUnpair, Registry.Disconnect], x);
      }
    }
    case Hide(did, view) => {
      forall x | x in v.wired ensures Carries(w.reg, v.reg, x) {
        DroppedCarries(w.reg, did, [Registry.Disconnect], x);
        DroppedPendingsCarry(Registry.Dropped(w.reg, did, [Registry.Disconnect]),
                             PendingOf(w.store, did, w.store.pendingOrder), x);
      }
    }
    case Deliver(m, now, secret, saveOk, view) => {
      DeliveryKeepsWiring(legacy, w.(mail := w.mail - multiset{m}), m, now, secret, saveOk, view);
    }
    case Take(c, tokenFresh) => {
      if c in w.wired {
        var call := Registry.Queue(w.reg, c)[w.cells[c].taken];
        PendingAt(Registry.Queue(w.reg, c), w.cells[c].taken);
        TakeKeepsPhase(w.cells[c], call, tokenFresh);
      }
    }
    case Internal(c, step) => { InternalKeepsPhase(w.cells[c].cfg, w.cells[c].state, step); }
    case _ => {
    }
  }

  lemma PendingAt(q: seq<Registry.Call>, i: nat)
    requires OnlyPending(q) && i < |q|
    ensures q[i].SetPhase? ==> q[i].pending
  {
  }

  lemma BeginKeepsWiring(w: World, v: World, pid: Pid, c: Cid)
    requires WellWired(w) && Registry.Brand(w.reg, c) && pid !in w.reg.pendings
    requires v.reg == Registry.Begun(w.reg, pid, c) && v.wired == w.wired + {c}
    requires c in v.cells && v.cells == w.cells[c := v.cells[c]] && v.cells[c].state.pendingPhase
    ensures WellWired(v)
  {
    DisconnectIsPending();
    forall x | x in v.wired ensures OnlyPending(Registry.Queue(v.reg, x)) {
      var m := w.reg.(pendings := w.reg.pendings[pid := c]);
      CalledCarries(m, c, [Registry.SetPhase(true), Registry.Connect], x);
      assert x == c ==> Registry.Queue(m, c) == [];
      assert Registry.Queue(m, x) == Registry.Queue(w.reg, x);
    }
  }

  // Where promotions come from.

  /** A wired client hears, in this step, a hello that warrants the message. */
  ghost predicate Earned(w: World, h: Happening, m: Mail) {
    && h.Internal? && m.Promote? && h.c in w.wired && h.c in w.cells && w.cells[h.c].pid == m.pid
    && var cell := w.cells[h.c];
       if m.confirmed then exists tag, kp, daemonPk :: Keys.ProvenBy(cell.cfg, cell.state, h.step, tag, kp, daemonPk)
       else Keys.HearsHello(cell.cfg, cell.state, h.step, None)
            && Relay.EffectiveV(cell.cfg, cell.state, LookedUp(w.store, cell)) < 3
  }

  ghost predicate BoundCells(w: World) {
    forall c :: c in w.cells ==> Keys.Bound(w.cells[c].cfg, w.cells[c].state)
  }

  lemma HappeningKeepsBound(legacy: Did -> Pid, owner: Pid -> Did, w: World, h: Happening, v: World)
    requires BoundCells(w) && Happens(legacy, owner, w, h, v)
    ensures BoundCells(v)
  {
    hide Registry.Dropped, Registry.DroppedPending, Registry.DroppedPendings, Registry.Opened, Registry.Called,
         Registry.Begun, Registry.Rekeyed, Hidden, Unpaired, Ingested, Promoted, Step, StoreAfterAll, Posted,
         Relay.Next, Keys.Bound;
    match h
    case Begin(_, _, cfg, token) => { NewIsBound(cfg, token); }
    case Open(_, _, cfg, token) => { NewIsBound(cfg, token); }
    case Take(c, tokenFresh) => {
      var step := StepOf(Registry.Queue(w.reg, c)[w.cells[c].taken], tokenFresh);
      if step.Some? {
        Keys.StepKeepsBound(w.cells[c].cfg, w.cells[c].state, step.value);
      }
    }
    case Internal(c, step) => { Keys.StepKeepsBound(w.cells[c].cfg, w.cells[c].state, step); }
    case _ => {
    }
  }

  lemma NewIsBound(cfg: Relay.Config, token: Option<string>)
    ensures Keys.Bound(cfg, Relay.Built(token))
  {
  }

  lemma {:induction false} PostedAreEffects(wired: bool, pid: Pid, effects: seq<Relay.Effect>, m: Mail)
    requires m in Posted(wired, pid, effects) && m.Promote?
    ensures wired && m.pid == pid && Relay.Confirmed(m.confirmed) in effects
  {
    if effects != [] {
      assert effects == effects[..|effects| - 1] + [effects[|effects| - 1]];
      if m in Posted(wired, pid, effects[..|effects| - 1]) {
        PostedAreEffects(wired, pid, effects[..|effects| - 1], m);
      }
    }
  }

  /** A message new in this step was earned in it. */
  lemma NewMailIsEarned(legacy: Did -> Pid, owner: Pid -> Did, w: World, h: Happening, v: World, m: Mail)
    requires BoundCells(w) && Happens(legacy, owner, w, h, v) && m.Promote? && m in v.mail && m !in w.mail
    ensures Earned(w, h, m)
  {
    hide Registry.Dropped, Registry.DroppedPending, Registry.DroppedPendings, Registry.Opened, Registry.Called,
         Registry.Begun, Registry.Rekeyed, Hidden, Unpaired, Ingested, Promoted, Step, StoreAfterAll, Posted,
         Relay.Next, Keys.Bound, Keys.HearsHello, Relay.EffectiveV, Relay.Possible;
    assert h.Internal?;
    var cell := w.cells[h.c];
    var effects := Relay.Next(cell.cfg, cell.state, h.step).1;
    assert m in Posted(h.c in w.wired, cell.pid, effects);
    PostedAreEffects(h.c in w.wired, cell.pid, effects, m);
    Keys.PromotionTable(cell.cfg, cell.state, h.step);
    if m.confirmed {
      ConfirmedIsProven(cell, h.step);
    } else {
      HelloIsReceived(cell, h.step);
    }
  }

  lemma HelloIsReceived(cell: Cell, step: Relay.Step)
    requires Keys.HearsHello(cell.cfg, cell.state, step, None)
    ensures step.Receive?
  {
  }

  lemma ConfirmedIsProven(cell: Cell, step: Relay.Step)
    requires Keys.Bound(cell.cfg, cell.state)
    requires exists tag :: Keys.HearsHello(cell.cfg, cell.state, step, Some(tag)) && cell.state.pct == Some(tag)
    ensures exists tag, kp, daemonPk :: Keys.ProvenBy(cell.cfg, cell.state, step, tag, kp, daemonPk)
  {
    var tag :| Keys.HearsHello(cell.cfg, cell.state, step, Some(tag)) && cell.state.pct == Some(tag);
    var kp, daemonPk :| Keys.EpochOf(cell.cfg, cell.state, kp, daemonPk);
    assert Keys.ProvenBy(cell.cfg, cell.state, step, tag, kp, daemonPk);
  }

  /** What every reachable world is. */
  ghost predicate Healthy(legacy: Did -> Pid, owner: Pid -> Did, w: World) {
    Sound(legacy, owner, w.store) && WellWired(w) && BoundCells(w)
  }

  lemma {:induction false} HealthLasts(legacy: Did -> Pid, owner: Pid -> Did, happenings: seq<Happening>,
                                       worlds: seq<World>, k: nat)
    requires Unfolds(legacy, owner, happenings, worlds) && k < |worlds| && Healthy(legacy, owner, worlds[0])
    ensures Healthy(legacy, owner, worlds[k])
  {
    if k > 0 {
      hide Happens, Sound, WellWired, BoundCells;
      HealthLasts(legacy, owner, happenings, worlds, k - 1);
      HappeningKeepsSound(legacy, owner, worlds[k - 1], happenings[k - 1], worlds[k]);
      HappeningKeepsWiring(legacy, owner, worlds[k - 1], happenings[k - 1], worlds[k]);
      HappeningKeepsBound(legacy, owner, worlds[k - 1], happenings[k - 1], worlds[k]);
    }
  }

  lemma HistoriesAreHealthy(legacy: Did -> Pid, owner: Pid -> Did, happenings: seq<Happening>, worlds: seq<World>,
                            k: nat)
    requires OwnedLegacy(legacy, owner) && History(legacy, owner, happenings, worlds) && k < |worlds|
    ensures Healthy(legacy, owner, worlds[k])
  {
    BlankIsHealthy(legacy, owner);
    hide Healthy, Happens;
    HealthLasts(legacy, owner, happenings, worlds, k);
  }

  lemma BlankIsHealthy(legacy: Did -> Pid, owner: Pid -> Did)
    requires OwnedLegacy(legacy, owner)
    ensures Healthy(legacy, owner, BLANK)
  {
  }

  /**
   * Every promotion, in every history, follows a hello that earned it: one whose tag is the one given by the very keys
   * that decrypted it, or one without a tag while everything known of the daemon is below version 3.
   */
  lemma {:induction false} PromotionsAreEarned(legacy: Did -> Pid, owner: Pid -> Did, happenings: seq<Happening>,
                                               worlds: seq<World>, k: nat, m: Mail)
    requires OwnedLegacy(legacy, owner) && History(legacy, owner, happenings, worlds) && k < |worlds| && m.Promote?
             && m in worlds[k].mail
    ensures exists i :: 0 <= i < k && Earned(worlds[i], happenings[i], m)
  {
    if k > 0 {
      hide Happens, WellWired, BoundCells, Earned, Sound;
      if m in worlds[k - 1].mail {
        PromotionsAreEarned(legacy, owner, happenings, worlds, k - 1, m);
      } else {
        HistoriesAreHealthy(legacy, owner, happenings, worlds, k - 1);
        NewMailIsEarned(legacy, owner, worlds[k - 1], happenings[k - 1], worlds[k], m);
      }
    }
  }

  // Whose hello it was.

  /** Nothing of an earlier client of this pairing is left: no promotion under way, and no such client still wired. */
  ghost predicate Untainted(w: World, pid: Pid) {
    && (forall m :: m in w.mail && m.Promote? ==> m.pid != pid)
    && (forall c :: c in w.wired && c in w.cells ==> w.cells[c].pid != pid)
  }

  /** This client is the only one of the pairing that is wired, and the one held as pending, if any is. */
  ghost predicate OnlyClient(w: World, pid: Pid, c: Cid) {
    && (forall x :: x in w.wired && x in w.cells && w.cells[x].pid == pid ==> x == c)
    && (pid in w.reg.pendings ==> w.reg.pendings[pid] == c)
  }

  /** Clients held as pending are those held before. */
  predicate PendingsKept(r: Registry.Registry<Cid>, s: Registry.Registry<Cid>) {
    forall pid :: pid in s.pendings ==> pid in r.pendings && s.pendings[pid] == r.pendings[pid]
  }

  lemma {:induction false} DroppedPendingsOnly(r: Registry.Registry<Cid>, pids: seq<Pid>)
    ensures PendingsKept(r, Registry.DroppedPendings(r, pids))
  {
    if pids != [] {
      DroppedPendingsOnly(r, pids[..|pids| - 1]);
    }
  }

  lemma DroppingPendings(r: Registry.Registry<Cid>, did: Did, pid: Pid, last: seq<Registry.Call>)
    ensures PendingsKept(r, Registry.Dropped(r, did, last)) && PendingsKept(r, Registry.DroppedPending(r, pid))
    ensures PendingsKept(r, Registry.Rekeyed(r, pid, did))
  {
    hide Registry.Queue;
  }

  lemma AddingPendings(r: Registry.Registry<Cid>, did: Did, pid: Pid, c: Cid, more: seq<Registry.Call>)
    ensures PendingsKept(r, Registry.Opened(r, did, c)) && PendingsKept(r, Registry.Called(r, c, more))
    ensures forall x ::
              x in Registry.Begun(r, pid, c).pendings && x != pid
              ==> x in r.pendings && Registry.Begun(r, pid, c).pendings[x] == r.pendings[x]
  {
    hide Registry.Queue;
  }

  /** No other client gets wired for this pairing. */
  lemma WiringOnly(legacy: Did -> Pid, owner: Pid -> Did, w: World, h: Happening, v: World, pid: Pid, x: Cid)
    requires WellWired(w) && Happens(legacy, owner, w, h, v) && !(h.Begin? && h.pid == pid)
    requires x in v.wired && x in v.cells && v.cells[x].pid == pid
    ensures x in w.wired && x in w.cells && w.cells[x].pid == pid
  {
    hide Hidden, Unpaired, Ingested, Promoted, Step, StoreAfterAll, Posted, Relay.Next, OnlyPending,
         Registry.DroppedPendings, Registry.Dropped, Registry.DroppedPending, Registry.Opened, Registry.Called,
         Registry.Begun, Registry.Rekeyed;
  }

  /** No other client becomes the one held as pending for it. */
  lemma PendingOnly(legacy: Did -> Pid, owner: Pid -> Did, w: World, h: Happening, v: World, pid: Pid)
    requires Happens(legacy, owner, w, h, v) && !(h.Begin? && h.pid == pid) && pid in v.reg.pendings
    ensures pid in w.reg.pendings && w.reg.pendings[pid] == v.reg.pendings[pid]
  {
    hide Hidden, Unpaired, Ingested, Promoted, Step, StoreAfterAll, Posted, Relay.Next, Registry.DroppedPendings,
         Registry.Dropped, Registry.DroppedPending, Registry.Opened, Registry.Called, Registry.Begun, Registry.Rekeyed;
    match h
    case Begin(p, c, cfg, token) => { AddingPendings(w.reg, "", p, c, []); }
    case Open(did, c, cfg, token) => { AddingPendings(w.reg, did, "", c, []); }
    case Nudge(c) => { AddingPendings(w.reg, "", "", c, [Registry.Connect]); }
    case Cancel(p) => { DroppingPendings(w.reg, "", p, []); }
    case Remove(did, view) => { DroppingPendings(w.reg, did, "", [Registry.SendUnpair, Registry.Disconnect]); }
    case Hide(did, view) => {
      DroppingPendings(w.reg, did, "", [Registry.Disconnect]);
      DroppedPendingsOnly(Registry.Dropped(w.reg, did, [Registry.Disconnect]),
                          PendingOf(w.store, did, w.store.pendingOrder));
    }
    case Deliver(m, now, secret, saveOk, view) => {
      match m {
        case UnpairedBy(did) => DroppingPendings(w.reg, did, "", [Registry.Disconnect]);
        case Promote(p, _) =>
          DroppingPendings(w.reg, if p in w.store.pending then w.store.pending[p].pairing.did else "", p, []);
      }
    }
    case _ => {
    }
  }

  lemma OnlyClientStays(legacy: Did -> Pid, owner: Pid -> Did, w: World, h: Happening, v: World, pid: Pid, c: Cid)
    requires WellWired(w) && OnlyClient(w, pid, c) && Happens(legacy, owner, w, h, v) && !(h.Begin? && h.pid == pid)
    ensures OnlyClient(v, pid, c)
  {
    hide Happens, WellWired;
    forall x | x in v.wired && x in v.cells && v.cells[x].pid == pid ensures x == c {
      WiringOnly(legacy, owner, w, h, v, pid, x);
    }
    if pid in v.reg.pendings {
      PendingOnly(legacy, owner, w, h, v, pid);
    }
  }

  lemma BeginIsOnly(legacy: Did -> Pid, owner: Pid -> Did, w: World, h: Happening, v: World)
    requires WellWired(w) && Happens(legacy, owner, w, h, v) && h.Begin? && Untainted(w, h.pid)
    ensures OnlyClient(v, h.pid, h.c)
  {
    hide OnlyPending;
  }

  ghost predicate WiredFor(w: World, pid: Pid, x: Cid) {
    x in w.wired && x in w.cells && w.cells[x].pid == pid
  }

  lemma BeginWires(legacy: Did -> Pid, owner: Pid -> Did, w: World, h: Happening, v: World, x: Cid)
    requires h.Begin? && Happens(legacy, owner, w, h, v) && WiredFor(v, h.pid, x)
    ensures x == h.c || WiredFor(w, h.pid, x)
  {
    hide Registry.Begun, Relay.Built;
  }

  /** Until another client starts for the pairing, a wired one is the one started or was wired before. */
  lemma {:induction false} WiredBefore(legacy: Did -> Pid, owner: Pid -> Did, happenings: seq<Happening>,
                                       worlds: seq<World>, i: nat, k: nat, x: Cid)
    requires OwnedLegacy(legacy, owner) && History(legacy, owner, happenings, worlds) && i < k < |worlds|
    requires happenings[i].Begin? && WiredFor(worlds[k], happenings[i].pid, x)
    requires forall j :: i < j < k ==> !(happenings[j].Begin? && happenings[j].pid == happenings[i].pid)
    ensures x == happenings[i].c || WiredFor(worlds[i], happenings[i].pid, x)
  {
    hide Happens, WellWired, BoundCells, Sound, WiredFor;
    var pid := happenings[i].pid;
    assert Happens(legacy, owner, worlds[k - 1], happenings[k - 1], worlds[k]);
    if k == i + 1 {
      BeginWires(legacy, owner, worlds[i], happenings[i], worlds[k], x);
    } else {
      HistoriesAreHealthy(legacy, owner, happenings, worlds, k - 1);
      WiredStays(legacy, owner, worlds[k - 1], happenings[k - 1], worlds[k], pid, x);
      WiredBefore(legacy, owner, happenings, worlds, i, k - 1, x);
    }
  }

  lemma WiredStays(legacy: Did -> Pid, owner: Pid -> Did, w: World, h: Happening, v: World, pid: Pid, x: Cid)
    requires WellWired(w) && Happens(legacy, owner, w, h, v) && !(h.Begin? && h.pid == pid) && WiredFor(v, pid, x)
    ensures WiredFor(w, pid, x)
  {
    hide Happens, WellWired;
    WiringOnly(legacy, owner, w, h, v, pid, x);
  }

  lemma EarnedIsWired(w: World, h: Happening, m: Mail)
    requires Earned(w, h, m)
    ensures m.Promote? && h.Internal? && WiredFor(w, m.pid, h.c)
  {
  }

  /**
   * Once a pairing's client has started, until another one does, every promotion of the pairing was under way at the
   * start, or was earned by a hello heard by this client or by one of the pairing's earlier clients still wired then.
   */
  lemma {:induction false} PromotionsHaveAnOrigin(legacy: Did -> Pid, owner: Pid -> Did, happenings: seq<Happening>,
                                                  worlds: seq<World>, i: nat, k: nat, m: Mail)
    requires OwnedLegacy(legacy, owner) && History(legacy, owner, happenings, worlds) && i < k < |worlds|
    requires happenings[i].Begin? && m.Promote? && m.pid == happenings[i].pid && m in worlds[k].mail
    requires forall j :: i < j < k ==> !(happenings[j].Begin? && happenings[j].pid == happenings[i].pid)
    ensures m in worlds[i].mail
            || exists j :: i < j < k && Earned(worlds[j], happenings[j], m)
                           && (happenings[j].c == happenings[i].c || WiredFor(worlds[i], m.pid, happenings[j].c))
  {
    hide Happens, WellWired, BoundCells, Earned, Sound, WiredFor;
    HistoriesAreHealthy(legacy, owner, happenings, worlds, k - 1);
    assert Happens(legacy, owner, worlds[k - 1], happenings[k - 1], worlds[k]);
    if k == i + 1 {
      BeginSteps(legacy, owner, worlds[i], happenings[i], worlds[k]);
    } else if m in worlds[k - 1].mail {
      PromotionsHaveAnOrigin(legacy, owner, happenings, worlds, i, k - 1, m);
    } else {
      NewMailIsEarned(legacy, owner, worlds[k - 1], happenings[k - 1], worlds[k], m);
      EarnedIsWired(worlds[k - 1], happenings[k - 1], m);
      WiredBefore(legacy, owner, happenings, worlds, i, k - 1, happenings[k - 1].c);
    }
  }

  /**
   * If nothing of an earlier client is left when a pairing's client starts, every promotion of the pairing until
   * another client starts for it was earned by a hello this client heard, and this client is the one re-keyed.
   */
  lemma {:induction false} PromotionsAreItsOwn(legacy: Did -> Pid, owner: Pid -> Did, happenings: seq<Happening>,
                                               worlds: seq<World>, i: nat, k: nat, m: Mail)
    requires OwnedLegacy(legacy, owner) && History(legacy, owner, happenings, worlds) && i < k < |worlds|
    requires happenings[i].Begin? && Untainted(worlds[i], happenings[i].pid)
    requires forall j :: i < j < k ==> !(happenings[j].Begin? && happenings[j].pid == happenings[i].pid)
    ensures OnlyClient(worlds[k], happenings[i].pid, happenings[i].c)
    ensures m in worlds[k].mail && m.Promote? && m.pid == happenings[i].pid ==>
            exists j :: i < j < k && Earned(worlds[j], happenings[j], m) && happenings[j].c == happenings[i].c
  {
    hide Happens, WellWired, BoundCells, Earned, Sound, OnlyClient;
    HistoriesAreHealthy(legacy, owner, happenings, worlds, k - 1);
    assert Happens(legacy, owner, worlds[k - 1], happenings[k - 1], worlds[k]);
    if k == i + 1 {
      BeginIsOnly(legacy, owner, worlds[i], happenings[i], worlds[k]);
    } else {
      PromotionsAreItsOwn(legacy, owner, happenings, worlds, i, k - 1, m);
      OnlyClientStays(legacy, owner, worlds[k - 1], happenings[k - 1], worlds[k], happenings[i].pid, happenings[i].c);
    }
    if m in worlds[k].mail && m.Promote? && m.pid == happenings[i].pid {
      PromotionsHaveAnOrigin(legacy, owner, happenings, worlds, i, k, m);
    }
  }

  /**
   * It fails where a promotion is still under way: a client that has just been started, and has done nothing, is
   * re-keyed by its delivery and its record committed.
   */
  lemma LeftoverPromotionCommits(legacy: Did -> Pid, owner: Pid -> Did, w: World, b: Happening, v: World, x: World,
                                 ok: bool, now: int, view: Option<seq<Blob>>)
    requires Sound(legacy, owner, w.store) && b.Begin? && Happens(legacy, owner, w, b, v)
             && Promote(b.pid, ok) in w.mail
    requires Happens(legacy, owner, v, Deliver(Promote(b.pid, ok), now, Reads(true, true), true, view), x)
    ensures Commits(v, x, b.pid)
    ensures var did := w.store.pending[b.pid].pairing.did;
            did in x.reg.clients && x.reg.clients[did] == b.c && b.c in x.cells
                && x.cells[b.c].state == Relay.Built(b.token)
  {
    hide Happens, Sound, Commits, Delivered, Relay.Built;
    BeginSteps(legacy, owner, w, b, v);
    PendingIsOwned(legacy, owner, w.store, b.pid);
    DeliverSteps(legacy, owner, v, Deliver(Promote(b.pid, ok), now, Reads(true, true), true, view), x);
    DeliveryCommits(legacy, v, b.pid, ok, now, view);
  }

  lemma BeginSteps(legacy: Did -> Pid, owner: Pid -> Did, w: World, b: Happening, v: World)
    requires b.Begin? && Happens(legacy, owner, w, b, v)
    ensures b.pid in w.store.pending && v.store == w.store && v.mail == w.mail
    ensures b.pid in v.reg.pendings && v.reg.pendings[b.pid] == b.c && b.c in v.cells
            && v.cells[b.c].state == Relay.Built(b.token)
  {
    hide Relay.Built, Registry.Queue;
  }

  lemma DeliverSteps(legacy: Did -> Pid, owner: Pid -> Did, v: World, h: Happening, x: World)
    requires h.Deliver? && Happens(legacy, owner, v, h, x)
    ensures x == Delivered(legacy, v.(mail := v.mail - multiset{h.mail}), h.mail, h.now, h.secret, h.saveOk, h.view)
  {
    hide Delivered;
  }

  // An earlier client that is still wired.

  /** Only this client's queue runs. */
  ghost predicate RunsOnly(happenings: seq<Happening>, c: Cid) {
    forall i :: 0 <= i < |happenings| ==> (happenings[i].Take? || happenings[i].Internal?) && happenings[i].c == c
  }

  /** The pairing still waits, under its name and daemon. */
  predicate StillPending(s: Store, t: Store, pid: Pid) {
    && pid in s.pending && pid in t.pending
    && t.pending[pid].pairing.pid == s.pending[pid].pairing.pid
       && t.pending[pid].pairing.did == s.pending[pid].pairing.did
  }

  lemma {:induction false} EffectsKeepPending(s: Store, p: Pid, did: Did, effects: seq<Relay.Effect>, pid: Pid)
    requires pid in s.pending
    ensures StillPending(s, StoreAfterAll(s, p, did, effects), pid)
  {
    if effects != [] {
      EffectsKeepPending(s, p, did, effects[..|effects| - 1], pid);
    }
  }

  lemma {:induction false} EffectsArePosted(pid: Pid, effects: seq<Relay.Effect>, ok: bool)
    requires Relay.Confirmed(ok) in effects
    ensures Promote(pid, ok) in Posted(true, pid, effects)
  {
    var front, last := effects[..|effects| - 1], effects[|effects| - 1];
    assert effects == front + [last];
    if Relay.Confirmed(ok) in front {
      EffectsArePosted(pid, front, ok);
    }
  }

  /**
   * Running one client's queue leaves the owner's maps, the wiring, other clients and the pending pairing as they are.
   */
  lemma OwnStepFrame(legacy: Did -> Pid, owner: Pid -> Did, w: World, h: Happening, v: World, pid: Pid, c: Cid)
    requires Happens(legacy, owner, w, h, v) && (h.Take? || h.Internal?) && h.c != c && pid in w.store.pending
    ensures v.reg == w.reg && v.wired == w.wired && v.cells.Keys == w.cells.Keys
            && (c in w.cells ==> v.cells[c] == w.cells[c])
    ensures StillPending(w.store, v.store, pid) && h.c in w.cells && v.cells[h.c].pid == w.cells[h.c].pid
  {
    if h.Internal? {
      var cell := w.cells[h.c];
      EffectsKeepPending(w.store, cell.pid, cell.did, Relay.Next(cell.cfg, cell.state, h.step).1, pid);
    }
    hide Relay.Next, StoreAfterAll, Posted, Relay.Possible;
  }

  lemma {:induction false} OwnStepsFrame(legacy: Did -> Pid, owner: Pid -> Did, happenings: seq<Happening>,
                                         worlds: seq<World>, k: nat, pid: Pid, c: Cid, c0: Cid)
    requires Unfolds(legacy, owner, happenings, worlds) && RunsOnly(happenings, c0) && k < |worlds|
    requires c != c0 && c in worlds[0].cells && c0 in worlds[0].cells && pid in worlds[0].store.pending
    ensures worlds[k].reg == worlds[0].reg && worlds[k].wired == worlds[0].wired
    ensures c in worlds[k].cells && worlds[k].cells[c] == worlds[0].cells[c]
    ensures c0 in worlds[k].cells && worlds[k].cells[c0].pid == worlds[0].cells[c0].pid
    ensures StillPending(worlds[0].store, worlds[k].store, pid)
  {
    if k > 0 {
      hide Happens;
      OwnStepsFrame(legacy, owner, happenings, worlds, k - 1, pid, c, c0);
      OwnStepFrame(legacy, owner, worlds[k - 1], happenings[k - 1], worlds[k], pid, c);
    }
  }

  /** The run ends with this client confirming. */
  ghost predicate EndsConfirming(happenings: seq<Happening>, worlds: seq<World>, c: Cid, ok: bool)
    requires |worlds| == |happenings| + 1
  {
    && happenings != []
    && var w, h := worlds[|happenings| - 1], happenings[|happenings| - 1];
       h.Internal? && c in w.cells && Relay.Confirmed(ok) in Relay.Next(w.cells[c].cfg, w.cells[c].state, h.step).1
  }

  lemma ConfirmingPosts(legacy: Did -> Pid, owner: Pid -> Did, w: World, h: Happening, v: World, ok: bool)
    requires Happens(legacy, owner, w, h, v) && h.Internal? && h.c in w.wired
    requires Relay.Confirmed(ok) in Relay.Next(w.cells[h.c].cfg, w.cells[h.c].state, h.step).1
    ensures Promote(w.cells[h.c].pid, ok) in v.mail
  {
    var cell := w.cells[h.c];
    EffectsArePosted(cell.pid, Relay.Next(cell.cfg, cell.state, h.step).1, ok);
    hide Relay.Next, StoreAfterAll, Posted, Relay.Possible;
  }

  /**
   * Nor is it the client's own where an earlier client of the pairing is still wired and can still reach a confirmation
   * on its own: when it does, the delivery re-keys the new client, which has done nothing, and commits its record.
   */
  lemma EarlierClientCommits(legacy: Did -> Pid, owner: Pid -> Did, w: World, b: Happening, c0: Cid,
                             happenings: seq<Happening>, worlds: seq<World>, ok: bool)
      returns (x: World)
    requires Healthy(legacy, owner, w) && b.Begin? && Unfolds(legacy, owner, happenings, worlds)
    requires Happens(legacy, owner, w, b, worlds[0])
    requires c0 in w.wired && c0 in w.cells && w.cells[c0].pid == b.pid && c0 != b.c
    requires RunsOnly(happenings, c0) && EndsConfirming(happenings, worlds, c0, ok)
    ensures var u := worlds[|happenings|];
            && Happens(legacy, owner, u, Deliver(Promote(b.pid, ok), 0, Reads(true, true), true, None), x)
               && Commits(u, x, b.pid)
            && var did := u.store.pending[b.pid].pairing.did;
               did in x.reg.clients && x.reg.clients[did] == b.c && b.c in x.cells
                   && x.cells[b.c].state == Relay.Built(b.token)
  {
    assert |worlds| == |happenings| + 1;
    hide Happens, Healthy, Commits, Delivered, Relay.Built, RunsOnly, Unfolds, EndsConfirming;
    var u, m := worlds[|happenings|], Promote(b.pid, ok);
    BeginSteps(legacy, owner, w, b, worlds[0]);
    BeginKeepsOthers(legacy, owner, w, b, worlds[0], c0);
    HealthyOwns(legacy, owner, w, b.pid);
    EarlierClientPosts(legacy, owner, happenings, worlds, b.pid, b.c, c0, ok);
    x := Delivered(legacy, u.(mail := u.mail - multiset{m}), m, 0, Reads(true, true), true, None);
    DeliveryCommits(legacy, u, b.pid, ok, 0, None);
    DeliverHappens(legacy, owner, u, b.pid, ok);
  }

  lemma EarlierClientPosts(legacy: Did -> Pid, owner: Pid -> Did, happenings: seq<Happening>, worlds: seq<World>,
                           pid: Pid, c: Cid, c0: Cid, ok: bool)
    requires Unfolds(legacy, owner, happenings, worlds) && RunsOnly(happenings, c0)
             && EndsConfirming(happenings, worlds, c0, ok)
    requires c != c0 && c in worlds[0].cells && c0 in worlds[0].cells && pid in worlds[0].store.pending
    requires c0 in worlds[0].wired && worlds[0].cells[c0].pid == pid
    ensures var w, u := worlds[0], worlds[|happenings|];
            && Promote(pid, ok) in u.mail && u.reg == w.reg && StillPending(w.store, u.store, pid)
            && c in u.cells && u.cells[c] == w.cells[c]
  {
    hide Happens, RunsOnly, StillPending;
    var n := |happenings|;
    assert Happens(legacy, owner, worlds[n - 1], happenings[n - 1], worlds[n]);
    LastIsOwn(happenings, c0);
    OwnStepsFrame(legacy, owner, happenings, worlds, n - 1, pid, c, c0);
    OwnStepsFrame(legacy, owner, happenings, worlds, n, pid, c, c0);
    ConfirmingPosts(legacy, owner, worlds[n - 1], happenings[n - 1], worlds[n], ok);
  }

  lemma LastIsOwn(happenings: seq<Happening>, c: Cid)
    requires RunsOnly(happenings, c) && happenings != [] && happenings[|happenings| - 1].Internal?
    ensures happenings[|happenings| - 1].c == c
  {
  }

  lemma BeginKeepsOthers(legacy: Did -> Pid, owner: Pid -> Did, w: World, b: Happening, v: World, c0: Cid)
    requires b.Begin? && Happens(legacy, owner, w, b, v) && c0 in w.wired && c0 in w.cells && c0 != b.c
    ensures c0 in v.wired && c0 in v.cells && v.cells[c0] == w.cells[c0]
  {
    hide Relay.Built, Registry.Begun;
  }

  lemma HealthyOwns(legacy: Did -> Pid, owner: Pid -> Did, w: World, pid: Pid)
    requires Healthy(legacy, owner, w) && pid in w.store.pending
    ensures w.store.pending[pid].pairing.pid == pid
  {
    PendingIsOwned(legacy, owner, w.store, pid);
  }

  lemma DeliverHappens(legacy: Did -> Pid, owner: Pid -> Did, u: World, pid: Pid, ok: bool)
    requires Promote(pid, ok) in u.mail
    ensures var m := Promote(pid, ok);
            Happens(legacy, owner, u, Deliver(m, 0, Reads(true, true), true, None),
                    Delivered(legacy, u.(mail := u.mail - multiset{m}), m, 0, Reads(true, true), true, None))
  {
    hide Delivered;
  }

  /** The pending pairing becomes its daemon's committed one. */
  ghost predicate Commits(v: World, x: World, pid: Pid) {
    && pid in v.store.pending && pid !in x.store.pending
    && var did := v.store.pending[pid].pairing.did; did in x.store.ptr.index && x.store.ptr.index[did] == pid
  }

  lemma DeliveryCommits(legacy: Did -> Pid, v: World, pid: Pid, ok: bool, now: int, view: Option<seq<Blob>>)
    requires pid in v.store.pending && v.store.pending[pid].pairing.pid == pid && pid in v.reg.pendings
    ensures var m := Promote(pid, ok);
            var x := Delivered(legacy, v.(mail := v.mail - multiset{m}), m, now, Reads(true, true), true, view);
            && Commits(v, x, pid) && x.cells == v.cells
            && var did := v.store.pending[pid].pairing.did;
               did in x.reg.clients && x.reg.clients[did] == v.reg.pendings[pid]
  {
    PersistedFields(legacy, v.store, v.store.pending[pid].pairing, now, view);
    hide Persisted, PidsFor, Without, FloorOf, Registry.Queue;
  }

  // Version 4 pairings.

  /** What decoding a version 4 link yields. */
  ghost predicate FromV4Link(legacy: Did -> Pid, p: Pairing) {
    p.version >= 4 && exists explicit :: p == Decoded(legacy, p.did, explicit, p.version, p.payload)
  }

  /** The step records the pairing anew from an older link, which sets its floor back. */
  ghost predicate Lowers(legacy: Did -> Pid, h: Happening, pid: Pid) {
    h.Scan? && h.secretOk && h.pairing.pid == pid && !FromV4Link(legacy, h.pairing)
  }

  /** Pending at a floor of at least 3, with no legacy promotion of it under way. */
  ghost predicate Guarded(w: World, pid: Pid) {
    pid in w.store.pending && PendingFloor(w.store, pid) >= 3 && Promote(pid, false) !in w.mail
  }

  lemma HappeningRaises(legacy: Did -> Pid, owner: Pid -> Did, w: World, h: Happening, v: World, pid: Pid)
    requires Sound(legacy, owner, w.store) && Happens(legacy, owner, w, h, v) && !(h.Scan? && h.pairing.pid == pid)
    ensures PendingRises(w.store, v.store, pid)
  {
    var s := w.store;
    hide Registry.DroppedPending, Registry.DroppedPendings, Registry.Dropped, Registry.Rekeyed, Relay.Next,
         StoreAfterAll, Posted, Promoted, Hidden, Sound, Step, Registry.Opened, Registry.Begun, Registry.Called,
         PidsFor, Without;
    match h
    case Hide(did, view) => { HiddenRises(s, did, view, pid); }
    case Deliver(m, now, secret, saveOk, view) => {
      match m {
        case Promote(p, _) => PromotedRises(legacy, s, p, now, secret.store, saveOk, view, pid);
        case UnpairedBy(_) =>
      }
    }
    case Internal(c, step) => {
      var cell := w.cells[c];
      EffectsRise(s, cell.pid, cell.did, Relay.Next(cell.cfg, cell.state, step).1, pid);
    }
    case Outside(e) => { OutsideRises(legacy, owner, s, e, v.store, pid); }
    case _ => {
    }
  }

  /** Scanning its link again leaves a guarded pairing guarded, unless the link is an older one. */
  lemma ScanKeepsGuard(legacy: Did -> Pid, owner: Pid -> Did, w: World, h: Happening, v: World, pid: Pid)
    requires Happens(legacy, owner, w, h, v) && h.Scan? && h.pairing.pid == pid && !Lowers(legacy, h, pid)
    requires (h.secretOk || (pid in w.store.pending && PendingFloor(w.store, pid) >= 3))
             && Promote(pid, false) !in w.mail
    ensures Guarded(v, pid)
  {
  }

  lemma GuardHolds(legacy: Did -> Pid, owner: Pid -> Did, w: World, h: Happening, v: World, pid: Pid)
    requires Healthy(legacy, owner, w) && Happens(legacy, owner, w, h, v)
    requires Guarded(w, pid) && !Lowers(legacy, h, pid) && pid in v.store.pending
    ensures Guarded(v, pid)
  {
    if h.Scan? && h.pairing.pid == pid {
      hide Healthy, Lowers;
      ScanKeepsGuard(legacy, owner, w, h, v, pid);
    } else {
      HappeningRaises(legacy, owner, w, h, v, pid);
      hide Happens, Sound, Lowers;
      if Promote(pid, false) in v.mail {
        hide WellWired, BoundCells;
        NewMailIsEarned(legacy, owner, w, h, v, Promote(pid, false));
        LegacyIsLow(w, h, pid);
      }
    }
  }

  lemma LegacyIsLow(w: World, h: Happening, pid: Pid)
    requires WellWired(w) && Earned(w, h, Promote(pid, false))
    ensures PendingFloor(w.store, pid) < 3
  {
    hide Keys.HearsHello, OnlyPending;
  }

  /** Up to world `k` the pairing stays pending, and no older link of it is scanned. */
  ghost predicate Lasts(legacy: Did -> Pid, happenings: seq<Happening>, worlds: seq<World>, k: nat, pid: Pid)
    requires |worlds| == |happenings| + 1 && k < |worlds|
  {
    && (forall j :: 0 <= j <= k ==> pid in worlds[j].store.pending)
    && (forall j :: 0 <= j < k ==> !Lowers(legacy, happenings[j], pid))
  }

  lemma {:induction false} GuardPersists(legacy: Did -> Pid, owner: Pid -> Did, happenings: seq<Happening>,
                                         worlds: seq<World>, k: nat, pid: Pid)
    requires Unfolds(legacy, owner, happenings, worlds) && k < |worlds| && Healthy(legacy, owner, worlds[0])
    requires Lasts(legacy, happenings, worlds, k, pid) && Guarded(worlds[0], pid)
    ensures Guarded(worlds[k], pid)
  {
    if k > 0 {
      hide Happens, Healthy, Guarded, Lowers;
      assert Happens(legacy, owner, worlds[k - 1], happenings[k - 1], worlds[k]);
      assert Lasts(legacy, happenings, worlds, k - 1, pid);
      assert pid in worlds[k].store.pending && !Lowers(legacy, happenings[k - 1], pid);
      hide Unfolds, Lasts;
      GuardPersists(legacy, owner, happenings, worlds, k - 1, pid);
      HealthLasts(legacy, owner, happenings, worlds, k - 1);
      GuardHolds(legacy, owner, worlds[k - 1], happenings[k - 1], worlds[k], pid);
    }
  }

  /**
   * A continuation in which, while the pairing's record lasts, a legacy promotion of it is delivered and commits it.
   */
  ghost predicate LegacyCommit(legacy: Did -> Pid, owner: Pid -> Did, happenings: seq<Happening>, worlds: seq<World>,
                               pid: Pid) {
    && Unfolds(legacy, owner, happenings, worlds) && happenings != []
    && var k := |happenings| - 1;
       && Lasts(legacy, happenings, worlds, k, pid)
       && happenings[k].Deliver? && happenings[k].mail == Promote(pid, false) && Commits(worlds[k], worlds[k + 1], pid)
  }

  /** Such a continuation of a pairing at a floor of at least 3 starts with a legacy promotion under way. */
  lemma LegacyCommitNeedsMail(legacy: Did -> Pid, owner: Pid -> Did, happenings: seq<Happening>, worlds: seq<World>,
                              pid: Pid)
    requires worlds != [] && Healthy(legacy, owner, worlds[0]) && LegacyCommit(legacy, owner, happenings, worlds, pid)
    requires PendingFloor(worlds[0].store, pid) >= 3
    ensures Promote(pid, false) in worlds[0].mail
  {
    var k := |happenings| - 1;
    assert pid in worlds[0].store.pending;
    hide Healthy, Commits, Lasts;
    assert Happens(legacy, owner, worlds[k], happenings[k], worlds[k + 1]);
    hide Happens;
    DeliveredIsMail(legacy, owner, worlds[k], happenings[k], worlds[k + 1]);
    if Promote(pid, false) !in worlds[0].mail {
      GuardPersists(legacy, owner, happenings, worlds, k, pid);
    }
  }

  lemma DeliveredIsMail(legacy: Did -> Pid, owner: Pid -> Did, w: World, h: Happening, v: World)
    requires Happens(legacy, owner, w, h, v) && h.Deliver?
    ensures h.mail in w.mail
  {
  }

  lemma {:induction false} NewNumber(s: set<nat>) returns (n: nat)
    ensures forall x :: x in s ==> x < n
    decreases |s|
  {
    if s == {} {
      n := 0;
    } else {
      var x :| x in s;
      var m := NewNumber(s - {x});
      n := if x < m then m else x + 1;
      assert s == (s - {x}) + {x};
    }
  }

  /** With the pairing's client held, the delivery of the legacy promotion under way commits it at once. */
  lemma HeldCommits(legacy: Did -> Pid, owner: Pid -> Did, v: World, pid: Pid)
      returns (happenings: seq<Happening>, worlds: seq<World>)
    requires pid in v.store.pending && v.store.pending[pid].pairing.pid == pid && pid in v.reg.pendings
             && Promote(pid, false) in v.mail
    ensures worlds != [] && worlds[0] == v && LegacyCommit(legacy, owner, happenings, worlds, pid)
  {
    var m := Promote(pid, false);
    var deliver := Deliver(m, 0, Reads(true, true), true, None);
    var x := Delivered(legacy, v.(mail := v.mail - multiset{m}), m, 0, Reads(true, true), true, None);
    hide Happens, Commits, Delivered;
    DeliveryCommits(legacy, v, pid, false, 0, None);
    DeliverHappens(legacy, owner, v, pid, false);
    happenings, worlds := [deliver], [v, x];
  }

  /** Without one, starting it first does. */
  lemma StartedCommits(legacy: Did -> Pid, owner: Pid -> Did, v: World, pid: Pid)
      returns (happenings: seq<Happening>, worlds: seq<World>)
    requires pid in v.store.pending && v.store.pending[pid].pairing.pid == pid && pid !in v.reg.pendings
             && Promote(pid, false) in v.mail
    ensures worlds != [] && worlds[0] == v && LegacyCommit(legacy, owner, happenings, worlds, pid)
  {
    var c := NewNumber(v.reg.calls.Keys);
    var cfg := Relay.Config(Relay.WebSocket, "", v.store.pending[pid].pairing.minV,
                            Relay.Crypto((kp, pk) => None, (pk, kp, keys) => None, (ct, key) => None));
    var begin := Begin(pid, c, cfg, None);
    var b := v.(reg := Registry.Begun(v.reg, pid, c), wired := v.wired + {c},
                cells := v.cells[c := Cell(pid, v.store.pending[pid].pairing.did, cfg, Relay.Built(None), 0)]);
    assert Happens(legacy, owner, v, begin, b);
    hide Happens;
    var hs, ws := HeldCommits(legacy, owner, b, pid);
    happenings, worlds := [begin] + hs, [v] + ws;
    Prefixed(legacy, owner, begin, v, hs, ws, pid);
  }

  lemma NeverLowers(legacy: Did -> Pid, h: Happening, pid: Pid)
    requires !h.Scan?
    ensures !Lowers(legacy, h, pid)
  {
  }

  lemma Prefixed(legacy: Did -> Pid, owner: Pid -> Did, h: Happening, v: World, hs: seq<Happening>, ws: seq<World>,
                 pid: Pid)
    requires LegacyCommit(legacy, owner, hs, ws, pid) && Happens(legacy, owner, v, h, ws[0])
    requires pid in v.store.pending && !h.Scan?
    ensures LegacyCommit(legacy, owner, [h] + hs, [v] + ws, pid)
  {
    hide Happens, Commits, Lowers;
    var hs2, ws2, k := [h] + hs, [v] + ws, |hs|;
    NeverLowers(legacy, h, pid);
    forall i | 0 <= i < |hs2| ensures Happens(legacy, owner, ws2[i], hs2[i], ws2[i + 1]) {
      assert i > 0 ==> ws2[i] == ws[i - 1] && hs2[i] == hs[i - 1] && ws2[i + 1] == ws[i];
    }
    forall j | 0 <= j <= k ensures pid in ws2[j].store.pending {
      assert j > 0 ==> ws2[j] == ws[j - 1];
    }
    forall j | 0 <= j < k ensures !Lowers(legacy, hs2[j], pid) {
      assert j > 0 ==> hs2[j] == hs[j - 1];
    }
    assert ws2[k] == ws[k - 1] && hs2[k] == hs[k - 1] && ws2[k + 1] == ws[k];
  }

  /**
   * Exactly when a version 4 pairing can be committed as legacy: once its link has been scanned, some continuation
   * delivers a legacy promotion and commits it while its record lasts, if and only if such a promotion was under way at
   * the scan.
   */
  lemma DowngradeIff(legacy: Did -> Pid, owner: Pid -> Did, w: World, p: Pairing, now: int, v: World)
    requires Healthy(legacy, owner, w) && FromV4Link(legacy, p) && Happens(legacy, owner, w, Scan(p, now, true), v)
    ensures (exists happenings, worlds ::
               worlds != [] && worlds[0] == v && LegacyCommit(legacy, owner, happenings, worlds, p.pid))
            <==> Promote(p.pid, false) in w.mail
  {
    var pid := p.pid;
    assert pid in v.store.pending && v.store.pending[pid].pairing == p && v.mail == w.mail && v.reg == w.reg;
    if Promote(pid, false) in w.mail {
      hide Happens, LegacyCommit;
      if pid in v.reg.pendings {
        var happenings, worlds := HeldCommits(legacy, owner, v, pid);
      } else {
        var happenings, worlds := StartedCommits(legacy, owner, v, pid);
      }
    } else {
      assert PendingFloor(v.store, pid) >= 3;
      hide Sound, WellWired, BoundCells, LegacyCommit, FromV4Link;
      HappeningKeepsSound(legacy, owner, w, Scan(p, now, true), v);
      HappeningKeepsWiring(legacy, owner, w, Scan(p, now, true), v);
      HappeningKeepsBound(legacy, owner, w, Scan(p, now, true), v);
      hide Happens;
      if happenings, worlds :| worlds != [] && worlds[0] == v && LegacyCommit(legacy, owner, happenings, worlds, pid) {
        LegacyCommitNeedsMail(legacy, owner, happenings, worlds, pid);
      }
    }
  }

  /** The pairing is pending from world `i` on up to `k`, and no older link of it is scanned in between. */
  ghost predicate LastsFrom(legacy: Did -> Pid, happenings: seq<Happening>, worlds: seq<World>, i: nat, k: nat,
                            pid: Pid)
    requires |worlds| == |happenings| + 1 && k < |worlds|
  {
    && (forall j :: i <= j <= k ==> pid in worlds[j].store.pending)
    && (forall j :: i <= j < k ==> !Lowers(legacy, happenings[j], pid))
  }

  /**
   * So in every history a pairing scanned from a version 4 link with no legacy promotion of it under way is only ever
   * promoted as confirmed, as long as its record lasts and no older link of it is scanned, whatever else happens.
   */
  lemma NeverDowngraded(legacy: Did -> Pid, owner: Pid -> Did, happenings: seq<Happening>, worlds: seq<World>,
                        i: nat, k: nat, pid: Pid, confirmed: bool)
    requires OwnedLegacy(legacy, owner) && History(legacy, owner, happenings, worlds) && i < k < |happenings|
    requires happenings[i].Scan? && happenings[i].secretOk && FromV4Link(legacy, happenings[i].pairing)
    requires happenings[i].pairing.pid == pid && Promote(pid, false) !in worlds[i].mail
    requires LastsFrom(legacy, happenings, worlds, i + 1, k, pid)
    requires happenings[k].Deliver? && happenings[k].mail == Promote(pid, confirmed)
    ensures confirmed
  {
    hide FromV4Link, LastsFrom, Healthy, Lasts, Guarded, Happens;
    assert Happens(legacy, owner, worlds[i], happenings[i], worlds[i + 1]);
    assert Happens(legacy, owner, worlds[k], happenings[k], worlds[k + 1]);
    HistoriesAreHealthy(legacy, owner, happenings, worlds, i + 1);
    ScanKeepsGuard(legacy, owner, worlds[i], happenings[i], worlds[i + 1], pid);
    Suffix(legacy, owner, happenings, worlds, i + 1, k, pid);
    hide History, Unfolds;
    GuardPersists(legacy, owner, happenings[i + 1..], worlds[i + 1..], k - i - 1, pid);
    DeliveredIsMail(legacy, owner, worlds[k], happenings[k], worlds[k + 1]);
    GuardedHasNoLegacy(worlds[k], pid);
  }

  lemma GuardedHasNoLegacy(w: World, pid: Pid)
    requires Guarded(w, pid)
    ensures Promote(pid, false) !in w.mail
  {
  }

  lemma Suffix(legacy: Did -> Pid, owner: Pid -> Did, happenings: seq<Happening>, worlds: seq<World>, i: nat, k: nat,
               pid: Pid)
    requires Unfolds(legacy, owner, happenings, worlds) && i <= k < |happenings|
             && LastsFrom(legacy, happenings, worlds, i, k, pid)
    ensures Unfolds(legacy, owner, happenings[i..], worlds[i..])
            && Lasts(legacy, happenings[i..], worlds[i..], k - i, pid)
    ensures worlds[i..][0] == worlds[i] && worlds[i..][k - i] == worlds[k]
  {
    hide Happens, Lowers;
  }
}
