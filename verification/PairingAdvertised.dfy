/** What a daemon advertises is stored and guards its pairing, and what it asks for is heard from it. */
module PairingAdvertised {
  import opened Common
  import opened PairingRecords
  import opened PairingState
  import opened PairingMirror
  import opened PairingRuns
  import opened PairingSystem
  import opened PairingDowngrade
  import Registry = PairingRegistry
  import Relay = RelayState
  import Keys = RelayKeys
  import Heard = RelayHistory
  import Unpairs = PairingHiding

  /** In this step the client opens a key-exchange frame that advertises this version. */
  predicate HearsVersion(w: World, h: Happening, c: Cid, v: int) {
    && h.Internal? && h.c == c && c in w.cells
    && Heard.Advertises(w.cells[c].cfg, w.cells[c].state, h.step, v)
  }

  /** A client by this number is made, or the app starts anew. */
  predicate Remakes(h: Happening, c: Cid) {
    h.Relaunch? || ((h.Begin? || h.Open?) && h.c == c)
  }

  // The version a client goes by.

  lemma InternalCell(legacy: Did -> Pid, owner: Pid -> Did, w: World, h: Happening, v: World, c: Cid)
    requires Happens(legacy, owner, w, h, v) && c in w.cells && h.Internal?
    ensures c in v.cells && v.cells[c].cfg == w.cells[c].cfg
    ensures h.c != c ==> v.cells[c] == w.cells[c]
    ensures h.c == c ==> v.cells[c].state == Relay.Next(w.cells[c].cfg, w.cells[c].state, h.step).0
  {
    hide StoreAfterAll, Posted, Relay.Next, Relay.Possible;
  }

  lemma TakenCell(legacy: Did -> Pid, owner: Pid -> Did, w: World, h: Happening, v: World, c: Cid)
    requires Happens(legacy, owner, w, h, v) && c in w.cells && h.Take?
    ensures c in v.cells && v.cells[c].cfg == w.cells[c].cfg
            && v.cells[c].state.advertisedV == w.cells[c].state.advertisedV
  {
    if h.c == c {
      var cell := w.cells[c];
      var step := StepOf(Registry.Queue(w.reg, c)[cell.taken], h.tokenFresh);
      if step.Some? {
        Heard.OtherSteps(cell.cfg, cell.state, step.value);
      }
      hide Relay.Next;
    }
  }

  lemma OtherCells(legacy: Did -> Pid, owner: Pid -> Did, w: World, h: Happening, v: World, c: Cid)
    requires Happens(legacy, owner, w, h, v) && c in w.cells && !h.Internal? && !h.Take? && !Remakes(h, c)
    ensures c in v.cells && v.cells[c] == w.cells[c]
  {
    hide Registry.Dropped, Registry.DroppedPending, Registry.DroppedPendings, Registry.Opened, Registry.Called,
         Registry.Begun, Registry.Rekeyed, Hidden, Unpaired, Ingested, Promoted, Step, PendingRemoved, Relay.Built;
  }

  lemma CellHears(legacy: Did -> Pid, owner: Pid -> Did, w: World, h: Happening, v: World, c: Cid)
    requires Happens(legacy, owner, w, h, v) && c in w.cells && !Remakes(h, c)
    ensures c in v.cells
    ensures forall x :: HearsVersion(w, h, c, x) ==> v.cells[c].state.advertisedV == x
    ensures (forall x :: !HearsVersion(w, h, c, x)) ==>
              v.cells[c].state.advertisedV == w.cells[c].state.advertisedV
  {
    hide Happens, Relay.Next, Heard.Advertises;
    if h.Internal? {
      InternalCell(legacy, owner, w, h, v, c);
      if h.c == c {
        var cell := w.cells[c];
        Heard.StepAdvertises(cell.cfg, cell.state, h.step);
        if forall x :: !HearsVersion(w, h, c, x) {
          forall x ensures !Heard.Advertises(cell.cfg, cell.state, h.step, x) {
            assert !HearsVersion(w, h, c, x);
          }
        }
      }
    } else if h.Take? {
      TakenCell(legacy, owner, w, h, v, c);
    } else {
      OtherCells(legacy, owner, w, h, v, c);
    }
  }

  /** From this step on the client is not made anew and hears no version below 3. */
  ghost predicate HearsHighFrom(happenings: seq<Happening>, worlds: seq<World>, i: int, k: int, c: Cid)
    requires |worlds| == |happenings| + 1 && 0 <= i && k <= |happenings|
  {
    && (forall j :: i <= j < k ==> !Remakes(happenings[j], c))
    && (forall j, x :: i <= j < k && HearsVersion(worlds[j], happenings[j], c, x) ==> x >= 3)
  }

  lemma {:induction false} HighVersionLasts(legacy: Did -> Pid, owner: Pid -> Did, happenings: seq<Happening>,
                                            worlds: seq<World>, i: nat, k: nat, c: Cid, v: int)
    requires OwnedLegacy(legacy, owner) && History(legacy, owner, happenings, worlds) && i < k < |worlds|
    requires HearsVersion(worlds[i], happenings[i], c, v) && HearsHighFrom(happenings, worlds, i, k, c)
    ensures c in worlds[k].cells && worlds[k].cells[c].state.advertisedV >= 3
  {
    hide Happens, HearsVersion, Remakes;
    var l := k - 1;
    assert Happens(legacy, owner, worlds[l], happenings[l], worlds[k]);
    if i < l {
      HighVersionLasts(legacy, owner, happenings, worlds, i, l, c, v);
    } else {
      HearingIsHeld(worlds[i], happenings[i], c, v);
    }
    CellHears(legacy, owner, worlds[l], happenings[l], worlds[k], c);
  }

  lemma HearingIsHeld(w: World, h: Happening, c: Cid, v: int)
    requires HearsVersion(w, h, c, v)
    ensures c in w.cells
  {
  }

  /**
   * Once a client has heard its daemon advertise version 3 or more, and as long as it has not heard a lower one since,
   * no hello earns a legacy promotion from it.
   */
  lemma HighVersionIsNoLegacy(legacy: Did -> Pid, owner: Pid -> Did, happenings: seq<Happening>, worlds: seq<World>,
                              i: nat, k: nat, c: Cid, v: int, pid: Pid)
    requires OwnedLegacy(legacy, owner) && History(legacy, owner, happenings, worlds)
    requires i < k < |happenings|
    requires HearsVersion(worlds[i], happenings[i], c, v) && HearsHighFrom(happenings, worlds, i, k, c)
    requires happenings[k].Internal? && happenings[k].c == c
    ensures !Earned(worlds[k], happenings[k], Promote(pid, false))
  {
    assert k < |worlds|;
    hide History, HearsVersion, HearsHighFrom;
    HighVersionLasts(legacy, owner, happenings, worlds, i, k, c, v);
  }

  // The floor a client is built with.

  lemma CellKeepsConfig(legacy: Did -> Pid, owner: Pid -> Did, w: World, h: Happening, v: World, c: Cid)
    requires Happens(legacy, owner, w, h, v) && c in w.cells && !Remakes(h, c)
    ensures c in v.cells && v.cells[c].cfg == w.cells[c].cfg
  {
    hide Happens;
    if h.Internal? {
      InternalCell(legacy, owner, w, h, v, c);
    } else if h.Take? {
      TakenCell(legacy, owner, w, h, v, c);
    } else {
      OtherCells(legacy, owner, w, h, v, c);
    }
  }

  lemma MadeAtFloor(legacy: Did -> Pid, owner: Pid -> Did, w: World, h: Happening, v: World)
    requires Happens(legacy, owner, w, h, v) && (h.Begin? || h.Open?)
    ensures h.c in v.cells
    ensures h.Begin? ==> h.pid in w.store.pending && v.cells[h.c].cfg.floor == w.store.pending[h.pid].pairing.minV
    ensures h.Open? ==> v.cells[h.c].cfg.floor == FloorOf(w.store, h.did)
  {
    hide Registry.Begun, Registry.Opened, Relay.Built, FloorOf;
  }

  /** The floor recorded where the client is started: its pending pairing's, or its daemon's. */
  function FloorAt(s: Store, h: Happening): int
    requires h.Begin? || h.Open?
  {
    if h.Begin? then PendingFloor(s, h.pid) else FloorOf(s, h.did)
  }

  lemma {:induction false} ConfigLasts(legacy: Did -> Pid, owner: Pid -> Did, happenings: seq<Happening>,
                                       worlds: seq<World>, i: nat, k: nat)
    requires History(legacy, owner, happenings, worlds) && i < k < |worlds|
    requires (happenings[i].Begin? || happenings[i].Open?)
             && forall j :: i < j < k ==> !Remakes(happenings[j], happenings[i].c)
    ensures happenings[i].c in worlds[k].cells
            && worlds[k].cells[happenings[i].c].cfg.floor == FloorAt(worlds[i].store, happenings[i])
  {
    hide Happens, FloorOf, Remakes;
    var l := k - 1;
    assert Happens(legacy, owner, worlds[l], happenings[l], worlds[k]);
    if i < l {
      ConfigLasts(legacy, owner, happenings, worlds, i, l);
      CellKeepsConfig(legacy, owner, worlds[l], happenings[l], worlds[k], happenings[i].c);
    } else {
      MadeAtFloor(legacy, owner, worlds[i], happenings[i], worlds[k]);
    }
  }

  /**
   * In every history a client started while its floor is 3 or more takes no legacy branch as long as it lives, though
   * an older link be scanned or the floor be lost after its start.
   */
  lemma StartedHighIsNoLegacy(legacy: Did -> Pid, owner: Pid -> Did, happenings: seq<Happening>, worlds: seq<World>,
                              i: nat, k: nat)
    requires History(legacy, owner, happenings, worlds) && i < k < |happenings|
    requires (happenings[i].Begin? || happenings[i].Open?) && FloorAt(worlds[i].store, happenings[i]) >= 3
    requires forall j :: i < j < k ==> !Remakes(happenings[j], happenings[i].c)
    requires happenings[k].Internal? && happenings[k].c == happenings[i].c
    ensures happenings[k].c in worlds[k].cells
    ensures var cell := worlds[k].cells[happenings[k].c];
            Relay.Confirmed(false) !in Relay.Next(cell.cfg, cell.state, happenings[k].step).1
  {
    ConfigLasts(legacy, owner, happenings, worlds, i, k);
    var cell := worlds[k].cells[happenings[k].c];
    hide Relay.Next, History, FloorAt;
    Heard.EffectsTable(cell.cfg, cell.state, happenings[k].step, Relay.Confirmed(false));
  }

  // The floor it leaves.

  lemma {:induction false} RaisesStay(s: Store, pid: Pid, did: Did, effects: seq<Relay.Effect>, v: int)
    requires pid in s.pending && Relay.RaiseFloor(true, v) in effects
    ensures var t := StoreAfterAll(s, pid, did, effects); pid in t.pending && PendingFloor(t, pid) >= v
  {
    var front, last := effects[..|effects| - 1], effects[|effects| - 1];
    assert effects == front + [last];
    EffectsKeepPending(s, pid, did, front, pid);
    if Relay.RaiseFloor(true, v) in front {
      RaisesStay(s, pid, did, front, v);
    }
  }

  lemma HighVersionRaises(legacy: Did -> Pid, owner: Pid -> Did, w: World, h: Happening, x: World, c: Cid, v: int)
    requires WellWired(w) && Happens(legacy, owner, w, h, x) && HearsVersion(w, h, c, v) && c in w.wired
    requires w.cells[c].pid in w.store.pending
    ensures var pid := w.cells[c].pid; pid in x.store.pending && PendingFloor(x.store, pid) >= v
  {
    var cell := w.cells[c];
    Heard.StepAdvertises(cell.cfg, cell.state, h.step);
    hide Relay.Next, StoreAfterAll, Posted, Heard.Advertises, OnlyPending;
    RaisesStay(w.store, cell.pid, cell.did, Relay.Next(cell.cfg, cell.state, h.step).1, v);
  }

  lemma HearingPostsNothing(w: World, h: Happening, c: Cid, v: int, m: Mail)
    requires HearsVersion(w, h, c, v)
    ensures !Earned(w, h, m)
  {
    hide Relay.EffectiveV;
  }

  /** A version of 3 or more that a pending pairing's client hears guards the pairing, if no promotion is under way. */
  lemma HighVersionGuards(legacy: Did -> Pid, owner: Pid -> Did, w: World, h: Happening, x: World, c: Cid, v: int)
    requires Healthy(legacy, owner, w) && Happens(legacy, owner, w, h, x) && HearsVersion(w, h, c, v) && v >= 3
    requires c in w.wired && w.cells[c].pid in w.store.pending && Promote(w.cells[c].pid, false) !in w.mail
    ensures Guarded(x, w.cells[c].pid)
  {
    HearingIsHeld(w, h, c, v);
    hide Happens, HearsVersion, Earned, Sound, WellWired, BoundCells;
    HighVersionRaises(legacy, owner, w, h, x, c, v);
    var m := Promote(w.cells[c].pid, false);
    if m in x.mail {
      NewMailIsEarned(legacy, owner, w, h, x, m);
      HearingPostsNothing(w, h, c, v, m);
    }
  }

  /**
   * In every history, once a daemon has advertised version 3 or more to a pending pairing's client with no legacy
   * promotion of the pairing under way, the pairing is only ever promoted as confirmed, by whichever client, as long as
   * its record lasts and no older link of it is scanned.
   */
  lemma AdvertisedNeverDowngraded(legacy: Did -> Pid, owner: Pid -> Did, happenings: seq<Happening>,
                                  worlds: seq<World>, i: nat, k: nat, c: Cid, v: int, confirmed: bool)
    requires OwnedLegacy(legacy, owner) && History(legacy, owner, happenings, worlds)
    requires i < k < |happenings| && HearsVersion(worlds[i], happenings[i], c, v) && v >= 3
    requires c in worlds[i].wired && worlds[i].cells[c].pid in worlds[i].store.pending
    requires Promote(worlds[i].cells[c].pid, false) !in worlds[i].mail
    requires LastsFrom(legacy, happenings, worlds, i + 1, k, worlds[i].cells[c].pid)
    requires happenings[k].Deliver? && happenings[k].mail == Promote(worlds[i].cells[c].pid, confirmed)
    ensures confirmed
  {
    HearingIsHeld(worlds[i], happenings[i], c, v);
    hide LastsFrom, Healthy, Lasts, Guarded, Happens, HearsVersion;
    assert Happens(legacy, owner, worlds[i], happenings[i], worlds[i + 1]);
    assert Happens(legacy, owner, worlds[k], happenings[k], worlds[k + 1]);
    HistoriesAreHealthy(legacy, owner, happenings, worlds, i);
    HistoriesAreHealthy(legacy, owner, happenings, worlds, i + 1);
    var pid := worlds[i].cells[c].pid;
    HighVersionGuards(legacy, owner, worlds[i], happenings[i], worlds[i + 1], c, v);
    GuardedUntil(legacy, owner, happenings, worlds, i + 1, k, pid);
    DeliveredIsMail(legacy, owner, worlds[k], happenings[k], worlds[k + 1]);
    GuardedHasNoLegacy(worlds[k], pid);
  }

  lemma GuardedUntil(legacy: Did -> Pid, owner: Pid -> Did, happenings: seq<Happening>, worlds: seq<World>, i: nat,
                     k: nat, pid: Pid)
    requires Unfolds(legacy, owner, happenings, worlds) && i <= k < |happenings|
    requires Healthy(legacy, owner, worlds[i]) && Guarded(worlds[i], pid)
    requires LastsFrom(legacy, happenings, worlds, i, k, pid)
    ensures Guarded(worlds[k], pid)
  {
    hide LastsFrom, Healthy, Lasts, Guarded, Happens;
    Suffix(legacy, owner, happenings, worlds, i, k, pid);
    hide Unfolds;
    GuardPersists(legacy, owner, happenings[i..], worlds[i..], k - i, pid);
  }

  // Committed clients.

  lemma {:induction false} EffectsReachSidecar(s: Store, pid: Pid, did: Did, effects: seq<Relay.Effect>, v: int,
                                               tag: string)
    requires did in s.sidecars
    ensures var t := StoreAfterAll(s, pid, did, effects);
            && did in t.sidecars
            && (Relay.RaiseFloor(false, v) in effects ==> FloorOf(t, did) >= v)
            && (Relay.RecordPct(tag) in effects && (forall x :: Relay.RecordPct(x) in effects ==> x == tag)
                ==> PctOf(t, did) == Some(tag))
  {
    if effects != [] {
      var front, last := effects[..|effects| - 1], effects[|effects| - 1];
      assert effects == front + [last];
      EffectsReachSidecar(s, pid, did, front, v, tag);
    }
  }

  /** A committed client that hears its epoch's own tag records it, and raises the daemon's floor to at least 3. */
  lemma ConfirmationIsRecorded(legacy: Did -> Pid, owner: Pid -> Did, w: World, h: Happening, x: World, tag: string)
    requires Happens(legacy, owner, w, h, x) && h.Internal? && !w.cells[h.c].state.pendingPhase
    requires Keys.HearsHello(w.cells[h.c].cfg, w.cells[h.c].state, h.step, Some(tag))
    requires w.cells[h.c].state.pct == Some(tag) && w.cells[h.c].did in w.store.sidecars
    ensures PctOf(x.store, w.cells[h.c].did) == Some(tag) && FloorOf(x.store, w.cells[h.c].did) >= 3
  {
    var cell := w.cells[h.c];
    var c, effects := cell.state, Relay.Next(cell.cfg, cell.state, h.step).1;
    HelloIsFrame(cell, h.step, tag);
    var v := Max(Max(Max(c.advertisedV, cell.cfg.floor), h.step.floor), 3);
    assert Heard.RaisedTo(cell.cfg, c, h.step, v);
    hide Relay.Next, StoreAfterAll, Posted, Keys.HearsHello, Heard.RaisedTo, Heard.Advertises, FloorOf, PctOf;
    Heard.EffectsTable(cell.cfg, c, h.step, Relay.RaiseFloor(false, v));
    forall t ensures Relay.RecordPct(t) in effects <==> t == tag {
      Heard.EffectsTable(cell.cfg, c, h.step, Relay.RecordPct(t));
    }
    EffectsReachSidecar(w.store, cell.pid, cell.did, effects, v, tag);
  }

  lemma HelloIsFrame(cell: Cell, step: Relay.Step, tag: string)
    requires Keys.HearsHello(cell.cfg, cell.state, step, Some(tag))
    ensures step.Receive?
  {
  }

  /** A committed client takes no legacy branch while its daemon's stored floor is 3 or more. */
  lemma CommittedIsNoLegacy(legacy: Did -> Pid, owner: Pid -> Did, w: World, h: Happening, x: World)
    requires Happens(legacy, owner, w, h, x) && h.Internal? && !w.cells[h.c].state.pendingPhase
    requires FloorOf(w.store, w.cells[h.c].did) >= 3
    ensures Relay.Confirmed(false) !in Relay.Next(w.cells[h.c].cfg, w.cells[h.c].state, h.step).1
  {
    var cell := w.cells[h.c];
    assert h.step.Receive? ==> h.step.floor == FloorOf(w.store, cell.did);
    hide Relay.Next, StoreAfterAll, Posted, Relay.Possible, FloorOf;
    Heard.EffectsTable(cell.cfg, cell.state, h.step, Relay.Confirmed(false));
  }

  // Messages that are delivered.

  /**
   * Delivered, an unpair leaves nothing of the daemon on a readable keychain: no client, pointer, record or sidecar.
   */
  lemma UnpairIsCarriedOut(legacy: Did -> Pid, owner: Pid -> Did, w: World, h: Happening, x: World, did: Did)
    requires Sound(legacy, owner, w.store) && Happens(legacy, owner, w, h, x)
    requires h.Deliver? && h.mail == UnpairedBy(did) && h.view.Some? && Enumerates(h.view.value, w.store.items)
    ensures did !in x.reg.clients && did !in x.store.ptr.index && did !in x.store.sidecars
    ensures forall q :: q in x.store.items <==> q in w.store.items && w.store.items[q].did != did
  {
    Unpairs.UnpairRevokes(legacy, owner, w.store, did, h.view.value);
    hide Unpaired, Registry.CalledAt, Sound, Enumerates;
  }

  /** A promotion whose record is gone or unreadable disposes of the client: no longer held, told to disconnect. */
  lemma UnreadPromotionDrops(legacy: Did -> Pid, owner: Pid -> Did, w: World, h: Happening, x: World, pid: Pid,
                             ok: bool)
    requires Happens(legacy, owner, w, h, x) && h.Deliver? && h.mail == Promote(pid, ok) && pid in w.reg.pendings
    requires pid !in w.store.pending || !h.secret.owner
    ensures x.store == w.store && x.reg.clients == w.reg.clients && x.reg.pendings == w.reg.pendings - {pid}
    ensures var c := w.reg.pendings[pid];
            Registry.Queue(x.reg, c) == Registry.Queue(w.reg, c) + [Registry.Disconnect]
  {
    Registry.DroppedPendingTells(w.reg, pid);
    hide Promoted, Registry.Rekeyed;
  }

  // Unpairs.

  /** In this step a committed client reads an unpair of this daemon, under its session keys, on the control channel. */
  ghost predicate Asks(w: World, h: Happening, did: Did) {
    && h.Internal? && h.c in w.cells && h.c !in w.wired
    && Heard.HearsUnpair(w.cells[h.c].cfg, w.cells[h.c].state, h.step, did)
  }

  lemma {:induction false} UnpairsAreEffects(wired: bool, pid: Pid, effects: seq<Relay.Effect>, did: Did)
    requires UnpairedBy(did) in Posted(wired, pid, effects)
    ensures !wired && Relay.AskUnpair(did) in effects
  {
    if effects != [] {
      assert effects == effects[..|effects| - 1] + [effects[|effects| - 1]];
      if UnpairedBy(did) in Posted(wired, pid, effects[..|effects| - 1]) {
        UnpairsAreEffects(wired, pid, effects[..|effects| - 1], did);
      }
    }
  }

  lemma NewUnpairIsAsked(legacy: Did -> Pid, owner: Pid -> Did, w: World, h: Happening, v: World, did: Did)
    requires Happens(legacy, owner, w, h, v) && UnpairedBy(did) in v.mail && UnpairedBy(did) !in w.mail
    ensures Asks(w, h, did)
  {
    hide Registry.Dropped, Registry.DroppedPending, Registry.DroppedPendings, Registry.Opened, Registry.Called,
         Registry.Begun, Registry.Rekeyed, Hidden, Unpaired, Ingested, Promoted, Step, StoreAfterAll, Posted,
         Relay.Next, Relay.Possible, Heard.HearsUnpair;
    assert h.Internal?;
    var cell := w.cells[h.c];
    var effects := Relay.Next(cell.cfg, cell.state, h.step).1;
    UnpairsAreEffects(h.c in w.wired, cell.pid, effects, did);
    Heard.EffectsTable(cell.cfg, cell.state, h.step, Relay.AskUnpair(did));
  }

  /** In every history the owner unpairs a daemon at its own asking only: a committed client read it from the daemon. */
  lemma {:induction false} UnpairsAreAsked(legacy: Did -> Pid, owner: Pid -> Did, happenings: seq<Happening>,
                                           worlds: seq<World>, k: nat, did: Did)
    requires History(legacy, owner, happenings, worlds) && k < |worlds| && UnpairedBy(did) in worlds[k].mail
    ensures exists i :: 0 <= i < k && Asks(worlds[i], happenings[i], did)
  {
    hide Happens, Asks;
    if k > 0 {
      if UnpairedBy(did) in worlds[k - 1].mail {
        UnpairsAreAsked(legacy, owner, happenings, worlds, k - 1, did);
      } else {
        NewUnpairIsAsked(legacy, owner, worlds[k - 1], happenings[k - 1], worlds[k], did);
      }
    }
  }
}
