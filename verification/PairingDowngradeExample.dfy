/** A history in which a version 4 pairing is committed as legacy, because an older promotion was still under way. */
module PairingDowngradeExample {
  import opened Common
  import opened PairingRecords
  import opened PairingState
  import opened PairingMirror
  import opened PairingSystem
  import opened PairingDowngrade
  import Registry = PairingRegistry
  import Relay = RelayState

  /** A daemon that speaks version 2 and sends no tag. */
  const OLD_DAEMON := Relay.Config(Relay.WebSocket, "kx", 0, Relay.Crypto(
    (kp, daemonPk) => Some(Relay.SessionKeys("rx", "tx")), (daemonPk, kp, keys) => None,
    (ct, key) => if key == "kx" then Some(Relay.DaemonKx("pk", Some(2))) else Some(Relay.Hello(None, []))))

  const PAIR := Relay.KeyPair("pk", "sk")
  const AUTH_OK := Relay.Receive(Relay.AuthOk(None, Relay.Sent(PAIR)), 0)
  const KX := Relay.Receive(Relay.KxFrame(true, "", Relay.NoKey), 0)
  const HELLO := Relay.Receive(Relay.DataFrame(true, false, ""), 2)

  /** Its client, one step after the other. */
  function Client(k: nat): Relay.Client {
    if k == 0 then Relay.NEW
    else Relay.Next(OLD_DAEMON, Client(k - 1),
      if k == 1 then Relay.SetPhase(true) else if k == 2 then Relay.Connect(false)
      else if k == 3 then AUTH_OK else if k == 4 then KX else HELLO).0
  }

  lemma OldDaemonIsLegacy()
    ensures Client(2).pendingPhase && Client(3).pendingPhase && Client(4).pendingPhase
    ensures Relay.Next(OLD_DAEMON, Client(2), AUTH_OK) == (Client(3), [Relay.SendKx("pk")])
    ensures Relay.Next(OLD_DAEMON, Client(3), KX) == (Client(4), [Relay.RaiseFloor(true, 2)])
    ensures Relay.Next(OLD_DAEMON, Client(4), HELLO) == (Client(5), [Relay.Confirmed(false)])
  {
    OldDaemonKeys();
    var c4 := Client(4);
    hide Client;
    assert Relay.PromotionResolved(OLD_DAEMON, c4, None, 2) == [Relay.Confirmed(false)];
    assert [Relay.Confirmed(false)] + [] == [Relay.Confirmed(false)];
  }

  lemma OldDaemonKeys()
    ensures Client(2).pendingPhase && Client(3).pendingPhase && Client(4).pendingPhase
    ensures Relay.Next(OLD_DAEMON, Client(2), AUTH_OK) == (Client(3), [Relay.SendKx("pk")])
    ensures Relay.Next(OLD_DAEMON, Client(3), KX) == (Client(4), [Relay.RaiseFloor(true, 2)])
    ensures Relay.Next(OLD_DAEMON, Client(4), HELLO).0 == Client(5)
    ensures Client(4).keys == Some(Relay.SessionKeys("rx", "tx")) && Client(4).advertisedV == 2 && Client(4).pct.None?
  {
    var c1, c2 := Client(1), Client(2);
    assert c1 == Relay.NEW.(pendingPhase := true) && c2.pendingPhase && c2.advertisedV == 1 && c2.keys.None?;
    var c3 := Client(3);
    assert c3.kp == Some(PAIR) && c3.keys.None? && c3.pendingPhase;
    assert Client(5) == Relay.Next(OLD_DAEMON, Client(4), HELLO).0;
  }

  function Scanned(legacy: Did -> Pid, did: Did, version: nat): Pairing {
    Decoded(legacy, did, legacy(did), version, "")
  }

  /** The store while the pairing is pending at this floor. */
  function Waiting(p: Pairing, floor: int): Store {
    FRESH.(pending := map[p.pid := Pending(p.(minV := floor), 0)], pendingOrder := [p.pid])
  }

  /** Its pending client after `k` steps, `taken` of them calls of its owner. */
  function InProgress(legacy: Did -> Pid, did: Did, floor: int, k: nat, taken: nat): World {
    var pid := legacy(did);
    World(Waiting(Scanned(legacy, did, 3), floor),
          Registry.Registry(map[], map[pid := 0], map[0 := [Registry.SetPhase(true), Registry.Connect]]),
          map[0 := Cell(pid, did, OLD_DAEMON, Client(k), taken)], {0}, multiset{})
  }

  lemma ScanOfOld(legacy: Did -> Pid, owner: Pid -> Did, did: Did)
    requires OwnedLegacy(legacy, owner)
    ensures Happens(legacy, owner, BLANK, Scan(Scanned(legacy, did, 3), 0, true),
                    BLANK.(store := Waiting(Scanned(legacy, did, 3), 0)))
  {
    assert FRESH.hidden - {legacy(did)} == {};
    assert FRESH.pendingOrder + [legacy(did)] == [legacy(did)];
  }

  lemma BeginOfOld(legacy: Did -> Pid, owner: Pid -> Did, did: Did)
    ensures Happens(legacy, owner, BLANK.(store := Waiting(Scanned(legacy, did, 3), 0)),
                    Begin(legacy(did), 0, OLD_DAEMON, None),
                    InProgress(legacy, did, 0, 0, 0))
  {
    var calls: seq<Registry.Call> := [Registry.SetPhase(true), Registry.Connect];
    assert [] + calls == calls;
  }

  lemma CallsOfOld(legacy: Did -> Pid, owner: Pid -> Did, did: Did)
    ensures Happens(legacy, owner, InProgress(legacy, did, 0, 0, 0), Take(0, false), InProgress(legacy, did, 0, 1, 1))
    ensures Happens(legacy, owner, InProgress(legacy, did, 0, 1, 1), Take(0, false), InProgress(legacy, did, 0, 2, 2))
  {
    hide Relay.Next;
  }

  /** One internal step of the client numbered 0, from what it yields. */
  lemma InternalIs(legacy: Did -> Pid, owner: Pid -> Did, w: World, step: Relay.Step, state: Relay.Client,
                   e: Relay.Effect, v: World)
    requires 0 in w.cells && 0 in w.wired && IsInternal(step) && Relay.Possible(w.cells[0].state, step)
    requires step.Receive? ==> step.floor == LookedUp(w.store, w.cells[0])
    requires Relay.Next(w.cells[0].cfg, w.cells[0].state, step) == (state, [e])
    requires v == w.(cells := w.cells[0 := w.cells[0].(state := state)],
                     store := StoreAfter(w.store, w.cells[0].pid, w.cells[0].did, e), mail := v.mail)
    requires v.mail == w.mail + Posted(true, w.cells[0].pid, [e])
    ensures Happens(legacy, owner, w, Internal(0, step), v)
  {
    var pid, did := w.cells[0].pid, w.cells[0].did;
    hide Relay.Next, Relay.Possible, StoreAfter, LookedUp, Posted;
    assert [e][..0] == [];
    assert StoreAfterAll(w.store, pid, did, [e]) == StoreAfter(StoreAfterAll(w.store, pid, did, []), pid, did, e);
  }

  lemma PostedOne(pid: Pid, e: Relay.Effect)
    ensures Posted(true, pid, [e]) == if e.Confirmed? then multiset{Promote(pid, e.confirmed)} else multiset{}
  {
    assert [e][..0] == [] && Posted(true, pid, []) == multiset{};
  }

  lemma FramesOfOld(legacy: Did -> Pid, owner: Pid -> Did, did: Did)
    ensures Happens(legacy, owner, InProgress(legacy, did, 0, 2, 2), Internal(0, AUTH_OK),
                    InProgress(legacy, did, 0, 3, 2))
    ensures Happens(legacy, owner, InProgress(legacy, did, 0, 3, 2), Internal(0, KX), InProgress(legacy, did, 2, 4, 2))
    ensures Happens(legacy, owner, InProgress(legacy, did, 2, 4, 2), Internal(0, HELLO), UnderWay(legacy, did))
  {
    OldDaemonIsLegacy();
    var pid := legacy(did);
    PostedOne(pid, Relay.SendKx("pk"));
    PostedOne(pid, Relay.RaiseFloor(true, 2));
    PostedOne(pid, Relay.Confirmed(false));
    RaisedToTwo(legacy, did);
    hide Relay.Next, Client, Posted, Happens, PendingFloorRaised;
    InternalIs(legacy, owner, InProgress(legacy, did, 0, 2, 2), AUTH_OK, Client(3), Relay.SendKx("pk"),
               InProgress(legacy, did, 0, 3, 2));
    InternalIs(legacy, owner, InProgress(legacy, did, 0, 3, 2), KX, Client(4), Relay.RaiseFloor(true, 2),
               InProgress(legacy, did, 2, 4, 2));
    InternalIs(legacy, owner, InProgress(legacy, did, 2, 4, 2), HELLO, Client(5), Relay.Confirmed(false),
               UnderWay(legacy, did));
  }

  lemma RaisedToTwo(legacy: Did -> Pid, did: Did)
    ensures PendingFloorRaised(Waiting(Scanned(legacy, did, 3), 0), legacy(did), 2)
            == Waiting(Scanned(legacy, did, 3), 2)
  {
    var s, t := Waiting(Scanned(legacy, did, 3), 0), Waiting(Scanned(legacy, did, 3), 2);
    assert PendingFloorRaised(s, legacy(did), 2).pending == t.pending;
  }

  function UnderWay(legacy: Did -> Pid, did: Did): World {
    InProgress(legacy, did, 2, 5, 2).(mail := multiset{Promote(legacy(did), false)})
  }

  function Rescanned(legacy: Did -> Pid, did: Did): World {
    UnderWay(legacy, did).(store := Ingested(legacy, UnderWay(legacy, did).store, Scanned(legacy, did, 4), 0, true))
  }

  function Downgraded(legacy: Did -> Pid, did: Did): World {
    var w, m := Rescanned(legacy, did), Promote(legacy(did), false);
    Delivered(legacy, w.(mail := w.mail - multiset{m}), m, 0, Reads(true, true), true, None)
  }

  lemma Rescans(legacy: Did -> Pid, owner: Pid -> Did, did: Did)
    requires OwnedLegacy(legacy, owner)
    ensures FromV4Link(legacy, Scanned(legacy, did, 4)) && Scanned(legacy, did, 4).pid == legacy(did)
    ensures Happens(legacy, owner, UnderWay(legacy, did), Scan(Scanned(legacy, did, 4), 0, true),
                    Rescanned(legacy, did))
  {
    var p4 := Scanned(legacy, did, 4);
    assert p4 == Decoded(legacy, p4.did, legacy(did), p4.version, p4.payload);
    hide Client, UnderWay;
  }

  lemma CommitsNext(legacy: Did -> Pid, owner: Pid -> Did, did: Did)
    ensures Happens(legacy, owner, Rescanned(legacy, did),
                    Deliver(Promote(legacy(did), false), 0, Reads(true, true), true, None), Downgraded(legacy, did))
    ensures Commits(Rescanned(legacy, did), Downgraded(legacy, did), legacy(did))
  {
    hide Delivered, Commits, Rescanned, Scanned;
    RescannedWaits(legacy, did);
    DeliveryCommits(legacy, Rescanned(legacy, did), legacy(did), false, 0, None);
  }

  lemma RescannedWaits(legacy: Did -> Pid, did: Did)
    ensures var v := Rescanned(legacy, did);
            && legacy(did) in v.store.pending && v.store.pending[legacy(did)].pairing.pid == legacy(did)
            && legacy(did) in v.reg.pendings && Promote(legacy(did), false) in v.mail
  {
    hide Client;
  }

  lemma Extended(legacy: Did -> Pid, owner: Pid -> Did, happenings: seq<Happening>, worlds: seq<World>, h: Happening,
                 v: World)
    requires History(legacy, owner, happenings, worlds) && Happens(legacy, owner, worlds[|happenings|], h, v)
    ensures History(legacy, owner, happenings + [h], worlds + [v])
    ensures (worlds + [v])[|happenings + [h]|] == v && (happenings + [h])[|happenings|] == h
  {
    hide Happens;
  }

  /** The old daemon's client, from the scan to its legacy promotion under way. */
  lemma UnderWayIsReached(legacy: Did -> Pid, owner: Pid -> Did, did: Did) returns (hs: seq<Happening>, ws: seq<World>)
    requires OwnedLegacy(legacy, owner)
    ensures History(legacy, owner, hs, ws) && ws[|hs|] == UnderWay(legacy, did)
  {
    ScanOfOld(legacy, owner, did);
    BeginOfOld(legacy, owner, did);
    CallsOfOld(legacy, owner, did);
    FramesOfOld(legacy, owner, did);
    hs, ws := [], [BLANK];
    assert History(legacy, owner, hs, ws);
    hide History, Happens, InProgress, Waiting, UnderWay, Scanned;
    hs, ws := Went(legacy, owner, hs, ws, Scan(Scanned(legacy, did, 3), 0, true),
                   BLANK.(store := Waiting(Scanned(legacy, did, 3), 0)));
    hs, ws := Went(legacy, owner, hs, ws, Begin(legacy(did), 0, OLD_DAEMON, None), InProgress(legacy, did, 0, 0, 0));
    hs, ws := Went(legacy, owner, hs, ws, Take(0, false), InProgress(legacy, did, 0, 1, 1));
    hs, ws := Went(legacy, owner, hs, ws, Take(0, false), InProgress(legacy, did, 0, 2, 2));
    hs, ws := Went(legacy, owner, hs, ws, Internal(0, AUTH_OK), InProgress(legacy, did, 0, 3, 2));
    hs, ws := Went(legacy, owner, hs, ws, Internal(0, KX), InProgress(legacy, did, 2, 4, 2));
    hs, ws := Went(legacy, owner, hs, ws, Internal(0, HELLO), UnderWay(legacy, did));
  }

  lemma Went(legacy: Did -> Pid, owner: Pid -> Did, hs: seq<Happening>, ws: seq<World>, h: Happening, v: World)
    returns (more: seq<Happening>, reached: seq<World>)
    requires History(legacy, owner, hs, ws) && Happens(legacy, owner, ws[|hs|], h, v)
    ensures History(legacy, owner, more, reached) && more == hs + [h] && reached == ws + [v] && reached[|more|] == v
  {
    Extended(legacy, owner, hs, ws, h, v);
    more, reached := hs + [h], ws + [v];
  }

  /** The old daemon's legacy promotion is under way when the upgraded daemon's link, with the same id, is scanned. */
  lemma SuchAHistoryExists(legacy: Did -> Pid, owner: Pid -> Did, did: Did)
    requires OwnedLegacy(legacy, owner)
    ensures exists happenings, worlds :: LegacyCommitOfV4(legacy, owner, happenings, worlds, legacy(did))
  {
    var hs, ws := UnderWayIsReached(legacy, owner, did);
    Rescans(legacy, owner, did);
    CommitsNext(legacy, owner, did);
    hide Commits, History, Happens, UnderWay, Rescanned, Downgraded, Scanned, FromV4Link, InProgress, Waiting;
    var hs1, ws1 := Went(legacy, owner, hs, ws, Scan(Scanned(legacy, did, 4), 0, true), Rescanned(legacy, did));
    var hs2, ws2 := Went(legacy, owner, hs1, ws1,
                         Deliver(Promote(legacy(did), false), 0, Reads(true, true), true, None),
                         Downgraded(legacy, did));
    EndsSo(legacy, owner, hs, ws, hs2, ws2, Scanned(legacy, did, 4), Rescanned(legacy, did), Downgraded(legacy, did),
           legacy(did));
  }

  lemma EndsSo(legacy: Did -> Pid, owner: Pid -> Did, hs: seq<Happening>, ws: seq<World>, hs2: seq<Happening>,
               ws2: seq<World>, p: Pairing, w: World, x: World, pid: Pid)
    requires History(legacy, owner, hs, ws) && History(legacy, owner, hs2, ws2) && FromV4Link(legacy, p) && p.pid == pid
    requires hs2 == hs + [Scan(p, 0, true)] + [Deliver(Promote(pid, false), 0, Reads(true, true), true, None)]
    requires |ws2| == |hs| + 3 && ws2[|hs| + 1] == w && ws2[|hs| + 2] == x && Commits(w, x, pid)
    ensures LegacyCommitOfV4(legacy, owner, hs2, ws2, pid)
  {
    hide History, FromV4Link, Commits;
  }

  /** A history that ends by scanning a version 4 link and committing that pairing through a legacy promotion. */
  ghost predicate LegacyCommitOfV4(legacy: Did -> Pid, owner: Pid -> Did, happenings: seq<Happening>,
                                   worlds: seq<World>, pid: Pid) {
    && History(legacy, owner, happenings, worlds) && |happenings| >= 2
    && var scan, commit := happenings[|happenings| - 2], happenings[|happenings| - 1];
       && scan.Scan? && scan.secretOk && FromV4Link(legacy, scan.pairing) && scan.pairing.pid == pid
       && commit.Deliver? && commit.mail == Promote(pid, false)
       && Commits(worlds[|happenings| - 1], worlds[|happenings|], pid)
  }
}
