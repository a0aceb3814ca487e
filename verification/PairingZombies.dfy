/** No client outlives its owner's interest: sockets and retries belong to the clients the owner still holds. */
module PairingZombies {
  import opened Common
  import opened PairingRecords
  import opened PairingState
  import opened PairingSystem
  import opened PairingRuns
  import Registry = PairingRegistry
  import Relay = RelayState
  import Life = RelayLifecycle
  import Heard = RelayHistory

  /** Calls are only ever added at the end of a queue. */
  ghost predicate Extends(r: Registry.Registry<Cid>, s: Registry.Registry<Cid>) {
    forall c ::
      c in r.calls ==> c in s.calls && |r.calls[c]| <= |s.calls[c]| && s.calls[c][..|r.calls[c]|] == r.calls[c]
  }

  lemma CalledExtends(r: Registry.Registry<Cid>, c: Cid, more: seq<Registry.Call>)
    ensures Extends(r, Registry.Called(r, c, more))
    ensures Registry.Called(r, c, more).calls.Keys == r.calls.Keys + {c}
  {
  }

  lemma ExtendsIsTransitive(r: Registry.Registry<Cid>, s: Registry.Registry<Cid>, t: Registry.Registry<Cid>)
    requires Extends(r, s) && Extends(s, t)
    ensures Extends(r, t)
  {
    forall c | c in r.calls
      ensures c in t.calls && |r.calls[c]| <= |t.calls[c]| && t.calls[c][..|r.calls[c]|] == r.calls[c]
    {
      assert t.calls[c][..|s.calls[c]|][..|r.calls[c]|] == t.calls[c][..|r.calls[c]|];
    }
  }

  lemma SameCalls(r: Registry.Registry<Cid>, s: Registry.Registry<Cid>)
    requires s.calls == r.calls
    ensures Extends(r, s)
  {
  }

  lemma DroppedExtends(r: Registry.Registry<Cid>, did: Did, last: seq<Registry.Call>)
    requires Registry.Tidy(r)
    ensures Extends(r, Registry.Dropped(r, did, last)) && Registry.Dropped(r, did, last).calls.Keys == r.calls.Keys
  {
    Registry.HeldAreMade(r);
    if did in r.clients {
      CalledExtends(r, r.clients[did], last);
      assert r.calls.Keys + {r.clients[did]} == r.calls.Keys;
    }
    hide Registry.Called, Registry.Tidy;
  }

  lemma DroppedPendingExtends(r: Registry.Registry<Cid>, pid: Pid)
    requires Registry.Tidy(r)
    ensures Extends(r, Registry.DroppedPending(r, pid)) && Registry.DroppedPending(r, pid).calls.Keys == r.calls.Keys
  {
    Registry.HeldAreMade(r);
    if pid in r.pendings {
      CalledExtends(r, r.pendings[pid], [Registry.Disconnect]);
      assert r.calls.Keys + {r.pendings[pid]} == r.calls.Keys;
    }
    hide Registry.Called, Registry.Tidy;
  }

  lemma {:induction false} DroppedPendingsExtends(r: Registry.Registry<Cid>, pids: seq<Pid>)
    requires Registry.Tidy(r)
    ensures Extends(r, Registry.DroppedPendings(r, pids))
            && Registry.DroppedPendings(r, pids).calls.Keys == r.calls.Keys
  {
    if pids == [] {
      SameCalls(r, r);
    } else {
      hide Registry.Tidy, Registry.DroppedPending;
      var front := Registry.DroppedPendings(r, pids[..|pids| - 1]);
      DroppedPendingsExtends(r, pids[..|pids| - 1]);
      Registry.DroppedPendingsIsTidy(r, pids[..|pids| - 1]);
      DroppedPendingExtends(front, pids[|pids| - 1]);
      ExtendsIsTransitive(r, front, Registry.DroppedPendings(r, pids));
    }
  }

  lemma OpenedExtends(r: Registry.Registry<Cid>, did: Did, c: Cid)
    requires Registry.Tidy(r) && Registry.Brand(r, c)
    ensures Extends(r, Registry.Opened(r, did, c)) && Registry.Opened(r, did, c).calls.Keys == r.calls.Keys + {c}
  {
    var s := Registry.Dropped(r, did, [Registry.Disconnect]);
    DroppedExtends(r, did, [Registry.Disconnect]);
    Registry.OpenedByParts(r, did, c);
    var t := s.(clients := s.clients[did := c]);
    CalledExtends(t, c, [Registry.SetPhase(false), Registry.Connect]);
    hide Registry.Called, Registry.Tidy, Registry.Dropped, Registry.Opened;
    SameCalls(s, t);
    ExtendsIsTransitive(r, s, t);
    ExtendsIsTransitive(r, t, Registry.Opened(r, did, c));
  }

  lemma BegunExtends(r: Registry.Registry<Cid>, pid: Pid, c: Cid)
    requires Registry.Brand(r, c) && pid !in r.pendings
    ensures Extends(r, Registry.Begun(r, pid, c)) && Registry.Begun(r, pid, c).calls.Keys == r.calls.Keys + {c}
  {
    CalledExtends(r.(pendings := r.pendings[pid := c]), c, [Registry.SetPhase(true), Registry.Connect]);
    hide Registry.Called;
  }

  lemma RekeyedExtends(r: Registry.Registry<Cid>, pid: Pid, did: Did)
    requires Registry.Tidy(r) && pid in r.pendings
    ensures Extends(r, Registry.Rekeyed(r, pid, did)) && Registry.Rekeyed(r, pid, did).calls.Keys == r.calls.Keys
  {
    var s, c := Registry.Dropped(r, did, [Registry.Disconnect]), r.pendings[pid];
    Registry.HeldAreMade(r);
    DroppedExtends(r, did, [Registry.Disconnect]);
    Registry.RekeyedByParts(r, pid, did);
    var t := s.(pendings := s.pendings - {pid}, clients := s.clients[did := c]);
    CalledExtends(t, c, [Registry.SetPhase(false)]);
    assert r.calls.Keys + {c} == r.calls.Keys;
    hide Registry.Called, Registry.Tidy, Registry.Dropped, Registry.Rekeyed;
    SameCalls(s, t);
    ExtendsIsTransitive(r, s, t);
    ExtendsIsTransitive(r, t, Registry.Rekeyed(r, pid, did));
  }

  // The invariant.

  /**
   * The connection is sound, and wanted only if the last lifecycle call the queue has run was a connect, and if so,
   * given an endpoint that can be dialed; and the phase is the one the queue was last told, pending before any.
   */
  ghost predicate Obeys(r: Registry.Registry<Cid>, c: Cid, cell: Cell) {
    && cell.taken <= |Registry.Queue(r, c)| && Life.Lively(cell.state.link)
    && (cell.state.link.wants ==> Registry.LastLifecycle(Registry.Queue(r, c)[..cell.taken]) == Some(Registry.Connect))
    && (cell.cfg.endpoint == Relay.WebSocket
        && Registry.LastLifecycle(Registry.Queue(r, c)[..cell.taken]) == Some(Registry.Connect)
        ==> cell.state.link.wants)
    && cell.state.pendingPhase == Registry.Phase(Registry.Queue(r, c)[..cell.taken]).GetOr(true)
  }

  ghost predicate Ordered(w: World) {
    && Registry.Tidy(w.reg) && w.cells.Keys == w.reg.calls.Keys
    && forall c :: c in w.cells ==> Obeys(w.reg, c, w.cells[c])
  }

  lemma ObeysCarries(r: Registry.Registry<Cid>, s: Registry.Registry<Cid>, c: Cid, cell: Cell)
    requires Extends(r, s) && c in r.calls && Obeys(r, c, cell)
    ensures Obeys(s, c, cell)
  {
    hide Life.Lively, Registry.LastLifecycle, Registry.Phase;
    assert s.calls[c][..|r.calls[c]|][..cell.taken] == s.calls[c][..cell.taken];
  }

  /** The registry changed by queueing calls, the cells did not. */
  lemma QueueingKeepsOrdered(w: World, v: World)
    requires Ordered(w) && Registry.Tidy(v.reg) && Extends(w.reg, v.reg) && v.reg.calls.Keys == w.reg.calls.Keys
    requires v.cells == w.cells
    ensures Ordered(v)
  {
    hide Obeys, Registry.Tidy, Extends;
    forall c | c in v.cells ensures Obeys(v.reg, c, v.cells[c]) {
      ObeysCarries(w.reg, v.reg, c, w.cells[c]);
    }
  }

  lemma NewcomerObeys(r: Registry.Registry<Cid>, c: Cid, cell: Cell)
    requires cell.state.link == Relay.NEW.link && cell.state.pendingPhase && cell.taken == 0
    ensures Obeys(r, c, cell)
  {
  }

  lemma AddingKeepsOrdered(w: World, v: World, c: Cid)
    requires Ordered(w) && Registry.Tidy(v.reg) && Extends(w.reg, v.reg) && v.reg.calls.Keys == w.reg.calls.Keys + {c}
    requires c !in w.reg.calls && c in v.cells && v.cells == w.cells[c := v.cells[c]]
    requires v.cells[c].state.link == Relay.NEW.link && v.cells[c].state.pendingPhase && v.cells[c].taken == 0
    ensures Ordered(v)
  {
    hide Obeys, Registry.Tidy, Extends;
    forall x | x in v.cells ensures Obeys(v.reg, x, v.cells[x]) {
      if x == c {
        NewcomerObeys(v.reg, c, v.cells[c]);
      } else {
        ObeysCarries(w.reg, v.reg, x, w.cells[x]);
      }
    }
  }

  lemma StepKeepsObeys(r: Registry.Registry<Cid>, c: Cid, cell: Cell, step: Relay.Step)
    requires Obeys(r, c, cell) && IsInternal(step) && Relay.Possible(cell.state, step)
    ensures Obeys(r, c, cell.(state := Relay.Next(cell.cfg, cell.state, step).0))
  {
    Life.StepIsLively(cell.cfg, cell.state, step);
    Heard.StepKeepsPhase(cell.cfg, cell.state, step);
    hide Relay.Next, Life.Lively, Registry.LastLifecycle, Registry.Phase;
  }

  lemma TakeKeepsObeys(r: Registry.Registry<Cid>, c: Cid, cell: Cell, tokenFresh: bool)
    requires Obeys(r, c, cell) && cell.taken < |Registry.Queue(r, c)|
    ensures var step := StepOf(Registry.Queue(r, c)[cell.taken], tokenFresh);
            var state := if step.None? then cell.state else Relay.Next(cell.cfg, cell.state, step.value).0;
            Obeys(r, c, cell.(state := state, taken := cell.taken + 1))
  {
    var q := Registry.Queue(r, c);
    var call := q[cell.taken];
    assert q[..cell.taken + 1] == q[..cell.taken] + [call];
    Registry.LastOfAppended(q[..cell.taken], call);
    var step := StepOf(call, tokenFresh);
    if step.Some? {
      Life.StepIsLively(cell.cfg, cell.state, step.value);
      Life.NextDisconnects(cell.cfg, cell.state);
      if call.Connect? && cell.cfg.endpoint == Relay.WebSocket {
        Life.NextConnects(cell.cfg, cell.state, tokenFresh);
      }
      Heard.StepKeepsPhase(cell.cfg, cell.state, step.value);
      hide Relay.Next, Life.Lively, Registry.LastLifecycle, Registry.Phase;
    }
  }

  lemma CellKeepsOrdered(w: World, v: World, c: Cid)
    requires Ordered(w) && c in w.cells && v.reg == w.reg && c in v.cells && v.cells == w.cells[c := v.cells[c]]
    requires Obeys(w.reg, c, v.cells[c])
    ensures Ordered(v)
  {
    hide Obeys, Registry.Tidy;
  }

  lemma DeliveryKeepsOrdered(legacy: Did -> Pid, w: World, m: Mail, now: int, secret: Reads, saveOk: bool,
                             view: Option<seq<Blob>>)
    requires Ordered(w)
    ensures Ordered(Delivered(legacy, w, m, now, secret, saveOk, view))
  {
    var v := Delivered(legacy, w, m, now, secret, saveOk, view);
    hide Promoted, Unpaired, Registry.Tidy, Registry.Dropped, Registry.DroppedPending, Registry.Rekeyed, Obeys, Extends;
    SameCalls(w.reg, w.reg);
    match m
    case UnpairedBy(did) => {
      DroppedExtends(w.reg, did, [Registry.Disconnect]);
      Registry.DroppedIsTidy(w.reg, did, [Registry.Disconnect]);
      QueueingKeepsOrdered(w, v);
    }
    case Promote(pid, _) => {
      if pid in w.reg.pendings {
        if pid !in w.store.pending || !secret.owner {
          DroppedPendingExtends(w.reg, pid);
          Registry.DroppedPendingIsTidy(w.reg, pid);
        } else if secret.store && saveOk {
          RekeyedExtends(w.reg, pid, w.store.pending[pid].pairing.did);
          Registry.RekeyedIsTidy(w.reg, pid, w.store.pending[pid].pairing.did);
        }
      }
      QueueingKeepsOrdered(w, v);
    }
  }

  lemma HappeningKeepsOrdered(legacy: Did -> Pid, owner: Pid -> Did, w: World, h: Happening, v: World)
    requires Ordered(w) && Happens(legacy, owner, w, h, v)
    ensures Ordered(v)
  {
    hide Registry.Tidy, Registry.Dropped, Registry.DroppedPending, Registry.DroppedPendings, Registry.Opened,
         Registry.Begun, Registry.Called, Obeys, Extends, Hidden, Unpaired, Ingested, Delivered, Step, StoreAfterAll,
         Posted, Relay.Next;
    SameCalls(w.reg, w.reg);
    match h
    case Begin(pid, c, cfg, token) => {
      BegunExtends(w.reg, pid, c);
      Registry.BegunIsTidy(w.reg, pid, c);
      AddingKeepsOrdered(w, v, c);
    }
    case Open(did, c, cfg, token) => {
      OpenedExtends(w.reg, did, c);
      Registry.OpenedIsTidy(w.reg, did, c);
      AddingKeepsOrdered(w, v, c);
    }
    case Nudge(c) => { NudgeKeepsOrdered(w, v, c); }
    case Cancel(pid) => {
      DroppedPendingExtends(w.reg, pid);
      Registry.DroppedPendingIsTidy(w.reg, pid);
      QueueingKeepsOrdered(w, v);
    }
    case Remove(did, view) => {
      DroppedExtends(w.reg, did, [Registry.SendUnpair, Registry.Disconnect]);
      Registry.DroppedIsTidy(w.reg, did, [Registry.SendUnpair, Registry.Disconnect]);
      QueueingKeepsOrdered(w, v);
    }
    case Hide(did, view) => {
      var s, pids := Registry.Dropped(w.reg, did, [Registry.Disconnect]), PendingOf(w.store, did, w.store.pendingOrder);
      DroppedExtends(w.reg, did, [Registry.Disconnect]);
      Registry.DroppedIsTidy(w.reg, did, [Registry.Disconnect]);
      DroppedPendingsExtends(s, pids);
      Registry.DroppedPendingsIsTidy(s, pids);
      ExtendsIsTransitive(w.reg, s, v.reg);
      QueueingKeepsOrdered(w, v);
    }
    case Deliver(m, now, secret, saveOk, view) => {
      DeliveryKeepsOrdered(legacy, w.(mail := w.mail - multiset{m}), m, now, secret, saveOk, view);
    }
    case Take(c, tokenFresh) => {
      TakeKeepsObeys(w.reg, c, w.cells[c], tokenFresh);
      CellKeepsOrdered(w, v, c);
    }
    case Internal(c, step) => {
      StepKeepsObeys(w.reg, c, w.cells[c], step);
      CellKeepsOrdered(w, v, c);
    }
    case Relaunch => { BlankIsOrdered(w.store.(lastGood := None)); }
    case _ => { QueueingKeepsOrdered(w, v); }
  }

  lemma NudgeKeepsOrdered(w: World, v: World, c: Cid)
    requires Ordered(w) && c in w.reg.clients.Values + w.reg.pendings.Values
    requires v == w.(reg := Registry.Called(w.reg, c, [Registry.Connect]))
    ensures Ordered(v)
  {
    assert Registry.HeldByDaemon(w.reg, c) || Registry.HeldByPending(w.reg, c);
    assert c in w.reg.calls;
    CalledExtends(w.reg, c, [Registry.Connect]);
    Registry.NudgedIsTidy(w.reg, c);
    assert w.reg.calls.Keys + {c} == w.reg.calls.Keys;
    hide Registry.Tidy, Registry.Called;
    QueueingKeepsOrdered(w, v);
  }

  lemma BlankIsOrdered(s: Store)
    ensures Ordered(BLANK.(store := s))
  {
  }

  lemma {:induction false} EveryWorldIsOrdered(legacy: Did -> Pid, owner: Pid -> Did, happenings: seq<Happening>,
                                               worlds: seq<World>, k: nat)
    requires History(legacy, owner, happenings, worlds) && k < |worlds|
    ensures Ordered(worlds[k])
  {
    if k == 0 {
      BlankIsOrdered(FRESH);
    } else {
      hide Ordered, Happens;
      EveryWorldIsOrdered(legacy, owner, happenings, worlds, k - 1);
      HappeningKeepsOrdered(legacy, owner, worlds[k - 1], happenings[k - 1], worlds[k]);
    }
  }

  // The claims.

  ghost predicate Held(w: World, c: Cid) {
    Registry.HeldByDaemon(w.reg, c) || Registry.HeldByPending(w.reg, c)
  }

  /** The client's queue has run every call made on it. */
  predicate Drained(w: World, c: Cid)
    requires c in w.cells
  {
    w.cells[c].taken == |Registry.Queue(w.reg, c)|
  }

  function Busy(w: World): set<Cid> {
    set c | c in w.cells && (w.cells[c].state.link.sockets != {} || w.cells[c].state.link.armed != {})
  }

  lemma DrainedIsWanted(w: World, c: Cid)
    requires Ordered(w) && c in w.cells && Drained(w, c)
    ensures |w.cells[c].state.link.sockets| + |w.cells[c].state.link.armed| <= 1
    ensures c in Busy(w) ==> Registry.LastLifecycle(Registry.Queue(w.reg, c)) == Some(Registry.Connect)
    ensures c in Busy(w) ==> Held(w, c)
  {
    var q := Registry.Queue(w.reg, c);
    assert Obeys(w.reg, c, w.cells[c]) && Registry.Kept(w.reg, c);
    Life.QuietWhenUnwanted(w.cells[c].state.link);
    assert q[..|q|] == q;
    hide Registry.LastLifecycle, Registry.Phase, Life.Lively;
  }

  /**
   * In every history: a client its owner has dropped, once it has run its calls, holds no socket and no retry; and once
   * all have, the sockets and retries on the device, one each, are no more than the clients the owner holds.
   */
  lemma NoZombies(legacy: Did -> Pid, owner: Pid -> Did, happenings: seq<Happening>, worlds: seq<World>, k: nat)
    requires History(legacy, owner, happenings, worlds) && k < |worlds|
    ensures var w := worlds[k];
            && (forall c :: c in w.cells && !Held(w, c) && Drained(w, c)
                  ==> w.cells[c].state.link.sockets == {} && w.cells[c].state.link.armed == {})
            && (forall c :: c in w.cells && Drained(w, c)
                  ==> |w.cells[c].state.link.sockets| + |w.cells[c].state.link.armed| <= 1)
            && ((forall c :: c in w.cells ==> Drained(w, c)) ==> |Busy(w)| <= |w.reg.clients| + |w.reg.pendings|)
  {
    var w := worlds[k];
    EveryWorldIsOrdered(legacy, owner, happenings, worlds, k);
    hide History;
    forall c | c in w.cells && Drained(w, c)
      ensures |w.cells[c].state.link.sockets| + |w.cells[c].state.link.armed| <= 1
      ensures !Held(w, c) ==> w.cells[c].state.link.sockets == {} && w.cells[c].state.link.armed == {}
      ensures c in Busy(w) ==> Registry.LastLifecycle(Registry.Queue(w.reg, c)) == Some(Registry.Connect)
    {
      DrainedIsWanted(w, c);
    }
    if forall c :: c in w.cells ==> Drained(w, c) {
      Registry.WantedAreHeld(w.reg, Busy(w));
    }
  }

  lemma HeldIsServed(w: World, c: Cid)
    requires Ordered(w) && c in w.cells && Drained(w, c) && Held(w, c)
    ensures w.cells[c].state.pendingPhase <==> Registry.HeldByPending(w.reg, c)
    ensures w.cells[c].cfg.endpoint == Relay.WebSocket ==>
              |w.cells[c].state.link.sockets| + |w.cells[c].state.link.armed| == 1
  {
    var q := Registry.Queue(w.reg, c);
    assert Obeys(w.reg, c, w.cells[c]) && Registry.Kept(w.reg, c);
    Life.QuietWhenUnwanted(w.cells[c].state.link);
    assert q[..|q|] == q;
    hide Registry.LastLifecycle, Registry.Phase, Life.Lively;
  }

  /**
   * In every history a client its owner holds, once it has run its calls, is in the phase of the map it is held in, and
   * if its endpoint can be dialed it has exactly one socket or retry.
   */
  lemma HeldAreServed(legacy: Did -> Pid, owner: Pid -> Did, happenings: seq<Happening>, worlds: seq<World>, k: nat,
                      c: Cid)
    requires History(legacy, owner, happenings, worlds) && k < |worlds|
    requires c in worlds[k].cells && Drained(worlds[k], c) && Held(worlds[k], c)
    ensures worlds[k].cells[c].state.pendingPhase <==> Registry.HeldByPending(worlds[k].reg, c)
    ensures worlds[k].cells[c].cfg.endpoint == Relay.WebSocket ==>
              |worlds[k].cells[c].state.link.sockets| + |worlds[k].cells[c].state.link.armed| == 1
  {
    EveryWorldIsOrdered(legacy, owner, happenings, worlds, k);
    hide History, Ordered;
    HeldIsServed(worlds[k], c);
  }
}
