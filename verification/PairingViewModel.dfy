/** The owner of the relay clients: one per committed daemon, one per pending pairing, none left running otherwise. */
module PairingViewModelModel {
  import opened Common
  import opened PairingRecords
  import opened PairingState
  import opened PairingReconcile
  import opened PairingFrames
  import opened PairingRecordStoreModel
  import opened PairingStoreModel
  import opened PairingRuns
  import opened PairingListing
  import Registry = PairingRegistry

  /** A relay client as its owner sees it: a serial queue that takes calls. */
  class ClientHandle {
    var queue: seq<Registry.Call>

    constructor ()
      ensures queue == []
    {
      queue := [];
    }

    method Connect()
      modifies this
      ensures queue == old(queue) + [Registry.Connect]
    {
      queue := queue + [Registry.Connect];
    }

    method Disconnect()
      modifies this
      ensures queue == old(queue) + [Registry.Disconnect]
    {
      queue := queue + [Registry.Disconnect];
    }

    method SetPairingPhase(pending: bool)
      modifies this
      ensures queue == old(queue) + [Registry.SetPhase(pending)]
    {
      queue := queue + [Registry.SetPhase(pending)];
    }

    method SendControlUnpair()
      modifies this
      ensures queue == old(queue) + [Registry.SendUnpair]
    {
      queue := queue + [Registry.SendUnpair];
    }
  }

  class PairingViewModel {
    const store: PairingStore
    var daemonIds: seq<Did>
    var clients: map<Did, ClientHandle>
    var pendingClients: map<Pid, ClientHandle>
    ghost var made: set<ClientHandle>

    ghost function State(): Registry.Registry<ClientHandle>
      reads this, made
    {
      Registry.Registry(clients, pendingClients, map h | h in made :: h.queue)
    }

    ghost predicate Valid()
      reads this, made, store, store.records
    {
      Registry.Tidy(State()) && store.Valid()
    }

    constructor (store: PairingStore)
      requires store.Valid()
      ensures Valid() && this.store == store && State() == Registry.Registry(map[], map[], map[])
    {
      this.store := store;
      daemonIds, clients, pendingClients, made := [], map[], map[], {};
    }

    method Reload() returns (ghost view: Option<seq<Blob>>)
      requires Valid()
      modifies this`daemonIds, store, store.records
      ensures Valid() && State() == old(State()) && unchanged(this`clients, this`pendingClients, this`made)
      ensures Faithful(view, old(store.records.locked), old(store.records.items))
      ensures store.State() == Reconciled(old(store.State()), view).0
      ensures daemonIds == Reconciled(old(store.State()), view).1.order
    {
      hide Registry.Tidy, Reconciled, Faithful, WellFormed;
      daemonIds, view := store.DaemonIds();
      assert State() == old(State());
    }

    method DisconnectDaemon(did: Did)
      requires Registry.Tidy(State())
      modifies made
      ensures State() == Registry.CalledAt(old(State()), did, [Registry.Disconnect])
    {
      Registry.HeldAreMade(State());
      if did in clients {
        clients[did].Disconnect();
      }
    }

    method DisconnectPending(pid: Pid)
      requires Registry.Tidy(State())
      modifies made
      ensures State() == Registry.CalledPending(old(State()), pid, [Registry.Disconnect])
    {
      Registry.HeldAreMade(State());
      if pid in pendingClients {
        pendingClients[pid].Disconnect();
      }
    }

    method NewClient(pending: bool) returns (client: ClientHandle)
      ensures fresh(client) && client.queue == [Registry.SetPhase(pending), Registry.Connect]
    {
      client := new ClientHandle();
      client.SetPairingPhase(pending);
      client.Connect();
    }

    /** Replace the daemon's client by a new one in the committed phase. */
    method Rebuild(did: Did)
      requires Registry.Tidy(State())
      modifies this`clients, this`made, made
      ensures Registry.Tidy(State())
      ensures did in clients && fresh(clients[did]) && made == old(made) + {clients[did]}
      ensures State() == Registry.Opened(old(State()), did, clients[did])
    {
      ghost var r := State();
      hide Registry.Tidy, Registry.CalledAt;
      DisconnectDaemon(did);
      ghost var s := State();
      var client := NewClient(false);
      AddedToQueues(s, client, [Registry.SetPhase(false), Registry.Connect]);
      clients := clients[did := client];
      made := made + {client};
      assert State().calls == s.calls[client := client.queue];
      Registry.OpenedIsTidy(r, did, client);
    }

    /** Build the daemon's client anew from its stored record, in the committed phase. */
    method Connect(did: Did) returns (found: bool)
      requires Valid()
      modifies this`clients, this`made, made, store, store.records
      ensures Valid()
      ensures !found ==> State() == old(State()) && made == old(made)
      ensures found ==> did in clients && fresh(clients[did]) && made == old(made) + {clients[did]}
      ensures found ==> State() == Registry.Opened(old(State()), did, clients[did])
      ensures found ==> Registry.TellsOnly(old(State()), State(),
                          (if did in old(clients) then map[old(clients)[did] := [Registry.Disconnect]] else map[])
                          + map[clients[did] := [Registry.SetPhase(false), Registry.Connect]])
    {
      hide Registry.Tidy, Registry.Opened, Reconciled, Faithful, WellFormed;
      var blob, floor;
      ghost var view;
      blob, floor, view := store.Load(did);
      assert State() == old(State());
      found := blob.Some?;
      if found {
        ghost var r := State();
        Rebuild(did);
        Registry.OpenedTells(r, did, clients[did]);
      }
    }

    /** Start a pending pairing's client, once: a second call while one exists does nothing. */
    method BeginPending(pid: Pid, secretOk: bool)
      requires Valid()
      modifies this`pendingClients, this`made, made
      ensures Valid() && store.State() == old(store.State()) && fresh(made - old(made))
      ensures if pid in old(pendingClients) || pid !in store.pendingMeta || !secretOk
              then State() == old(State())
              else pid in pendingClients && fresh(pendingClients[pid])
                   && State() == Registry.Begun(old(State()), pid, pendingClients[pid])
                   && Registry.TellsOnly(old(State()), State(),
                                         map[pendingClients[pid] := [Registry.SetPhase(true), Registry.Connect]])
    {
      ghost var r := State();
      hide Registry.Tidy, WellFormed;
      if pid in pendingClients || store.LoadPending(pid, secretOk).None? {
        return;
      }
      var client := NewClient(true);
      AddedToQueues(r, client, [Registry.SetPhase(true), Registry.Connect]);
      pendingClients := pendingClients[pid := client];
      made := made + {client};
      assert State().calls == r.calls[client := client.queue];
      Registry.BegunIsTidy(r, pid, client);
      Registry.BegunTells(r, pid, client);
    }

    // Dropping clients.

    method DropClient(did: Did)
      requires Registry.Tidy(State())
      modifies this`clients, made
      ensures Registry.Tidy(State()) && State() == Registry.Dropped(old(State()), did, [Registry.Disconnect])
    {
      ghost var r := State();
      Registry.DroppedIsTidy(r, did, [Registry.Disconnect]);
      hide Registry.Tidy, Registry.CalledAt;
      DisconnectDaemon(did);
      ghost var s := State();
      clients := clients - {did};
      assert State().calls == s.calls && State().clients == s.clients - {did} && State().pendings == s.pendings;
      assert State() == Registry.Dropped(r, did, [Registry.Disconnect]);
    }

    method DropPending(pid: Pid)
      requires Registry.Tidy(State())
      modifies this`pendingClients, made
      ensures Registry.Tidy(State()) && State() == Registry.DroppedPending(old(State()), pid)
    {
      ghost var r := State();
      Registry.DroppedPendingIsTidy(r, pid);
      hide Registry.Tidy, Registry.CalledPending;
      DisconnectPending(pid);
      ghost var s := State();
      pendingClients := pendingClients - {pid};
      assert State().calls == s.calls && State().pendings == s.pendings - {pid} && State().clients == s.clients;
      assert State() == Registry.DroppedPending(r, pid);
    }

    method DropPendings(pids: seq<Pid>)
      requires Registry.Tidy(State())
      modifies this`pendingClients, made
      ensures Registry.Tidy(State()) && State() == Registry.DroppedPendings(old(State()), pids)
    {
      hide Registry.Tidy, Registry.DroppedPending;
      for i := 0 to |pids|
        invariant Registry.Tidy(State()) && State() == Registry.DroppedPendings(old(State()), pids[..i])
      {
        PrefixStep(pids, i);
        DropPending(pids[i]);
      }
      assert pids[..|pids|] == pids;
    }

    method CancelPending(pid: Pid)
      requires Valid()
      modifies this`pendingClients, made, store
      ensures Valid()
      ensures State() == Registry.DroppedPending(old(State()), pid)
              && store.State() == PendingRemoved(old(store.State()), pid)
      ensures Registry.TellsOnly(old(State()), State(),
                                 if pid in old(pendingClients)
                                     then map[old(pendingClients)[pid] := [Registry.Disconnect]]
                                 else map[])
    {
      Registry.DroppedPendingTells(State(), pid);
      ghost var s := store.State();
      DropPendingKeepsWellFormed(s, pid);
      hide Registry.Tidy, Registry.DroppedPending, WellFormed;
      DropPending(pid);
      store.RemovePending(pid);
      assert State() == Registry.DroppedPending(old(State()), pid);
    }

    /** Unpair: tell the peer while the socket still lives, then tear down and delete everywhere. */
    method Remove(did: Did) returns (ghost gone: Option<seq<Blob>>, ghost view: Option<seq<Blob>>)
      requires Valid()
      modifies this`clients, this`daemonIds, made, store, store.records
      ensures Valid()
      ensures State() == Registry.Dropped(old(State()), did, [Registry.SendUnpair, Registry.Disconnect])
      ensures store.State() == Reconciled(Unpaired(store.deriveLegacyPairingId, old(store.State()), did, gone), view).0
      ensures Registry.TellsOnly(old(State()), State(),
                                 if did !in old(clients) then map[]
                                 else map[old(clients)[did] := [Registry.SendUnpair, Registry.Disconnect]])
    {
      Registry.DroppedTells(State(), did, [Registry.SendUnpair, Registry.Disconnect]);
      hide Registry.Tidy, Registry.Dropped, WellFormed, Unpaired, Reconciled, Faithful;
      DropAndTell(did);
      ghost var r := State();
      gone := store.Remove(did);
      assert State() == r;
      view := Reload();
    }

    method DropAndTell(did: Did)
      requires Registry.Tidy(State())
      modifies this`clients, made
      ensures Registry.Tidy(State())
      ensures State() == Registry.Dropped(old(State()), did, [Registry.SendUnpair, Registry.Disconnect])
    {
      ghost var r := State();
      Registry.DroppedIsTidy(r, did, [Registry.SendUnpair, Registry.Disconnect]);
      hide Registry.Tidy, Registry.CalledAt;
      UnpairAndDisconnect(did);
      ghost var s := State();
      clients := clients - {did};
      assert State().calls == s.calls && State().clients == s.clients - {did} && State().pendings == s.pendings;
      assert State() == Registry.Dropped(r, did, [Registry.SendUnpair, Registry.Disconnect]);
    }

    method UnpairAndDisconnect(did: Did)
      requires Registry.Tidy(State())
      modifies made
      ensures State() == Registry.CalledAt(old(State()), did, [Registry.SendUnpair, Registry.Disconnect])
    {
      Registry.HeldAreMade(State());
      if did in clients {
        ghost var q := clients[did].queue;
        clients[did].SendControlUnpair();
        clients[did].Disconnect();
        assert clients[did].queue == q + [Registry.SendUnpair, Registry.Disconnect];
      }
    }

    /** The daemon unpaired us: the same teardown without answering. */
    method OnUnpair(did: Did) returns (ghost gone: Option<seq<Blob>>, ghost view: Option<seq<Blob>>)
      requires Valid()
      modifies this`clients, this`daemonIds, made, store, store.records
      ensures Valid() && State() == Registry.Dropped(old(State()), did, [Registry.Disconnect])
      ensures store.State() == Reconciled(Unpaired(store.deriveLegacyPairingId, old(store.State()), did, gone), view).0
      ensures Registry.TellsOnly(old(State()), State(),
                                 if did in old(clients) then map[old(clients)[did] := [Registry.Disconnect]] else map[])
    {
      Registry.DroppedTells(State(), did, [Registry.Disconnect]);
      hide Registry.Tidy, Registry.Dropped, WellFormed, Unpaired, Reconciled, Faithful;
      DropClient(did);
      ghost var r := State();
      gone := store.Remove(did);
      assert State() == r;
      view := Reload();
    }

    /** Hide on this device: no unpair is sent, and the swept pending pairings lose their clients. */
    method HideLocally(did: Did) returns (ghost gone: Option<seq<Blob>>, ghost view: Option<seq<Blob>>)
      requires Valid()
      modifies this`clients, this`pendingClients, this`daemonIds, made, store, store.records
      ensures Valid()
      ensures State() == Registry.DroppedPendings(Registry.Dropped(old(State()), did, [Registry.Disconnect]),
                                                  PendingOf(old(store.State()), did, old(store.State()).pendingOrder))
      ensures store.State() == Reconciled(Hidden(old(store.State()), did, gone), view).0
      ensures did !in daemonIds
    {
      ghost var s := store.State();
      hide Registry.Tidy, Registry.Dropped, Registry.DroppedPendings, WellFormed, Hidden, Reconciled, PendingOf,
           Faithful;
      DropClient(did);
      ghost var r := State();
      var swept;
      swept, gone := store.HideLocally(did);
      assert State() == r;
      DropPendings(swept);
      ghost var q := State();
      view := Reload();
      HiddenIsUnlisted(s, did, gone, view);
    }

    // Promotion.

    /** Move a pending client to its daemon, still connected; the client it displaces is disconnected. */
    method Rekey(pid: Pid, did: Did)
      requires Registry.Tidy(State()) && pid in pendingClients
      modifies this`clients, this`pendingClients, made
      ensures Registry.Tidy(State()) && State() == Registry.Rekeyed(old(State()), pid, did)
      ensures clients == old(clients)[did := old(pendingClients)[pid]] && pendingClients == old(pendingClients) - {pid}
      ensures Registry.TellsOnly(old(State()), State(),
                                 (if did in old(clients) then map[old(clients)[did] := [Registry.Disconnect]]
                                  else map[])
                                 + map[old(pendingClients)[pid] := [Registry.SetPhase(false)]])
    {
      hide Registry.Tidy, Registry.Rekeyed, Registry.CalledAt, Registry.OnceEach, Registry.TellsOnly;
      ghost var r := State();
      Registry.HeldAreMade(r);
      Registry.RekeyedTells(r, pid, did);
      Registry.RekeyedIsTidy(r, pid, did);
      Registry.RekeyedBySteps(r, pid, did);
      var client := pendingClients[pid];
      pendingClients := pendingClients - {pid};
      assert State() == r.(pendings := r.pendings - {pid});
      DisconnectStale(did, client);
      ghost var m := State();
      Repoint(did, client);
      assert Registry.Queue(m, client) == m.calls[client];
    }

    method Repoint(did: Did, client: ClientHandle)
      requires client in made
      modifies this`clients, client
      ensures State() == old(State()).(clients := old(clients)[did := client],
                                       calls := old(State()).calls[client := old(client.queue)
                                                                   + [Registry.SetPhase(false)]])
    {
      client.SetPairingPhase(false);
      clients := clients[did := client];
    }

    method DisconnectStale(did: Did, client: ClientHandle)
      requires client in made && (did in clients ==> clients[did] in made && clients[did] != client)
      modifies made
      ensures State() == Registry.CalledAt(old(State()), did, [Registry.Disconnect])
      ensures client.queue == old(client.queue)
    {
      if did in clients {
        clients[did].Disconnect();
      }
    }

    /**
     * A confirmed pairing: commit its record and re-key its client. A record that is gone, or whose secret cannot be
     * read, disposes of the client; a failed save, or a secret the store then cannot read, leaves the client pending.
     */
    method PromoteConfirmed(pid: Pid, now: int, secretOk: bool, secretStillOk: bool, added: bool)
      returns (r: Promotion, ghost gone: Option<seq<Blob>>, ghost view: Option<seq<Blob>>)
      requires Valid()
      modifies this`clients, this`pendingClients, this`daemonIds, made, store, store.records
      ensures Valid()
      ensures pid !in old(pendingClients) ==> State() == old(State()) && store.State() == old(store.State())
      ensures pid in old(pendingClients) && !(pid in old(store.pendingMeta) && secretOk) ==>
        State() == Registry.DroppedPending(old(State()), pid) && store.State() == old(store.State())
      ensures pid in old(pendingClients) && pid in old(store.pendingMeta) && secretOk ==>
        var did := old(store.pendingMeta)[pid].pairing.did;
        var (s, o) := Promoted(store.deriveLegacyPairingId, old(store.State()), pid, now, secretStillOk, added, gone);
        if secretStillOk && added
            then State() == Registry.Rekeyed(old(State()), pid, did) && store.State() == Reconciled(s, view).0
                      && did in daemonIds
        else State() == old(State()) && store.State() == s
    {
      r, gone, view := NothingPending, None, None;
      if pid !in pendingClients {
        return;
      }
      var pending := store.LoadPending(pid, secretOk);
      if pending.None? {
        hide Registry.Tidy, Registry.DroppedPending;
        DropPending(pid);
        return;
      }
      hide Registry.Tidy, Registry.Rekeyed, WellFormed, Promoted, Reconciled, Faithful;
      ghost var s := store.State();
      ghost var before := State();
      r, gone := store.Promote(pid, now, secretStillOk, added);
      assert State() == before;
      PromotionOutcome(store.deriveLegacyPairingId, s, pid, now, secretStillOk, added, gone);
      if r == Committed {
        Rekey(pid, pending.value.did);
        ghost var t := State();
        ghost var committed := store.State();
        view := Reload();
        CommittedIsListed(store.deriveLegacyPairingId, s, pid, now, gone, view);
      }
    }

    // Foreground.

    method NudgeClient(client: ClientHandle)
      requires Registry.Tidy(State()) && client in clients.Values + pendingClients.Values
      modifies made
      ensures Registry.Tidy(State()) && State() == Registry.Called(old(State()), client, [Registry.Connect])
    {
      ghost var r := State();
      assert Registry.HeldByDaemon(r, client) || Registry.HeldByPending(r, client);
      assert client in made;
      Registry.NudgedIsTidy(r, client);
      hide Registry.Tidy;
      client.Connect();
      assert State().calls == r.calls[client := r.calls[client] + [Registry.Connect]];
    }

    /** Every listed client is asked to connect, only missing ones are built, and none is disconnected or replaced. */
    method NudgeReconnectAll(secretsOk: bool) returns (ghost view: Option<seq<Blob>>)
      requires Valid()
      modifies this`clients, this`pendingClients, this`daemonIds, this`made, made, store, store.records
      ensures Valid() && Registry.Gentle(old(State()), State())
      ensures Registry.AllAsked(old(State()), State(), daemonIds)
      ensures Registry.AllPendingAsked(old(State()), State(), store.pendingIndex)
    {
      ghost var r := State();
      Registry.GentleSelf(r);
      hide Registry.Tidy, Registry.Gentle, Registry.Asked, WellFormed, Reconciled;
      view := Reload();
      NudgeDaemons(daemonIds);
      ghost var s := State();
      NudgePendings(store.pendingIndex, secretsOk);
      Registry.GentleIsTransitive(r, s, State());
      Registry.AskedGoesOn(r, s, State(), daemonIds, []);
      Registry.PendingAskedBefore(r, s, State(), store.pendingIndex);
    }

    method NudgeDaemons(dids: seq<Did>)
      requires Valid()
      modifies this`clients, this`made, made, store, store.records
      ensures Valid() && Registry.Gentle(old(State()), State()) && fresh(made - old(made))
      ensures Registry.AllAsked(old(State()), State(), dids)
    {
      ghost var r := State();
      Registry.GentleSelf(r);
      hide Registry.Tidy, Registry.Gentle, Registry.Asked, WellFormed;
      for i := 0 to |dids|
        invariant Valid() && Registry.Gentle(r, State()) && fresh(made - old(made))
        invariant Registry.AllAsked(r, State(), dids[..i])
      {
        ghost var s := State();
        NudgeDaemon(dids[i]);
        PrefixStep(dids, i);
        Registry.GentleIsTransitive(r, s, State());
        Registry.OneMoreAsked(r, s, State(), dids[..i], dids[i]);
      }
      assert dids[..|dids|] == dids;
    }

    method NudgePendings(pids: seq<Pid>, secretsOk: bool)
      requires Valid()
      modifies this`pendingClients, this`made, made
      ensures Valid() && Registry.Gentle(old(State()), State()) && fresh(made - old(made))
      ensures Registry.AllPendingAsked(old(State()), State(), pids)
    {
      ghost var r := State();
      Registry.GentleSelf(r);
      hide Registry.Tidy, Registry.Gentle, Registry.Asked, WellFormed;
      for i := 0 to |pids|
        invariant Valid() && Registry.Gentle(r, State()) && fresh(made - old(made))
        invariant Registry.AllPendingAsked(r, State(), pids[..i])
      {
        ghost var s := State();
        NudgePending(pids[i], secretsOk);
        PrefixStep(pids, i);
        Registry.GentleIsTransitive(r, s, State());
        Registry.OneMorePendingAsked(r, s, State(), pids[..i], pids[i]);
      }
      assert pids[..|pids|] == pids;
    }

    method NudgeDaemon(did: Did)
      requires Valid()
      modifies this`clients, this`made, made, store, store.records
      ensures Valid() && Registry.Gentle(old(State()), State()) && fresh(made - old(made))
      ensures did in old(clients) ==> Registry.Asked(old(State()), State(), old(clients)[did])
    {
      ghost var r := State();
      hide Registry.Tidy, Registry.Gentle, Registry.Opened, Registry.Called, Registry.Asked, WellFormed;
      if did in clients {
        var client := clients[did];
        HeldIsMade(r, client);
        Registry.GentleCall(r, client);
        Registry.CalledIsAsked(r, client);
        NudgeClient(client);
      } else {
        var found := Connect(did);
        if found {
          Registry.GentleOpened(r, did, clients[did]);
        } else {
          Registry.GentleSelf(r);
        }
      }
    }

    method NudgePending(pid: Pid, secretOk: bool)
      requires Valid()
      modifies this`pendingClients, this`made, made
      ensures Valid() && Registry.Gentle(old(State()), State()) && fresh(made - old(made))
      ensures pid in old(pendingClients) ==> Registry.Asked(old(State()), State(), old(pendingClients)[pid])
    {
      ghost var r := State();
      hide Registry.Tidy, Registry.Gentle, Registry.Begun, Registry.Called, Registry.Asked, WellFormed;
      if pid in pendingClients {
        var client := pendingClients[pid];
        HeldIsMade(r, client);
        Registry.GentleCall(r, client);
        Registry.CalledIsAsked(r, client);
        NudgeClient(client);
      } else {
        Registry.GentleSelf(r);
        BeginPending(pid, secretOk);
        if pid in pendingClients {
          Registry.GentleBegun(r, pid, pendingClients[pid]);
        }
      }
    }
  }

  lemma HeldIsMade(r: Registry.Registry<ClientHandle>, c: ClientHandle)
    requires Registry.Tidy(r) && c in r.clients.Values + r.pendings.Values
    ensures c in r.calls
  {
  }

  lemma PromotionOutcome(legacy: Did -> Pid, s: Store, pid: Pid, now: int, secretOk: bool, added: bool,
                         gone: Option<seq<Blob>>)
    requires pid in s.pending
    ensures Promoted(legacy, s, pid, now, secretOk, added, gone).1 == if secretOk && added then Committed else Failed
  {
    hide Persisted;
  }

  /** Whatever was read while committing and is read afterwards, a committed daemon is on the list. */
  lemma CommittedIsListed(legacy: Did -> Pid, s: Store, pid: Pid, now: int, gone: Option<seq<Blob>>,
                          view: Option<seq<Blob>>)
    requires WellFormed(s) && pid in s.pending
    ensures s.pending[pid].pairing.did in Reconciled(Promoted(legacy, s, pid, now, true, true, gone).0, view).1.order
  {
    hide Persisted, Reconciled, WellFormed, Without, PidsFor, FloorOf;
    var p := s.pending[pid].pairing;
    var t := Promoted(legacy, s, pid, now, true, true, gone).0;
    PersistedFields(legacy, s, p, now, gone);
    PersistedIsWellFormed(legacy, s, p, now, gone);
    DropPendingKeepsWellFormed(Persisted(legacy, s, p, now, gone), pid);
    assert p.pid !in t.hidden && p.did in t.ptr.index && t.ptr.index[p.did] == p.pid;
    ReadLists(t, view, p.did);
    ReconcileKeepsWellFormed(t, view);
    UnfoldPointers(Reconciled(t, view).0);
  }

  /**
   * Whatever is read at the hide and afterwards, a daemon just hidden is on the list read back exactly if that read
   * shows a record of it that neither was hidden before nor is among those the hide tombstoned.
   */
  lemma HiddenIsListedIff(s: Store, did: Did, gone: Option<seq<Blob>>, view: Option<seq<Blob>>)
    requires WellFormed(s)
    ensures did in Reconciled(Hidden(s, did, gone), view).1.order
            <==> view.Some? && ShowsOf(view.value, s.hidden + Tombs(s, did, gone), did)
  {
    hide Hidden, Reconciled, WellFormed, ShowsOf, ShowsAny, Tombs;
    var t := Hidden(s, did, gone);
    HiddenFrame(s, did, gone);
    HiddenIsWellFormed(s, did, gone);
    ReadLists(t, view, did);
    ReconcileKeepsWellFormed(t, view);
    UnfoldPointers(Reconciled(t, view).0);
    if view.Some? && ShowsOf(view.value, t.hidden, did) {
      ShowsOfIsAny(view.value, t.hidden, did);
    }
  }

  /** If both reads are complete or refused, it is not. */
  lemma HiddenIsUnlisted(s: Store, did: Did, gone: Option<seq<Blob>>, view: Option<seq<Blob>>)
    requires WellFormed(s) && Faithful(gone, s.locked, s.items)
    requires Faithful(view, s.locked, s.items)
    ensures did !in Reconciled(Hidden(s, did, gone), view).1.order
  {
    HiddenIsListedIff(s, did, gone, view);
    hide Hidden, Reconciled, WellFormed, Tombs;
    if view.Some? {
      TombsAreItems(s, did, gone.value);
    }
  }

  /** The first calls on a client that had none. */
  lemma AddedToQueues(s: Registry.Registry<ClientHandle>, c: ClientHandle, calls: seq<Registry.Call>)
    requires c !in s.calls
    ensures Registry.Queue(s, c) + calls == calls
  {
  }
}
