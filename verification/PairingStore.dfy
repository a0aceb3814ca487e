/** The pairing store as the program runs it, each operation proved against its value-level specification. */
module PairingStoreModel {
  import opened Common
  import opened PairingRecords
  import opened PairingState
  import opened PairingReconcile
  import opened PairingFrames
  import opened PairingMirror
  import opened PairingRecordStoreModel
  import opened PairingRuns
  import Lexical

  // Small facts the loops need.

  lemma SweptSnoc(s: Store, pids: seq<Pid>, pid: Pid)
    ensures Swept(s, pids + [pid]) == Swept(s, pids).(items := Swept(s, pids).items - {pid},
                                                       removals := Swept(s, pids).removals + [pid],
                                                       hidden := Swept(s, pids).hidden - {pid})
  {
    assert (set p | p in pids + [pid]) == (set p | p in pids) + {pid};
    assert s.removals + (pids + [pid]) == s.removals + pids + [pid];
    assert s.items - ((set p | p in pids) + {pid}) == s.items - (set p | p in pids) - {pid};
    assert s.hidden - ((set p | p in pids) + {pid}) == s.hidden - (set p | p in pids) - {pid};
  }

  lemma PrefixStep<T>(r: seq<T>, i: nat)
    requires i < |r|
    ensures r[..i + 1] == r[..i] + [r[i]] && r[..i + 1][..i] == r[..i] && |r[..i + 1]| == i + 1 && r[..i + 1][i] == r[i]
  {
  }

  /** The keys in ascending order. */
  method SortedKeys(keys: set<string>) returns (r: seq<string>)
    ensures r == Lexical.Sorted(keys)
  {
    hide Lexical.Sorted, Lexical.AtMost;
    r := [];
    var todo := keys;
    while todo != {}
      invariant Lexical.Sorted(keys) == r + Lexical.Sorted(todo)
      decreases todo
    {
      var least := Least(todo);
      PeelOneMore(r, todo, least);
      r := r + [least];
      todo := todo - {least};
    }
    assert r + [] == r;
  }

  lemma PeelOneMore(r: seq<string>, todo: set<string>, least: string)
    requires least in todo && forall x :: x in todo ==> Lexical.AtMost(least, x)
    ensures r + Lexical.Sorted(todo) == (r + [least]) + Lexical.Sorted(todo - {least})
  {
    Lexical.SortedPeel(todo, least);
    hide Lexical.Sorted, Lexical.AtMost;
  }

  method Least(keys: set<string>) returns (least: string)
    requires keys != {}
    ensures least in keys && forall x :: x in keys ==> Lexical.AtMost(least, x)
  {
    least :| least in keys;
    var todo := keys - {least};
    while todo != {}
      invariant todo <= keys && least in keys
      invariant forall x :: x in keys && x !in todo ==> Lexical.AtMost(least, x)
      decreases todo
    {
      var x :| x in todo;
      todo := todo - {x};
      Lexical.Total(x, least);
      if Lexical.Less(x, least) {
        forall y | y in keys && y !in todo ensures Lexical.AtMost(x, y) {
          if y != x && y != least {
            Lexical.Transitive(x, least, y);
          }
        }
        least := x;
      }
    }
  }

  /** The newest of the latest time stamp per daemon, and the records that lost to it. */
  method ElectNewest(blobs: seq<Blob>) returns (currentByDid: map<Did, Blob>, losers: seq<Pid>)
    ensures Tally(currentByDid, losers) == Elect(blobs)
  {
    currentByDid, losers := map[], [];
    for i := 0 to |blobs|
      invariant Tally(currentByDid, losers) == Elect(blobs[..i])
    {
      PrefixStep(blobs, i);
      var b := blobs[i];
      if b.did in currentByDid {
        var existing := currentByDid[b.did];
        if existing.ts >= b.ts {
          losers := losers + [b.pid];
          continue;
        }
        losers := losers + [existing.pid];
      }
      currentByDid := currentByDid[b.did := b];
    }
    assert blobs[..|blobs|] == blobs;
  }

  method CollapseNewest(blobs: seq<Blob>) returns (newestByDid: map<Did, Blob>)
    ensures newestByDid == Collapse(blobs)
  {
    newestByDid := map[];
    for i := 0 to |blobs|
      invariant newestByDid == Collapse(blobs[..i])
    {
      PrefixStep(blobs, i);
      var b := blobs[i];
      if b.did in newestByDid && !Newer(b, newestByDid[b.did]) {
        continue;
      }
      newestByDid := newestByDid[b.did := b];
    }
    assert blobs[..|blobs|] == blobs;
  }

  /** `index` resolves exactly the daemons in `order`. */
  ghost predicate Resolves(index: map<Did, Pid>, order: seq<Did>, was: map<Did, Pid>, best: map<Did, Blob>) {
    (forall d :: d in index <==> d in order) && (forall d :: d in index ==> index[d] == Resolved(was, best, d))
  }

  method KeepSurvivors(current: Pointers, currentByDid: map<Did, Blob>, hidden: set<Pid>)
    returns (order: seq<Did>, index: map<Did, Pid>)
    ensures order == Kept(current, currentByDid, hidden, current.order)
    ensures Resolves(index, order, current.index, currentByDid)
  {
    order, index := [], map[];
    for i := 0 to |current.order|
      invariant order == Kept(current, currentByDid, hidden, current.order[..i])
      invariant Resolves(index, order, current.index, currentByDid)
    {
      PrefixStep(current.order, i);
      var did := current.order[i];
      var resolved := Resolved(current.index, currentByDid, did);
      if resolved in hidden {
        continue;
      }
      order := order + [did];
      index := index[did := resolved];
    }
    assert current.order[..|current.order|] == current.order;
  }

  method AppendArrivals(kept: seq<Did>, keptIndex: map<Did, Pid>, arrivals: seq<Did>, current: Pointers,
                        currentByDid: map<Did, Blob>) returns (order: seq<Did>, index: map<Did, Pid>)
    requires Resolves(keptIndex, kept, current.index, currentByDid) && forall d :: d in arrivals ==> d in currentByDid
    ensures order == kept + arrivals && Resolves(index, order, current.index, currentByDid)
  {
    order, index := kept, keptIndex;
    for i := 0 to |arrivals|
      invariant order == kept + arrivals[..i]
      invariant Resolves(index, order, current.index, currentByDid)
    {
      var did := arrivals[i];
      assert did in arrivals;
      order := order + [did];
      index := index[did := currentByDid[did].pid];
    }
    assert arrivals[..|arrivals|] == arrivals;
  }

  /** The reconciled index: survivors in their old order, then the arrivals sorted. */
  method RebuildPointers(current: Pointers, currentByDid: map<Did, Blob>, hidden: set<Pid>) returns (p: Pointers)
    ensures p == Rebuilt(current, currentByDid, hidden)
  {
    var kept, keptIndex := KeepSurvivors(current, currentByDid, hidden);
    hide Kept, Resolves;
    ResolvesIsMap(keptIndex, kept, current.index, currentByDid);
    var arrivals := SortedKeys(currentByDid.Keys - keptIndex.Keys);
    var order, index := AppendArrivals(kept, keptIndex, arrivals, current, currentByDid);
    ResolvesIsMap(index, order, current.index, currentByDid);
    p := Pointers(order, index);
  }

  lemma ResolvesIsMap(index: map<Did, Pid>, order: seq<Did>, was: map<Did, Pid>, best: map<Did, Blob>)
    requires Resolves(index, order, was, best)
    ensures index.Keys == set d | d in order
    ensures index == map d | d in order :: Resolved(was, best, d)
  {
    hide Resolved;
  }

  datatype PeerSnapshotResult =
    | Applied(adopted: nat, skippedStale: nat, hidden: nat, sweptPending: seq<Pid>)
    | UnsupportedSchema(schema: int)
    | DeferredLocked

  class PairingStore {
    const records: KeychainRecordStore
    const deriveLegacyPairingId: Did -> Pid

    var pointerMap: map<Did, Pid>
    var pointerOrder: seq<Did>
    var lastGoodPointers: Option<Pointers>
    var hiddenIndex: seq<Pid>
    var sidecars: map<Did, Sidecar>
    var pendingMeta: map<Pid, Pending>
    var pendingIndex: seq<Pid>

    ghost function State(): Store
      reads this, records
    {
      Store(records.items, records.locked, records.removals, Pointers(pointerOrder, pointerMap), lastGoodPointers,
            (set p | p in hiddenIndex), sidecars, pendingMeta, pendingIndex)
    }

    ghost predicate Valid()
      reads this, records
    {
      WellFormed(State())
    }

    /** A launch over blank defaults. */
    constructor (records: KeychainRecordStore, derive: Did -> Pid)
      requires KeyedByPid(records.items)
      ensures Valid() && this.records == records && deriveLegacyPairingId == derive
      ensures State() == FRESH.(items := records.items, locked := records.locked, removals := records.removals)
    {
      this.records := records;
      deriveLegacyPairingId := derive;
      pointerMap, pointerOrder, lastGoodPointers, hiddenIndex := map[], [], None, [];
      sidecars, pendingMeta, pendingIndex := map[], map[], [];
    }

    // The pointer index.

    function ReadPointers(): Pointers
      reads this
    {
      Pointers(pointerOrder, pointerMap)
    }

    method WritePointers(p: Pointers)
      modifies this`pointerMap, this`pointerOrder, this`lastGoodPointers
      ensures State() == Write(old(State()), p)
    {
      pointerMap, pointerOrder := p.index, p.order;
      lastGoodPointers := Some(p);
    }

    method SetPointer(did: Did, pid: Pid)
      modifies this`pointerMap, this`pointerOrder, this`lastGoodPointers
      ensures State() == Write(old(State()), Pointed(old(State()).ptr, did, pid))
    {
      var p := ReadPointers();
      if did !in p.index {
        p := p.(order := p.order + [did]);
      }
      p := p.(index := p.index[did := pid]);
      WritePointers(p);
    }

    method DropPointer(did: Did)
      modifies this`pointerMap, this`pointerOrder, this`lastGoodPointers
      ensures State() == Write(old(State()), Dropped(old(State()).ptr, did))
    {
      var p := ReadPointers();
      WritePointers(Pointers(Without(p.order, did), p.index - {did}));
    }

    /** The daemon's ids in the keychain, or its pointer. */
    method PairingIds(did: Did) returns (ids: seq<Pid>, ghost view: Option<seq<Blob>>)
      requires Valid()
      ensures Faithful(view, records.locked, records.items)
      ensures ids == PidsFor(State().ptr, view, did)
      ensures forall q :: q in ids <==> BelongsTo(State(), did, q)
    {
      var blobs := records.LoadAll();
      view := blobs;
      PidsBelong(State(), did, view);
      if blobs.Some? {
        var fromKeychain := PidsOf(blobs.value, did);
        if fromKeychain != [] {
          return fromKeychain, view;
        }
      }
      var p := ReadPointers();
      ids := if did in p.index then [p.index[did]] else [];
    }

    // Tombstones.

    method SetLocalHidden(pid: Pid)
      modifies this`hiddenIndex
      ensures State() == old(State()).(hidden := old(State()).hidden + {pid})
    {
      if pid !in hiddenIndex {
        hiddenIndex := hiddenIndex + [pid];
      }
    }

    method ClearLocalHide(pid: Pid)
      modifies this`hiddenIndex
      ensures State() == old(State()).(hidden := old(State()).hidden - {pid})
    {
      WithoutMembers(hiddenIndex, pid);
      hiddenIndex := Without(hiddenIndex, pid);
    }

    method UnhideForDaemon(did: Did, pid: Pid)
      modifies this`hiddenIndex
      ensures State() == old(State()).(hidden := Unhidden(deriveLegacyPairingId, old(State()).hidden, did, pid))
    {
      ClearLocalHide(pid);
      ClearLocalHide(deriveLegacyPairingId(did));
    }

    method HideAll(pids: seq<Pid>)
      modifies this`hiddenIndex
      ensures State() == old(State()).(hidden := old(State()).hidden + set p | p in pids)
    {
      for i := 0 to |pids|
        invariant State() == old(State()).(hidden := old(State()).hidden + set p | p in pids[..i])
      {
        PrefixStep(pids, i);
        SetLocalHidden(pids[i]);
      }
      assert pids[..|pids|] == pids;
    }

    /** Delete records and their tombstones. */
    method Sweep(pids: seq<Pid>)
      modifies this`hiddenIndex, records
      ensures State() == Swept(old(State()), pids)
    {
      ghost var s := State();
      assert Swept(s, []) == s by {
        NothingSwept(s, []);
        assert s.hidden - (set p: Pid | p in []) == s.hidden;
      }
      for i := 0 to |pids|
        invariant State() == Swept(s, pids[..i])
      {
        PrefixStep(pids, i);
        SweptSnoc(s, pids[..i], pids[i]);
        hide Swept;
        records.Remove(pids[i]);
        ClearLocalHide(pids[i]);
      }
      assert pids[..|pids|] == pids;
    }

    // Reconciliation.

    method ReconciledPointers() returns (p: Pointers, ghost view: Option<seq<Blob>>)
      requires Valid()
      modifies this`pointerMap, this`pointerOrder, this`lastGoodPointers, this`hiddenIndex, records
      ensures Valid() && Faithful(view, old(records.locked), old(records.items))
      ensures (State(), p) == Reconciled(old(State()), view)
    {
      ghost var s := State();
      var all := records.LoadAll();
      view := all;
      ReconcileKeepsWellFormed(s, view);
      hide Rebuilt, WellFormed, Shown, Elect;
      if all.None? {
        p := lastGoodPointers.GetOr(ReadPointers());
        return;
      }
      var hidden := set q | q in hiddenIndex;
      var blobs := Shown(all.value, hidden);
      var current := ReadPointers();
      if blobs == [] {
        if current.order != [] {
          lastGoodPointers := Some(current);
        }
        return current, view;
      }
      var currentByDid, losers := ElectNewest(blobs);
      Sweep(losers);
      UnfoldPointers(s);
      p := RebuildPointers(current, currentByDid, hidden);
      WritePointers(p);
    }

    method DaemonIds() returns (dids: seq<Did>, ghost view: Option<seq<Blob>>)
      requires Valid()
      modifies this`pointerMap, this`pointerOrder, this`lastGoodPointers, this`hiddenIndex, records
      ensures Valid() && Faithful(view, old(records.locked), old(records.items))
      ensures State() == Reconciled(old(State()), view).0 && dids == Reconciled(old(State()), view).1.order
    {
      var p;
      p, view := ReconciledPointers();
      dids := p.order;
    }

    /** The daemon's current record, if it is listed and its record can be read, and its floor. */
    method Load(did: Did) returns (found: Option<Blob>, floor: int, ghost view: Option<seq<Blob>>)
      requires Valid()
      modifies this`pointerMap, this`pointerOrder, this`lastGoodPointers, this`hiddenIndex, records
      ensures Valid() && Faithful(view, old(records.locked), old(records.items))
      ensures State() == Reconciled(old(State()), view).0
      ensures found == var p := Reconciled(old(State()), view).1;
                       if did in p.index && !records.locked && p.index[did] in records.items
                       then Some(records.items[p.index[did]]) else None
      ensures floor == FloorOf(State(), did)
    {
      hide Reconciled, Faithful, WellFormed;
      var pointers;
      pointers, view := ReconciledPointers();
      found := None;
      if did in pointers.index {
        found := FindRecord(pointers.index[did]);
      }
      floor := FloorIn(sidecars, did);
    }

    method FindRecord(pid: Pid) returns (found: Option<Blob>)
      requires Valid()
      ensures found == if !records.locked && pid in records.items then Some(records.items[pid]) else None
    {
      var all := records.LoadAll();
      if all.None? {
        return None;
      }
      EnumeratedAt(all.value, records.items, pid);
      for i := 0 to |all.value|
        invariant forall k :: 0 <= k < i ==> all.value[k].pid != pid
      {
        if all.value[i].pid == pid {
          assert all.value[i] in all.value;
          return Some(all.value[i]);
        }
      }
      return None;
    }

    /** A pending pairing, if it is recorded and its secret can be read. */
    function LoadPending(pid: Pid, secretOk: bool): Option<Pairing>
      reads this
    {
      if pid in pendingMeta && secretOk then Some(pendingMeta[pid].pairing) else None
    }

    // Hiding and unpairing.

    method RemovePending(pid: Pid)
      modifies this`pendingMeta, this`pendingIndex
      ensures State() == PendingRemoved(old(State()), pid)
    {
      pendingMeta := pendingMeta - {pid};
      pendingIndex := Without(pendingIndex, pid);
    }

    /** Tombstone the daemon on this device only; returns the pending pairings swept with it. */
    method HideLocally(did: Did) returns (sweptPending: seq<Pid>, ghost view: Option<seq<Blob>>)
      requires Valid()
      modifies this`pointerMap, this`pointerOrder, this`lastGoodPointers, this`hiddenIndex, this`pendingMeta,
               this`pendingIndex
      ensures Valid() && Faithful(view, records.locked, records.items)
      ensures State() == Hidden(old(State()), did, view)
      ensures sweptPending == PendingOf(old(State()), did, old(State()).pendingOrder)
    {
      ghost var s := State();
      var ids;
      ids, view := PairingIds(did);
      HiddenIsWellFormed(s, did, view);
      hide WellFormed, PidsFor, Dropped;
      HideAll(ids);
      DropPointer(did);
      ghost var s1 := State();
      assert s1 == Write(s.(hidden := s.hidden + set p | p in PidsFor(s.ptr, view, did)), Dropped(s.ptr, did));
      sweptPending := SweepPendingOf(did);
      PendingOfIgnores(s, s1, did, s.pendingOrder);
    }

    method SweepPendingOf(did: Did) returns (sweptPending: seq<Pid>)
      requires Distinct(pendingIndex)
      modifies this`pendingMeta, this`pendingIndex
      ensures sweptPending == PendingOf(old(State()), did, old(pendingIndex))
      ensures State() == PendingSwept(old(State()), sweptPending)
    {
      ghost var s := State();
      sweptPending := [];
      var ids := pendingIndex;
      for i := 0 to |ids|
        invariant sweptPending == PendingOf(s, did, ids[..i])
        invariant State() == PendingSwept(s, sweptPending)
      {
        var pid := ids[i];
        PrefixStep(ids, i);
        NotYetSwept(s, did, ids, i);
        if pid in pendingMeta && pendingMeta[pid].pairing.did == did {
          RemovePending(pid);
          assert (sweptPending + [pid])[..|sweptPending|] == sweptPending;
          sweptPending := sweptPending + [pid];
        } else {
          assert sweptPending + [] == sweptPending;
        }
      }
      assert ids[..|ids|] == ids;
    }

    /** Unpair everywhere: delete the daemon's records, tombstones, sidecar and pointer. */
    method Remove(did: Did) returns (ghost view: Option<seq<Blob>>)
      requires Valid()
      modifies this`pointerMap, this`pointerOrder, this`lastGoodPointers, this`hiddenIndex, this`sidecars, records
      ensures Valid() && Faithful(view, old(records.locked), old(records.items))
      ensures State() == Unpaired(deriveLegacyPairingId, old(State()), did, view)
    {
      ghost var s := State();
      var ids;
      ids, view := PairingIds(did);
      UnpairedIsWellFormed(deriveLegacyPairingId, s, did, view);
      hide WellFormed, PidsFor, Dropped;
      Sweep(ids);
      ClearLocalHide(deriveLegacyPairingId(did));
      sidecars := sidecars - {did};
      DropPointer(did);
    }

    // Ingest and commit.

    /** Scan a link: un-hide at once, then record it as pending unless its secret cannot be stored. */
    method Ingest(p: Pairing, now: int, secretOk: bool) returns (ok: bool)
      requires Valid()
      modifies this`hiddenIndex, this`pendingMeta, this`pendingIndex
      ensures Valid() && ok == secretOk
      ensures State() == Ingested(deriveLegacyPairingId, old(State()), p, now, secretOk)
    {
      IngestedIsWellFormed(deriveLegacyPairingId, State(), p, now, secretOk);
      hide WellFormed, Unhidden;
      UnhideForDaemon(p.did, p.pid);
      if !secretOk {
        return false;
      }
      pendingMeta := pendingMeta[p.pid := Pending(p, now)];
      if p.pid !in pendingIndex {
        pendingIndex := pendingIndex + [p.pid];
      }
      return true;
    }

    /** Save the record, repoint, un-hide, sweep the daemon's other records, raise the sidecar floor. */
    method Persist(p: Pairing, now: int, added: bool) returns (ok: bool, ghost view: Option<seq<Blob>>)
      requires Valid()
      modifies this`pointerMap, this`pointerOrder, this`lastGoodPointers, this`hiddenIndex, this`sidecars, records
      ensures Valid() && ok == added
      ensures ok ==> Faithful(view, old(records.locked), old(records.items)[p.pid := BlobOf(p, now)])
      ensures State() == if ok then Persisted(deriveLegacyPairingId, old(State()), p, now, view)
              else SaveFailed(old(State()), p.pid)
    {
      ghost var s := State();
      view := None;
      ok := records.Save(BlobOf(p, now), added);
      if !ok {
        FailedSaveIsWellFormed(s, p.pid);
        return;
      }
      SavedIsWellFormed(s, BlobOf(p, now));
      PointedIsWellFormed(s.ptr, p.did, p.pid);
      hide WellFormedPointers, Pointed;
      SetPointer(p.did, p.pid);
      UnhideForDaemon(p.did, p.pid);
      var ids;
      ids, view := PairingIds(p.did);
      hide Valid, PidsFor, Without, Unhidden, Swept, Write, FloorIn, PctOf;
      Sweep(Without(ids, p.pid));
      SweptFrame(s, Without(ids, p.pid));
      KeepHigherFloor(p.did, p.minV);
      PersistedIsWellFormed(deriveLegacyPairingId, s, p, now, view);
    }

    method KeepHigherFloor(did: Did, minV: int)
      modifies this`sidecars
      ensures State() == old(State()).(sidecars := old(sidecars)[did := Sidecar(
        Some(if minV > FloorOf(old(State()), did) then minV else FloorOf(old(State()), did)),
            PctOf(old(State()), did))])
    {
      var existing := FloorIn(sidecars, did);
      var pct := if did in sidecars then sidecars[did].confirmedPct else None;
      sidecars := sidecars[did := Sidecar(Some(if minV > existing then minV else existing), pct)];
    }

    /** Commit a pending pairing; a second call finds nothing pending and does nothing. */
    method Promote(pid: Pid, now: int, secretOk: bool, added: bool)
        returns (r: Promotion, ghost view: Option<seq<Blob>>)
      requires Valid()
      modifies this`pointerMap, this`pointerOrder, this`lastGoodPointers, this`hiddenIndex, this`sidecars,
               this`pendingMeta, this`pendingIndex, records
      ensures Valid()
      ensures r == Committed ==>
        pid in old(pendingMeta) &&
        Faithful(view, old(records.locked), old(records.items)[pid := BlobOf(old(pendingMeta)[pid].pairing, now)])
      ensures (State(), r) == Promoted(deriveLegacyPairingId, old(State()), pid, now, secretOk, added, view)
    {
      ghost var s := State();
      view := None;
      if pid !in pendingMeta {
        return NothingPending, view;
      }
      if !secretOk {
        return Failed, view;
      }
      assert pendingMeta[pid].pairing.pid == pid;
      hide Persisted, WellFormed;
      var ok;
      ok, view := Persist(pendingMeta[pid].pairing, now, added);
      if !ok {
        return Failed, view;
      }
      DropPendingKeepsWellFormed(State(), pid);
      RemovePending(pid);
      return Committed, view;
    }

    /** Drop pending pairings older than the cutoff; returns them. */
    method GcPending(cutoff: int) returns (swept: seq<Pid>)
      requires Valid()
      modifies this`pendingMeta, this`pendingIndex
      ensures Valid()
      ensures State() == PendingSwept(old(State()), swept)
      ensures forall p :: p in swept <==> p in old(State()).pending && old(State()).pending[p].createdAt < cutoff
    {
      ghost var s := State();
      swept := [];
      var ids := pendingIndex;
      for i := 0 to |ids|
        invariant State() == PendingSwept(s, swept) && swept == Expired(s, cutoff, ids[..i])
      {
        var pid := ids[i];
        PrefixStep(ids, i);
        PendingSweptFrame(s, swept);
        ExpiredMembers(s, cutoff, ids[..i]);
        hide PendingSwept, WellFormed, Expired;
        assert pid in pendingMeta by {
          UnfoldPending(s);
          assert pid !in ids[..i];
        }
        if pendingMeta[pid].createdAt < cutoff {
          SweptOneMore(s, swept, pid);
          RemovePending(pid);
          swept := swept + [pid];
        }
        ExpiredOneMore(s, cutoff, ids, i);
      }
      assert ids[..|ids|] == ids;
      PendingSweptFrame(s, swept);
      ExpiredMembers(s, cutoff, ids);
      PendingSweptIsWellFormed(s, swept);
      UnfoldPending(s);
      hide PendingSwept, Expired;
    }

    // Floors.

    method RaisePendingFloor(pid: Pid, observedV: int)
      requires Valid()
      modifies this`pendingMeta
      ensures Valid() && State() == PendingFloorRaised(old(State()), pid, observedV)
    {
      if pid !in pendingMeta {
        return;
      }
      var meta := pendingMeta[pid];
      if observedV > meta.pairing.minV {
        pendingMeta := pendingMeta[pid := meta.(pairing := meta.pairing.(minV := observedV))];
      }
    }

    method RaiseCommittedFloor(did: Did, observedV: int)
      requires Valid()
      modifies this`sidecars
      ensures Valid() && State() == FloorRaised(old(State()), did, observedV)
    {
      if did !in sidecars {
        return;
      }
      var meta := sidecars[did];
      if observedV > meta.floor.GetOr(0) {
        sidecars := sidecars[did := meta.(floor := Some(observedV))];
      }
    }

    method RecordConfirmedPct(did: Did, tag: string)
      requires Valid()
      modifies this`sidecars
      ensures Valid() && State() == PctRecorded(old(State()), did, tag)
    {
      if did in sidecars {
        sidecars := sidecars[did := sidecars[did].(confirmedPct := Some(tag))];
      }
    }

    // The companion mirror.

    method PositiveFloors(dids: set<Did>) returns (floors: map<Did, int>)
      ensures floors == map d | d in dids && FloorIn(sidecars, d) > 0 :: FloorIn(sidecars, d)
    {
      floors := map[];
      var todo := dids;
      while todo != {}
        invariant todo <= dids
        invariant forall d :: d in floors <==> d in dids - todo && FloorIn(sidecars, d) > 0
        invariant forall d :: d in floors ==> floors[d] == FloorIn(sidecars, d)
        decreases todo
      {
        var did :| did in todo;
        todo := todo - {did};
        if FloorIn(sidecars, did) > 0 {
          floors := floors[did := FloorIn(sidecars, did)];
        }
      }
    }

    /** What this device would publish; nothing while the keychain is locked. */
    method PublishedSnapshot() returns (r: Option<Snapshot>, ghost view: Option<seq<Blob>>)
      requires Valid()
      ensures Faithful(view, records.locked, records.items)
      ensures r == CommittedSnapshot(State(), view)
      ensures r.None? <==> records.locked
      ensures forall other ::
                Enumerates(other, records.items) && !records.locked ==> r == CommittedSnapshot(State(), Some(other))
    {
      var all := records.LoadAll();
      view := all;
      if all.None? {
        return None, view;
      }
      var hidden := set q | q in hiddenIndex;
      var newestByDid := CollapseNewest(Shown(all.value, hidden));
      var floors := PositiveFloors(newestByDid.Keys);
      hide Collapse, Shown, FloorIn, CommittedSnapshot, Enumerates;
      var dids := SortedKeys(newestByDid.Keys);
      PublishedIs(State(), all.value, newestByDid, floors);
      forall other | Enumerates(other, records.items)
          ensures CommittedSnapshot(State(), Some(other)) == CommittedSnapshot(State(), view) {
        PublishedIgnoresOrder(State(), all.value, other);
      }
      r := Some(Snapshot(SCHEMA, Listing(newestByDid, dids), floors));
    }

    /** One incoming record against our own records of its daemon. */
    method AdoptIncoming(b: Blob, same: seq<Blob>, ghost local: map<Pid, Blob>, added: bool) returns (o: Outcome)
      requires Valid() && KeyedByPid(local) && SameDaemon(same, local, b.did)
      modifies this`pointerMap, this`pointerOrder, this`lastGoodPointers, this`hiddenIndex, records`items
      ensures Valid()
      ensures State() == Mirrored(deriveLegacyPairingId, old(State()), local, b, added)
      ensures o == OutcomeOf(local, b, added)
    {
      ghost var s := State();
      MirroredIsWellFormed(deriveLegacyPairingId, s, local, b, added);
      MirroredFields(deriveLegacyPairingId, s, local, b, added);
      hide Unhidden, WellFormed, Pointed, Mirrored, PidsIn;
      UnhideForDaemon(b.did, b.pid);
      var superseded := Superseded(same, b.pid);
      SupersededAreOthers(same, local, b);
      OutcomeCases(same, superseded, local, b, added);
      hide OutcomeOf, Others, Superseded, Holds, SameDaemon, KeyedByPid;
      var held := exists c :: c in same && c.pid == b.pid;
      if held {
        HideAll(PidsIn(superseded));
      }
      if exists c :: c in same && c.pid == b.pid && !Newer(b, c) {
        return Unchanged;
      }
      if exists c :: c in superseded && !Newer(b, c) {
        return Stale;
      }
      var ok := TakeOver(b, superseded, added);
      return if ok then Outcome.Adopted else SaveError;
    }

    /** Save the record verbatim, point at it and hide what it supersedes, unless the save fails. */
    method TakeOver(b: Blob, superseded: seq<Blob>, added: bool) returns (ok: bool)
      modifies this`pointerMap, this`pointerOrder, this`lastGoodPointers, this`hiddenIndex, records`items
      ensures ok == added
      ensures var s := old(State());
              State() == if ok
                         then Write(s.(items := s.items[b.pid := b],
                                       hidden := s.hidden + set p | p in PidsIn(superseded)),
                                    Pointed(s.ptr, b.did, b.pid))
                         else SaveFailed(s, b.pid)
    {
      hide Pointed, PidsIn;
      ok := records.Save(b, added);
      if ok {
        SetPointer(b.did, b.pid);
        HideAll(PidsIn(superseded));
      }
    }

    /** The floors of the incoming daemons, raised to those the snapshot carries. */
    method MergeFloors(floors: map<Did, int>, incoming: set<Did>) returns (ghost dids: seq<Did>)
      modifies this`sidecars
      ensures Lists(dids, floors.Keys)
      ensures State() == old(State()).(sidecars := FloorsMerged(old(sidecars), floors, incoming, dids))
    {
      dids := [];
      var todo := floors.Keys;
      while todo != {}
        invariant todo <= floors.Keys && Lists(dids, floors.Keys - todo)
        invariant State() == old(State()).(sidecars := FloorsMerged(old(sidecars), floors, incoming, dids))
        decreases todo
      {
        var did :| did in todo;
        ListsOneMore(dids, floors.Keys, todo, did);
        assert (dids + [did])[..|dids|] == dids;
        todo := todo - {did};
        dids := dids + [did];
        if did in incoming {
          var meta := if did in sidecars then sidecars[did] else Sidecar(None, None);
          if floors[did] > meta.floor.GetOr(0) {
            sidecars := sidecars[did := meta.(floor := Some(floors[did]))];
          }
        }
      }
    }

    method AdoptAll(incoming: map<Did, Blob>, local: seq<Blob>, saved: set<Pid>)
      returns (adopted: nat, skippedStale: nat, ghost dids: seq<Did>)
      requires Valid() && Enumerates(local, records.items) && forall d :: d in incoming ==> incoming[d].did == d
      modifies this`pointerMap, this`pointerOrder, this`lastGoodPointers, this`hiddenIndex, records`items
      ensures Valid() && Lists(dids, incoming.Keys)
      ensures State() == AllMirrored(deriveLegacyPairingId, old(State()), old(records.items), incoming, dids, saved)
      ensures adopted == Outcomes(old(records.items), incoming, dids, saved, Outcome.Adopted)
      ensures skippedStale == Outcomes(old(records.items), incoming, dids, saved, Stale)
    {
      ghost var s := State();
      assert KeyedByPid(s.items);
      hide WellFormed, KeyedByPid, Mirrored, OutcomeOf, Enumerates, AllMirrored, Outcomes, Lists, SameDaemon;
      adopted, skippedStale, dids := 0, 0, [];
      var todo := incoming.Keys;
      StartOfAdoption(deriveLegacyPairingId, s, incoming, saved, todo);
      while todo != {}
        invariant todo <= incoming.Keys && Lists(dids, incoming.Keys - todo)
        invariant forall d :: d in dids ==> d in incoming
        invariant Valid() && State() == AllMirrored(deriveLegacyPairingId, s, s.items, incoming, dids, saved)
        invariant adopted == Outcomes(s.items, incoming, dids, saved, Outcome.Adopted)
        invariant skippedStale == Outcomes(s.items, incoming, dids, saved, Stale)
        decreases todo
      {
        var did :| did in todo;
        ListsOneMore(dids, incoming.Keys, todo, did);
        OneMoreAdopted(deriveLegacyPairingId, s, incoming, dids, saved, did);
        var same := SameAs(local, did);
        SameAsIs(local, s.items, did);
        var o := AdoptIncoming(incoming[did], same, s.items, incoming[did].pid in saved);
        todo := todo - {did};
        dids := dids + [did];
        if o == Outcome.Adopted {
          adopted := adopted + 1;
        } else if o == Stale {
          skippedStale := skippedStale + 1;
        }
      }
      assert incoming.Keys - {} == incoming.Keys;
    }

    /** Hide the listed daemons the snapshot omits. */
    method HideOne(did: Did, ghost view: seq<Blob>) returns (swept: seq<Pid>)
      requires Valid() && !records.locked && Enumerates(view, records.items)
      modifies this`pointerMap, this`pointerOrder, this`lastGoodPointers, this`hiddenIndex, this`pendingMeta,
               this`pendingIndex
      ensures Valid() && State() == Hidden(old(State()), did, Some(view))
      ensures pendingMeta.Keys <= old(pendingMeta.Keys)
      ensures forall p :: p in swept <==> p in old(pendingMeta) && p !in pendingMeta
    {
      assert KeyedByPid(State().items) && WellFormed(State()) && WellFormedPending(State());
      hide WellFormed, Hidden, Enumerates, PendingOf;
      ghost var before := State();
      ghost var read;
      swept, read := HideLocally(did);
      HiddenIgnoresOrder(before, did, read.value, view);
      HiddenFrame(before, did, Some(view));
      SweptArePending(before, State(), did);
    }

    method HideAbsent(order: seq<Did>, incoming: set<Did>)
      returns (hidden: nat, sweptPending: seq<Pid>, ghost rest: Did -> Option<seq<Blob>>)
      requires Valid() && !records.locked
      modifies this`pointerMap, this`pointerOrder, this`lastGoodPointers, this`hiddenIndex, this`pendingMeta,
               this`pendingIndex
      ensures Valid() && forall d :: Faithful(rest(d), records.locked, records.items)
      ensures State() == AllHidden(old(State()), Absent(order, incoming), rest)
      ensures hidden == |Absent(order, incoming)|
      ensures forall p :: p in sweptPending <==> p in old(pendingMeta) && p !in pendingMeta
    {
      ghost var s := State();
      ghost var view := SomeEnumeration(records.items);
      rest := _ => Some(view);
      hidden, sweptPending := 0, [];
      hide WellFormed, Hidden, Enumerates, PendingOf;
      for i := 0 to |order|
        invariant Valid() && records.items == s.items && records.locked == s.locked
        invariant State() == AllHidden(s, Absent(order[..i], incoming), rest)
        invariant hidden == |Absent(order[..i], incoming)|
        invariant pendingMeta.Keys <= s.pending.Keys
        invariant forall p :: p in sweptPending <==> p in s.pending && p !in pendingMeta
      {
        PrefixStep(order, i);
        ghost var absent := Absent(order[..i], incoming);
        if order[i] in incoming {
          assert absent + [] == absent;
        } else {
          var swept := HideOne(order[i], view);
          assert (absent + [order[i]])[..|absent|] == absent;
          sweptPending := sweptPending + swept;
          hidden := hidden + 1;
        }
      }
      assert order[..|order|] == order;
    }

    /** Adopt a peer's whole committed set; a locked keychain or a newer schema changes nothing. */
    method ApplyPeerSnapshot(snap: Snapshot, saved: set<Pid>) returns (r: PeerSnapshotResult, ghost w: Weather)
      requires Valid()
      modifies this`pointerMap, this`pointerOrder, this`lastGoodPointers, this`hiddenIndex, this`sidecars,
               this`pendingMeta, this`pendingIndex, records
      ensures Valid()
      ensures r.UnsupportedSchema? <==> snap.schema > SCHEMA
      ensures r.DeferredLocked? <==> snap.schema <= SCHEMA && old(records.locked)
      ensures !r.Applied? ==> State() == old(State())
      ensures r.Applied? ==> AppliedAs(deriveLegacyPairingId, old(State()), snap, saved, w, r, State())
    {
      ghost var s := State();
      w := Weather([], [], saved, None, None, _ => None);
      if snap.schema > SCHEMA {
        return UnsupportedSchema(snap.schema), w;
      }
      var incoming := CollapseNewest(snap.pairings);
      CollapseIsNewest(snap.pairings);
      var local := records.LoadAll();
      if local.None? {
        return DeferredLocked, w;
      }
      ghost var dids, floorDids, recon, rest;
      var adopted, skippedStale, hidden, sweptPending, p;
      hide WellFormed, Collapse, Enumerates, Reconciled, AllMirrored, AllHidden, FloorsMerged, Lists, Outcomes,
           AppliedAs, Absent, Faithful;
      adopted, skippedStale, dids := AdoptAll(incoming, local.value, saved);
      AllMirroredFlags(deriveLegacyPairingId, s, incoming, dids, saved);
      FloorsKeepWellFormed(State());
      floorDids := MergeFloors(snap.floors, incoming.Keys);
      ghost var a := State();
      p, recon := ReconciledPointers();
      ghost var b := State();
      ReconciledFlags(a, recon);
      hidden, sweptPending, rest := HideAbsent(p.order, incoming.Keys);
      w := Weather(dids, floorDids, saved, Some(s.items), recon, rest);
      r := Applied(adopted, skippedStale, hidden, sweptPending);
      Conclude(deriveLegacyPairingId, s, snap, w, r, a, b, p, State());
    }
  }

  lemma ReconciledFlags(s: Store, view: Option<seq<Blob>>)
    ensures var t := Reconciled(s, view).0; t.locked == s.locked && t.pending == s.pending
  {
    hide Shown, Elect, Rebuilt;
  }

  lemma Conclude(legacy: Did -> Pid, s: Store, snap: Snapshot, w: Weather, r: PeerSnapshotResult, a: Store, b: Store,
                 p: Pointers, t: Store)
    requires var m := Collapse(snap.pairings);
             && snap.schema <= SCHEMA && !s.locked && r.Applied?
             && Lists(w.dids, m.Keys) && Lists(w.floorDids, snap.floors.Keys) && w.local == Some(s.items)
             && a == AfterAdoption(legacy, s, snap, w) && (b, p) == Reconciled(a, w.recon)
             && t == AllHidden(b, Absent(p.order, m.Keys), w.rest)
             && Faithful(w.recon, a.locked, a.items) && (forall d :: Faithful(w.rest(d), t.locked, t.items))
             && r.adopted == Outcomes(s.items, m, w.dids, w.saved, Outcome.Adopted)
             && r.skippedStale == Outcomes(s.items, m, w.dids, w.saved, Stale)
             && r.hidden == |Absent(p.order, m.Keys)|
             && forall q :: q in r.sweptPending <==> q in s.pending && q !in t.pending
    ensures AppliedAs(legacy, s, snap, w.saved, w, r, t)
  {
    hide Collapse, Faithful, Reconciled, AfterAdoption, AllHidden, Outcomes, Absent;
  }

  /** The outcome an application reports, and the state it leaves. */
  ghost predicate AppliedAs(legacy: Did -> Pid, s: Store, snap: Snapshot, saved: set<Pid>, w: Weather,
                            r: PeerSnapshotResult, t: Store)
    requires r.Applied?
  {
    var m := Collapse(snap.pairings);
    && Walks(snap, w) && w.saved == saved && w.local == Some(s.items)
    && (var a := AfterAdoption(legacy, s, snap, w); Faithful(w.recon, a.locked, a.items))
    && (forall d :: Faithful(w.rest(d), t.locked, t.items))
    && t == SnapshotApplied(legacy, s, snap, w)
    && r.adopted == Outcomes(s.items, m, w.dids, saved, Outcome.Adopted)
    && r.skippedStale == Outcomes(s.items, m, w.dids, saved, Stale)
    && r.hidden == |Absent(Reconciled(AfterAdoption(legacy, s, snap, w), w.recon).1.order, m.Keys)|
    && forall p :: p in r.sweptPending <==> p in s.pending && p !in t.pending
  }

  /**
   * What the result counts: as adopted the incoming records that outrank all of their daemon's and were saved, as stale
   * those that do not though none under their own id is as new.
   */
  lemma AppliedCounts(legacy: Did -> Pid, s: Store, snap: Snapshot, saved: set<Pid>, w: Weather,
                      r: PeerSnapshotResult, t: Store)
    requires KeyedByPid(s.items) && r.Applied? && AppliedAs(legacy, s, snap, saved, w, r, t)
    ensures var m := Collapse(snap.pairings);
            && r.adopted == |set d | d in m && m[d].pid in saved && OutranksAll(s.items, m[d])|
            && r.skippedStale == |set d | d in m && !OutranksAll(s.items, m[d])
                                          && !(Holds(s.items, m[d]) && !Newer(m[d], s.items[m[d].pid]))|
  {
    var m := Collapse(snap.pairings);
    assert r.adopted == Outcomes(s.items, m, w.dids, saved, Outcome.Adopted)
           && r.skippedStale == Outcomes(s.items, m, w.dids, saved, Stale) && Lists(w.dids, m.Keys);
    hide AppliedAs, Collapse, OutcomeOf, OutranksAll, Newer;
    OutcomesAreCounted(s.items, m, w.dids, saved, Outcome.Adopted);
    OutcomesAreCounted(s.items, m, w.dids, saved, Stale);
    forall d | d in m ensures OutcomeOf(s.items, m[d], m[d].pid in saved) == Outcome.Adopted
                              <==> m[d].pid in saved && OutranksAll(s.items, m[d])
                      ensures OutcomeOf(s.items, m[d], m[d].pid in saved) == Stale
                              <==> !OutranksAll(s.items, m[d])
                                   && !(Holds(s.items, m[d]) && !Newer(m[d], s.items[m[d].pid]))
    {
      OutcomeIff(s.items, m[d], m[d].pid in saved);
    }
    assert Meeting(s.items, m, w.dids, saved, Outcome.Adopted)
           == set d | d in m && m[d].pid in saved && OutranksAll(s.items, m[d]);
    assert Meeting(s.items, m, w.dids, saved, Stale)
           == set d | d in m && !OutranksAll(s.items, m[d])
                      && !(Holds(s.items, m[d]) && !Newer(m[d], s.items[m[d].pid]));
  }

  // One daemon's local records.

  /** Our records of this daemon, in some order. */
  ghost predicate SameDaemon(same: seq<Blob>, local: map<Pid, Blob>, did: Did) {
    forall c :: c in same <==> c.pid in local && local[c.pid] == c && c.did == did
  }

  function SameAs(local: seq<Blob>, did: Did): seq<Blob> {
    if local == [] then []
    else SameAs(local[..|local| - 1], did) + (if local[|local| - 1].did == did then [local[|local| - 1]] else [])
  }

  lemma {:induction false} SameAsMembers(local: seq<Blob>, did: Did)
    ensures forall c :: c in SameAs(local, did) <==> c in local && c.did == did
  {
    if local != [] {
      assert local == local[..|local| - 1] + [local[|local| - 1]];
      SameAsMembers(local[..|local| - 1], did);
    }
  }

  lemma SameAsIs(local: seq<Blob>, items: map<Pid, Blob>, did: Did)
    requires Enumerates(local, items)
    ensures SameDaemon(SameAs(local, did), items, did)
  {
    SameAsMembers(local, did);
    hide SameAs;
  }

  function Superseded(same: seq<Blob>, pid: Pid): seq<Blob> {
    if same == [] then []
    else Superseded(same[..|same| - 1], pid) + (if same[|same| - 1].pid != pid then [same[|same| - 1]] else [])
  }

  lemma {:induction false} SupersededMembers(same: seq<Blob>, pid: Pid)
    ensures forall c :: c in Superseded(same, pid) <==> c in same && c.pid != pid
  {
    if same != [] {
      assert same == same[..|same| - 1] + [same[|same| - 1]];
      SupersededMembers(same[..|same| - 1], pid);
    }
  }

  function PidsIn(blobs: seq<Blob>): seq<Pid> {
    seq(|blobs|, i requires 0 <= i < |blobs| => blobs[i].pid)
  }

  lemma PidsInMembers(blobs: seq<Blob>)
    ensures forall p :: p in PidsIn(blobs) <==> exists c :: c in blobs && c.pid == p
  {
    forall p ensures p in PidsIn(blobs) <==> exists c :: c in blobs && c.pid == p {
      if p in PidsIn(blobs) {
        var i :| 0 <= i < |blobs| && PidsIn(blobs)[i] == p;
        assert blobs[i] in blobs;
      }
      if c :| c in blobs && c.pid == p {
        var i :| 0 <= i < |blobs| && blobs[i] == c;
        assert PidsIn(blobs)[i] == p;
      }
    }
  }

  lemma SupersededAreOthers(same: seq<Blob>, local: map<Pid, Blob>, b: Blob)
    requires SameDaemon(same, local, b.did) && KeyedByPid(local)
    ensures (set p | p in PidsIn(Superseded(same, b.pid))) == Others(local, b)
  {
    SupersededMembers(same, b.pid);
    PidsInMembers(Superseded(same, b.pid));
    hide PidsIn, Superseded;
    forall p ensures p in PidsIn(Superseded(same, b.pid)) <==> p in Others(local, b) {
      if p in Others(local, b) {
        assert local[p] in Superseded(same, b.pid) && local[p].pid == p;
      }
    }
  }

  /** The branches of the loop body are the four outcomes. */
  lemma OutcomeCases(same: seq<Blob>, superseded: seq<Blob>, local: map<Pid, Blob>, b: Blob, added: bool)
    requires SameDaemon(same, local, b.did) && KeyedByPid(local) && superseded == Superseded(same, b.pid)
    ensures Holds(local, b) <==> exists c :: c in same && c.pid == b.pid
    ensures OutcomeOf(local, b, added)
            == if exists c :: c in same && c.pid == b.pid && !Newer(b, c) then Unchanged
               else if exists c :: c in superseded && !Newer(b, c) then Stale
               else if !added then SaveError else Outcome.Adopted
  {
    SupersededMembers(same, b.pid);
    hide Superseded;
    assert Holds(local, b) ==> local[b.pid] in same && local[b.pid].pid == b.pid;
    if p :| p in Others(local, b) && !Newer(b, local[p]) {
      assert local[p] in superseded;
    }
    if c :| c in superseded && !Newer(b, c) {
      assert c.pid in Others(local, b) && local[c.pid] == c;
    }
  }

  lemma MirroredIsWellFormed(legacy: Did -> Pid, s: Store, local: map<Pid, Blob>, b: Blob, saveOk: bool)
    requires WellFormed(s)
    ensures WellFormed(Mirrored(legacy, s, local, b, saveOk))
  {
    MirroredFields(legacy, s, local, b, saveOk);
    PointedIsWellFormed(s.ptr, b.did, b.pid);
    hide OutcomeOf, Others, Holds, Lists, Mirrored;
  }

  lemma ListsOneMore(order: seq<string>, all: set<string>, todo: set<string>, x: string)
    requires Lists(order, all - todo) && x in todo && todo <= all
    ensures Lists(order + [x], all - (todo - {x}))
  {
    DistinctSnoc(order, x);
    hide Distinct;
  }

  lemma StartOfAdoption(legacy: Did -> Pid, s: Store, incoming: map<Did, Blob>, saved: set<Pid>, todo: set<Did>)
    requires todo == incoming.Keys
    ensures Lists([], incoming.Keys - todo) && AllMirrored(legacy, s, s.items, incoming, [], saved) == s
    ensures forall o :: Outcomes(s.items, incoming, [], saved, o) == 0
  {
  }

  lemma OneMoreAdopted(legacy: Did -> Pid, s: Store, incoming: map<Did, Blob>, dids: seq<Did>, saved: set<Pid>,
                       did: Did)
    requires did in incoming && forall d :: d in dids ==> d in incoming
    ensures var b := incoming[did];
            && AllMirrored(legacy, s, s.items, incoming, dids + [did], saved)
               == Mirrored(legacy, AllMirrored(legacy, s, s.items, incoming, dids, saved), s.items, b, b.pid in saved)
            && forall o :: Outcomes(s.items, incoming, dids + [did], saved, o)
                           == Outcomes(s.items, incoming, dids, saved, o)
                              + (if OutcomeOf(s.items, b, b.pid in saved) == o then 1 else 0)
  {
    assert (dids + [did])[..|dids|] == dids;
    hide Mirrored, OutcomeOf;
  }

  lemma FloorsKeepWellFormed(s: Store)
    requires WellFormed(s)
    ensures forall c :: WellFormed(s.(sidecars := c))
  {
    hide Lists;
  }

  lemma {:induction false} AllMirroredFlags(legacy: Did -> Pid, s: Store, incoming: map<Did, Blob>, dids: seq<Did>,
                                            saved: set<Pid>)
    requires forall d :: d in dids ==> d in incoming
    ensures var t := AllMirrored(legacy, s, s.items, incoming, dids, saved);
            t.locked == s.locked && t.sidecars == s.sidecars && t.pending == s.pending
                && t.pendingOrder == s.pendingOrder
  {
    if dids != [] {
      hide Mirrored;
      AllMirroredFlags(legacy, s, incoming, dids[..|dids| - 1], saved);
      var b := incoming[dids[|dids| - 1]];
      MirroredFields(legacy, AllMirrored(legacy, s, s.items, incoming, dids[..|dids| - 1], saved), s.items, b,
                     b.pid in saved);
    }
  }

  /** Hiding does not depend on the order of the enumeration it reads. */
  lemma HiddenIgnoresOrder(s: Store, did: Did, view: seq<Blob>, other: seq<Blob>)
    requires KeyedByPid(s.items) && Enumerates(view, s.items) && Enumerates(other, s.items)
    ensures Hidden(s, did, Some(view)) == Hidden(s, did, Some(other))
  {
    TombsAreItems(s, did, view);
    TombsAreItems(s, did, other);
    assert Tombs(s, did, Some(view)) == Tombs(s, did, Some(other));
    hide Tombs, Enumerates;
  }

  /** An id further on in the order has its record still. */
  lemma NotYetSwept(s: Store, did: Did, ids: seq<Pid>, i: nat)
    requires Distinct(ids) && i < |ids|
    ensures var t := PendingSwept(s, PendingOf(s, did, ids[..i]));
            (ids[i] in t.pending <==> ids[i] in s.pending)
                && (ids[i] in s.pending ==> t.pending[ids[i]] == s.pending[ids[i]])
  {
    PendingSweptFrame(s, PendingOf(s, did, ids[..i]));
    PendingOfMembers(s, did, ids[..i]);
    hide PendingOf, PendingSwept;
    assert ids[i] !in ids[..i];
  }

  lemma SweptArePending(s: Store, t: Store, did: Did)
    requires WellFormed(s) && forall p :: p in t.pending <==> p in s.pending && s.pending[p].pairing.did != did
    ensures forall p :: p in PendingOf(s, did, s.pendingOrder) <==> p in s.pending && p !in t.pending
  {
    PendingOfMembers(s, did, s.pendingOrder);
    hide PendingOf, Distinct;
  }

  function Expired(s: Store, cutoff: int, ids: seq<Pid>): seq<Pid> {
    if ids == [] then []
    else
      var pid := ids[|ids| - 1];
      Expired(s, cutoff, ids[..|ids| - 1])
          + (if pid in s.pending && s.pending[pid].createdAt < cutoff then [pid] else [])
  }

  lemma {:induction false} ExpiredMembers(s: Store, cutoff: int, ids: seq<Pid>)
    ensures forall p :: p in Expired(s, cutoff, ids) <==> p in ids && p in s.pending && s.pending[p].createdAt < cutoff
  {
    if ids != [] {
      assert ids == ids[..|ids| - 1] + [ids[|ids| - 1]];
      ExpiredMembers(s, cutoff, ids[..|ids| - 1]);
    }
  }

  lemma ExpiredOneMore(s: Store, cutoff: int, ids: seq<Pid>, i: nat)
    requires i < |ids| && ids[i] in s.pending
    ensures Expired(s, cutoff, ids[..i + 1])
            == Expired(s, cutoff, ids[..i]) + (if s.pending[ids[i]].createdAt < cutoff then [ids[i]] else [])
  {
    PrefixStep(ids, i);
  }

  lemma SweptOneMore(s: Store, swept: seq<Pid>, pid: Pid)
    ensures PendingSwept(s, swept + [pid]) == PendingRemoved(PendingSwept(s, swept), pid)
  {
    assert (swept + [pid])[..|swept|] == swept;
  }

  lemma UnfoldPending(s: Store)
    requires WellFormed(s)
    ensures Distinct(s.pendingOrder) && forall p :: p in s.pendingOrder <==> p in s.pending
  {
  }

  lemma {:induction false} PendingOfIgnores(s: Store, t: Store, did: Did, ids: seq<Pid>)
    requires s.pending == t.pending
    ensures PendingOf(s, did, ids) == PendingOf(t, did, ids)
  {
    if ids != [] {
      PendingOfIgnores(s, t, did, ids[..|ids| - 1]);
    }
  }

  /** The daemon's records if the keychain can be read and has any, and otherwise its pointer. */
  ghost predicate BelongsTo(s: Store, did: Did, q: Pid) {
    if !s.locked && exists p :: p in s.items && s.items[p].did == did then q in s.items && s.items[q].did == did
    else did in s.ptr.index && q == s.ptr.index[did]
  }

  lemma PidsBelong(s: Store, did: Did, view: Option<seq<Blob>>)
    requires KeyedByPid(s.items) && Faithful(view, s.locked, s.items)
    ensures forall q :: q in PidsFor(s.ptr, view, did) <==> BelongsTo(s, did, q)
  {
    if view.Some? {
      TombsAreItems(s, did, view.value);
      hide PidsFor, Enumerates;
      assert forall q :: q in PidsFor(s.ptr, view, did) <==> q in Tombs(s, did, view);
    }
  }

  /** What is published does not depend on the order of the enumeration. */
  lemma PublishedIgnoresOrder(s: Store, view: seq<Blob>, other: seq<Blob>)
    requires KeyedByPid(s.items) && Enumerates(view, s.items) && Enumerates(other, s.items)
    ensures CommittedSnapshot(s, Some(view)) == CommittedSnapshot(s, Some(other))
  {
    var a, b := Shown(view, s.hidden), Shown(other, s.hidden);
    ShownMembers(view, s.hidden);
    ShownMembers(other, s.hidden);
    assert forall c :: c in view <==> c.pid in s.items && s.items[c.pid] == c;
    assert forall c :: c in other <==> c.pid in s.items && s.items[c.pid] == c;
    hide Shown, Enumerates;
    CollapseIgnoresOrder(a, b);
    hide Collapse, FloorOf;
  }

  lemma PublishedIs(s: Store, view: seq<Blob>, m: map<Did, Blob>, floors: map<Did, int>)
    requires m == Collapse(Shown(view, s.hidden))
    requires floors == map d | d in m.Keys && FloorIn(s.sidecars, d) > 0 :: FloorIn(s.sidecars, d)
    ensures CommittedSnapshot(s, Some(view)) == Some(Snapshot(SCHEMA, Listing(m, Lexical.Sorted(m.Keys)), floors))
  {
    hide Collapse, Shown, FloorIn;
    var out := CommittedSnapshot(s, Some(view)).value;
    assert out.floors == floors;
    assert out.pairings == Listing(m, Lexical.Sorted(m.Keys));
  }

  lemma EnumeratedAt(view: seq<Blob>, items: map<Pid, Blob>, pid: Pid)
    requires KeyedByPid(items) && Enumerates(view, items)
    ensures pid in items ==> exists i :: 0 <= i < |view| && view[i].pid == pid
  {
    if pid in items {
      assert items[pid] in view;
    }
  }

  lemma FailedSaveIsWellFormed(s: Store, pid: Pid)
    requires WellFormed(s)
    ensures WellFormed(SaveFailed(s, pid))
  {
    hide Lists;
  }

  lemma SavedIsWellFormed(s: Store, b: Blob)
    requires WellFormed(s)
    ensures WellFormed(s.(items := s.items[b.pid := b]))
  {
    hide Lists;
  }

  lemma SweptFrame(s: Store, pids: seq<Pid>)
    ensures Swept(s, pids).sidecars == s.sidecars && Swept(s, pids).ptr == s.ptr
  {
  }
}
