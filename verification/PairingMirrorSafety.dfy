/**
 * When applying a peer snapshot whose reads are complete removes a record: exactly when it revives a hidden legacy
 * record beside a shown one; and when it loses one, which a failed save does as well.
 */
module PairingMirrorSafety {
  import opened Common
  import opened PairingRecords
  import opened PairingState
  import opened PairingReconcile
  import opened PairingFrames
  import opened PairingMirror

  lemma SingleByAgreement(owner: Pid -> Did, d: Did, s: Store, t: Store)
    requires Agree(owner, d, s, t) && OwnedItems(owner, s.items) && OwnedItems(owner, t.items)
    ensures SingleFor(s, d) <==> SingleFor(t, d)
  {
    forall q ensures Shows(s, q) && s.items[q].did == d <==> Shows(t, q) && t.items[q].did == d {
      assert owner(q) == d || owner(q) != d;
    }
  }

  lemma SingleEverywhere(s: Store)
    ensures OneShownPerDaemon(s) <==> forall d :: SingleFor(s, d)
  {
    if forall d :: SingleFor(s, d) {
      forall q, r | Shows(s, q) && Shows(s, r) && s.items[q].did == s.items[r].did ensures q == r {
        assert SingleFor(s, s.items[q].did);
      }
    }
  }

  lemma {:induction false} AllHiddenFrame(s: Store, dids: seq<Did>, rest: Did -> Option<seq<Blob>>)
    ensures var t := AllHidden(s, dids, rest);
            && t.items == s.items && t.removals == s.removals && t.locked == s.locked && t.sidecars == s.sidecars
            && (WellFormed(s) ==> WellFormed(t))
  {
    if dids != [] {
      hide Hidden, WellFormed;
      var front, d := dids[..|dids| - 1], dids[|dids| - 1];
      AllHiddenFrame(s, front, rest);
      HiddenFrame(AllHidden(s, front, rest), d, rest(d));
      if WellFormed(s) {
        HiddenIsWellFormed(AllHidden(s, front, rest), d, rest(d));
      }
    }
  }

  ghost predicate OwnedSnapshot(owner: Pid -> Did, snap: Snapshot) {
    forall b :: b in snap.pairings ==> owner(b.pid) == b.did
  }

  lemma IncomingIsOwned(owner: Pid -> Did, snap: Snapshot)
    requires OwnedSnapshot(owner, snap)
    ensures OwnedIncoming(owner, Collapse(snap.pairings))
  {
    CollapseIsNewest(snap.pairings);
  }

  ghost predicate Owned(legacy: Did -> Pid, owner: Pid -> Did, s: Store) {
    OwnedLegacy(legacy, owner) && OwnedItems(owner, s.items) && OwnedPointers(owner, s.ptr)
  }

  /** An application that reads the keychain as it is, at first and in its reconcile. */
  ghost predicate Fair(legacy: Did -> Pid, s: Store, snap: Snapshot, w: Weather) {
    && Walks(snap, w) && w.local == Some(s.items)
    && w.recon.Some? && Enumerates(w.recon.value, AfterAdoption(legacy, s, snap, w).items)
  }

  lemma FairParts(legacy: Did -> Pid, s: Store, snap: Snapshot, w: Weather)
    requires Fair(legacy, s, snap, w)
    ensures Walks(snap, w) && w.local == Some(s.items)
    ensures w.recon.Some? && Enumerates(w.recon.value, AfterAdoption(legacy, s, snap, w).items)
  {
  }

  lemma AfterAdoptionFrame(legacy: Did -> Pid, owner: Pid -> Did, s: Store, snap: Snapshot, w: Weather)
    requires WellFormed(s) && Owned(legacy, owner, s) && OwnedSnapshot(owner, snap)
    requires Walks(snap, w)
    ensures var a := AfterAdoption(legacy, s, snap, w);
            && WellFormed(a) && Owned(legacy, owner, a)
            && a.removals == s.removals && a.locked == s.locked
            && a.pending == s.pending && a.pendingOrder == s.pendingOrder
  {
    IncomingIsOwned(owner, snap);
    AllMirroredFrame(legacy, owner, s, w.local.value, Collapse(snap.pairings), w.dids, w.saved);
    hide AllMirrored, Collapse, FloorsMerged, Lists;
  }

  /** After adoption each daemon is as its own incoming record left it, or untouched. */
  lemma AfterAdoptionAt(legacy: Did -> Pid, owner: Pid -> Did, s: Store, snap: Snapshot, w: Weather, d: Did)
    requires WellFormed(s) && Owned(legacy, owner, s) && OwnedSnapshot(owner, snap)
    requires Walks(snap, w) && OwnedItems(owner, w.local.value)
    ensures var a, m := AfterAdoption(legacy, s, snap, w), Collapse(snap.pairings);
            && (d !in m ==> Agree(owner, d, s, a))
            && (d in m ==> Agree(owner, d, Mirrored(legacy, s, w.local.value, m[d], m[d].pid in w.saved), a))
  {
    IncomingIsOwned(owner, snap);
    var m := Collapse(snap.pairings);
    var t := AllMirrored(legacy, s, w.local.value, m, w.dids, w.saved);
    AllMirroredAt(legacy, owner, s, w.local.value, m, w.dids, w.saved, d);
    assert d in w.dids <==> d in m;
    hide AllMirrored, Collapse, FloorsMerged, Lists, Mirrored, Agree, WellFormed, Owned;
    var c := FloorsMerged(t.sidecars, snap.floors, m.Keys, w.floorDids);
    if d in m {
      AgreeIgnoresSidecars(owner, d, Mirrored(legacy, s, w.local.value, m[d], m[d].pid in w.saved), t, c);
    } else {
      AgreeIgnoresSidecars(owner, d, s, t, c);
    }
  }

  lemma AgreeIgnoresSidecars(owner: Pid -> Did, d: Did, s: Store, t: Store, sidecars: map<Did, Sidecar>)
    requires Agree(owner, d, s, t)
    ensures Agree(owner, d, s, t.(sidecars := sidecars))
  {
  }

  lemma SingleAfterAdoption(legacy: Did -> Pid, owner: Pid -> Did, s: Store, snap: Snapshot, w: Weather, d: Did)
    requires WellFormed(s) && Owned(legacy, owner, s) && OwnedSnapshot(owner, snap)
    requires Walks(snap, w) && w.local == Some(s.items)
    requires SingleFor(s, d)
    ensures var m := Collapse(snap.pairings);
            SingleFor(AfterAdoption(legacy, s, snap, w), d)
            <==> !(d in m && Revives(legacy, s, m[d], m[d].pid in w.saved))
  {
    var a, m := AfterAdoption(legacy, s, snap, w), Collapse(snap.pairings);
    AfterAdoptionFrame(legacy, owner, s, snap, w);
    AfterAdoptionAt(legacy, owner, s, snap, w, d);
    IncomingIsOwned(owner, snap);
    if d in m {
      var b, ok := m[d], m[d].pid in w.saved;
      hide AfterAdoption, Collapse, Mirrored, Revives, SingleFor, Agree;
      MirroredFrame(legacy, owner, s, s.items, b, ok);
      SingleIffNotRevived(legacy, owner, s, b, ok);
      SingleByAgreement(owner, d, Mirrored(legacy, s, s.items, b, ok), a);
    } else {
      hide AfterAdoption, Collapse, SingleFor, Agree;
      SingleByAgreement(owner, d, s, a);
    }
  }

  /**
   * From a store that shows at most one record per daemon, applying a snapshot with complete reads asks the keychain to
   * remove no record exactly when no incoming record revives a hidden legacy one. The condition reads the store, the
   * snapshot and the save outcomes. Records can also be lost without a removal: see `FaithfulLosesNothingIff`.
   */
  lemma FaithfulRemovesNothingIff(legacy: Did -> Pid, owner: Pid -> Did, s: Store, snap: Snapshot, w: Weather)
    requires WellFormed(s) && Owned(legacy, owner, s) && OwnedSnapshot(owner, snap) && OneShownPerDaemon(s)
    requires snap.schema <= SCHEMA && Fair(legacy, s, snap, w)
    ensures var m := Collapse(snap.pairings);
            SnapshotApplied(legacy, s, snap, w).removals == s.removals
            <==> forall d :: d in m ==> !Revives(legacy, s, m[d], m[d].pid in w.saved)
  {
    hide OneShownPerDaemon, Reconciled, AfterAdoption, Collapse, Revives, WellFormed, Owned, SnapshotApplied, Fair,
         Walks, SingleFor;
    FairParts(legacy, s, snap, w);
    var a, m := AfterAdoption(legacy, s, snap, w), Collapse(snap.pairings);
    AfterAdoptionFrame(legacy, owner, s, snap, w);
    AppliedRecords(legacy, s, snap, w);
    SweepsNothingIffSingle(a, w.recon.value);
    SingleEverywhere(s);
    SingleEverywhere(a);
    if d :| d in m && Revives(legacy, s, m[d], m[d].pid in w.saved) {
      SingleAfterAdoption(legacy, owner, s, snap, w, d);
      assert !SingleFor(a, d);
    } else {
      forall d ensures SingleFor(a, d) {
        SingleAfterAdoption(legacy, owner, s, snap, w, d);
      }
    }
  }

  /** The records of an application are those its reconcile left. */
  lemma AppliedRecords(legacy: Did -> Pid, s: Store, snap: Snapshot, w: Weather)
    requires TakenUp(snap, w) && Walks(snap, w)
    ensures var t, r := SnapshotApplied(legacy, s, snap, w), Reconciled(AfterAdoption(legacy, s, snap, w), w.recon).0;
            t.items == r.items && t.removals == r.removals && t.locked == r.locked && t.sidecars == r.sidecars
  {
    var (r, p) := Reconciled(AfterAdoption(legacy, s, snap, w), w.recon);
    hide AfterAdoption, Reconciled, Collapse, AllHidden;
    AllHiddenFrame(r, Absent(p.order, Collapse(snap.pairings).Keys), w.rest);
  }

  /** The save that was to replace our own copy of the incoming record fails after deleting that copy. */
  ghost predicate LosesCopy(s: Store, b: Blob, saveOk: bool) {
    Holds(s.items, b) && OutcomeOf(s.items, b, saveOk) == SaveError
  }

  /** Of the records stored before, the adoption loop loses exactly the copies whose replacement could not be saved. */
  lemma AdoptionLoses(legacy: Did -> Pid, owner: Pid -> Did, s: Store, snap: Snapshot, w: Weather, q: Pid)
    requires WellFormed(s) && Owned(legacy, owner, s) && OwnedSnapshot(owner, snap) && q in s.items
    requires Walks(snap, w) && w.local == Some(s.items)
    ensures var a, m, d := AfterAdoption(legacy, s, snap, w), Collapse(snap.pairings), s.items[q].did;
            q !in a.items <==> d in m && m[d].pid == q && LosesCopy(s, m[d], q in w.saved)
  {
    var a, m, d := AfterAdoption(legacy, s, snap, w), Collapse(snap.pairings), s.items[q].did;
    AfterAdoptionAt(legacy, owner, s, snap, w, d);
    IncomingIsOwned(owner, snap);
    assert owner(q) == d;
    hide AfterAdoption, Collapse, WellFormed, Lists;
    if d in m {
      MirroredFields(legacy, s, s.items, m[d], m[d].pid in w.saved);
      hide Mirrored, OutcomeOf, Others;
    }
  }

  /** Nothing is removed and every record stored before is still there. */
  ghost predicate LosesNothing(s: Store, t: Store) {
    t.removals == s.removals && forall q :: q in s.items ==> q in t.items
  }

  /**
   * From a store that shows at most one record per daemon, applying a snapshot with complete reads loses no record, by
   * removal or by a failed save, exactly when no incoming record revives a hidden legacy one and no replacement of our
   * own copy fails.
   */
  lemma FaithfulLosesNothingIff(legacy: Did -> Pid, owner: Pid -> Did, s: Store, snap: Snapshot, w: Weather)
    requires WellFormed(s) && Owned(legacy, owner, s) && OwnedSnapshot(owner, snap) && OneShownPerDaemon(s)
    requires snap.schema <= SCHEMA && Fair(legacy, s, snap, w)
    ensures var m := Collapse(snap.pairings);
            LosesNothing(s, SnapshotApplied(legacy, s, snap, w))
            <==> forall d ::
                   d in m ==> !Revives(legacy, s, m[d], m[d].pid in w.saved) && !LosesCopy(s, m[d], m[d].pid in w.saved)
  {
    hide OneShownPerDaemon, AfterAdoption, Collapse, Revives, WellFormed, Owned, SnapshotApplied, Fair, Walks,
         LosesCopy;
    FairParts(legacy, s, snap, w);
    FaithfulRemovesNothingIff(legacy, owner, s, snap, w);
    var m, t := Collapse(snap.pairings), SnapshotApplied(legacy, s, snap, w);
    if t.removals == s.removals {
      RemovingNothingKeepsItems(legacy, owner, s, snap, w);
      if d :| d in m && LosesCopy(s, m[d], m[d].pid in w.saved) {
        IncomingKey(snap, d);
        LostIsHeld(s, m[d], m[d].pid in w.saved);
        AdoptionLoses(legacy, owner, s, snap, w, m[d].pid);
      } else {
        forall q | q in s.items ensures q in t.items {
          AdoptionLoses(legacy, owner, s, snap, w, q);
        }
      }
    }
  }

  lemma LostIsHeld(s: Store, b: Blob, saveOk: bool)
    requires LosesCopy(s, b, saveOk)
    ensures b.pid in s.items && s.items[b.pid].did == b.did
  {
  }

  lemma IncomingKey(snap: Snapshot, d: Did)
    requires d in Collapse(snap.pairings)
    ensures Collapse(snap.pairings)[d].did == d
  {
    CollapseIsNewest(snap.pairings);
  }

  lemma RemovingNothingKeepsItems(legacy: Did -> Pid, owner: Pid -> Did, s: Store, snap: Snapshot, w: Weather)
    requires WellFormed(s) && Owned(legacy, owner, s) && OwnedSnapshot(owner, snap)
    requires snap.schema <= SCHEMA && Fair(legacy, s, snap, w)
    requires SnapshotApplied(legacy, s, snap, w).removals == s.removals
    ensures SnapshotApplied(legacy, s, snap, w).items == AfterAdoption(legacy, s, snap, w).items
  {
    var a := AfterAdoption(legacy, s, snap, w);
    AfterAdoptionFrame(legacy, owner, s, snap, w);
    AppliedRecords(legacy, s, snap, w);
    SweepsNothingIffSingle(a, w.recon.value);
    hide OneShownPerDaemon, Reconciled, AfterAdoption, Collapse, WellFormed, Owned, SnapshotApplied;
  }

  // The conditions are needed.

  /** A daemon whose only record is shown and pointed at. */
  ghost function Lone(did: Did): Store {
    FRESH.(items := map["P" := Blob(did, "P", 1, "")], ptr := Pointers([did], map[did := "P"]))
  }

  /** The same record, written again later. */
  function Rewritten(did: Did): Snapshot {
    Snapshot(SCHEMA, [Blob(did, "P", 2, "")], map[])
  }

  /**
   * A daemon's only record is to be replaced by a later writing of itself and the save fails: nothing is removed,
   * nothing is revived, and the record is gone.
   */
  lemma FailedSaveLosesRecord(legacy: Did -> Pid, owner: Pid -> Did, w: Weather, did: Did)
    requires OwnedLegacy(legacy, owner) && owner("P") == did && "P" !in w.saved
    requires Fair(legacy, Lone(did), Rewritten(did), w)
    ensures OneShownPerDaemon(Lone(did))
    ensures var t := SnapshotApplied(legacy, Lone(did), Rewritten(did), w); t.removals == [] && "P" !in t.items
  {
    var s, snap, b := Lone(did), Rewritten(did), Blob(did, "P", 2, "");
    assert snap.pairings[..0] == [];
    assert Collapse(snap.pairings) == map[did := b];
    assert Others(s.items, b) == {};
    assert LosesCopy(s, b, false) && !Revives(legacy, s, b, false);
    assert WellFormed(s) && Owned(legacy, owner, s) && OwnedSnapshot(owner, snap);
    hide SnapshotApplied, Collapse, WellFormed, Owned, Fair, LosesCopy, Revives;
    FaithfulRemovesNothingIff(legacy, owner, s, snap, w);
    RemovingNothingKeepsItems(legacy, owner, s, snap, w);
    FairParts(legacy, s, snap, w);
    AdoptionLoses(legacy, owner, s, snap, w, "P");
  }

  /** A daemon whose legacy record is hidden and whose newer record Q is shown. */
  ghost function Hazard(legacy: Did -> Pid, did: Did): Store {
    FRESH.(items := map[legacy(did) := Blob(did, legacy(did), 1, ""), "Q" := Blob(did, "Q", 3, "")],
           hidden := {legacy(did)}, ptr := Pointers([did], map[did := "Q"]))
  }

  /** A third record of that daemon, older than Q. */
  function StaleSnapshot(did: Did): Snapshot {
    Snapshot(SCHEMA, [Blob(did, "R", 2, "")], map[])
  }

  lemma StaleIncoming(did: Did)
    ensures Collapse(StaleSnapshot(did).pairings) == map[did := Blob(did, "R", 2, "")]
  {
    assert StaleSnapshot(did).pairings[..0] == [];
  }

  lemma HazardIsQuiet(legacy: Did -> Pid, owner: Pid -> Did, did: Did)
    requires OwnedLegacy(legacy, owner) && legacy(did) !in {"Q", "R"} && owner("Q") == did && owner("R") == did
    ensures var s := Hazard(legacy, did);
            WellFormed(s) && Owned(legacy, owner, s) && OwnedSnapshot(owner, StaleSnapshot(did)) && OneShownPerDaemon(s)
  {
    assert owner(legacy(did)) == did;
  }

  lemma HazardRevives(legacy: Did -> Pid, did: Did, saveOk: bool)
    requires legacy(did) !in {"Q", "R"}
    ensures Revives(legacy, Hazard(legacy, did), Blob(did, "R", 2, ""), saveOk)
  {
    var s, r := Hazard(legacy, did), Blob(did, "R", 2, "");
    assert "Q" in Others(s.items, r) && !Newer(r, s.items["Q"]);
    assert Shows(s, "Q");
  }

  /** Of two shown records of a daemon the reconcile deletes the older. */
  lemma OlderIsSwept(s: Store, view: seq<Blob>, q: Pid, r: Pid)
    requires WellFormed(s) && Enumerates(view, s.items)
    requires Shows(s, q) && Shows(s, r) && s.items[q].did == s.items[r].did && s.items[q].ts < s.items[r].ts
    ensures q in Reconciled(s, Some(view)).0.removals
  {
    var e := Elect(Shown(view, s.hidden));
    ReconcileByElection(s, view, e);
    hide Reconciled, WellFormed, Enumerates, Elect, Shown;
    assert s.items[e.best[s.items[q].did].pid] == e.best[s.items[q].did];
    assert q in e.losers;
  }

  /**
   * L hidden, a newer Q shown, and a third record older than Q arrives: L is un-hidden, nothing re-hides it, the
   * arrival is skipped as stale, and the reconcile deletes L.
   */
  lemma StaleArrivalDeletes(legacy: Did -> Pid, owner: Pid -> Did, w: Weather, did: Did)
    requires OwnedLegacy(legacy, owner) && legacy(did) !in {"Q", "R"} && owner("Q") == did && owner("R") == did
    requires Fair(legacy, Hazard(legacy, did), StaleSnapshot(did), w)
    ensures OneShownPerDaemon(Hazard(legacy, did))
    ensures legacy(did) in SnapshotApplied(legacy, Hazard(legacy, did), StaleSnapshot(did), w).removals
  {
    var s, snap, r := Hazard(legacy, did), StaleSnapshot(did), Blob(did, "R", 2, "");
    HazardIsQuiet(legacy, owner, did);
    HazardRevives(legacy, did, "R" in w.saved);
    StaleIncoming(did);
    var a, m := AfterAdoption(legacy, s, snap, w), Collapse(snap.pairings);
    AfterAdoptionFrame(legacy, owner, s, snap, w);
    AfterAdoptionAt(legacy, owner, s, snap, w, did);
    MirroredFields(legacy, s, s.items, r, "R" in w.saved);
    AllHiddenFrame(Reconciled(a, w.recon).0, Absent(Reconciled(a, w.recon).1.order, m.Keys), w.rest);
    HazardShowsBoth(legacy, owner, did, a, "R" in w.saved);
    hide WellFormed, Owned, AfterAdoption, Collapse, Reconciled, AllHidden;
    OlderIsSwept(a, w.recon.value, legacy(did), "Q");
  }

  lemma HazardShowsBoth(legacy: Did -> Pid, owner: Pid -> Did, did: Did, a: Store, saveOk: bool)
    requires OwnedLegacy(legacy, owner) && legacy(did) !in {"Q", "R"} && owner("Q") == did
    requires Agree(owner, did,
                   Mirrored(legacy, Hazard(legacy, did), Hazard(legacy, did).items, Blob(did, "R", 2, ""), saveOk), a)
    ensures Shows(a, legacy(did)) && Shows(a, "Q") && a.items[legacy(did)].did == a.items["Q"].did == did
    ensures a.items[legacy(did)].ts < a.items["Q"].ts
  {
    var s, r, l := Hazard(legacy, did), Blob(did, "R", 2, ""), legacy(did);
    HazardRevives(legacy, did, saveOk);
    MirroredFields(legacy, s, s.items, r, saveOk);
    assert owner(l) == did;
    hide Mirrored, OutcomeOf, Others;
  }
}
