/**
 * Exactly which records a snapshot application deletes or loses, and when a run deletes any at all, whatever the reads
 * on the way show.
 */
module PairingDeletion {
  import opened Common
  import opened PairingRecords
  import opened PairingState
  import opened PairingElection
  import opened PairingReconcile
  import opened PairingFrames
  import opened PairingMirror
  import opened PairingMirrorSafety
  import opened PairingRuns
  import opened PairingListing

  // One snapshot application.

  /** The application's reconcile enumerates this record, and the adoption has not left it tombstoned. */
  ghost predicate Surfaces(legacy: Did -> Pid, s: Store, snap: Snapshot, w: Weather, i: int)
    requires w.local.Some? && w.recon.Some?
  {
    0 <= i < |w.recon.value| && !StaysHidden(legacy, s, snap, w, w.recon.value[i])
  }

  /** Two records of one daemon surface. */
  ghost predicate Clashes(legacy: Did -> Pid, s: Store, snap: Snapshot, w: Weather)
    requires w.local.Some?
  {
    && w.recon.Some?
    && exists i, j :: i < j && Surfaces(legacy, s, snap, w, i) && Surfaces(legacy, s, snap, w, j)
                      && w.recon.value[i].did == w.recon.value[j].did
  }

  /** This id surfaces beside a later record of its daemon. */
  ghost predicate SweptIn(legacy: Did -> Pid, s: Store, snap: Snapshot, w: Weather, q: Pid)
    requires w.local.Some?
  {
    && w.recon.Some?
    && exists i, j :: Surfaces(legacy, s, snap, w, i) && Surfaces(legacy, s, snap, w, j)
                      && Later(w.recon.value, i, j) && w.recon.value[i].pid == q
  }

  lemma SurfacesIff(legacy: Did -> Pid, owner: Pid -> Did, s: Store, snap: Snapshot, w: Weather)
    requires Sound(legacy, owner, s) && OwnedApplication(owner, snap, w) && w.recon.Some?
    ensures var view, hidden := w.recon.value, AfterAdoption(legacy, s, snap, w).hidden;
            forall i :: 0 <= i < |view| ==> (view[i].pid !in hidden <==> Surfaces(legacy, s, snap, w, i))
  {
    var view, hidden := w.recon.value, AfterAdoption(legacy, s, snap, w).hidden;
    hide Sound, AfterAdoption, StaysHidden;
    forall i | 0 <= i < |view| ensures view[i].pid !in hidden <==> Surfaces(legacy, s, snap, w, i) {
      assert view[i] in view;
      HiddenAfterAdoption(legacy, owner, s, snap, w, view[i]);
    }
  }

  /** The conditions on the state before, as what the reconcile makes of its enumeration. */
  lemma SweptInIff(legacy: Did -> Pid, owner: Pid -> Did, s: Store, snap: Snapshot, w: Weather)
    requires Sound(legacy, owner, s) && OwnedApplication(owner, snap, w) && w.recon.Some?
    ensures var view, hidden := w.recon.value, AfterAdoption(legacy, s, snap, w).hidden;
            && (forall q :: SweptIn(legacy, s, snap, w, q) <==> Outranked(view, hidden, q))
            && (Clashes(legacy, s, snap, w) <==> !OnePerDaemon(view, hidden))
  {
    var view, hidden := w.recon.value, AfterAdoption(legacy, s, snap, w).hidden;
    hide Sound, AfterAdoption, StaysHidden, OwnedApplication;
    SurfacesIff(legacy, owner, s, snap, w);
    hide Later;
    forall i, j
      ensures Outranks(view, hidden, i, j)
              <==> Surfaces(legacy, s, snap, w, i) && Surfaces(legacy, s, snap, w, j) && Later(view, i, j)
    {
    }
  }

  lemma ApplicationRecords(legacy: Did -> Pid, owner: Pid -> Did, s: Store, snap: Snapshot, w: Weather)
    requires Sound(legacy, owner, s) && TakenUp(snap, w) && OwnedApplication(owner, snap, w)
    ensures var a, t := AfterAdoption(legacy, s, snap, w), SnapshotApplied(legacy, s, snap, w);
            var r := Reconciled(a, w.recon).0;
            a.removals == s.removals && t.items == r.items && t.removals == r.removals && (w.recon.None? ==> r == a)
  {
    hide WellFormed, Owned, AfterAdoption, SnapshotApplied, Walks, OwnedSnapshot;
    AfterAdoptionFrame(legacy, owner, s, snap, w);
    AppliedRecords(legacy, s, snap, w);
  }

  /**
   * What applying a snapshot asks the keychain to remove, whatever its reads show: exactly the ids its reconcile shows
   * beside a later record of the same daemon, neither tombstoned by then; so nothing exactly if no two records of one
   * daemon surface.
   */
  lemma SnapshotRemovesIff(legacy: Did -> Pid, owner: Pid -> Did, s: Store, snap: Snapshot, w: Weather)
    requires Sound(legacy, owner, s) && TakenUp(snap, w) && OwnedApplication(owner, snap, w)
    ensures var t := SnapshotApplied(legacy, s, snap, w);
            && |s.removals| <= |t.removals| && t.removals[..|s.removals|] == s.removals
            && (forall q :: q in t.removals[|s.removals|..] <==> SweptIn(legacy, s, snap, w, q))
            && (t.removals == s.removals <==> !Clashes(legacy, s, snap, w))
  {
    hide Sound, AfterAdoption, SnapshotApplied, OwnedApplication, Reconciled, Outranked, OnePerDaemon, Surfaces, Walks;
    ApplicationWalks(owner, snap, w);
    ApplicationRecords(legacy, owner, s, snap, w);
    var a := AfterAdoption(legacy, s, snap, w);
    if w.recon.Some? {
      SweptInIff(legacy, owner, s, snap, w);
      SweepsIff(a, w.recon.value);
      SweepsNothingIff(a, w.recon.value);
    }
  }

  /** The snapshot's record of this daemon carries this id, and this is what becomes of it. */
  ghost predicate Meets(snap: Snapshot, w: Weather, q: Pid, d: Did, o: Outcome)
    requires w.local.Some?
  {
    var m := Collapse(snap.pairings); d in m && m[d].pid == q && OutcomeOf(w.local.value, m[d], q in w.saved) == o
  }

  /** The record is stored once the snapshot's records have been adopted. */
  ghost predicate StoredThen(owner: Pid -> Did, s: Store, snap: Snapshot, w: Weather, q: Pid)
    requires w.local.Some?
  {
    Meets(snap, w, q, owner(q), Outcome.Adopted) || (q in s.items && !Meets(snap, w, q, owner(q), SaveError))
  }

  lemma AdoptedRecord(legacy: Did -> Pid, owner: Pid -> Did, s: Store, snap: Snapshot, w: Weather, q: Pid)
    requires Sound(legacy, owner, s) && OwnedApplication(owner, snap, w)
    ensures var a, d := AfterAdoption(legacy, s, snap, w), owner(q);
            && (q in a.items <==> StoredThen(owner, s, snap, w, q))
            && (q in a.items ==> a.items[q] == if Meets(snap, w, q, d, Outcome.Adopted) then Collapse(snap.pairings)[d]
                                               else s.items[q])
  {
    hide AfterAdoption, Collapse, Mirrored, WellFormed, Walks, OutcomeOf, Holds, Others;
    ApplicationWalks(owner, snap, w);
    var m, d := Collapse(snap.pairings), owner(q);
    AfterAdoptionAt(legacy, owner, s, snap, w, d);
    IncomingIsOwned(owner, snap);
    if d in m {
      MirroredFields(legacy, s, w.local.value, m[d], m[d].pid in w.saved);
    }
  }

  /**
   * Which records are stored once a snapshot has been applied, whatever its reads show: what it adopted and what was
   * there before, without those a failed save deleted and those its reconcile removed.
   */
  lemma SnapshotStoresIff(legacy: Did -> Pid, owner: Pid -> Did, s: Store, snap: Snapshot, w: Weather, q: Pid)
    requires Sound(legacy, owner, s) && TakenUp(snap, w) && OwnedApplication(owner, snap, w)
    ensures var t, d := SnapshotApplied(legacy, s, snap, w), owner(q);
            && (q in t.items <==> StoredThen(owner, s, snap, w, q) && !SweptIn(legacy, s, snap, w, q))
            && (q in t.items ==> t.items[q] == if Meets(snap, w, q, d, Outcome.Adopted) then Collapse(snap.pairings)[d]
                                               else s.items[q])
  {
    hide Sound, AfterAdoption, SnapshotApplied, OwnedApplication, Reconciled, Outranked, OnePerDaemon, Surfaces, Walks,
         StoredThen, Meets, Collapse;
    ApplicationWalks(owner, snap, w);
    ApplicationRecords(legacy, owner, s, snap, w);
    AdoptedRecord(legacy, owner, s, snap, w, q);
    var a := AfterAdoption(legacy, s, snap, w);
    if w.recon.Some? {
      SweptInIff(legacy, owner, s, snap, w);
      SweepsIff(a, w.recon.value);
    }
  }

  /**
   * A snapshot application loses nothing, whatever its reads show, exactly if no two records of one daemon surface in
   * its reconcile and no save of a stored id fails.
   */
  lemma SnapshotLosesNothingIff(legacy: Did -> Pid, owner: Pid -> Did, s: Store, snap: Snapshot, w: Weather)
    requires Sound(legacy, owner, s) && TakenUp(snap, w) && OwnedApplication(owner, snap, w)
    ensures LosesNothing(s, SnapshotApplied(legacy, s, snap, w))
            <==> !Clashes(legacy, s, snap, w) && forall q :: q in s.items ==> !Meets(snap, w, q, owner(q), SaveError)
  {
    hide Sound, SnapshotApplied, OwnedApplication, Clashes, Meets, SweptIn;
    ApplicationWalks(owner, snap, w);
    var t := SnapshotApplied(legacy, s, snap, w);
    SnapshotRemovesIff(legacy, owner, s, snap, w);
    forall q | q in s.items
      ensures t.removals == s.removals ==> (q in t.items <==> !Meets(snap, w, q, owner(q), SaveError))
    {
      SnapshotStoresIff(legacy, owner, s, snap, w, q);
      OneOutcome(snap, w, q, owner(q));
      if t.removals == s.removals {
        assert q !in t.removals[|s.removals|..];
      }
    }
  }

  lemma OneOutcome(snap: Snapshot, w: Weather, q: Pid, d: Did)
    requires w.local.Some?
    ensures !(Meets(snap, w, q, d, Outcome.Adopted) && Meets(snap, w, q, d, SaveError))
  {
  }

  /** A daemon whose only record Q is shown and pointed at. */
  ghost function Newest(did: Did): Store {
    FRESH.(items := map["Q" := Blob(did, "Q", 2, "")], ptr := Pointers([did], map[did := "Q"]))
  }

  /** An older record of the same daemon. */
  function Older(did: Did): Snapshot {
    Snapshot(SCHEMA, [Blob(did, "P", 1, "")], map[])
  }

  lemma NewestIsQuiet(legacy: Did -> Pid, owner: Pid -> Did, did: Did)
    requires OwnedLegacy(legacy, owner) && owner("P") == owner("Q") == did
    ensures Sound(legacy, owner, Newest(did)) && OneShownPerDaemon(Newest(did))
    ensures Collapse(Older(did).pairings) == map[did := Blob(did, "P", 1, "")]
  {
    assert Older(did).pairings[..0] == [];
  }

  /**
   * After a first read that shows nothing, an older record of a daemon is adopted beside its current one. The save
   * succeeds and nothing is revived; a complete enumeration then has the reconcile delete the record just adopted.
   */
  lemma ShortReadDeletes(legacy: Did -> Pid, owner: Pid -> Did, did: Did, w: Weather)
    requires OwnedLegacy(legacy, owner) && owner("P") == owner("Q") == did
    requires OwnedApplication(owner, Older(did), w) && w.local == Some(map[]) && "P" in w.saved
    requires w.recon == Some([Blob(did, "Q", 2, ""), Blob(did, "P", 1, "")])
    ensures var s, b := Newest(did), Blob(did, "P", 1, "");
            var t := SnapshotApplied(legacy, s, Older(did), w);
            && Sound(legacy, owner, s) && OneShownPerDaemon(s)
            && !Revives(legacy, s, b, true) && !LosesCopy(s, b, true)
            && "P" in t.removals && "P" !in t.items
  {
    var s, snap, b := Newest(did), Older(did), Blob(did, "P", 1, "");
    NewestIsQuiet(legacy, owner, did);
    assert Others(map[], b) == {};
    assert w.recon.value[0].pid == "Q" && w.recon.value[1] == b && "P"[0] != "Q"[0];
    assert Surfaces(legacy, s, snap, w, 0) && Surfaces(legacy, s, snap, w, 1) && Later(w.recon.value, 1, 0);
    assert SweptIn(legacy, s, snap, w, "P");
    hide Sound, SnapshotApplied, OwnedApplication, Clashes, Meets, SweptIn, StoredThen, Surfaces;
    SnapshotRemovesIff(legacy, owner, s, snap, w);
    SnapshotStoresIff(legacy, owner, s, snap, w, "P");
  }

  // Runs.

  ghost predicate ShowsDaemon(view: Option<seq<Blob>>, d: Did) {
    view.Some? && exists b :: b in view.value && b.did == d
  }

  ghost predicate ShowsOther(view: Option<seq<Blob>>, d: Did, q: Pid) {
    view.Some? && exists b :: b in view.value && b.did == d && b.pid != q
  }

  /** The step asks the keychain to remove a record, by what it is shown and the state before. */
  ghost predicate Removes(legacy: Did -> Pid, s: Store, e: Event) {
    match e
    case Reading(view) => view.Some? && !OnePerDaemon(view.value, s.hidden)
    case Promoting(pid, _, secretOk, saveOk, view) =>
      pid in s.pending && secretOk && saveOk && ShowsOther(view, s.pending[pid].pairing.did, pid)
    case Unpairing(did, view) => did in s.ptr.index || ShowsDaemon(view, did)
    case Applying(snap, w) => TakenUp(snap, w) && Clashes(legacy, s, snap, w)
    case _ => false
  }

  /** No request is taken back, and none is new exactly if the step removes nothing. */
  ghost predicate RemovesBetween(s: Store, t: Store, removes: bool) {
    |s.removals| <= |t.removals| && (t.removals == s.removals <==> !removes)
  }

  lemma ReadingRemovesIff(s: Store, view: Option<seq<Blob>>)
    requires WellFormed(s)
    ensures RemovesBetween(s, Reconciled(s, view).0, view.Some? && !OnePerDaemon(view.value, s.hidden))
  {
    hide Reconciled, OnePerDaemon, Outranked, WellFormed;
    ReconcileFrame(s, view);
    if view.Some? {
      SweepsIff(s, view.value);
      SweepsNothingIff(s, view.value);
    }
  }

  lemma FoundIff(p: Pointers, view: Option<seq<Blob>>, d: Did)
    ensures PidsFor(p, view, d) == [] <==> d !in p.index && !ShowsDaemon(view, d)
  {
    hide PidsOf;
    if view.Some? {
      var found := PidsOf(view.value, d);
      PidsOfMembers(view.value, d);
      if found != [] {
        assert found[0] in found;
      }
      if b :| b in view.value && b.did == d {
        assert b.pid in found;
      }
    }
  }

  lemma UnpairingRemovesIff(legacy: Did -> Pid, s: Store, did: Did, view: Option<seq<Blob>>)
    ensures RemovesBetween(s, Unpaired(legacy, s, did, view), did in s.ptr.index || ShowsDaemon(view, did))
  {
    hide PidsFor, ShowsDaemon;
    FoundIff(s.ptr, view, did);
    Appended(s.removals, PidsFor(s.ptr, view, did));
  }

  lemma Appended(a: seq<Pid>, b: seq<Pid>)
    ensures a + b == a <==> b == []
  {
    assert |a + b| == |a| + |b|;
  }

  lemma StaleIff(p: Pointers, view: Option<seq<Blob>>, d: Did, q: Pid)
    ensures Without(PidsFor(Pointed(p, d, q), view, d), q) == [] <==> !ShowsOther(view, d, q)
  {
    var found := PidsFor(Pointed(p, d, q), view, d);
    WithoutMembers(found, q);
    hide Without;
    SomeMember(Without(found, q));
    if view.Some? {
      PidsOfMembers(view.value, d);
      hide PidsOf;
    }
    forall r ensures r in found && r != q <==> ShowsId(view, d, r) && r != q {
    }
    if view.Some? && ShowsOther(view, d, q) {
      var b :| b in view.value && b.did == d && b.pid != q;
      assert ShowsId(view, d, b.pid);
    }
    if r :| r in Without(found, q) {
      assert ShowsId(view, d, r);
    }
  }

  ghost predicate ShowsId(view: Option<seq<Blob>>, d: Did, r: Pid) {
    view.Some? && exists b :: b in view.value && b.did == d && b.pid == r
  }

  lemma PromotingRemovesIff(legacy: Did -> Pid, owner: Pid -> Did, s: Store, pid: Pid, now: int, secretOk: bool,
                            saveOk: bool, view: Option<seq<Blob>>)
    requires Sound(legacy, owner, s)
    ensures RemovesBetween(s, Promoted(legacy, s, pid, now, secretOk, saveOk, view).0,
                           pid in s.pending && secretOk && saveOk && ShowsOther(view, s.pending[pid].pairing.did, pid))
  {
    hide Sound, Persisted, PidsFor, ShowsOther, Pointed;
    if pid in s.pending && secretOk && saveOk {
      PendingIsOwned(legacy, owner, s, pid);
      var p := s.pending[pid].pairing;
      PersistedFields(legacy, s, p, now, view);
      StaleIff(s.ptr, view, p.did, p.pid);
      Appended(s.removals, Without(PidsFor(Pointed(s.ptr, p.did, p.pid), view, p.did), p.pid));
    }
  }

  lemma ApplyingRemovesIff(legacy: Did -> Pid, owner: Pid -> Did, s: Store, snap: Snapshot, w: Weather)
    requires Sound(legacy, owner, s) && TakenUp(snap, w) && OwnedApplication(owner, snap, w)
    ensures RemovesBetween(s, SnapshotApplied(legacy, s, snap, w), Clashes(legacy, s, snap, w))
  {
    hide Sound, SnapshotApplied, OwnedApplication, Clashes, SweptIn;
    ApplicationWalks(owner, snap, w);
    SnapshotRemovesIff(legacy, owner, s, snap, w);
  }

  lemma StepRemovesIff(legacy: Did -> Pid, owner: Pid -> Did, s: Store, e: Event, t: Store)
    requires Sound(legacy, owner, s) && Step(legacy, owner, s, e, t)
    ensures RemovesBetween(s, t, Removes(legacy, s, e))
  {
    hide Sound, RemovesBetween, Clashes, OnePerDaemon, ShowsOther, ShowsDaemon, Reconciled, Hidden, Promoted, Unpaired,
         SnapshotApplied, OwnedApplication, Ingested;
    match e
    case Reading(view) => { SoundParts(legacy, owner, s); ReadingRemovesIff(s, view); }
    case Promoting(pid, now, secretOk, saveOk, view) => {
      PromotingRemovesIff(legacy, owner, s, pid, now, secretOk, saveOk, view);
    }
    case Unpairing(did, view) => { UnpairingRemovesIff(legacy, s, did, view); }
    case Applying(snap, w) => {
      if TakenUp(snap, w) {
        ApplyingRemovesIff(legacy, owner, s, snap, w);
      } else {
        SameRemoves(s, t);
      }
    }
    case Hiding(did, view) => { HiddenFrame(s, did, view); SameRemoves(s, t); }
    case Ingesting(p, now, secretOk) => { IngestingRemovesNothing(legacy, s, p, now, secretOk); SameRemoves(s, t); }
    case _ => { SameRemoves(s, t); }
  }

  lemma IngestingRemovesNothing(legacy: Did -> Pid, s: Store, p: Pairing, now: int, secretOk: bool)
    ensures Ingested(legacy, s, p, now, secretOk).removals == s.removals
  {
  }

  lemma SameRemoves(s: Store, t: Store)
    requires s.removals == t.removals
    ensures RemovesBetween(s, t, false)
  {
  }

  /**
   * Over any run, whatever is read: no record has been removed exactly if no step unpaired a daemon, and none was shown
   * two records of one daemon that it did not hide, in a read, a commit or the reconcile of a snapshot.
   */
  lemma {:induction false} NothingIsRemovedIff(legacy: Did -> Pid, owner: Pid -> Did, events: seq<Event>,
                                               states: seq<Store>, k: nat)
    requires OwnedLegacy(legacy, owner) && Run(legacy, owner, events, states) && k < |states|
    ensures states[k].removals == [] <==> forall i :: 0 <= i < k ==> !Removes(legacy, states[i], events[i])
  {
    hide Step, Sound, Removes, RemovesBetween;
    if k > 0 {
      NothingIsRemovedIff(legacy, owner, events, states, k - 1);
      RunsAreSound(legacy, owner, events, states, k - 1);
      assert Step(legacy, owner, states[k - 1], events[k - 1], states[k]);
      StepRemovesIff(legacy, owner, states[k - 1], events[k - 1], states[k]);
      RemovesNoneIff(states[k - 1], states[k], Removes(legacy, states[k - 1], events[k - 1]));
    }
  }

  lemma RemovesNoneIff(s: Store, t: Store, removes: bool)
    requires RemovesBetween(s, t, removes)
    ensures t.removals == [] <==> s.removals == [] && !removes
  {
  }
}
