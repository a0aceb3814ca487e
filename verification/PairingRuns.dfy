/** Any run of the pairing store, over any enumerations: the steps, and what all of them keep. */
module PairingRuns {
  import opened Common
  import opened PairingRecords
  import opened PairingState
  import opened PairingReconcile
  import opened PairingFrames
  import opened PairingMirror
  import opened PairingMirrorSafety

  datatype Event =
    | Reading(view: Option<seq<Blob>>)
    | Synced(items: map<Pid, Blob>)
    | Locking(locked: bool)
    | Ingesting(pairing: Pairing, now: int, secretOk: bool)
    | Promoting(pid: Pid, now: int, secretOk: bool, saveOk: bool, view: Option<seq<Blob>>)
    | DroppingPending(pid: Pid)
    | Hiding(did: Did, view: Option<seq<Blob>>)
    | Unpairing(did: Did, view: Option<seq<Blob>>)
    | RaisingPending(pid: Pid, v: int)
    | Raising(did: Did, v: int)
    | Confirming(did: Did, tag: string)
    | Applying(snap: Snapshot, w: Weather)
    | Relaunching

  ghost predicate OwnedEnumeration(owner: Pid -> Did, view: Option<seq<Blob>>) {
    view.Some? ==> OwnedView(owner, view.value)
  }

  /** A snapshot application whose reads may show anything, each in its own way. */
  ghost predicate OwnedApplication(owner: Pid -> Did, snap: Snapshot, w: Weather) {
    && OwnedSnapshot(owner, snap) && Walks(snap, w)
    && KeyedByPid(w.local.value) && OwnedItems(owner, w.local.value)
    && OwnedEnumeration(owner, w.recon) && (forall d :: OwnedEnumeration(owner, w.rest(d)))
  }

  /**
   * One step. Any enumeration in it may fail or show anything, so long as one pairing id belongs to one daemon; what
   * the keychain holds may change under the store between steps.
   */
  ghost predicate Step(legacy: Did -> Pid, owner: Pid -> Did, s: Store, e: Event, t: Store) {
    match e
    case Reading(view) => OwnedEnumeration(owner, view) && t == Reconciled(s, view).0
    case Synced(items) => KeyedByPid(items) && OwnedItems(owner, items) && t == s.(items := items)
    case Locking(locked) => t == s.(locked := locked)
    case Ingesting(p, now, secretOk) => owner(p.pid) == p.did && t == Ingested(legacy, s, p, now, secretOk)
    case Promoting(pid, now, secretOk, saveOk, view) =>
      OwnedEnumeration(owner, view) && t == Promoted(legacy, s, pid, now, secretOk, saveOk, view).0
    case DroppingPending(pid) => t == PendingRemoved(s, pid)
    case Hiding(did, view) => OwnedEnumeration(owner, view) && t == Hidden(s, did, view)
    case Unpairing(did, view) => OwnedEnumeration(owner, view) && t == Unpaired(legacy, s, did, view)
    case RaisingPending(pid, v) => t == PendingFloorRaised(s, pid, v)
    case Raising(did, v) => t == FloorRaised(s, did, v)
    case Confirming(did, tag) => t == PctRecorded(s, did, tag)
    case Applying(snap, w) =>
      if !TakenUp(snap, w) then t == s
      else OwnedApplication(owner, snap, w) && t == SnapshotApplied(legacy, s, snap, w)
    case Relaunching => t == s.(lastGood := None)
  }

  ghost predicate Run(legacy: Did -> Pid, owner: Pid -> Did, events: seq<Event>, states: seq<Store>) {
    && |states| == |events| + 1 && states[0] == FRESH
    && forall i :: 0 <= i < |events| ==> Step(legacy, owner, states[i], events[i], states[i + 1])
  }

  ghost predicate Sound(legacy: Did -> Pid, owner: Pid -> Did, s: Store) {
    && WellFormed(s) && Owned(legacy, owner, s)
    && forall p :: p in s.pending ==> owner(p) == s.pending[p].pairing.did
  }

  // A reconcile against an arbitrary enumeration.

  lemma {:induction false} LosersAreMembers(view: seq<Blob>)
    ensures forall q :: q in Elect(view).losers ==> exists b :: b in view && b.pid == q
  {
    if view != [] {
      var front, b := view[..|view| - 1], view[|view| - 1];
      assert view == front + [b];
      LosersAreMembers(front);
      ElectedAreMembers(front);
      forall q | q in Elect(view).losers ensures exists c :: c in view && c.pid == q {
        if q in Elect(front).losers {
          var c :| c in front && c.pid == q;
          assert c in view;
        } else if q == b.pid {
          assert b in view;
        } else {
          assert Elect(front).best[b.did] in view;
        }
      }
    }
  }

  /** Whom an enumeration elects and sweeps: only records it shows that are not hidden. */
  lemma AnyElection(view: seq<Blob>, hidden: set<Pid>)
    ensures var e := Elect(Shown(view, hidden));
            && Eligible(e.best, hidden) && (forall d :: d in e.best ==> e.best[d] in view)
            && (forall q :: q in e.losers ==> q !in hidden && exists b :: b in view && b.pid == q)
  {
    var blobs := Shown(view, hidden);
    ShownMembers(view, hidden);
    ElectedAreMembers(blobs);
    LosersAreMembers(blobs);
    hide Shown, Elect;
    forall q | q in Elect(blobs).losers ensures q !in hidden && exists b :: b in view && b.pid == q {
      var b :| b in blobs && b.pid == q;
      assert b in view;
    }
  }

  lemma AnyReconcile(s: Store, view: seq<Blob>)
    requires WellFormed(s)
    ensures var (t, p) := Reconciled(s, Some(view));
            var e := Elect(Shown(view, s.hidden));
            && t == s.(items := s.items - (set q | q in e.losers), removals := s.removals + e.losers,
                       ptr := p, lastGood := t.lastGood)
            && (if Shown(view, s.hidden) == [] then p == s.ptr else RebuiltFrom(s.ptr, e.best, s.hidden, p))
  {
    var e := Elect(Shown(view, s.hidden));
    AnyElection(view, s.hidden);
    assert Elect([]) == Tally(map[], []);
    hide Shown, Elect, Rebuilt, RebuiltFrom, Eligible;
    RebuiltIsFrom(s.ptr, e.best, s.hidden);
    if Shown(view, s.hidden) == [] {
      assert e.losers == [];
      NothingSwept(s, e.losers);
      hide WellFormed;
    } else {
      assert s.hidden - (set q | q in e.losers) == s.hidden;
      hide WellFormed;
    }
  }

  lemma ReadingKeepsSound(legacy: Did -> Pid, owner: Pid -> Did, s: Store, view: Option<seq<Blob>>)
    requires Sound(legacy, owner, s) && OwnedEnumeration(owner, view)
    ensures Sound(legacy, owner, Reconciled(s, view).0)
  {
    ReconcileKeepsWellFormed(s, view);
    if view.Some? {
      AnyReconcile(s, view.value);
      AnyElection(view.value, s.hidden);
      hide Shown, Elect, Reconciled, WellFormed;
    }
  }

  lemma PidsForAreOwned(owner: Pid -> Did, p: Pointers, view: Option<seq<Blob>>, did: Did)
    requires OwnedPointers(owner, p) && OwnedEnumeration(owner, view)
    ensures forall q :: q in PidsFor(p, view, did) ==> owner(q) == did
  {
    if view.Some? {
      PidsOfMembers(view.value, did);
      hide PidsOf;
    }
  }

  lemma HidingKeepsSound(legacy: Did -> Pid, owner: Pid -> Did, s: Store, did: Did, view: Option<seq<Blob>>)
    requires Sound(legacy, owner, s) && OwnedEnumeration(owner, view)
    ensures Sound(legacy, owner, Hidden(s, did, view))
  {
    HiddenFrame(s, did, view);
    HiddenIsWellFormed(s, did, view);
    hide Hidden, WellFormed, Tombs;
  }

  lemma UnpairedIsWellFormed(legacy: Did -> Pid, s: Store, did: Did, view: Option<seq<Blob>>)
    requires WellFormed(s)
    ensures WellFormed(Unpaired(legacy, s, did, view))
  {
    DroppedIsWellFormed(s.ptr, did);
    hide PidsFor, Dropped, Lists;
  }

  lemma UnpairingKeepsSound(legacy: Did -> Pid, owner: Pid -> Did, s: Store, did: Did, view: Option<seq<Blob>>)
    requires Sound(legacy, owner, s)
    ensures Sound(legacy, owner, Unpaired(legacy, s, did, view))
  {
    UnpairedIsWellFormed(legacy, s, did, view);
    hide PidsFor, WellFormed, Without;
  }

  lemma IngestedIsWellFormed(legacy: Did -> Pid, s: Store, p: Pairing, now: int, secretOk: bool)
    requires WellFormed(s)
    ensures WellFormed(Ingested(legacy, s, p, now, secretOk))
  {
    DistinctSnoc(s.pendingOrder, p.pid);
    hide Distinct, Unhidden;
  }

  /** Committing sets the record, points at it, un-hides it and sweeps the daemon's other ids; here at a glance. */
  lemma PersistedFields(legacy: Did -> Pid, s: Store, p: Pairing, now: int, view: Option<seq<Blob>>)
    ensures var t := Persisted(legacy, s, p, now, view);
            var stale := Without(PidsFor(Pointed(s.ptr, p.did, p.pid), view, p.did), p.pid);
            && t.items == s.items[p.pid := BlobOf(p, now)] - (set q | q in stale)
            && t.removals == s.removals + stale
            && t.hidden == s.hidden - {p.pid, legacy(p.did)} - (set q | q in stale)
            && t.ptr == Pointed(s.ptr, p.did, p.pid) && t.lastGood == Some(t.ptr)
            && t.locked == s.locked && t.pending == s.pending && t.pendingOrder == s.pendingOrder
            && p.did in t.sidecars
               && FloorOf(t, p.did) == (if p.minV > FloorOf(s, p.did) then p.minV else FloorOf(s, p.did))
            && t.sidecars == s.sidecars[p.did := t.sidecars[p.did]]
  {
    hide PidsFor, Without, Pointed;
  }

  lemma PersistedIsWellFormed(legacy: Did -> Pid, s: Store, p: Pairing, now: int, view: Option<seq<Blob>>)
    requires WellFormed(s)
    ensures WellFormed(Persisted(legacy, s, p, now, view))
  {
    PersistedFields(legacy, s, p, now, view);
    PointedIsWellFormed(s.ptr, p.did, p.pid);
    hide Persisted, PidsFor, Without, Pointed, Lists, FloorOf;
  }

  lemma PromotingKeepsSound(legacy: Did -> Pid, owner: Pid -> Did, s: Store, pid: Pid, now: int, secretOk: bool,
                            saveOk: bool, view: Option<seq<Blob>>)
    requires Sound(legacy, owner, s)
    ensures Sound(legacy, owner, Promoted(legacy, s, pid, now, secretOk, saveOk, view).0)
  {
    hide Sound, Persisted, PendingRemoved;
    if pid in s.pending && secretOk {
      var p := s.pending[pid].pairing;
      PendingIsOwned(legacy, owner, s, pid);
      if saveOk {
        PersistingKeepsSound(legacy, owner, s, p, now, view);
        DroppingKeepsSound(legacy, owner, Persisted(legacy, s, p, now, view), pid);
      } else {
        FailedSaveKeepsSound(legacy, owner, s, p.pid);
      }
    }
  }

  lemma PendingIsOwned(legacy: Did -> Pid, owner: Pid -> Did, s: Store, pid: Pid)
    requires Sound(legacy, owner, s) && pid in s.pending
    ensures s.pending[pid].pairing.pid == pid && owner(pid) == s.pending[pid].pairing.did
  {
  }

  lemma PersistingKeepsSound(legacy: Did -> Pid, owner: Pid -> Did, s: Store, p: Pairing, now: int,
                             view: Option<seq<Blob>>)
    requires Sound(legacy, owner, s) && owner(p.pid) == p.did
    ensures Sound(legacy, owner, Persisted(legacy, s, p, now, view))
  {
    PersistedFields(legacy, s, p, now, view);
    PersistedIsWellFormed(legacy, s, p, now, view);
    hide Persisted, PidsFor, Without, WellFormed, FloorOf;
  }

  lemma DroppingKeepsSound(legacy: Did -> Pid, owner: Pid -> Did, s: Store, pid: Pid)
    requires Sound(legacy, owner, s)
    ensures Sound(legacy, owner, PendingRemoved(s, pid))
  {
    DropPendingKeepsWellFormed(s, pid);
    hide WellFormed, Without;
  }

  lemma FailedSaveKeepsSound(legacy: Did -> Pid, owner: Pid -> Did, s: Store, pid: Pid)
    requires Sound(legacy, owner, s)
    ensures Sound(legacy, owner, SaveFailed(s, pid))
  {
    hide Lists;
  }

  lemma DropPendingKeepsWellFormed(s: Store, pid: Pid)
    requires WellFormed(s)
    ensures WellFormed(PendingRemoved(s, pid))
  {
    PendingRemovedIsWellFormed(s, pid);
    hide Lists, Without;
  }

  lemma {:induction false} AllHidingKeepsSound(legacy: Did -> Pid, owner: Pid -> Did, s: Store, dids: seq<Did>,
                                               rest: Did -> Option<seq<Blob>>)
    requires Sound(legacy, owner, s) && forall d :: OwnedEnumeration(owner, rest(d))
    ensures Sound(legacy, owner, AllHidden(s, dids, rest))
  {
    if dids != [] {
      hide Hidden, Sound, OwnedEnumeration;
      var front, d := dids[..|dids| - 1], dids[|dids| - 1];
      AllHidingKeepsSound(legacy, owner, s, front, rest);
      HidingKeepsSound(legacy, owner, AllHidden(s, front, rest), d, rest(d));
    }
  }

  /** What a faithful enumeration of owned records shows is owned. */
  lemma EnumerationIsOwned(owner: Pid -> Did, view: seq<Blob>, items: map<Pid, Blob>)
    requires OwnedItems(owner, items) && Enumerates(view, items)
    ensures OwnedView(owner, view)
  {
  }

  lemma AdoptionKeepsSound(legacy: Did -> Pid, owner: Pid -> Did, s: Store, snap: Snapshot, w: Weather)
    requires Sound(legacy, owner, s) && OwnedApplication(owner, snap, w)
    ensures Sound(legacy, owner, AfterAdoption(legacy, s, snap, w))
  {
    AfterAdoptionFrame(legacy, owner, s, snap, w);
    hide AfterAdoption, WellFormed, Owned, Walks, OwnedSnapshot;
  }

  lemma ApplyingKeepsSound(legacy: Did -> Pid, owner: Pid -> Did, s: Store, snap: Snapshot, w: Weather)
    requires Sound(legacy, owner, s) && TakenUp(snap, w) && OwnedApplication(owner, snap, w)
    ensures Sound(legacy, owner, SnapshotApplied(legacy, s, snap, w))
  {
    AdoptionKeepsSound(legacy, owner, s, snap, w);
    var a := AfterAdoption(legacy, s, snap, w);
    hide Sound, AfterAdoption, Reconciled, Collapse, OwnedEnumeration;
    ReadingKeepsSound(legacy, owner, a, w.recon);
    var (t, p) := Reconciled(a, w.recon);
    AllHidingKeepsSound(legacy, owner, t, Absent(p.order, Collapse(snap.pairings).Keys), w.rest);
  }

  lemma StepKeepsSound(legacy: Did -> Pid, owner: Pid -> Did, s: Store, e: Event, t: Store)
    requires Sound(legacy, owner, s) && Step(legacy, owner, s, e, t)
    ensures Sound(legacy, owner, t)
  {
    hide Sound;
    match e
    case Reading(view) => { ReadingKeepsSound(legacy, owner, s, view); }
    case Promoting(pid, now, secretOk, saveOk, view) => {
      PromotingKeepsSound(legacy, owner, s, pid, now, secretOk, saveOk, view);
    }
    case DroppingPending(pid) => { DroppingKeepsSound(legacy, owner, s, pid); }
    case Hiding(did, view) => { HidingKeepsSound(legacy, owner, s, did, view); }
    case Unpairing(did, view) => { UnpairingKeepsSound(legacy, owner, s, did, view); }
    case Applying(snap, w) => {
      if TakenUp(snap, w) {
        ApplyingKeepsSound(legacy, owner, s, snap, w);
      }
    }
    case Ingesting(p, now, secretOk) => { IngestingKeepsSound(legacy, owner, s, p, now, secretOk); }
    case _ => { SmallStepKeepsSound(legacy, owner, s, e, t); }
  }

  lemma IngestingKeepsSound(legacy: Did -> Pid, owner: Pid -> Did, s: Store, p: Pairing, now: int, secretOk: bool)
    requires Sound(legacy, owner, s) && owner(p.pid) == p.did
    ensures Sound(legacy, owner, Ingested(legacy, s, p, now, secretOk))
  {
    hide WellFormed, Unhidden;
    IngestedIsWellFormed(legacy, s, p, now, secretOk);
  }

  lemma SmallStepKeepsSound(legacy: Did -> Pid, owner: Pid -> Did, s: Store, e: Event, t: Store)
    requires Sound(legacy, owner, s) && Step(legacy, owner, s, e, t)
    requires e.Synced? || e.Locking? || e.RaisingPending? || e.Raising? || e.Confirming? || e.Relaunching?
    ensures Sound(legacy, owner, t)
  {
    hide SnapshotApplied, Reconciled, Hidden, Promoted, Unpaired, OwnedApplication, Ingested, Lists;
    if e.RaisingPending? {
      assert t.pending.Keys == s.pending.Keys;
    }
  }

  /** Every reachable store is well formed: its order lists exactly its pointers once each, its ids are owned. */
  lemma {:induction false} RunsAreSound(legacy: Did -> Pid, owner: Pid -> Did, events: seq<Event>, states: seq<Store>,
                                        k: nat)
    requires OwnedLegacy(legacy, owner) && Run(legacy, owner, events, states) && k < |states|
    ensures Sound(legacy, owner, states[k])
  {
    if k > 0 {
      RunsAreSound(legacy, owner, events, states, k - 1);
      hide Sound;
      StepKeepsSound(legacy, owner, states[k - 1], events[k - 1], states[k]);
    }
  }

  /** In every reachable state a locked read returns the index as it is and changes nothing. */
  lemma LockedReadsAreInert(legacy: Did -> Pid, owner: Pid -> Did, events: seq<Event>, states: seq<Store>, k: nat)
    requires OwnedLegacy(legacy, owner) && Run(legacy, owner, events, states) && k < |states|
    ensures Reconciled(states[k], None) == (states[k], states[k].ptr)
  {
    RunsAreSound(legacy, owner, events, states, k);
    hide Step;
  }
}
