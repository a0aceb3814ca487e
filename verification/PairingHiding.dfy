/**
 * Hiding is local and sticky: it deletes nothing, and the daemon stays hidden until it is deliberately brought back.
 */
module PairingHiding {
  import opened Common
  import opened PairingRecords
  import opened PairingState
  import opened PairingReconcile
  import opened PairingFrames
  import opened PairingMirror
  import opened PairingMirrorSafety
  import opened PairingRuns

  /** Unlisted, every stored record of it tombstoned, nothing of it pending. */
  ghost predicate HiddenFor(s: Store, d: Did) {
    && d !in s.ptr.index
    && (forall q :: q in s.items && s.items[q].did == d ==> q in s.hidden)
    && (forall p :: p in s.pending ==> s.pending[p].pairing.did != d)
  }

  /** Hiding tombstones everything exactly when the enumeration showed every record that was not hidden yet. */
  lemma HideHidesIff(s: Store, d: Did, view: Option<seq<Blob>>)
    requires WellFormed(s)
    ensures HiddenFor(Hidden(s, d, view), d)
            <==> forall q :: q in s.items && s.items[q].did == d ==> q in s.hidden || q in PidsFor(s.ptr, view, d)
    ensures Hidden(s, d, view).items == s.items && Hidden(s, d, view).removals == s.removals
  {
    HiddenFrame(s, d, view);
    assert WellFormedPending(s);
    hide Hidden, PidsFor, Lists;
    var t := Hidden(s, d, view);
    assert forall q :: q in t.hidden <==> q in s.hidden || q in PidsFor(s.ptr, view, d);
    assert d !in t.ptr.index;
  }

  /** On a readable keychain it always does. */
  lemma HideHides(s: Store, d: Did, view: seq<Blob>)
    requires WellFormed(s) && Enumerates(view, s.items)
    ensures HiddenFor(Hidden(s, d, Some(view)), d)
  {
    HideHidesIff(s, d, Some(view));
    TombsAreItems(s, d, view);
    hide Hidden, PidsFor, WellFormed, Enumerates;
    forall q | q in s.items && s.items[q].did == d ensures q in PidsFor(s.ptr, Some(view), d) {
      assert q in Tombs(s, d, Some(view));
    }
  }

  /** The tombstones and records of this daemon are those of before, and nothing of it was deleted. */
  ghost predicate Untouched(owner: Pid -> Did, d: Did, s: Store, t: Store) {
    && (forall q :: owner(q) == d && q in s.hidden ==> q in t.hidden)
    && (forall q :: q in t.items && owner(q) == d ==> q in s.items)
    && (forall q :: q in t.removals && owner(q) == d ==> q in s.removals)
    && (d in t.ptr.index ==> d in s.ptr.index)
    && (forall p :: p in t.pending && owner(p) == d ==> p in s.pending)
  }

  lemma HiddenCarries(legacy: Did -> Pid, owner: Pid -> Did, d: Did, s: Store, t: Store)
    requires Sound(legacy, owner, s) && Sound(legacy, owner, t) && HiddenFor(s, d) && Untouched(owner, d, s, t)
    ensures HiddenFor(t, d)
  {
    hide Lists;
  }

  /**
   * What brings a hidden daemon back: scanning it again, a snapshot that carries it, unpairing it (which lifts its
   * tombstones), and an id of it never hidden here, arriving in the keychain or in an enumeration.
   */
  ghost predicate Readmits(s: Store, e: Event, d: Did) {
    match e
    case Ingesting(p, _, _) => p.did == d
    case Unpairing(did, _) => did == d
    case Applying(snap, w) => TakenUp(snap, w) && (d in Collapse(snap.pairings) || !RereadsHidden(s, w, d))
    case Synced(items) => exists q :: q in items && items[q].did == d && q !in s.hidden
    case Reading(view) => view.Some? && exists b :: b in view.value && b.did == d && b.pid !in s.hidden
    case _ => false
  }

  lemma ReadingLeaves(legacy: Did -> Pid, owner: Pid -> Did, s: Store, view: seq<Blob>, d: Did)
    requires Sound(legacy, owner, s) && OwnedView(owner, view)
    requires forall b :: b in view && b.did == d ==> b.pid in s.hidden
    ensures Untouched(owner, d, s, Reconciled(s, Some(view)).0)
  {
    AnyReconcile(s, view);
    AnyElection(view, s.hidden);
    hide Shown, Elect, Reconciled, WellFormed;
  }

  lemma HidingLeaves(legacy: Did -> Pid, owner: Pid -> Did, s: Store, did: Did, view: Option<seq<Blob>>, d: Did)
    requires Sound(legacy, owner, s)
    ensures Untouched(owner, d, s, Hidden(s, did, view))
  {
    HiddenFrame(s, did, view);
    hide Hidden, WellFormed, Tombs;
  }

  lemma UnpairingLeaves(legacy: Did -> Pid, owner: Pid -> Did, s: Store, did: Did, view: Option<seq<Blob>>, d: Did)
    requires Sound(legacy, owner, s) && OwnedEnumeration(owner, view) && did != d
    ensures Untouched(owner, d, s, Unpaired(legacy, s, did, view))
  {
    PidsForAreOwned(owner, s.ptr, view, did);
    assert owner(legacy(did)) == did;
    hide PidsFor, WellFormed, Without;
  }

  lemma PersistingLeaves(legacy: Did -> Pid, owner: Pid -> Did, s: Store, p: Pairing, now: int, view: Option<seq<Blob>>,
                         d: Did)
    requires Sound(legacy, owner, s) && OwnedEnumeration(owner, view) && owner(p.pid) == p.did != d
    ensures Untouched(owner, d, s, Persisted(legacy, s, p, now, view))
  {
    PersistedFields(legacy, s, p, now, view);
    var q := Pointed(s.ptr, p.did, p.pid);
    PidsForAreOwned(owner, q, view, p.did);
    WithoutMembers(PidsFor(q, view, p.did), p.pid);
    assert owner(legacy(p.did)) == p.did;
    hide Persisted, PidsFor, Without, WellFormed, FloorOf, Distinct;
  }

  lemma PromotingLeaves(legacy: Did -> Pid, owner: Pid -> Did, s: Store, pid: Pid, now: int, secretOk: bool,
                        saveOk: bool, view: Option<seq<Blob>>, d: Did)
    requires Sound(legacy, owner, s) && OwnedEnumeration(owner, view) && HiddenFor(s, d)
    ensures Untouched(owner, d, s, Promoted(legacy, s, pid, now, secretOk, saveOk, view).0)
  {
    hide Persisted, WellFormed, Owned, Without;
    if pid in s.pending && secretOk && saveOk {
      PendingIsOwned(legacy, owner, s, pid);
      PersistedFields(legacy, s, s.pending[pid].pairing, now, view);
      PersistingLeaves(legacy, owner, s, s.pending[pid].pairing, now, view, d);
    }
  }

  lemma {:induction false} AllHidingLeaves(legacy: Did -> Pid, owner: Pid -> Did, s: Store, dids: seq<Did>,
                                           rest: Did -> Option<seq<Blob>>, d: Did)
    requires Sound(legacy, owner, s) && forall x :: OwnedEnumeration(owner, rest(x))
    ensures Untouched(owner, d, s, AllHidden(s, dids, rest)) && Sound(legacy, owner, AllHidden(s, dids, rest))
  {
    if dids != [] {
      var front, x := dids[..|dids| - 1], dids[|dids| - 1];
      AllHidingLeaves(legacy, owner, s, front, rest, d);
      AllHidingKeepsSound(legacy, owner, s, dids, rest);
      hide Hidden, Sound;
      HidingLeaves(legacy, owner, AllHidden(s, front, rest), x, rest(x), d);
    }
  }

  /** The application's reconcile is shown, of this daemon, only hidden records. */
  ghost predicate RereadsHidden(s: Store, w: Weather, d: Did) {
    w.recon.Some? ==> forall b :: b in w.recon.value && b.did == d ==> b.pid in s.hidden
  }

  lemma ApplyingLeaves(legacy: Did -> Pid, owner: Pid -> Did, s: Store, snap: Snapshot, w: Weather, d: Did)
    requires Sound(legacy, owner, s) && TakenUp(snap, w) && OwnedApplication(owner, snap, w)
    requires HiddenFor(s, d) && d !in Collapse(snap.pairings) && RereadsHidden(s, w, d)
    ensures Untouched(owner, d, s, SnapshotApplied(legacy, s, snap, w))
  {
    var a, m := AfterAdoption(legacy, s, snap, w), Collapse(snap.pairings);
    AdoptionKeepsSound(legacy, owner, s, snap, w);
    AdoptionLeaves(legacy, owner, s, snap, w, d);
    var (r, p) := Reconciled(a, w.recon);
    hide Sound, AfterAdoption, Reconciled, Collapse, HiddenFor, Absent, AllHidden, Walks;
    ReadingKeepsSound(legacy, owner, a, w.recon);
    if w.recon.Some? {
      ReadingLeaves(legacy, owner, a, w.recon.value, d);
    } else {
      ReconcileNothing(a);
      NothingHappens(owner, a, d);
    }
    AllHidingLeaves(legacy, owner, r, Absent(p.order, m.Keys), w.rest, d);
  }

  lemma ReconcileNothing(s: Store)
    ensures Reconciled(s, None).0 == s
  {
  }

  /** Adopting others' records leaves this daemon's as they are, tombstones included. */
  lemma AdoptionLeaves(legacy: Did -> Pid, owner: Pid -> Did, s: Store, snap: Snapshot, w: Weather, d: Did)
    requires Sound(legacy, owner, s) && OwnedApplication(owner, snap, w) && d !in Collapse(snap.pairings)
             && RereadsHidden(s, w, d)
    ensures Untouched(owner, d, s, AfterAdoption(legacy, s, snap, w))
            && RereadsHidden(AfterAdoption(legacy, s, snap, w), w, d)
  {
    AfterAdoptionFrame(legacy, owner, s, snap, w);
    AfterAdoptionAt(legacy, owner, s, snap, w, d);
    hide AfterAdoption, Collapse, WellFormed, Walks;
  }

  lemma SmallStepLeaves(legacy: Did -> Pid, owner: Pid -> Did, s: Store, e: Event, t: Store, d: Did)
    requires Sound(legacy, owner, s) && Step(legacy, owner, s, e, t) && HiddenFor(s, d) && !Readmits(s, e, d)
    requires !(e.Reading? || e.Promoting? || e.Hiding? || e.Unpairing? || e.Synced?)
    requires e.Applying? ==> !TakenUp(e.snap, e.w)
    ensures Untouched(owner, d, s, t)
  {
    hide SnapshotApplied, Reconciled, Hidden, Promoted, Unpaired, OwnedApplication, Collapse, Lists, Without,
         WellFormed;
    if e.Ingesting? {
      assert owner(legacy(e.pairing.did)) == e.pairing.did;
    }
  }

  lemma SyncedStaysHidden(owner: Pid -> Did, s: Store, items: map<Pid, Blob>, d: Did)
    requires HiddenFor(s, d) && !Readmits(s, Synced(items), d)
    ensures HiddenFor(s.(items := items), d) && s.(items := items).removals == s.removals
  {
  }

  /** A step that does not readmit a hidden daemon keeps it hidden and deletes nothing of it. */
  lemma StepKeepsHidden(legacy: Did -> Pid, owner: Pid -> Did, s: Store, e: Event, t: Store, d: Did)
    requires Sound(legacy, owner, s) && Step(legacy, owner, s, e, t) && HiddenFor(s, d)
    requires !Readmits(s, e, d)
    ensures HiddenFor(t, d) && forall q :: q in t.removals && owner(q) == d ==> q in s.removals
  {
    if e.Applying? && !TakenUp(e.snap, e.w) {
    } else if e.Synced? {
      SyncedStaysHidden(owner, s, e.items, d);
    } else {
      StepKeepsSound(legacy, owner, s, e, t);
      StepLeaves(legacy, owner, s, e, t, d);
      hide Sound, Step, Readmits;
      HiddenCarries(legacy, owner, d, s, t);
    }
  }

  lemma StepLeaves(legacy: Did -> Pid, owner: Pid -> Did, s: Store, e: Event, t: Store, d: Did)
    requires Sound(legacy, owner, s) && Step(legacy, owner, s, e, t) && HiddenFor(s, d)
    requires !Readmits(s, e, d) && !e.Synced?
    ensures Untouched(owner, d, s, t)
  {
    hide Sound, Untouched, HiddenFor, Collapse;
    match e
    case Reading(view) => {
      if view.Some? {
        hide Reconciled;
        ReadingLeaves(legacy, owner, s, view.value, d);
      } else {
        NothingHappens(owner, s, d);
      }
    }
    case Promoting(pid, now, secretOk, saveOk, view) => {
      hide Promoted;
      PromotingLeaves(legacy, owner, s, pid, now, secretOk, saveOk, view, d);
    }
    case Hiding(did, view) => { hide Hidden; HidingLeaves(legacy, owner, s, did, view, d); }
    case Unpairing(did, view) => { hide Unpaired; UnpairingLeaves(legacy, owner, s, did, view, d); }
    case Applying(snap, w) => {
      hide SnapshotApplied, OwnedApplication;
      if !TakenUp(snap, w) {
        NothingHappens(owner, s, d);
      } else {
        ApplyingLeaves(legacy, owner, s, snap, w, d);
      }
    }
    case _ => { SmallStepLeaves(legacy, owner, s, e, t, d); }
  }

  lemma NothingHappens(owner: Pid -> Did, s: Store, d: Did)
    ensures Untouched(owner, d, s, s)
  {
  }

  lemma {:induction false} HiddenPersists(legacy: Did -> Pid, owner: Pid -> Did, events: seq<Event>, states: seq<Store>,
                                          i: nat, j: nat, d: Did)
    requires OwnedLegacy(legacy, owner) && Run(legacy, owner, events, states) && i <= j < |states|
    requires HiddenFor(states[i], d) && forall k :: i <= k < j ==> !Readmits(states[k], events[k], d)
    ensures HiddenFor(states[j], d) && forall q :: q in states[j].removals && owner(q) == d ==> q in states[i].removals
  {
    if i < j {
      var k := j - 1;
      HiddenPersists(legacy, owner, events, states, i, k, d);
      RunsAreSound(legacy, owner, events, states, k);
      hide Step, HiddenFor, Sound, Readmits;
      assert Step(legacy, owner, states[k], events[k], states[j]);
      StepKeepsHidden(legacy, owner, states[k], events[k], states[j], d);
    }
  }

  /**
   * After a hide on a readable keychain, no later read, re-delivery of the hidden records or late promotion lists the
   * daemon, and none of its records is deleted, until something readmits it. Promoting what was pending does nothing.
   */
  lemma HideIsSticky(legacy: Did -> Pid, owner: Pid -> Did, events: seq<Event>, states: seq<Store>, i: nat, j: nat,
                     d: Did, view: seq<Blob>)
    requires OwnedLegacy(legacy, owner) && Run(legacy, owner, events, states) && i < j < |states|
    requires events[i] == Hiding(d, Some(view)) && Enumerates(view, states[i].items)
    requires forall k :: i < k < j ==> !Readmits(states[k], events[k], d)
    ensures HiddenFor(states[j], d)
    ensures forall q :: q in states[j].removals && owner(q) == d ==> q in states[i].removals
    ensures forall v: seq<Blob> ::
              OwnedView(owner, v) && (forall b: Blob :: b in v && b.did == d ==> b.pid in states[j].hidden)
              ==> d !in Reconciled(states[j], Some(v)).1.index
    ensures forall p, now, ok, view :: p in states[i].pending && states[i].pending[p].pairing.did == d
              ==> Promoted(legacy, states[j], p, now, ok, ok, view) == (states[j], NothingPending)
  {
    RunsAreSound(legacy, owner, events, states, i);
    RunsAreSound(legacy, owner, events, states, j);
    assert Step(legacy, owner, states[i], events[i], states[i + 1]);
    HideHides(states[i], d, view);
    HiddenFrame(states[i], d, Some(view));
    hide Step, Readmits, Hidden;
    HiddenPersists(legacy, owner, events, states, i + 1, j, d);
    hide Run;
    forall v: seq<Blob> | OwnedView(owner, v) && (forall b: Blob :: b in v && b.did == d ==> b.pid in states[j].hidden)
      ensures d !in Reconciled(states[j], Some(v)).1.index
    {
      ReadingLeaves(legacy, owner, states[j], v, d);
      ReconcileFrame(states[j], Some(v));
    }
    forall p | p in states[i].pending && states[i].pending[p].pairing.did == d ensures p !in states[j].pending {
      SweptStaysSwept(legacy, owner, states[i], states[j], d, p);
    }
  }

  lemma SweptStaysSwept(legacy: Did -> Pid, owner: Pid -> Did, s: Store, t: Store, d: Did, p: Pid)
    requires Sound(legacy, owner, s) && Sound(legacy, owner, t) && HiddenFor(t, d)
    requires p in s.pending && s.pending[p].pairing.did == d
    ensures p !in t.pending
  {
  }

  // Unpairing.

  /**
   * Unpairing on a readable keychain revokes: no record, pointer, floor or tombstone of the daemon's records remains,
   * its derived id has no tombstone either, each of its records was deleted, and no other daemon's record, tombstone,
   * pointer or sidecar is touched.
   */
  lemma UnpairRevokes(legacy: Did -> Pid, owner: Pid -> Did, s: Store, d: Did, view: seq<Blob>)
    requires Sound(legacy, owner, s) && Enumerates(view, s.items)
    ensures var t := Unpaired(legacy, s, d, Some(view));
            && (forall q :: q in t.items <==> q in s.items && s.items[q].did != d)
            && (forall q :: q in t.items ==> t.items[q] == s.items[q])
            && (forall q :: q in s.items && s.items[q].did == d ==> q in t.removals && q !in t.hidden)
            && d !in t.ptr.index && t.sidecars == s.sidecars - {d} && legacy(d) !in t.hidden
            && (forall q ::
                  owner(q) != d ==> (q in t.hidden <==> q in s.hidden) && (q in t.removals <==> q in s.removals))
            && t.ptr.index == s.ptr.index - {d}
  {
    var ids := PidsFor(s.ptr, Some(view), d);
    TombsAreItems(s, d, view);
    EnumerationIsOwned(owner, view, s.items);
    PidsForAreOwned(owner, s.ptr, Some(view), d);
    assert forall q :: q in ids <==> q in Tombs(s, d, Some(view));
    hide PidsFor, Tombs, Enumerates, WellFormed, Without;
    var t := Unpaired(legacy, s, d, Some(view));
    assert forall q :: q in t.removals <==> q in s.removals || q in ids;
  }

  /** Where nothing can be read, unpairing deletes the record the daemon is pointed at, and just that one. */
  lemma BlindUnpair(legacy: Did -> Pid, s: Store, d: Did)
    ensures var t := Unpaired(legacy, s, d, None);
            && t.ptr.index == s.ptr.index - {d} && t.sidecars == s.sidecars - {d} && legacy(d) !in t.hidden
            && if d in s.ptr.index then
                 t.items == s.items - {s.ptr.index[d]} && t.removals == s.removals + [s.ptr.index[d]]
               else t.items == s.items && t.removals == s.removals
  {
    var ids := PidsFor(s.ptr, None, d);
    if d in s.ptr.index {
      assert (set p | p in ids) == {s.ptr.index[d]};
    } else {
      assert (set p | p in ids) == {};
    }
    hide Without;
  }
}
