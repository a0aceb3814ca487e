/**
 * Over whole runs, whatever enumerations show: exactly when a step takes a daemon off the list or leaves its pointer at
 * a tombstoned id, and that the others stay listed and in place.
 */
module PairingListing {
  import opened Common
  import opened PairingRecords
  import opened PairingState
  import opened PairingReconcile
  import opened PairingFrames
  import opened PairingMirror
  import opened PairingMirrorSafety
  import opened PairingRuns

  /** The daemon's pointer, if it has one, does not name a tombstoned id. */
  ghost predicate PointsOpenly(s: Store, d: Did) {
    d in s.ptr.index ==> s.ptr.index[d] !in s.hidden
  }

  ghost predicate NoHiddenPointer(s: Store) {
    forall d :: PointsOpenly(s, d)
  }

  // Reconciling.

  lemma ReadingKeepsListing(s: Store, view: Option<seq<Blob>>)
    requires WellFormed(s)
    ensures var t := Reconciled(s, view).0;
            && (forall d :: PointsOpenly(s, d) ==> PointsOpenly(t, d))
            && (forall d :: PointsOpenly(s, d) && d in s.ptr.index ==> d in t.ptr.index)
  {
    if view.Some? {
      AnyReconcile(s, view.value);
      AnyElection(view.value, s.hidden);
      hide Shown, Elect, Reconciled, WellFormed, PointsOpenly, RebuiltFrom, Eligible;
      ListedAfter(s, Reconciled(s, view).0, Elect(Shown(view.value, s.hidden)).best);
    }
  }

  lemma ListedAfter(s: Store, t: Store, best: map<Did, Blob>)
    requires t.hidden == s.hidden && Eligible(best, s.hidden)
    requires t.ptr == s.ptr || RebuiltFrom(s.ptr, best, s.hidden, t.ptr)
    ensures forall d :: PointsOpenly(s, d) ==> PointsOpenly(t, d)
    ensures forall d :: PointsOpenly(s, d) && d in s.ptr.index ==> d in t.ptr.index
  {
  }

  lemma {:induction false} ShownAreElected(view: seq<Blob>)
    ensures forall b :: b in view ==> b.did in Elect(view).best
  {
    if view != [] {
      assert view == view[..|view| - 1] + [view[|view| - 1]];
      ShownAreElected(view[..|view| - 1]);
    }
  }

  ghost predicate ShowsAny(view: seq<Blob>, hidden: set<Pid>) {
    exists c :: c in view && c.pid !in hidden
  }

  ghost predicate ShowsOf(view: seq<Blob>, hidden: set<Pid>, d: Did) {
    exists c :: c in view && c.did == d && c.pid !in hidden
  }

  lemma ElectsTheShown(view: seq<Blob>, hidden: set<Pid>, d: Did)
    ensures d in Elect(Shown(view, hidden)).best <==> ShowsOf(view, hidden, d)
    ensures Shown(view, hidden) != [] <==> ShowsAny(view, hidden)
  {
    var blobs := Shown(view, hidden);
    ShownMembers(view, hidden);
    ElectedAreMembers(blobs);
    ShownAreElected(blobs);
    hide Shown, Elect;
    if blobs != [] {
      assert blobs[0] in blobs;
    }
    if d in Elect(blobs).best {
      assert Elect(blobs).best[d] in blobs;
    }
    if c :| c in view && c.pid !in hidden {
      assert c in blobs;
    }
  }

  /** What any read does to the listing of one daemon. */
  lemma ReadLists(s: Store, view: Option<seq<Blob>>, d: Did)
    requires WellFormed(s)
    ensures var (t, p) := Reconciled(s, view);
            && t.ptr == p && t.hidden == s.hidden
            && if view.None? || !ShowsAny(view.value, s.hidden) then p == s.ptr
               else && (d in p.index
                        <==> ShowsOf(view.value, s.hidden, d) || (d in s.ptr.index && s.ptr.index[d] !in s.hidden))
                    && (d in p.index ==> p.index[d] !in s.hidden)
  {
    ReconcileFrame(s, view);
    if view.Some? {
      AnyReconcile(s, view.value);
      AnyElection(view.value, s.hidden);
      ElectsTheShown(view.value, s.hidden, d);
      hide Shown, Elect, Reconciled, WellFormed, ShowsAny, ShowsOf;
    }
  }

  // Hiding.

  lemma {:induction false} AllHidingKeepsListing(owner: Pid -> Did, s: Store, dids: seq<Did>,
                                                 rest: Did -> Option<seq<Blob>>)
    requires WellFormed(s) && OwnedPointers(owner, s.ptr) && (forall d :: OwnedEnumeration(owner, rest(d)))
    ensures var t := AllHidden(s, dids, rest);
            && OwnedPointers(owner, t.ptr) && WellFormed(t)
            && (forall d :: d in t.ptr.index <==> d in s.ptr.index && d !in dids)
            && (forall d :: d in t.ptr.index ==> t.ptr.index[d] == s.ptr.index[d])
            && (forall a, b :: Before(s.ptr.order, a, b) && a !in dids && b !in dids ==> Before(t.ptr.order, a, b))
            && (forall d :: PointsOpenly(s, d) ==> PointsOpenly(t, d))
            && s.hidden <= t.hidden
  {
    if dids != [] {
      var front, d := dids[..|dids| - 1], dids[|dids| - 1];
      assert dids == front + [d];
      hide Hidden, WellFormed, Before, PointsOpenly;
      AllHidingKeepsListing(owner, s, front, rest);
      HidingKeepsListing(owner, AllHidden(s, front, rest), d, rest(d));
    }
  }

  lemma HidingKeepsListing(owner: Pid -> Did, s: Store, did: Did, view: Option<seq<Blob>>)
    requires WellFormed(s) && OwnedPointers(owner, s.ptr) && OwnedEnumeration(owner, view)
    ensures var t := Hidden(s, did, view);
            && WellFormed(t) && OwnedPointers(owner, t.ptr) && t.ptr.index == s.ptr.index - {did}
            && (forall d :: PointsOpenly(s, d) ==> PointsOpenly(t, d))
            && s.hidden <= t.hidden
            && (forall a, b :: Before(s.ptr.order, a, b) && a != did && b != did ==> Before(t.ptr.order, a, b))
  {
    HiddenFrame(s, did, view);
    HiddenIsWellFormed(s, did, view);
    PidsForAreOwned(owner, s.ptr, view, did);
    assert forall q :: q in Tombs(s, did, view) ==> owner(q) == did;
    hide Hidden, WellFormed, Before, Tombs;
    forall a, b | Before(s.ptr.order, a, b) && a != did && b != did ensures Before(Dropped(s.ptr, did).order, a, b) {
      WithoutKeepsOrder(s.ptr.order, did, a, b);
    }
  }

  // What adoption does to pointers and tombstones, said of the state before.

  /**
   * We hold a copy of the incoming record and do not adopt it, while the index is at another record of the daemon,
   * which the application has then hidden.
   */
  ghost predicate Overtaken(s: Store, local: map<Pid, Blob>, b: Blob, saveOk: bool) {
    && Holds(local, b) && OutcomeOf(local, b, saveOk) != Outcome.Adopted
    && b.did in s.ptr.index && s.ptr.index[b.did] in Others(local, b)
  }

  lemma MirroredPointer(legacy: Did -> Pid, s: Store, local: map<Pid, Blob>, b: Blob, saveOk: bool)
    requires PointsOpenly(s, b.did)
    ensures var t := Mirrored(legacy, s, local, b, saveOk);
            && (b.did in s.ptr.index ==> b.did in t.ptr.index)
            && (PointsOpenly(t, b.did) <==> !Overtaken(s, local, b, saveOk))
  {
    MirroredFields(legacy, s, local, b, saveOk);
    assert b.pid !in Others(local, b);
    hide Mirrored, OutcomeOf, Holds, Others;
  }

  lemma PointerTransfers(owner: Pid -> Did, d: Did, t: Store, a: Store)
    requires Agree(owner, d, t, a) && OwnedPointers(owner, t.ptr)
    ensures d in t.ptr.index <==> d in a.ptr.index
    ensures PointsOpenly(t, d) <==> PointsOpenly(a, d)
  {
  }

  lemma MirroredPointersAreOwned(legacy: Did -> Pid, owner: Pid -> Did, s: Store, local: map<Pid, Blob>, b: Blob,
                                 saveOk: bool)
    requires OwnedPointers(owner, s.ptr) && owner(b.pid) == b.did
    ensures OwnedPointers(owner, Mirrored(legacy, s, local, b, saveOk).ptr)
  {
    MirroredFields(legacy, s, local, b, saveOk);
    hide Mirrored, OutcomeOf, Holds, Others;
  }

  /** This daemon is in the snapshot and is overtaken by it. */
  ghost predicate OvertakenIn(s: Store, snap: Snapshot, w: Weather, d: Did)
    requires w.local.Some?
  {
    var m := Collapse(snap.pairings); d in m && Overtaken(s, w.local.value, m[d], m[d].pid in w.saved)
  }

  lemma AdoptedPointer(legacy: Did -> Pid, owner: Pid -> Did, s: Store, snap: Snapshot, w: Weather, d: Did)
    requires Sound(legacy, owner, s) && PointsOpenly(s, d) && OwnedApplication(owner, snap, w)
    ensures var a := AfterAdoption(legacy, s, snap, w);
            && (d in s.ptr.index ==> d in a.ptr.index)
            && (PointsOpenly(a, d) <==> !OvertakenIn(s, snap, w, d))
  {
    ApplicationWalks(owner, snap, w);
    hide AfterAdoption, Collapse, Mirrored, WellFormed, Walks, Overtaken, PointsOpenly, Agree;
    var a, m := AfterAdoption(legacy, s, snap, w), Collapse(snap.pairings);
    AfterAdoptionAt(legacy, owner, s, snap, w, d);
    IncomingIsOwned(owner, snap);
    if d in m {
      var b, ok := m[d], m[d].pid in w.saved;
      MirroredPointer(legacy, s, w.local.value, b, ok);
      MirroredPointersAreOwned(legacy, owner, s, w.local.value, b, ok);
      PointerTransfers(owner, d, Mirrored(legacy, s, w.local.value, b, ok), a);
    } else {
      PointerTransfers(owner, d, s, a);
    }
  }

  /** The tombstones one incoming record leaves. */
  function TombsBeside(legacy: Did -> Pid, hidden: set<Pid>, local: map<Pid, Blob>, b: Blob, saveOk: bool): set<Pid> {
    (hidden - {b.pid, legacy(b.did)})
    + (if Holds(local, b) || OutcomeOf(local, b, saveOk) == Outcome.Adopted then Others(local, b) else {})
  }

  /** Whether an enumerated record is a tombstoned one by the time the snapshot's records are adopted. */
  ghost predicate StaysHidden(legacy: Did -> Pid, s: Store, snap: Snapshot, w: Weather, c: Blob)
    requires w.local.Some?
  {
    var m := Collapse(snap.pairings);
    if c.did in m then c.pid in TombsBeside(legacy, s.hidden, w.local.value, m[c.did], m[c.did].pid in w.saved)
    else c.pid in s.hidden
  }

  lemma HiddenAfterAdoption(legacy: Did -> Pid, owner: Pid -> Did, s: Store, snap: Snapshot, w: Weather, c: Blob)
    requires Sound(legacy, owner, s) && OwnedApplication(owner, snap, w) && owner(c.pid) == c.did
    ensures c.pid in AfterAdoption(legacy, s, snap, w).hidden <==> StaysHidden(legacy, s, snap, w, c)
  {
    ApplicationWalks(owner, snap, w);
    hide AfterAdoption, Collapse, Mirrored, WellFormed, Walks, OutcomeOf, Holds, Others;
    var m := Collapse(snap.pairings);
    AfterAdoptionAt(legacy, owner, s, snap, w, c.did);
    IncomingIsOwned(owner, snap);
    if c.did in m {
      MirroredFields(legacy, s, w.local.value, m[c.did], m[c.did].pid in w.saved);
    }
  }

  /** The application's reconcile is shown nothing that is not hidden, or fails. */
  ghost predicate Dark(legacy: Did -> Pid, s: Store, snap: Snapshot, w: Weather)
    requires w.local.Some?
  {
    w.recon.Some? ==> forall c :: c in w.recon.value ==> StaysHidden(legacy, s, snap, w, c)
  }

  /** It is shown nothing of this daemon that is not hidden, or fails. */
  ghost predicate Unseen(legacy: Did -> Pid, s: Store, snap: Snapshot, w: Weather, d: Did)
    requires w.local.Some?
  {
    w.recon.Some? ==> forall c :: c in w.recon.value && c.did == d ==> StaysHidden(legacy, s, snap, w, c)
  }

  lemma DarkIff(legacy: Did -> Pid, owner: Pid -> Did, s: Store, snap: Snapshot, w: Weather, d: Did)
    requires Sound(legacy, owner, s) && OwnedApplication(owner, snap, w)
    ensures var hidden := AfterAdoption(legacy, s, snap, w).hidden;
            && (Dark(legacy, s, snap, w) <==> w.recon.None? || !ShowsAny(w.recon.value, hidden))
            && (Unseen(legacy, s, snap, w, d) <==> w.recon.None? || !ShowsOf(w.recon.value, hidden, d))
  {
    if w.recon.Some? {
      forall c | c in w.recon.value
        ensures c.pid in AfterAdoption(legacy, s, snap, w).hidden <==> StaysHidden(legacy, s, snap, w, c)
      {
        HiddenAfterAdoption(legacy, owner, s, snap, w, c);
      }
    }
    hide AfterAdoption, StaysHidden, Sound, Walks;
  }

  /**
   * What a snapshot application does to the listing of a daemon, whatever its reads show. It unlists one of the
   * snapshot's own daemons exactly when the daemon is overtaken and its reconcile is shown records, but none of this
   * daemon; it leaves a pointer at a tombstoned id exactly when the daemon is overtaken and its reconcile is shown
   * nothing.
   */
  lemma ApplyingListsIff(legacy: Did -> Pid, owner: Pid -> Did, s: Store, snap: Snapshot, w: Weather, d: Did)
    requires Sound(legacy, owner, s) && PointsOpenly(s, d) && TakenUp(snap, w) && OwnedApplication(owner, snap, w)
    ensures var t, m := SnapshotApplied(legacy, s, snap, w), Collapse(snap.pairings);
            var overtaken, dark := OvertakenIn(s, snap, w, d), Dark(legacy, s, snap, w);
            && (d in t.ptr.index ==> d in m)
            && (d in s.ptr.index && d in m
                ==> (d in t.ptr.index <==> !(overtaken && Unseen(legacy, s, snap, w, d) && !dark)))
            && (PointsOpenly(t, d) <==> !(overtaken && dark))
  {
    hide AfterAdoption, Collapse, Reconciled, WellFormed, SnapshotApplied, Sound, OwnedApplication, Before, Dark,
         Unseen, Overtaken, ShowsAny, ShowsOf;
    ApplicationWalks(owner, snap, w);
    var a, m := AfterAdoption(legacy, s, snap, w), Collapse(snap.pairings);
    ApplyingParts(legacy, owner, s, snap, w);
    AdoptedPointer(legacy, owner, s, snap, w, d);
    DarkIff(legacy, owner, s, snap, w, d);
    ReadLists(a, w.recon, d);
    if w.recon.Some? && ShowsOf(w.recon.value, a.hidden, d) {
      ShowsOfIsAny(w.recon.value, a.hidden, d);
    }
  }

  lemma ApplicationWalks(owner: Pid -> Did, snap: Snapshot, w: Weather)
    requires OwnedApplication(owner, snap, w)
    ensures Walks(snap, w) && w.local.Some?
  {
  }

  lemma ShowsOfIsAny(view: seq<Blob>, hidden: set<Pid>, d: Did)
    requires ShowsOf(view, hidden, d)
    ensures ShowsAny(view, hidden)
  {
  }

  /** The snapshot's last two phases: reconcile, then hide exactly the listed daemons it omits. */
  lemma ApplyingParts(legacy: Did -> Pid, owner: Pid -> Did, s: Store, snap: Snapshot, w: Weather)
    requires Sound(legacy, owner, s) && TakenUp(snap, w) && OwnedApplication(owner, snap, w)
    ensures var a, m := AfterAdoption(legacy, s, snap, w), Collapse(snap.pairings);
            var (r, p) := Reconciled(a, w.recon);
            var t := SnapshotApplied(legacy, s, snap, w);
            && WellFormed(a) && r.ptr == p && r.hidden == a.hidden
            && (forall d :: d in t.ptr.index <==> d in p.index && d in m)
            && (forall d :: d in t.ptr.index ==> t.ptr.index[d] == p.index[d])
            && (forall x, y :: Before(p.order, x, y) && x in m && y in m ==> Before(t.ptr.order, x, y))
            && (forall d :: PointsOpenly(r, d) ==> PointsOpenly(t, d)) && r.hidden <= t.hidden
  {
    hide AfterAdoption, Collapse, Reconciled, WellFormed, PointsOpenly, Before, AllHidden, Sound, Absent, Distinct,
         Owned;
    var a, m := AfterAdoption(legacy, s, snap, w), Collapse(snap.pairings);
    AdoptionKeepsSound(legacy, owner, s, snap, w);
    SoundParts(legacy, owner, a);
    ReadLists(a, w.recon, "");
    ReadingKeepsSound(legacy, owner, a, w.recon);
    var (r, p) := Reconciled(a, w.recon);
    SoundParts(legacy, owner, r);
    AbsentMembers(p.order, m.Keys);
    AllHidingKeepsListing(owner, r, Absent(p.order, m.Keys), w.rest);
    forall d ensures d in SnapshotApplied(legacy, s, snap, w).ptr.index <==> d in p.index && d in m {
      assert d in p.order <==> d in p.index;
    }
  }

  lemma SoundParts(legacy: Did -> Pid, owner: Pid -> Did, s: Store)
    requires Sound(legacy, owner, s)
    ensures WellFormed(s) && OwnedPointers(owner, s.ptr) && WellFormedPointers(s.ptr)
  {
  }

  lemma {:induction false} AllMirroredKeepsOrder(legacy: Did -> Pid, s: Store, local: map<Pid, Blob>,
                                                 incoming: map<Did, Blob>,
                                                 dids: seq<Did>, saved: set<Pid>, a: Did, b: Did)
    requires Before(s.ptr.order, a, b) && forall d :: d in dids ==> d in incoming
    ensures Before(AllMirrored(legacy, s, local, incoming, dids, saved).ptr.order, a, b)
  {
    if dids != [] {
      hide Mirrored, Before;
      AllMirroredKeepsOrder(legacy, s, local, incoming, dids[..|dids| - 1], saved, a, b);
      var m, r := AllMirrored(legacy, s, local, incoming, dids[..|dids| - 1], saved), incoming[dids[|dids| - 1]];
      MirroredFields(legacy, m, local, r, r.pid in saved);
      PointedKeepsOrder(m.ptr, r.did, r.pid, a, b);
    }
  }

  lemma AdoptionKeepsOrder(legacy: Did -> Pid, s: Store, snap: Snapshot, w: Weather, a: Did, b: Did)
    requires Walks(snap, w) && Before(s.ptr.order, a, b)
    ensures Before(AfterAdoption(legacy, s, snap, w).ptr.order, a, b)
  {
    AllMirroredKeepsOrder(legacy, s, w.local.value, Collapse(snap.pairings), w.dids, w.saved, a, b);
    hide Before, Collapse, AllMirrored;
  }

  lemma ApplyingKeepsOrder(legacy: Did -> Pid, owner: Pid -> Did, s: Store, snap: Snapshot, w: Weather, a: Did, b: Did)
    requires Sound(legacy, owner, s) && TakenUp(snap, w) && OwnedApplication(owner, snap, w)
    requires Before(s.ptr.order, a, b)
    requires var t := SnapshotApplied(legacy, s, snap, w); a in t.ptr.index && b in t.ptr.index
    ensures Before(SnapshotApplied(legacy, s, snap, w).ptr.order, a, b)
  {
    hide AfterAdoption, Collapse, Reconciled, WellFormed, Before, SnapshotApplied, Sound, Walks;
    var x := AfterAdoption(legacy, s, snap, w);
    AdoptionKeepsOrder(legacy, s, snap, w, a, b);
    ApplyingParts(legacy, owner, s, snap, w);
    ReconcileFrame(x, w.recon);
    if w.recon.Some? {
      ReconcileKeepsOrder(x, w.recon.value, a, b);
    }
  }

  // Applications that read the keychain as it is.

  /**
   * The save that would replace our own copy of the incoming record fails, which loses that copy, and the index
   * is at another record of the daemon, which has just been hidden.
   */
  ghost predicate Strands(s: Store, b: Blob, saveOk: bool) {
    LosesCopy(s, b, saveOk) && b.did in s.ptr.index && s.ptr.index[b.did] in Others(s.items, b)
  }

  /** Whether the daemon of an incoming record shows any record after its adoption. */
  ghost predicate ShowsAfterwards(legacy: Did -> Pid, s: Store, b: Blob, saveOk: bool) {
    if Holds(s.items, b) then !LosesCopy(s, b, saveOk)
    else OutcomeOf(s.items, b, saveOk) == Outcome.Adopted
         || exists q :: q in s.items && s.items[q].did == b.did && (q !in s.hidden || q == legacy(b.did))
  }

  /** No daemon shows a record after the snapshot's records are adopted; said of the state before. */
  ghost predicate NothingShownAfter(legacy: Did -> Pid, s: Store, snap: Snapshot, w: Weather) {
    var m := Collapse(snap.pairings);
    && (forall d :: d in m ==> !ShowsAfterwards(legacy, s, m[d], m[d].pid in w.saved))
    && (forall q :: Shows(s, q) ==> s.items[q].did in m)
  }

  lemma MirroredShowsIff(legacy: Did -> Pid, owner: Pid -> Did, s: Store, b: Blob, saveOk: bool)
    requires WellFormed(s) && OwnedItems(owner, s.items) && owner(b.pid) == b.did
    ensures var t := Mirrored(legacy, s, s.items, b, saveOk);
            (exists q :: Shows(t, q) && t.items[q].did == b.did) <==> ShowsAfterwards(legacy, s, b, saveOk)
  {
    var t := Mirrored(legacy, s, s.items, b, saveOk);
    var o := OutcomeOf(s.items, b, saveOk);
    MirroredFields(legacy, s, s.items, b, saveOk);
    assert b.pid !in Others(s.items, b);
    assert o == Unchanged ==> Holds(s.items, b);
    assert b.pid in s.items ==> Holds(s.items, b);
    hide Mirrored, OutcomeOf, WellFormed;
    if Holds(s.items, b) || o == Outcome.Adopted {
      if o == SaveError {
        forall q | Shows(t, q) ensures t.items[q].did != b.did {
          assert q in s.items && q != b.pid && q !in Others(s.items, b);
        }
      } else {
        assert Shows(t, b.pid);
      }
    } else {
      hide Others;
      assert t.items == s.items && t.hidden == s.hidden - {b.pid, legacy(b.did)};
      forall q ensures Shows(t, q) && t.items[q].did == b.did
                       <==> q in s.items && s.items[q].did == b.did && (q !in s.hidden || q == legacy(b.did)) {
      }
    }
  }

  lemma AdoptionShowsAt(legacy: Did -> Pid, owner: Pid -> Did, s: Store, snap: Snapshot, w: Weather, d: Did)
    requires Sound(legacy, owner, s) && OwnedApplication(owner, snap, w) && w.local == Some(s.items)
    ensures var a, m := AfterAdoption(legacy, s, snap, w), Collapse(snap.pairings);
            (exists q :: Shows(a, q) && a.items[q].did == d)
            <==> if d in m then ShowsAfterwards(legacy, s, m[d], m[d].pid in w.saved)
            else exists q :: Shows(s, q) && s.items[q].did == d
  {
    var a, m := AfterAdoption(legacy, s, snap, w), Collapse(snap.pairings);
    AfterAdoptionFrame(legacy, owner, s, snap, w);
    AfterAdoptionAt(legacy, owner, s, snap, w, d);
    IncomingIsOwned(owner, snap);
    hide AfterAdoption, Collapse, Mirrored, WellFormed, ShowsAfterwards, Agree;
    if d in m {
      MirroredShowsIff(legacy, owner, s, m[d], m[d].pid in w.saved);
      MirroredFrame(legacy, owner, s, s.items, m[d], m[d].pid in w.saved);
      ShownTransfers(owner, d, Mirrored(legacy, s, s.items, m[d], m[d].pid in w.saved), a);
    } else {
      ShownTransfers(owner, d, s, a);
    }
  }

  lemma ShownTransfers(owner: Pid -> Did, d: Did, t: Store, a: Store)
    requires Agree(owner, d, t, a) && OwnedItems(owner, t.items) && OwnedItems(owner, a.items)
    ensures (exists q :: Shows(t, q) && t.items[q].did == d) <==> exists q :: Shows(a, q) && a.items[q].did == d
  {
    if q :| Shows(t, q) && t.items[q].did == d {
      assert owner(q) == d && Shows(a, q);
    }
    if q :| Shows(a, q) && a.items[q].did == d {
      assert owner(q) == d && Shows(t, q);
    }
  }

  lemma AdoptionShowsNothingIff(legacy: Did -> Pid, owner: Pid -> Did, s: Store, snap: Snapshot, w: Weather)
    requires Sound(legacy, owner, s) && OwnedApplication(owner, snap, w) && w.local == Some(s.items)
    ensures (forall q :: !Shows(AfterAdoption(legacy, s, snap, w), q)) <==> NothingShownAfter(legacy, s, snap, w)
  {
    var a, m := AfterAdoption(legacy, s, snap, w), Collapse(snap.pairings);
    hide AfterAdoption, Collapse, ShowsAfterwards, Sound, OwnedApplication;
    if NothingShownAfter(legacy, s, snap, w) {
      forall q ensures !Shows(a, q) {
        if Shows(a, q) {
          AdoptionShowsAt(legacy, owner, s, snap, w, a.items[q].did);
          assert false;
        }
      }
    } else if d :| d in m && ShowsAfterwards(legacy, s, m[d], m[d].pid in w.saved) {
      AdoptionShowsAt(legacy, owner, s, snap, w, d);
    } else {
      var q :| Shows(s, q) && s.items[q].did !in m;
      AdoptionShowsAt(legacy, owner, s, snap, w, s.items[q].did);
    }
  }

  lemma FaithfulViewShows(a: Store, view: seq<Blob>, d: Did)
    requires KeyedByPid(a.items) && Enumerates(view, a.items)
    ensures ShowsAny(view, a.hidden) <==> exists q :: Shows(a, q)
    ensures ShowsOf(view, a.hidden, d) <==> exists q :: Shows(a, q) && a.items[q].did == d
  {
    if c :| c in view && c.pid !in a.hidden {
      assert Shows(a, c.pid);
    }
    if c :| c in view && c.did == d && c.pid !in a.hidden {
      assert Shows(a, c.pid);
    }
    if q :| Shows(a, q) {
      assert a.items[q] in view && a.items[q].pid == q;
    }
    if q :| Shows(a, q) && a.items[q].did == d {
      assert a.items[q] in view && a.items[q].pid == q;
    }
  }

  /**
   * If the application reads the keychain as it is, at first and in its reconcile, only a failed save does either: one
   * that strands the daemon unlists it if anything is shown afterwards, and leaves its pointer at a tombstoned id if
   * not.
   */
  lemma FaithfulListsIff(legacy: Did -> Pid, owner: Pid -> Did, s: Store, snap: Snapshot, w: Weather, d: Did)
    requires Sound(legacy, owner, s) && PointsOpenly(s, d) && TakenUp(snap, w) && OwnedApplication(owner, snap, w)
    requires Fair(legacy, s, snap, w)
    ensures var t, m := SnapshotApplied(legacy, s, snap, w), Collapse(snap.pairings);
            var stranded, dark := d in m && Strands(s, m[d], m[d].pid in w.saved),
                NothingShownAfter(legacy, s, snap, w);
            && (d in s.ptr.index && d in m ==> (d in t.ptr.index <==> !(stranded && !dark)))
            && (PointsOpenly(t, d) <==> !(stranded && dark))
  {
    hide AfterAdoption, Collapse, SnapshotApplied, Sound, OwnedApplication, Dark, Unseen, Overtaken, ShowsAny, ShowsOf,
         Fair, NothingShownAfter, PointsOpenly, Strands, Enumerates, ShowsAfterwards;
    FairParts(legacy, s, snap, w);
    var a, m := AfterAdoption(legacy, s, snap, w), Collapse(snap.pairings);
    ApplyingListsIff(legacy, owner, s, snap, w, d);
    DarkIff(legacy, owner, s, snap, w, d);
    AdoptionKeepsSound(legacy, owner, s, snap, w);
    SoundIsKeyed(legacy, owner, a);
    FaithfulViewShows(a, w.recon.value, d);
    AdoptionShowsNothingIff(legacy, owner, s, snap, w);
    AdoptionShowsAt(legacy, owner, s, snap, w, d);
    if d in m {
      IncomingKey(snap, d);
      StrandsIff(legacy, s, m[d], m[d].pid in w.saved);
    }
  }

  lemma SoundIsKeyed(legacy: Did -> Pid, owner: Pid -> Did, s: Store)
    requires Sound(legacy, owner, s)
    ensures KeyedByPid(s.items)
  {
  }

  lemma StrandsIff(legacy: Did -> Pid, s: Store, b: Blob, saveOk: bool)
    ensures Strands(s, b, saveOk) <==> Overtaken(s, s.items, b, saveOk) && !ShowsAfterwards(legacy, s, b, saveOk)
  {
    hide OutcomeOf, Holds, Others;
  }

  // Steps and runs.

  /** The step is an explicit request to unlist this daemon, or an applied snapshot that omits it. */
  ghost predicate Names(e: Event, d: Did) {
    match e
    case Hiding(did, _) => did == d
    case Unpairing(did, _) => did == d
    case Applying(snap, w) => TakenUp(snap, w) && d !in Collapse(snap.pairings)
    case _ => false
  }

  /**
   * It applies a snapshot that overtakes this daemon, and its reconcile is shown others' records but none of this one.
   */
  ghost predicate Unlists(legacy: Did -> Pid, s: Store, e: Event, d: Did) {
    && e.Applying? && TakenUp(e.snap, e.w) && OvertakenIn(s, e.snap, e.w, d)
    && Unseen(legacy, s, e.snap, e.w, d) && !Dark(legacy, s, e.snap, e.w)
  }

  /** It applies a snapshot that overtakes this daemon, and its reconcile is shown nothing. */
  ghost predicate Darkens(legacy: Did -> Pid, s: Store, e: Event, d: Did) {
    e.Applying? && TakenUp(e.snap, e.w) && OvertakenIn(s, e.snap, e.w, d) && Dark(legacy, s, e.snap, e.w)
  }

  lemma UnpairingKeepsListing(legacy: Did -> Pid, s: Store, did: Did, view: Option<seq<Blob>>)
    ensures var t := Unpaired(legacy, s, did, view);
            (forall d :: PointsOpenly(s, d) ==> PointsOpenly(t, d)) && t.ptr == Dropped(s.ptr, did)
  {
    hide PidsFor, Without;
  }

  lemma PromotingKeepsListing(legacy: Did -> Pid, owner: Pid -> Did, s: Store, pid: Pid, now: int, secretOk: bool,
                              saveOk: bool, view: Option<seq<Blob>>)
    requires Sound(legacy, owner, s)
    ensures var t := Promoted(legacy, s, pid, now, secretOk, saveOk, view).0;
            && (forall d :: PointsOpenly(s, d) ==> PointsOpenly(t, d))
               && (forall d :: d in s.ptr.index ==> d in t.ptr.index)
            && (forall a, b :: Before(s.ptr.order, a, b) ==> Before(t.ptr.order, a, b))
  {
    if pid in s.pending && secretOk && saveOk {
      var p := s.pending[pid].pairing;
      PersistedFields(legacy, s, p, now, view);
      hide Persisted, PidsFor, Without, Before, FloorOf, WellFormed;
      forall a, b | Before(s.ptr.order, a, b) ensures Before(Pointed(s.ptr, p.did, p.pid).order, a, b) {
        PointedKeepsOrder(s.ptr, p.did, p.pid, a, b);
      }
    }
  }

  lemma SmallStepKeepsListing(legacy: Did -> Pid, owner: Pid -> Did, s: Store, e: Event, t: Store)
    requires Step(legacy, owner, s, e, t)
    requires !(e.Reading? || e.Promoting? || e.Hiding? || e.Unpairing?)
    requires e.Applying? ==> !TakenUp(e.snap, e.w)
    ensures t.ptr == s.ptr && forall d :: PointsOpenly(s, d) ==> PointsOpenly(t, d)
  {
    hide SnapshotApplied, Reconciled, Hidden, Promoted, Unpaired, OwnedApplication, Collapse, Lists, Without;
  }

  /** Exactly when a step unlists a daemon, and when it leaves its pointer at a tombstoned id. */
  lemma StepListsIff(legacy: Did -> Pid, owner: Pid -> Did, s: Store, e: Event, t: Store, d: Did)
    requires Sound(legacy, owner, s) && Step(legacy, owner, s, e, t) && PointsOpenly(s, d)
    ensures PointsOpenly(t, d) <==> !Darkens(legacy, s, e, d)
    ensures d in s.ptr.index ==> (d in t.ptr.index <==> !Names(e, d) && !Unlists(legacy, s, e, d))
  {
    hide PointsOpenly, WellFormed, Before, Collapse, OvertakenIn, Dark, Unseen;
    match e
    case Reading(view) => { hide Reconciled; ReadingKeepsListing(s, view); }
    case Promoting(pid, now, secretOk, saveOk, view) => {
      hide Promoted;
      PromotingKeepsListing(legacy, owner, s, pid, now, secretOk, saveOk, view);
    }
    case Hiding(did, view) => { hide Hidden; HidingKeepsListing(owner, s, did, view); }
    case Unpairing(did, view) => { hide Unpaired, Without; UnpairingKeepsListing(legacy, s, did, view); }
    case Applying(snap, w) => {
      hide SnapshotApplied, OwnedApplication, Sound;
      if TakenUp(snap, w) {
        ApplyingListsIff(legacy, owner, s, snap, w, d);
        OvertakenIsIncoming(s, snap, w, d);
      }
    }
    case _ => { SmallStepKeepsListing(legacy, owner, s, e, t); }
  }

  lemma OvertakenIsIncoming(s: Store, snap: Snapshot, w: Weather, d: Did)
    requires w.local.Some?
    ensures OvertakenIn(s, snap, w, d) ==> d in Collapse(snap.pairings)
  {
  }

  /** Two daemons that stay listed keep their relative order. */
  lemma StepKeepsOrder(legacy: Did -> Pid, owner: Pid -> Did, s: Store, e: Event, t: Store, a: Did, b: Did)
    requires Sound(legacy, owner, s) && Step(legacy, owner, s, e, t)
    requires Before(s.ptr.order, a, b) && a in t.ptr.index && b in t.ptr.index
    ensures Before(t.ptr.order, a, b)
  {
    hide WellFormed, Before;
    match e
    case Reading(view) => {
      ReconcileFrame(s, view);
      hide Reconciled;
      if view.Some? {
        ReconcileKeepsOrder(s, view.value, a, b);
      }
    }
    case Promoting(pid, now, secretOk, saveOk, view) => {
      hide Promoted;
      PromotingKeepsListing(legacy, owner, s, pid, now, secretOk, saveOk, view);
    }
    case Hiding(did, view) => { hide Hidden; HidingKeepsListing(owner, s, did, view); }
    case Unpairing(did, view) => { hide Without, PidsFor; WithoutKeepsOrder(s.ptr.order, did, a, b); }
    case Applying(snap, w) => {
      hide SnapshotApplied, Collapse, OwnedApplication, Sound;
      if TakenUp(snap, w) {
        ApplyingKeepsOrder(legacy, owner, s, snap, w, a, b);
      }
    }
    case _ => { SmallStepKeepsListing(legacy, owner, s, e, t); }
  }

  lemma FreshPointsOpenly()
    ensures NoHiddenPointer(FRESH)
  {
  }

  lemma StepHidesPointerIff(legacy: Did -> Pid, owner: Pid -> Did, s: Store, e: Event, t: Store)
    requires Sound(legacy, owner, s) && Step(legacy, owner, s, e, t) && NoHiddenPointer(s)
    ensures NoHiddenPointer(t) <==> forall d :: !Darkens(legacy, s, e, d)
  {
    hide PointsOpenly, Sound, Step, Darkens;
    forall d ensures PointsOpenly(t, d) <==> !Darkens(legacy, s, e, d) {
      StepListsIff(legacy, owner, s, e, t, d);
    }
  }

  /**
   * Whatever is read, no pointer names a tombstoned id up to some state exactly if no step before it darkens a daemon.
   */
  lemma {:induction false} NoPointerIsHiddenIff(legacy: Did -> Pid, owner: Pid -> Did, events: seq<Event>,
                                                states: seq<Store>, k: nat)
    requires OwnedLegacy(legacy, owner) && Run(legacy, owner, events, states) && k < |states|
    ensures (forall i :: 0 <= i <= k ==> NoHiddenPointer(states[i]))
            <==> forall i, d :: 0 <= i < k ==> !Darkens(legacy, states[i], events[i], d)
  {
    hide Step, NoHiddenPointer, Sound, Darkens;
    if k > 0 {
      NoPointerIsHiddenIff(legacy, owner, events, states, k - 1);
      RunsAreSound(legacy, owner, events, states, k - 1);
      assert Step(legacy, owner, states[k - 1], events[k - 1], states[k]);
      if NoHiddenPointer(states[k - 1]) {
        StepHidesPointerIff(legacy, owner, states[k - 1], events[k - 1], states[k]);
      }
    } else {
      FreshPointsOpenly();
    }
  }

  /** On the list, and not at a tombstoned id. */
  ghost predicate Openly(s: Store, d: Did) {
    d in s.ptr.index && PointsOpenly(s, d)
  }

  /** Between these states no step names the daemon, unlists it or darkens it. */
  ghost predicate LeftAlone(legacy: Did -> Pid, events: seq<Event>, states: seq<Store>, i: nat, j: nat, d: Did)
    requires |states| == |events| + 1 && j < |states|
  {
    forall k :: i <= k < j ==>
      !Names(events[k], d) && !Unlists(legacy, states[k], events[k], d) && !Darkens(legacy, states[k], events[k], d)
  }

  /**
   * Exactly how long a daemon stays openly listed: until a step names, unlists or darkens it, whatever else is read.
   */
  lemma {:induction false} ListedStaysListedIff(legacy: Did -> Pid, owner: Pid -> Did, events: seq<Event>,
                                                states: seq<Store>, i: nat, j: nat, d: Did)
    requires OwnedLegacy(legacy, owner) && Run(legacy, owner, events, states) && i <= j < |states|
             && Openly(states[i], d)
    ensures (forall k :: i <= k <= j ==> Openly(states[k], d)) <==> LeftAlone(legacy, events, states, i, j, d)
  {
    hide Step, PointsOpenly, Sound, Unlists, Darkens, Names;
    if i < j {
      var k := j - 1;
      ListedStaysListedIff(legacy, owner, events, states, i, k, d);
      RunsAreSound(legacy, owner, events, states, k);
      assert Step(legacy, owner, states[k], events[k], states[j]);
      if Openly(states[k], d) {
        StepListsIff(legacy, owner, states[k], events[k], states[j], d);
      }
    }
  }

  /** As long as both stay openly listed, one stays before the other: nothing moves a daemon on the list. */
  lemma {:induction false} VisibleListIsSafe(legacy: Did -> Pid, owner: Pid -> Did, events: seq<Event>,
                                             states: seq<Store>, i: nat, j: nat, a: Did, b: Did)
    requires OwnedLegacy(legacy, owner) && Run(legacy, owner, events, states) && i <= j < |states|
    requires Before(states[i].ptr.order, a, b) && Openly(states[i], a) && Openly(states[i], b)
    requires LeftAlone(legacy, events, states, i, j, a) && LeftAlone(legacy, events, states, i, j, b)
    ensures Before(states[j].ptr.order, a, b)
  {
    if i < j {
      hide Step, Openly, Sound, Unlists, Darkens, Names, Before;
      var k := j - 1;
      VisibleListIsSafe(legacy, owner, events, states, i, k, a, b);
      RunsAreSound(legacy, owner, events, states, k);
      ListedStaysListedIff(legacy, owner, events, states, i, j, a);
      ListedStaysListedIff(legacy, owner, events, states, i, j, b);
      OpenlyIsListed(states[j], a);
      OpenlyIsListed(states[j], b);
      assert Step(legacy, owner, states[k], events[k], states[j]);
      StepKeepsOrder(legacy, owner, states[k], events[k], states[j], a, b);
    }
  }

  lemma OpenlyIsListed(s: Store, d: Did)
    requires Openly(s, d)
    ensures d in s.ptr.index
  {
  }
}
