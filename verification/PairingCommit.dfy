/** Committing loses no pairing, and a committed floor only rises. */
module PairingCommit {
  import opened Common
  import opened PairingRecords
  import opened PairingState
  import opened PairingElection
  import opened PairingReconcile
  import opened PairingFrames
  import opened PairingMirror
  import opened PairingMirrorSafety
  import opened PairingConvergence
  import opened PairingRuns

  /** The only record of its daemon, pointed at, shown, and no longer pending. */
  ghost predicate CommittedAlone(s: Store, p: Pairing, now: int) {
    && p.pid in s.items && s.items[p.pid] == Blob(p.did, p.pid, now, p.payload) && p.pid !in s.hidden
    && (forall q :: q in s.items && s.items[q].did == p.did ==> q == p.pid)
    && p.did in s.ptr.index && s.ptr.index[p.did] == p.pid
    && p.pid !in s.pending
  }

  /**
   * A promotion that does not commit leaves everything but possibly the stored record under that very id; that one is
   * lost exactly when it was there, the secret was read and the save failed.
   */
  lemma FailedPromotionConserves(legacy: Did -> Pid, s: Store, pid: Pid, now: int, secretOk: bool, saveOk: bool,
                                 view: Option<seq<Blob>>)
    requires WellFormed(s)
    ensures var (t, r) := Promoted(legacy, s, pid, now, secretOk, saveOk, view);
            && (r == Committed <==> pid in s.pending && secretOk && saveOk)
            && (r == NothingPending <==> pid !in s.pending)
            && (r != Committed ==> t == s.(items := t.items) && t.items - {pid} == s.items - {pid})
            && (r != Committed ==> (t == s <==> !(pid in s.items && pid in s.pending && secretOk && !saveOk)))
  {
    hide Persisted, Lists;
    if pid in s.pending && secretOk && !saveOk && pid !in s.items {
      assert s.items - {pid} == s.items;
    }
  }

  /**
   * Whatever reads and saves do, a promotion loses no pairing. Either it stays pending and nothing at all changes, save
   * that a failed save loses a record stored under that very id, so the daemon's other records stay; or it is stored,
   * pointed at, shown and no longer pending. Nothing of any other daemon changes.
   */
  lemma PromotionNeverLoses(legacy: Did -> Pid, owner: Pid -> Did, s: Store, pid: Pid, now: int, secretOk: bool,
                            saveOk: bool, view: Option<seq<Blob>>)
    requires Sound(legacy, owner, s) && OwnedEnumeration(owner, view) && pid in s.pending
    ensures var t, p := Promoted(legacy, s, pid, now, secretOk, saveOk, view).0, s.pending[pid].pairing;
            && (pid in t.pending <==> !(secretOk && saveOk))
            && (pid in t.pending ==> t == s.(items := t.items) && t.items - {pid} == s.items - {pid})
            && (pid in t.pending ==> (t == s <==> !(pid in s.items && secretOk)))
            && (pid !in t.pending ==> pid in t.items && t.items[pid] == Blob(p.did, pid, now, p.payload)
                                      && pid !in t.hidden && p.did in t.ptr.index && t.ptr.index[p.did] == pid
                                      && t.ptr.order == s.ptr.order + if p.did in s.ptr.index then [] else [p.did])
            && (forall q :: owner(q) != p.did ==>
                  && (q in t.items <==> q in s.items) && (q in s.items ==> t.items[q] == s.items[q])
                  && (q in t.hidden <==> q in s.hidden) && (q in t.pending <==> q in s.pending))
            && (forall d :: d != p.did ==>
                  && (d in t.ptr.index <==> d in s.ptr.index)
                  && (d in s.ptr.index ==> t.ptr.index[d] == s.ptr.index[d]))
  {
    PendingIsOwned(legacy, owner, s, pid);
    hide Persisted, Owned, OwnedEnumeration, Pointed, PidsFor, FloorOf, Sound;
    if secretOk && saveOk {
      CommitConserves(legacy, owner, s, pid, now, view);
      hide Without, Lists;
    } else {
      SoundIsWellFormed(legacy, owner, s);
      FailedPromotionConserves(legacy, s, pid, now, secretOk, saveOk, view);
      hide Promoted;
    }
  }

  lemma CommitConserves(legacy: Did -> Pid, owner: Pid -> Did, s: Store, pid: Pid, now: int, view: Option<seq<Blob>>)
    requires Sound(legacy, owner, s) && OwnedEnumeration(owner, view) && pid in s.pending
    ensures var p := s.pending[pid].pairing;
            var t := Persisted(legacy, s, p, now, view);
            && p.pid == pid && t.pending == s.pending && owner(pid) == p.did
            && pid in t.items && t.items[pid] == Blob(p.did, pid, now, p.payload)
            && pid !in t.hidden && p.did in t.ptr.index && t.ptr.index[p.did] == pid
            && t.ptr.order == s.ptr.order + (if p.did in s.ptr.index then [] else [p.did])
            && (forall q :: owner(q) != p.did ==>
                  && (q in t.items <==> q in s.items) && (q in s.items ==> t.items[q] == s.items[q])
                  && (q in t.hidden <==> q in s.hidden))
            && (forall d :: d != p.did ==>
                  && (d in t.ptr.index <==> d in s.ptr.index)
                  && (d in s.ptr.index ==> t.ptr.index[d] == s.ptr.index[d]))
  {
    PendingIsOwned(legacy, owner, s, pid);
    var p := s.pending[pid].pairing;
    var q := Pointed(s.ptr, p.did, p.pid);
    var stale := Without(PidsFor(q, view, p.did), p.pid);
    PersistedFields(legacy, s, p, now, view);
    PidsForAreOwned(owner, q, view, p.did);
    WithoutMembers(PidsFor(q, view, p.did), p.pid);
    assert owner(legacy(p.did)) == p.did;
    hide Persisted, PidsFor, Without, WellFormed, FloorOf, Distinct, Sound;
    OthersStay(owner, s, Persisted(legacy, s, p, now, view), p, now, stale, legacy(p.did));
  }

  lemma OthersStay(owner: Pid -> Did, s: Store, t: Store, p: Pairing, now: int, stale: seq<Pid>, l: Pid)
    requires owner(p.pid) == owner(l) == p.did && (forall q :: q in stale ==> owner(q) == p.did && q != p.pid)
    requires t.items == s.items[p.pid := BlobOf(p, now)] - (set q | q in stale)
    requires t.hidden == s.hidden - {p.pid, l} - (set q | q in stale) && t.ptr == Pointed(s.ptr, p.did, p.pid)
    ensures p.pid in t.items && t.items[p.pid] == BlobOf(p, now) && p.pid !in t.hidden
    ensures t.ptr.order == s.ptr.order + if p.did in s.ptr.index then [] else [p.did]
    ensures forall q ::
              owner(q) != p.did ==> (q in t.items <==> q in s.items) && (q in s.items ==> t.items[q] == s.items[q])
    ensures forall q :: owner(q) != p.did ==> (q in t.hidden <==> q in s.hidden)
    ensures forall d ::
              d != p.did
              ==> (d in t.ptr.index <==> d in s.ptr.index) && (d in s.ptr.index ==> t.ptr.index[d] == s.ptr.index[d])
  {
  }

  lemma PersistSweeps(s: Store, p: Pairing, now: int, view: seq<Blob>, q: Pid)
    requires KeyedByPid(s.items) && Enumerates(view, s.items[p.pid := BlobOf(p, now)])
    ensures q in Without(PidsFor(Pointed(s.ptr, p.did, p.pid), Some(view), p.did), p.pid)
            <==> q != p.pid && q in s.items && s.items[q].did == p.did
  {
    var items := s.items[p.pid := BlobOf(p, now)];
    var t := s.(items := items, ptr := Pointed(s.ptr, p.did, p.pid));
    TombsAreItems(t, p.did, view);
    WithoutMembers(PidsFor(t.ptr, Some(view), p.did), p.pid);
    hide Without, PidsFor, Enumerates, Distinct;
    assert items[p.pid].did == p.did;
    assert q in Tombs(t, p.did, Some(view)) <==> q in PidsFor(t.ptr, Some(view), p.did);
  }

  /**
   * A promotion that commits on a readable keychain leaves exactly one record of the daemon, the new one, pointed at
   * and shown; it touches no other daemon's records, keeps the larger floor, and a second promotion does nothing.
   */
  lemma PromotionCommits(legacy: Did -> Pid, s: Store, pid: Pid, now: int, view: seq<Blob>)
    requires WellFormed(s) && pid in s.pending
    requires var p := s.pending[pid].pairing; Enumerates(view, s.items[pid := Blob(p.did, pid, now, p.payload)])
    ensures var (t, r) := Promoted(legacy, s, pid, now, true, true, Some(view));
            var p := s.pending[pid].pairing;
            && r == Committed && CommittedAlone(t, p, now)
            && (forall q ::
                  q in s.items && s.items[q].did != p.did && q != pid ==> q in t.items && t.items[q] == s.items[q])
            && (forall q ::
                  q in t.items && q != pid ==> q in s.items && t.items[q] == s.items[q] && t.items[q].did != p.did)
            && FloorOf(t, p.did) == Max(p.minV, FloorOf(s, p.did))
            && (forall d :: d != p.did ==> FloorOf(t, d) == FloorOf(s, d))
            && (forall later, ok, v :: Promoted(legacy, t, pid, later, ok, ok, v) == (t, NothingPending))
  {
    var p := s.pending[pid].pairing;
    PersistedFields(legacy, s, p, now, Some(view));
    var stale := Without(PidsFor(Pointed(s.ptr, p.did, p.pid), Some(view), p.did), p.pid);
    hide Persisted, PidsFor, Without, Enumerates, Lists, FloorOf;
    forall q ensures q in stale <==> q != p.pid && q in s.items && s.items[q].did == p.did {
      PersistSweeps(s, p, now, view, q);
    }
    SweptAlone(s, Persisted(legacy, s, p, now, Some(view)), p, now, stale);
    OtherFloors(s, Persisted(legacy, s, p, now, Some(view)), p.did);
  }

  lemma SweptAlone(s: Store, t: Store, p: Pairing, now: int, stale: seq<Pid>)
    requires KeyedByPid(s.items) && t.items == s.items[p.pid := BlobOf(p, now)] - (set q | q in stale)
    requires forall q :: q in stale <==> q != p.pid && q in s.items && s.items[q].did == p.did
    ensures p.pid in t.items && t.items[p.pid] == BlobOf(p, now)
    ensures forall q :: q in t.items && t.items[q].did == p.did ==> q == p.pid
    ensures forall q ::
              q in s.items && s.items[q].did != p.did && q != p.pid ==> q in t.items && t.items[q] == s.items[q]
    ensures forall q ::
              q in t.items && q != p.pid ==> q in s.items && t.items[q] == s.items[q] && t.items[q].did != p.did
  {
  }

  lemma OtherFloors(s: Store, t: Store, did: Did)
    requires did in t.sidecars && t.sidecars == s.sidecars[did := t.sidecars[did]]
    ensures forall d :: d != did ==> FloorOf(t, d) == FloorOf(s, d)
  {
  }

  /** After such a commit the very next read lists the daemon at the committed record and sweeps nothing of it. */
  lemma CommitIsSeen(s: Store, p: Pairing, now: int, view: seq<Blob>)
    requires WellFormed(s) && CommittedAlone(s, p, now) && Enumerates(view, s.items)
    ensures var (t, r) := Reconciled(s, Some(view));
            && p.did in r.index && r.index[p.did] == p.pid
            && p.pid in t.items && t.items[p.pid] == Blob(p.did, p.pid, now, p.payload)
  {
    ReconciledWinner(s, view, p.pid);
    ReconciledRecords(s, view);
    hide Reconciled, WellFormed, Enumerates;
  }

  /**
   * Even if the keychain cannot be read back, the new record is stored, pointed at and shown, and nothing is deleted.
   */
  lemma UnreadableCommit(legacy: Did -> Pid, s: Store, pid: Pid, now: int)
    requires WellFormed(s) && pid in s.pending
    ensures var (t, r) := Promoted(legacy, s, pid, now, true, true, None);
            var p := s.pending[pid].pairing;
            && r == Committed && t.items == s.items[pid := Blob(p.did, pid, now, p.payload)] && t.removals == s.removals
            && t.ptr.index == s.ptr.index[p.did := pid] && pid !in t.hidden && pid !in t.pending
  {
    var p := s.pending[pid].pairing;
    PersistedFields(legacy, s, p, now, None);
    var q := Pointed(s.ptr, p.did, p.pid);
    assert PidsFor(q, None, p.did) == [p.pid];
    assert Without([p.pid], p.pid) == Without([], p.pid) + [] == [];
    NothingSwept(s.(items := s.items[p.pid := BlobOf(p, now)]), []);
    hide Persisted, Lists;
  }

  /**
   * A record committed later than every record of its daemon prevails: any reconcile shown it once beside only such
   * records, or tombstoned ones, keeps it and lists the daemon at it, and a snapshot of that enumeration sends it.
   */
  lemma LatestCommitPrevails(s: Store, b: Blob, view: seq<Blob>, k: nat)
    requires WellFormed(s) && b.pid in s.items && s.items[b.pid] == b && b.pid !in s.hidden
    requires k < |view| && view[k] == b
    requires forall i :: 0 <= i < |view| && i != k && view[i].did == b.did && view[i].pid !in s.hidden ==>
               view[i].ts < b.ts && view[i].pid != b.pid
    requires forall i :: 0 <= i < |view| && view[i].pid == b.pid ==> view[i].did == b.did
    ensures var (t, p) := Reconciled(s, Some(view));
            b.pid in t.items && t.items[b.pid] == b && b.did in p.index && p.index[b.did] == b.pid
    ensures b.did in Collapse(Shown(view, s.hidden)) && Collapse(Shown(view, s.hidden))[b.did] == b
  {
    var shown := Shown(view, s.hidden);
    ShownMembers(view, s.hidden);
    ElectionByPosition(view, s.hidden);
    SweepsIff(s, view);
    AnyReconcile(s, view);
    CollapseIsLatest(shown);
    assert view[k] in view && b in shown;
    LatestIsElected(view, s.hidden, b, k, Elect(shown));
    hide Shown, Elect, Reconciled, Collapse, WellFormed, Wins, TalliedAt;
    assert !Outranked(view, s.hidden, b.pid);
    var c := Collapse(shown)[b.did];
    assert c in view;
  }

  /** So a record committed later than every other one of its daemon that a reconcile is then shown stays current. */
  lemma CommitPrevails(legacy: Did -> Pid, owner: Pid -> Did, s: Store, pid: Pid, now: int, gone: Option<seq<Blob>>,
                       view: seq<Blob>, k: nat)
    requires Sound(legacy, owner, s) && OwnedEnumeration(owner, gone) && OwnedView(owner, view) && pid in s.pending
    requires var p := s.pending[pid].pairing; k < |view| && view[k] == Blob(p.did, pid, now, p.payload)
    requires forall i ::
               0 <= i < |view| && i != k && view[i].did == view[k].did ==> view[i].ts < now && view[i].pid != pid
    ensures var p, t := s.pending[pid].pairing, Promoted(legacy, s, pid, now, true, true, gone).0;
            var (u, q) := Reconciled(t, Some(view));
            pid in u.items && u.items[pid] == view[k] && p.did in q.index && q.index[p.did] == pid
  {
    hide Promoted, Sound, Reconciled, Collapse;
    PromotionNeverLoses(legacy, owner, s, pid, now, true, true, gone);
    PromotingKeepsSound(legacy, owner, s, pid, now, true, true, gone);
    var t := Promoted(legacy, s, pid, now, true, true, gone).0;
    SoundIsWellFormed(legacy, owner, t);
    forall i | 0 <= i < |view| && view[i].pid == pid ensures view[i].did == view[k].did {
      assert view[i] in view && view[k] in view;
    }
    LatestCommitPrevails(t, view[k], view, k);
  }

  lemma SoundIsWellFormed(legacy: Did -> Pid, owner: Pid -> Did, s: Store)
    requires Sound(legacy, owner, s)
    ensures WellFormed(s)
  {
  }

  lemma LatestIsElected(view: seq<Blob>, hidden: set<Pid>, b: Blob, k: nat, t: Tally)
    requires TalliedAt(view, hidden, t) && k < |view| && view[k] == b && b.pid !in hidden
    requires forall i :: 0 <= i < |view| && i != k && view[i].did == b.did && view[i].pid !in hidden ==>
               view[i].ts < b.ts
    ensures b.did in t.best && t.best[b.did] == b
  {
    var w := WinnerIn(view, hidden, t, b.did);
    assert !Outranks(view, hidden, w, k);
  }

  // Committed floors.

  /** The floor a step offers a daemon: a commit's, a snapshot's, or one raised where a sidecar exists. */
  ghost function Offered(s: Store, e: Event, d: Did): Option<int> {
    match e
    case Promoting(pid, _, secretOk, saveOk, _) =>
      if pid in s.pending && secretOk && saveOk && s.pending[pid].pairing.did == d
          then Some(s.pending[pid].pairing.minV) else None
    case Raising(did, v) => if did == d && d in s.sidecars then Some(v) else None
    case Applying(snap, w) =>
      if TakenUp(snap, w) && d in Collapse(snap.pairings) && d in snap.floors then Some(snap.floors[d]) else None
    case _ => None
  }

  lemma FloorOfRaised(s: Store, did: Did, v: int, d: Did)
    ensures FloorOf(FloorRaised(s, did, v), d) == if did == d && d in s.sidecars then Max(FloorOf(s, d), v)
            else FloorOf(s, d)
  {
  }

  lemma FloorOfPromoted(legacy: Did -> Pid, s: Store, pid: Pid, now: int, secretOk: bool, saveOk: bool,
                        view: Option<seq<Blob>>, d: Did)
    ensures FloorOf(Promoted(legacy, s, pid, now, secretOk, saveOk, view).0, d)
            == if pid in s.pending && secretOk && saveOk && s.pending[pid].pairing.did == d
               then Max(FloorOf(s, d), s.pending[pid].pairing.minV) else FloorOf(s, d)
  {
    if pid in s.pending && secretOk && saveOk {
      PersistedFields(legacy, s, s.pending[pid].pairing, now, view);
      hide Persisted, PidsFor, Without;
    }
  }

  /** Short of unpairing, a step makes the floor the larger of what it was and what the step offers. */
  lemma StepFloor(legacy: Did -> Pid, owner: Pid -> Did, s: Store, e: Event, t: Store, d: Did)
    requires Sound(legacy, owner, s) && Step(legacy, owner, s, e, t) && !(e.Unpairing? && e.did == d)
    ensures FloorOf(t, d) == match Offered(s, e, d) case Some(v) => Max(FloorOf(s, d), v) case None => FloorOf(s, d)
  {
    hide Sound;
    match e
    case Reading(view) => { hide FloorOf; ReadingFloor(legacy, owner, s, view); }
    case Promoting(pid, now, secretOk, saveOk, view) => {
      FloorOfPromoted(legacy, s, pid, now, secretOk, saveOk, view, d);
      hide Promoted, FloorOf;
    }
    case Hiding(did, view) => { HiddenFrame(s, did, view); hide Hidden, FloorIn; }
    case Unpairing(did, view) => { hide PidsFor, Without, Dropped; }
    case Raising(did, v) => { FloorOfRaised(s, did, v, d); hide FloorRaised, FloorOf; }
    case Applying(snap, w) => {
      hide SnapshotApplied, FloorOf, Collapse;
      if TakenUp(snap, w) {
        ApplyingFloor(legacy, owner, s, snap, w, d);
      }
    }
    case _ => { SmallStepFloor(legacy, owner, s, e, t, d); }
  }

  lemma SmallStepFloor(legacy: Did -> Pid, owner: Pid -> Did, s: Store, e: Event, t: Store, d: Did)
    requires Step(legacy, owner, s, e, t)
    requires !(e.Reading? || e.Promoting? || e.Hiding? || e.Unpairing? || e.Raising? || e.Applying?)
    ensures FloorOf(t, d) == FloorOf(s, d)
  {
    hide SnapshotApplied, Reconciled, Hidden, Promoted, Unpaired, OwnedApplication;
  }

  lemma ReadingFloor(legacy: Did -> Pid, owner: Pid -> Did, s: Store, view: Option<seq<Blob>>)
    requires Sound(legacy, owner, s)
    ensures forall d :: FloorOf(Reconciled(s, view).0, d) == FloorOf(s, d)
  {
    ReconcileFrame(s, view);
    hide Reconciled;
  }

  lemma ApplyingFloor(legacy: Did -> Pid, owner: Pid -> Did, s: Store, snap: Snapshot, w: Weather, d: Did)
    requires Sound(legacy, owner, s) && TakenUp(snap, w) && OwnedApplication(owner, snap, w)
    ensures FloorOf(SnapshotApplied(legacy, s, snap, w), d)
            == if d in Collapse(snap.pairings) && d in snap.floors then Max(FloorOf(s, d), snap.floors[d])
            else FloorOf(s, d)
  {
    SnapshotFloors(legacy, owner, s, snap, w, d);
  }

  /** The step at `k` offers `d` the floor `v`. */
  ghost predicate OfferedAt(events: seq<Event>, states: seq<Store>, k: nat, d: Did, v: int)
    requires |states| == |events| + 1 && k < |events|
  {
    Offered(states[k], events[k], d) == Some(v)
  }

  /** `f` is the largest of the floor at `i` and everything offered from there up to `j`. */
  ghost predicate MaximumFrom(events: seq<Event>, states: seq<Store>, i: nat, j: nat, d: Did, f: int)
    requires |states| == |events| + 1 && i <= j < |states|
  {
    && FloorOf(states[i], d) <= f
    && (forall k, v :: i <= k < j && OfferedAt(events, states, k, d, v) ==> v <= f)
    && (f == FloorOf(states[i], d) || exists k :: i <= k < j && OfferedAt(events, states, k, d, f))
  }

  lemma MaximumExtends(events: seq<Event>, states: seq<Store>, i: nat, k: nat, d: Did, f: int, g: int)
    requires |states| == |events| + 1 && i <= k < |events| && MaximumFrom(events, states, i, k, d, f)
    requires g == match Offered(states[k], events[k], d) case Some(v) => Max(f, v) case None => f
    ensures MaximumFrom(events, states, i, k + 1, d, g)
  {
    hide Offered, FloorOf;
    assert forall v :: OfferedAt(events, states, k, d, v) <==> Offered(states[k], events[k], d) == Some(v);
    if g == f && f != FloorOf(states[i], d) {
      var l :| i <= l < k && OfferedAt(events, states, l, d, f);
      assert i <= l < k + 1 && OfferedAt(events, states, l, d, g);
    } else if g != f {
      assert OfferedAt(events, states, k, d, g);
    }
  }

  /** Along any run that does not unpair the daemon its floor never falls: it is the maximum of what was offered. */
  lemma {:induction false} FloorIsMaximum(legacy: Did -> Pid, owner: Pid -> Did, events: seq<Event>, states: seq<Store>,
                                          i: nat, j: nat, d: Did)
    requires OwnedLegacy(legacy, owner) && Run(legacy, owner, events, states) && i <= j < |states|
    requires forall k :: i <= k < j ==> !(events[k].Unpairing? && events[k].did == d)
    ensures MaximumFrom(events, states, i, j, d, FloorOf(states[j], d))
  {
    hide Step, Sound, Offered, FloorOf, OwnedLegacy;
    if i < j {
      hide MaximumFrom;
      var k := j - 1;
      FloorIsMaximum(legacy, owner, events, states, i, k, d);
      RunsAreSound(legacy, owner, events, states, k);
      assert Step(legacy, owner, states[k], events[k], states[j]);
      StepFloor(legacy, owner, states[k], events[k], states[j], d);
      MaximumExtends(events, states, i, k, d, FloorOf(states[k], d), FloorOf(states[j], d));
    }
  }

  // Confirmed tags.

  lemma StepTag(legacy: Did -> Pid, owner: Pid -> Did, s: Store, e: Event, t: Store, d: Did)
    requires Sound(legacy, owner, s) && Step(legacy, owner, s, e, t)
    ensures PctOf(t, d) == if e.Unpairing? && e.did == d then None
                           else if e.Confirming? && e.did == d && d in s.sidecars then Some(e.tag) else PctOf(s, d)
  {
    hide Sound;
    match e
    case Reading(view) => { ReconcileTag(legacy, owner, s, view); hide Reconciled, PctOf; }
    case Promoting(pid, now, secretOk, saveOk, view) => {
      PromotedTag(legacy, s, pid, now, secretOk, saveOk, view, d);
      hide Promoted, PctOf;
    }
    case Hiding(did, view) => { HiddenFrame(s, did, view); hide Hidden; }
    case Unpairing(did, view) => { hide PidsFor, Without, Dropped; }
    case Applying(snap, w) => {
      hide SnapshotApplied, PctOf;
      if TakenUp(snap, w) {
        ApplyingTag(legacy, owner, s, snap, w, d);
      }
    }
    case _ => { SmallStepTag(legacy, owner, s, e, t, d); }
  }

  lemma ReconcileTag(legacy: Did -> Pid, owner: Pid -> Did, s: Store, view: Option<seq<Blob>>)
    requires Sound(legacy, owner, s)
    ensures forall d :: PctOf(Reconciled(s, view).0, d) == PctOf(s, d)
  {
    ReconcileFrame(s, view);
    hide Reconciled;
  }

  lemma PromotedTag(legacy: Did -> Pid, s: Store, pid: Pid, now: int, secretOk: bool, saveOk: bool,
                    view: Option<seq<Blob>>, d: Did)
    ensures PctOf(Promoted(legacy, s, pid, now, secretOk, saveOk, view).0, d) == PctOf(s, d)
  {
    hide PidsFor, Without, Pointed, FloorOf;
  }

  lemma SmallStepTag(legacy: Did -> Pid, owner: Pid -> Did, s: Store, e: Event, t: Store, d: Did)
    requires Step(legacy, owner, s, e, t)
    requires !(e.Reading? || e.Promoting? || e.Hiding? || e.Unpairing? || e.Applying?)
    ensures PctOf(t, d) == if e.Confirming? && e.did == d && d in s.sidecars then Some(e.tag) else PctOf(s, d)
  {
    hide SnapshotApplied, Reconciled, Hidden, Promoted, Unpaired, OwnedApplication;
  }

  lemma {:induction false} FloorsKeepTags(sidecars: map<Did, Sidecar>, floors: map<Did, int>, incoming: set<Did>,
                                          dids: seq<Did>, d: Did)
    requires forall x :: x in dids ==> x in floors
    ensures var m := FloorsMerged(sidecars, floors, incoming, dids);
            (if d in m then m[d].confirmedPct else None) == if d in sidecars then sidecars[d].confirmedPct else None
  {
    if dids != [] {
      FloorsKeepTags(sidecars, floors, incoming, dids[..|dids| - 1], d);
    }
  }

  lemma ApplyingTag(legacy: Did -> Pid, owner: Pid -> Did, s: Store, snap: Snapshot, w: Weather, d: Did)
    requires Sound(legacy, owner, s) && TakenUp(snap, w) && OwnedApplication(owner, snap, w)
    ensures PctOf(SnapshotApplied(legacy, s, snap, w), d) == PctOf(s, d)
  {
    var a, m := AfterAdoption(legacy, s, snap, w), Collapse(snap.pairings);
    IncomingIsOwned(owner, snap);
    AllMirroredFrame(legacy, owner, s, w.local.value, m, w.dids, w.saved);
    FloorsKeepTags(s.sidecars, snap.floors, m.Keys, w.floorDids, d);
    hide AllMirrored, Collapse, FloorsMerged, Lists, WellFormed, SnapshotApplied, Reconciled;
    assert PctOf(a, d) == PctOf(s, d);
    AdoptionIsWellFormed(legacy, owner, s, snap, w);
    hide AfterAdoption;
    AppliedRecords(legacy, s, snap, w);
    ReconcileFrame(a, w.recon);
  }

  lemma AdoptionIsWellFormed(legacy: Did -> Pid, owner: Pid -> Did, s: Store, snap: Snapshot, w: Weather)
    requires Sound(legacy, owner, s) && OwnedApplication(owner, snap, w)
    ensures WellFormed(AfterAdoption(legacy, s, snap, w))
  {
    AfterAdoptionFrame(legacy, owner, s, snap, w);
  }

  /** The step records this tag for the daemon, which has a sidecar to keep it. */
  ghost predicate RecordsTag(events: seq<Event>, states: seq<Store>, i: int, d: Did, tag: string)
    requires |states| == |events| + 1
  {
    0 <= i < |events| && events[i] == Confirming(d, tag) && d in states[i].sidecars
  }

  ghost predicate UnpairsAt(events: seq<Event>, j: int, d: Did) {
    0 <= j < |events| && events[j].Unpairing? && events[j].did == d
  }

  /** After the step at `i` and before `k` the daemon is not unpaired and no tag is recorded for it. */
  ghost predicate TagLasts(events: seq<Event>, states: seq<Store>, i: int, k: nat, d: Did)
    requires |states| == |events| + 1 && k <= |events|
  {
    && (forall j, tag :: i < j < k ==> !RecordsTag(events, states, j, d, tag))
    && (forall j :: i < j < k ==> !UnpairsAt(events, j, d))
  }

  /** In every run the tag kept for a daemon is the one recorded last, if the daemon has not been unpaired since. */
  lemma {:induction false} TagIsLastRecorded(legacy: Did -> Pid, owner: Pid -> Did, events: seq<Event>,
                                             states: seq<Store>, k: nat, d: Did, tag: string)
    requires OwnedLegacy(legacy, owner) && Run(legacy, owner, events, states) && k < |states|
    ensures PctOf(states[k], d) == Some(tag)
            <==> exists i :: i < k && RecordsTag(events, states, i, d, tag) && TagLasts(events, states, i, k, d)
  {
    hide Step, Sound, PctOf;
    if k > 0 {
      var l := k - 1;
      TagIsLastRecorded(legacy, owner, events, states, l, d, tag);
      RunsAreSound(legacy, owner, events, states, l);
      assert Step(legacy, owner, states[l], events[l], states[k]);
      StepTag(legacy, owner, states[l], events[l], states[k], d);
      LastTagExtends(events, states, l, d, tag);
    } else {
      FreshHasNoTag(d);
    }
  }

  lemma FreshHasNoTag(d: Did)
    ensures PctOf(FRESH, d).None?
  {
  }

  lemma LastTagExtends(events: seq<Event>, states: seq<Store>, l: nat, d: Did, tag: string)
    requires |states| == |events| + 1 && l < |events|
    ensures (exists i :: i < l + 1 && RecordsTag(events, states, i, d, tag) && TagLasts(events, states, i, l + 1, d))
            <==> if events[l].Unpairing? && events[l].did == d then false
                 else if events[l].Confirming? && events[l].did == d && d in states[l].sidecars
                   then events[l].tag == tag
                 else exists i :: i < l && RecordsTag(events, states, i, d, tag) && TagLasts(events, states, i, l, d)
  {
    var e := events[l];
    if e.Confirming? && e.did == d && d in states[l].sidecars {
      assert RecordsTag(events, states, l, d, e.tag);
      assert TagLasts(events, states, l, l + 1, d);
      assert forall i, x :: i < l && RecordsTag(events, states, i, d, x) ==> !TagLasts(events, states, i, l + 1, d);
    } else if UnpairsAt(events, l, d) {
      assert forall i, x :: i < l && RecordsTag(events, states, i, d, x) ==> !TagLasts(events, states, i, l + 1, d);
    } else {
      assert forall x :: !RecordsTag(events, states, l, d, x);
      forall i, x | i < l && RecordsTag(events, states, i, d, x)
        ensures TagLasts(events, states, i, l + 1, d) <==> TagLasts(events, states, i, l, d)
      {
        LastsOneMore(events, states, i, l, d);
      }
    }
  }

  lemma LastsOneMore(events: seq<Event>, states: seq<Store>, i: int, l: nat, d: Did)
    requires |states| == |events| + 1 && l < |events| && !UnpairsAt(events, l, d)
    requires forall x :: !RecordsTag(events, states, l, d, x)
    ensures TagLasts(events, states, i, l + 1, d) <==> TagLasts(events, states, i, l, d)
  {
  }

  // Pending pairings.

  /** Scanning a link records exactly what it says, at this time, lifts two tombstones, and touches nothing else. */
  lemma IngestRecords(legacy: Did -> Pid, s: Store, p: Pairing, now: int)
    ensures var t := Ingested(legacy, s, p, now, true);
            && t == s.(pending := t.pending, pendingOrder := t.pendingOrder, hidden := t.hidden)
            && t.pending.Keys == s.pending.Keys + {p.pid}
            && t.pending[p.pid].pairing == p && t.pending[p.pid].createdAt == now
            && (forall q :: q in s.pending && q != p.pid ==> t.pending[q] == s.pending[q])
            && (forall q :: q in t.hidden <==> q in s.hidden && q != p.pid && q != legacy(p.did))
            && (t.pendingOrder == s.pendingOrder || t.pendingOrder == s.pendingOrder + [p.pid])
  {
  }

  /** A link says the pairing id it carries, or else the one derived from its daemon; version 4 starts at floor 3. */
  lemma DecodedSays(legacy: Did -> Pid, did: Did, explicit: Pid, version: nat, payload: string)
    ensures var p := Decoded(legacy, did, explicit, version, payload);
            && p.did == did && p.version == version && p.payload == payload
            && (explicit != "" ==> p.pid == explicit) && (explicit == "" ==> p.pid == legacy(did))
            && (version >= 4 ==> p.minV == 3) && (version < 4 ==> p.minV == 0)
  {
  }

  /** Over one step a pairing that stays pending and is not scanned anew keeps everything but its floor. */
  lemma StepKeepsPending(legacy: Did -> Pid, owner: Pid -> Did, s: Store, e: Event, t: Store, pid: Pid)
    requires Sound(legacy, owner, s) && Step(legacy, owner, s, e, t) && pid in s.pending && pid in t.pending
    requires !(e.Ingesting? && e.secretOk && e.pairing.pid == pid)
    ensures var p, q := s.pending[pid], t.pending[pid];
            && q.createdAt == p.createdAt && q.pairing == p.pairing.(minV := q.pairing.minV)
            && q.pairing.minV == if e.RaisingPending? && e.pid == pid then Max(p.pairing.minV, e.v) else p.pairing.minV
  {
    hide Sound;
    match e
    case Reading(view) => { ReconcilePending(legacy, owner, s, view); hide Reconciled; }
    case Promoting(p, now, secretOk, saveOk, view) => { PromotedPending(legacy, s, p, now, secretOk, saveOk, view); }
    case Hiding(did, view) => { HiddenFrame(s, did, view); hide Hidden; }
    case Unpairing(did, view) => { hide PidsFor, Without, Dropped; }
    case Applying(snap, w) => {
      hide SnapshotApplied;
      if TakenUp(snap, w) {
        ApplyingPending(legacy, owner, s, snap, w);
      }
    }
    case _ => { hide SnapshotApplied, Reconciled, Hidden, Promoted, Unpaired, OwnedApplication, Without; }
  }

  /** Pending records are only dropped. */
  ghost predicate OnlyDrops(s: Store, t: Store) {
    forall p :: p in t.pending ==> p in s.pending && t.pending[p] == s.pending[p]
  }

  lemma ReconcilePending(legacy: Did -> Pid, owner: Pid -> Did, s: Store, view: Option<seq<Blob>>)
    requires Sound(legacy, owner, s)
    ensures Reconciled(s, view).0.pending == s.pending
  {
    ReconcileFrame(s, view);
    hide Reconciled;
  }

  lemma PromotedPending(legacy: Did -> Pid, s: Store, pid: Pid, now: int, secretOk: bool, saveOk: bool,
                        view: Option<seq<Blob>>)
    ensures OnlyDrops(s, Promoted(legacy, s, pid, now, secretOk, saveOk, view).0)
  {
    if pid in s.pending && secretOk && saveOk {
      PersistedFields(legacy, s, s.pending[pid].pairing, now, view);
    }
    hide Persisted, PidsFor, Without, FloorOf;
  }

  lemma {:induction false} AllHidingOnlyDrops(s: Store, dids: seq<Did>, rest: Did -> Option<seq<Blob>>)
    ensures OnlyDrops(s, AllHidden(s, dids, rest))
  {
    if dids != [] {
      var front, d := dids[..|dids| - 1], dids[|dids| - 1];
      AllHidingOnlyDrops(s, front, rest);
      HiddenFrame(AllHidden(s, front, rest), d, rest(d));
      hide Hidden;
    }
  }

  lemma ApplyingPending(legacy: Did -> Pid, owner: Pid -> Did, s: Store, snap: Snapshot, w: Weather)
    requires Sound(legacy, owner, s) && TakenUp(snap, w) && OwnedApplication(owner, snap, w)
    ensures OnlyDrops(s, SnapshotApplied(legacy, s, snap, w))
  {
    hide WellFormed, AfterAdoption, Reconciled, AllHidden, Collapse;
    AfterAdoptionFrame(legacy, owner, s, snap, w);
    var a := AfterAdoption(legacy, s, snap, w);
    ReconcileFrame(a, w.recon);
    var (r, p) := Reconciled(a, w.recon);
    AllHidingOnlyDrops(r, Absent(p.order, Collapse(snap.pairings).Keys), w.rest);
  }

  /** The step at `k` offers a pending pairing this floor. */
  ghost predicate OfferedPending(events: seq<Event>, k: int, pid: Pid, v: int) {
    0 <= k < |events| && events[k] == RaisingPending(pid, v)
  }

  /**
   * As long as a pairing is pending and not scanned anew, it is the one recorded, at its time, and its floor is the
   * maximum of the one it started with and everything offered.
   */
  lemma {:induction false} PendingIsKept(legacy: Did -> Pid, owner: Pid -> Did, events: seq<Event>, states: seq<Store>,
                                         i: nat, j: nat, pid: Pid)
    requires OwnedLegacy(legacy, owner) && Run(legacy, owner, events, states) && i <= j < |states|
    requires forall k :: i <= k <= j ==> pid in states[k].pending
    requires forall k :: i <= k < j ==> !(events[k].Ingesting? && events[k].secretOk && events[k].pairing.pid == pid)
    ensures var p, q := states[i].pending[pid], states[j].pending[pid];
            && q.createdAt == p.createdAt && q.pairing == p.pairing.(minV := q.pairing.minV)
            && p.pairing.minV <= q.pairing.minV
            && (forall k, v :: i <= k < j && OfferedPending(events, k, pid, v) ==> v <= q.pairing.minV)
            && (q.pairing.minV == p.pairing.minV
                || exists k :: i <= k < j && OfferedPending(events, k, pid, q.pairing.minV))
  {
    hide Step, Sound;
    if i < j {
      var k := j - 1;
      PendingIsKept(legacy, owner, events, states, i, k, pid);
      RunsAreSound(legacy, owner, events, states, k);
      assert Step(legacy, owner, states[k], events[k], states[j]);
      StepKeepsPending(legacy, owner, states[k], events[k], states[j], pid);
      if events[k].RaisingPending? && events[k].pid == pid {
        assert OfferedPending(events, k, pid, events[k].v);
      }
    }
  }
}
