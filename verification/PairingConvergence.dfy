/** Whole runs of the companion mirror: nothing is ever deleted, and the list is always the last snapshot's. */
module PairingConvergence {
  import opened Common
  import opened PairingRecords
  import opened PairingState
  import opened PairingReconcile
  import opened PairingFrames
  import opened PairingMirror
  import opened PairingMirrorSafety
  import opened PairingRecordStoreModel
  import Lexical

  /** The store mirrors `last`, the newest record received per daemon: it is there, and only it may be shown. */
  ghost predicate Follows(s: Store, last: map<Did, Blob>) {
    && (forall q :: q in s.items ==> s.items[q].did in last)
    && (forall q :: q in s.items ==> s.items[q] == last[s.items[q].did] || Newer(last[s.items[q].did], s.items[q]))
    && (forall d :: d in last ==> last[d].did == d && last[d].pid in s.items && s.items[last[d].pid] == last[d])
    && (forall q :: Shows(s, q) ==> q == last[s.items[q].did].pid)
  }

  /** Exactly the daemons with a shown record are listed, each at that record. */
  ghost predicate Settled(s: Store, last: map<Did, Blob>) {
    && (forall d :: d in s.ptr.index <==> d in last && Shows(s, last[d].pid))
    && (forall d :: d in s.ptr.index ==> s.ptr.index[d] == last[d].pid)
  }

  lemma FollowsIsSingle(s: Store, last: map<Did, Blob>)
    requires Follows(s, last)
    ensures OneShownPerDaemon(s)
  {
  }

  lemma ReconcileSettlesAt(s: Store, last: map<Did, Blob>, view: seq<Blob>, d: Did)
    requires WellFormed(s) && Follows(s, last) && Enumerates(view, s.items)
    requires d in s.ptr.index ==> d in last && Shows(s, last[d].pid)
    ensures var p := Reconciled(s, Some(view)).1;
            && (d in p.index <==> d in last && Shows(s, last[d].pid))
            && (d in p.index ==> p.index[d] == last[d].pid)
  {
    hide Reconciled, Enumerates;
    if d in last && Shows(s, last[d].pid) {
      ReconciledWinner(s, view, last[d].pid);
      ReconciledRecords(s, view);
    } else {
      ReconciledAbsentee(s, view, d);
    }
  }

  /** A reconcile of a mirroring store deletes nothing and lists exactly the daemons with a shown record. */
  lemma ReconcileSettles(s: Store, last: map<Did, Blob>, view: seq<Blob>)
    requires WellFormed(s) && Follows(s, last) && Enumerates(view, s.items)
    requires forall d :: d in s.ptr.index ==> d in last && Shows(s, last[d].pid)
    ensures var t := Reconciled(s, Some(view)).0;
            && WellFormed(t) && Follows(t, last) && Settled(t, last)
            && t.items == s.items && t.hidden == s.hidden && t.removals == s.removals
  {
    FollowsIsSingle(s, last);
    SweepsNothingIffSingle(s, view);
    ReconcileKeepsWellFormed(s, Some(view));
    ReconcileHidesNothing(s, view);
    ReconcileFrame(s, Some(view));
    var t := Reconciled(s, Some(view)).0;
    hide Reconciled, WellFormed, Enumerates, OneShownPerDaemon, Follows, Settled;
    forall d ensures (d in t.ptr.index <==> d in last && Shows(s, last[d].pid))
                     && (d in t.ptr.index ==> t.ptr.index[d] == last[d].pid)
    {
      ReconcileSettlesAt(s, last, view, d);
    }
    SettlesFrom(s, last, t);
  }

  lemma SettlesFrom(s: Store, last: map<Did, Blob>, t: Store)
    requires Follows(s, last) && t.items == s.items && t.hidden == s.hidden
    requires forall d :: d in t.ptr.index <==> d in last && Shows(s, last[d].pid)
    requires forall d :: d in t.ptr.index ==> t.ptr.index[d] == last[d].pid
    ensures Follows(t, last) && Settled(t, last)
  {
    assert forall q :: Shows(t, q) <==> Shows(s, q);
  }

  /** Hiding one listed daemon leaves the others' shown records and listing as they are. */
  lemma HidingSettles(s: Store, last: map<Did, Blob>, d: Did, view: seq<Blob>)
    requires WellFormed(s) && Follows(s, last) && Settled(s, last) && Enumerates(view, s.items) && d in s.ptr.index
    ensures var t := Hidden(s, d, Some(view));
            && WellFormed(t) && Follows(t, last) && Settled(t, last)
            && t.items == s.items && t.removals == s.removals && t.sidecars == s.sidecars
            && t.ptr.index == s.ptr.index - {d}
  {
    HiddenFrame(s, d, Some(view));
    HiddenIsWellFormed(s, d, Some(view));
    TombsAreItems(s, d, view);
    assert last[d].pid in s.items && s.items[last[d].pid].did == d;
    hide WellFormed, Enumerates, Hidden, Tombs;
    HiddenSettlesFrom(s, last, d, Hidden(s, d, Some(view)));
  }

  lemma HiddenSettlesFrom(s: Store, last: map<Did, Blob>, d: Did, t: Store)
    requires Follows(s, last) && Settled(s, last)
    requires t.items == s.items && t.ptr.index == s.ptr.index - {d}
    requires forall q :: q in t.items ==> (q in t.hidden <==> q in s.hidden || s.items[q].did == d)
    ensures Follows(t, last) && Settled(t, last)
  {
    forall q ensures Shows(t, q) <==> Shows(s, q) && s.items[q].did != d {
    }
  }

  /** Every hide reads the keychain as it is. */
  ghost predicate Readable(rest: Did -> Option<seq<Blob>>, items: map<Pid, Blob>) {
    forall d :: rest(d).Some? && Enumerates(rest(d).value, items)
  }

  lemma {:induction false} AllHidingSettles(s: Store, last: map<Did, Blob>, dids: seq<Did>,
                                            rest: Did -> Option<seq<Blob>>)
    requires WellFormed(s) && Follows(s, last) && Settled(s, last) && Readable(rest, s.items)
    requires Distinct(dids) && forall d :: d in dids ==> d in s.ptr.index
    ensures var t := AllHidden(s, dids, rest);
            && WellFormed(t) && Follows(t, last) && Settled(t, last)
            && t.items == s.items && t.removals == s.removals && t.sidecars == s.sidecars
            && (forall d :: d in t.ptr.index <==> d in s.ptr.index && d !in dids)
  {
    if dids != [] {
      var front, x := dids[..|dids| - 1], dids[|dids| - 1];
      assert dids == front + [x];
      DistinctSnoc(front, x);
      AllHidingSettles(s, last, front, rest);
      var m := AllHidden(s, front, rest);
      assert x in dids && Enumerates(rest(x).value, m.items);
      hide Hidden, WellFormed, Follows, Settled, Enumerates, Distinct;
      HidingSettles(m, last, x, rest(x).value);
    }
  }

  // One snapshot.

  /** No incoming record is older than the one received last for its daemon. */
  ghost predicate NeverBack(last: map<Did, Blob>, incoming: map<Did, Blob>) {
    forall d :: d in incoming && d in last ==> incoming[d] == last[d] || Newer(incoming[d], last[d])
  }

  /** An incoming record that is not older than the last one is adopted, or is already ours. */
  lemma FreshIsAdopted(s: Store, last: map<Did, Blob>, b: Blob)
    requires KeyedByPid(s.items) && Follows(s, last)
    requires b.did in last ==> b == last[b.did] || Newer(b, last[b.did])
    ensures OutcomeOf(s.items, b, true) == if b.did in last && b == last[b.did] then Unchanged else Outcome.Adopted
    ensures b.did in last && b == last[b.did] ==> Holds(s.items, b)
    ensures forall q :: q in s.items && s.items[q].did == b.did ==> s.items[q] == b || Newer(b, s.items[q])
  {
    forall q | q in s.items && s.items[q].did == b.did ensures s.items[q] == b || Newer(b, s.items[q]) {
      if b != last[b.did] && s.items[q] != last[b.did] {
        NewerIsTransitive(b, last[b.did], s.items[q]);
      }
    }
    NewerIsTotal(b, b);
    if b.did in last && b == last[b.did] {
      assert Holds(s.items, b) && s.items[b.pid] == b;
    } else {
      forall q | q in s.items && s.items[q].did == b.did ensures Newer(b, s.items[q]) {
        if s.items[q] != last[b.did] {
          NewerIsTransitive(b, last[b.did], s.items[q]);
        }
      }
    }
  }

  /** One daemon's part of `Follows` once its incoming record has been handled. */
  ghost predicate FollowsAt(s: Store, d: Did, b: Blob) {
    && (forall q :: q in s.items && s.items[q].did == d ==> s.items[q] == b || Newer(b, s.items[q]))
    && b.did == d && b.pid in s.items && s.items[b.pid] == b
    && (forall q :: Shows(s, q) && s.items[q].did == d ==> q == b.pid)
  }

  lemma MirroredFollows(legacy: Did -> Pid, owner: Pid -> Did, s: Store, last: map<Did, Blob>, b: Blob)
    requires WellFormed(s) && Owned(legacy, owner, s) && Follows(s, last) && Settled(s, last) && owner(b.pid) == b.did
    requires b.did in last ==> b == last[b.did] || Newer(b, last[b.did])
    ensures var t := Mirrored(legacy, s, s.items, b, true);
            && FollowsAt(t, b.did, b) && Shows(t, b.pid)
            && (b.did in t.ptr.index ==> t.ptr.index[b.did] == b.pid)
  {
    FreshIsAdopted(s, last, b);
    MirroredFields(legacy, s, s.items, b, true);
    var t := Mirrored(legacy, s, s.items, b, true);
    assert b.pid in s.items ==> s.items[b.pid].did == b.did;
    assert b.did in last && b == last[b.did] ==> b.pid in s.items && s.items[b.pid] == b;
    assert forall q :: q in s.items && s.items[q].did == b.did && q != b.pid ==> q in Others(s.items, b);
    assert b.did in s.ptr.index ==> b.did in last && s.ptr.index[b.did] == last[b.did].pid;
    assert b.pid !in Others(s.items, b);
    hide Mirrored, OutcomeOf, Others, WellFormed, Owned, Follows, Settled;
    MirroredFollowsFrom(s, t, b, Others(s.items, b));
  }

  lemma MirroredFollowsFrom(s: Store, t: Store, b: Blob, others: set<Pid>)
    requires t.items == s.items[b.pid := b]
    requires b.pid !in t.hidden && b.pid !in others
    requires forall q :: q in others ==> q in t.hidden
    requires forall q :: q in s.items && s.items[q].did == b.did ==> s.items[q] == b || Newer(b, s.items[q])
    requires forall q :: q in s.items && s.items[q].did == b.did && q != b.pid ==> q in others
    requires b.did in t.ptr.index ==> t.ptr.index[b.did] == b.pid
    ensures FollowsAt(t, b.did, b) && Shows(t, b.pid)
  {
  }

  lemma FollowsAtTransfers(owner: Pid -> Did, s: Store, t: Store, d: Did, b: Blob)
    requires Agree(owner, d, s, t) && OwnedItems(owner, s.items) && OwnedItems(owner, t.items) && owner(b.pid) == d
    ensures FollowsAt(s, d, b) <==> FollowsAt(t, d, b)
    ensures Shows(s, b.pid) <==> Shows(t, b.pid)
  {
    forall q ensures q in s.items && s.items[q].did == d <==> q in t.items && t.items[q].did == d {
      assert owner(q) == d || owner(q) != d;
    }
  }

  lemma FollowsByParts(s: Store, last: map<Did, Blob>)
    requires forall q :: q in s.items ==> s.items[q].did in last
    requires forall d :: d in last ==> FollowsAt(s, d, last[d])
    ensures Follows(s, last)
  {
    forall q | q in s.items
      ensures s.items[q] == last[s.items[q].did] || Newer(last[s.items[q].did], s.items[q])
      ensures Shows(s, q) ==> q == last[s.items[q].did].pid
    {
      assert FollowsAt(s, s.items[q].did, last[s.items[q].did]);
    }
    forall d | d in last ensures last[d].did == d && last[d].pid in s.items && s.items[last[d].pid] == last[d] {
      assert FollowsAt(s, d, last[d]);
    }
  }

  lemma PartsOfFollows(s: Store, last: map<Did, Blob>, d: Did)
    requires Follows(s, last) && d in last
    ensures FollowsAt(s, d, last[d])
  {
  }

  /** One daemon after adoption, incoming or not. */
  lemma AdoptionFollowsAt(legacy: Did -> Pid, owner: Pid -> Did, s: Store, last: map<Did, Blob>, snap: Snapshot,
                          w: Weather, d: Did)
    requires WellFormed(s) && Owned(legacy, owner, s) && OwnedSnapshot(owner, snap) && Follows(s, last)
             && Settled(s, last)
    requires Walks(snap, w) && w.local == Some(s.items)
    requires NeverBack(last, Collapse(snap.pairings))
    requires forall x :: x in Collapse(snap.pairings) ==> Collapse(snap.pairings)[x].pid in w.saved
    ensures var a, m := AfterAdoption(legacy, s, snap, w), Collapse(snap.pairings);
            && (d in last + m ==> FollowsAt(a, d, (last + m)[d]))
            && (d in m ==> Shows(a, m[d].pid))
            && (d in a.ptr.index
                ==> d in last + m && a.ptr.index[d] == (last + m)[d].pid && Shows(a, (last + m)[d].pid))
  {
    var a, m := AfterAdoption(legacy, s, snap, w), Collapse(snap.pairings);
    AfterAdoptionFrame(legacy, owner, s, snap, w);
    AfterAdoptionAt(legacy, owner, s, snap, w, d);
    IncomingIsOwned(owner, snap);
    hide AfterAdoption, Collapse, Mirrored;
    if d in m {
      var b := m[d];
      hide FollowsAt;
      MirroredFollows(legacy, owner, s, last, b);
      MirroredFrame(legacy, owner, s, s.items, b, true);
      FollowsAtTransfers(owner, Mirrored(legacy, s, s.items, b, true), a, d, b);
    } else if d in last {
      assert last[d].pid in s.items && owner(last[d].pid) == d;
      PartsOfFollows(s, last, d);
      hide FollowsAt;
      FollowsAtTransfers(owner, s, a, d, last[d]);
    }
  }

  lemma AdoptionFollows(legacy: Did -> Pid, owner: Pid -> Did, s: Store, last: map<Did, Blob>, snap: Snapshot,
                        w: Weather)
    requires WellFormed(s) && Owned(legacy, owner, s) && OwnedSnapshot(owner, snap) && Follows(s, last)
             && Settled(s, last)
    requires Walks(snap, w) && w.local == Some(s.items)
    requires NeverBack(last, Collapse(snap.pairings))
    requires forall x :: x in Collapse(snap.pairings) ==> Collapse(snap.pairings)[x].pid in w.saved
    ensures var a, m := AfterAdoption(legacy, s, snap, w), Collapse(snap.pairings);
            && Follows(a, last + m)
            && (forall d :: d in m ==> Shows(a, m[d].pid))
            && (forall d :: d in a.ptr.index ==> d in last + m && Shows(a, (last + m)[d].pid))
  {
    var a, m := AfterAdoption(legacy, s, snap, w), Collapse(snap.pairings);
    forall d ensures (d in last + m ==> FollowsAt(a, d, (last + m)[d])) && (d in m ==> Shows(a, m[d].pid))
      && (d in a.ptr.index ==> d in last + m && Shows(a, (last + m)[d].pid))
    {
      AdoptionFollowsAt(legacy, owner, s, last, snap, w, d);
    }
    forall q | q in a.items ensures a.items[q].did in last + m {
      NoStrangers(legacy, owner, s, last, snap, w, q);
    }
    hide AfterAdoption, Collapse, FollowsAt, Follows, Shows;
    FollowsByParts(a, last + m);
  }

  lemma NoStrangers(legacy: Did -> Pid, owner: Pid -> Did, s: Store, last: map<Did, Blob>, snap: Snapshot, w: Weather,
                    q: Pid)
    requires WellFormed(s) && Owned(legacy, owner, s) && OwnedSnapshot(owner, snap) && Follows(s, last)
    requires Walks(snap, w) && w.local == Some(s.items)
    requires q in AfterAdoption(legacy, s, snap, w).items
    ensures AfterAdoption(legacy, s, snap, w).items[q].did in last + Collapse(snap.pairings)
  {
    var a, d := AfterAdoption(legacy, s, snap, w), owner(q);
    AfterAdoptionFrame(legacy, owner, s, snap, w);
    AfterAdoptionAt(legacy, owner, s, snap, w, d);
    hide AfterAdoption, Collapse;
    assert a.items[q].did == d;
    if d !in Collapse(snap.pairings) {
      assert q in s.items;
    }
  }

  /** The weather of a mirror run: no failed saves, and a faithful enumeration for hiding as well. */
  ghost predicate Clear(legacy: Did -> Pid, s: Store, snap: Snapshot, w: Weather) {
    && Fair(legacy, s, snap, w)
    && Readable(w.rest, AfterAdoption(legacy, s, snap, w).items)
    && forall d :: d in Collapse(snap.pairings) ==> Collapse(snap.pairings)[d].pid in w.saved
  }

  /** Fair weather is possible for any owned snapshot, whichever saves succeed. */
  lemma FairWeatherExists(legacy: Did -> Pid, owner: Pid -> Did, s: Store, snap: Snapshot, saved: set<Pid>)
      returns (w: Weather)
    requires WellFormed(s) && Owned(legacy, owner, s) && OwnedSnapshot(owner, snap)
    ensures Fair(legacy, s, snap, w) && w.saved == saved && Readable(w.rest, AfterAdoption(legacy, s, snap, w).items)
  {
    var m := Collapse(snap.pairings);
    SortedLists(m.Keys);
    SortedLists(snap.floors.Keys);
    var first := Weather(Lexical.Sorted(m.Keys), Lexical.Sorted(snap.floors.Keys), saved, Some(s.items), None,
                         _ => None);
    AfterAdoptionFrame(legacy, owner, s, snap, first);
    var a := AfterAdoption(legacy, s, snap, first);
    var view := SomeEnumeration(a.items);
    w := first.(recon := Some(view), rest := _ => Some(view));
    hide Collapse, Enumerates, Lists, Owned;
    assert AfterAdoption(legacy, s, snap, w) == a;
  }

  /** So a run may apply any owned snapshot whose records do not go back. */
  lemma ClearWeatherExists(legacy: Did -> Pid, owner: Pid -> Did, s: Store, snap: Snapshot) returns (w: Weather)
    requires WellFormed(s) && Owned(legacy, owner, s) && OwnedSnapshot(owner, snap)
    ensures Clear(legacy, s, snap, w)
  {
    w := FairWeatherExists(legacy, owner, s, snap,
                           set d | d in Collapse(snap.pairings) :: Collapse(snap.pairings)[d].pid);
    hide Fair, Enumerates, AfterAdoption;
  }

  /** One applied snapshot: no delete, the list becomes the snapshot's daemons, and the store mirrors its records. */
  lemma SnapshotSettles(legacy: Did -> Pid, owner: Pid -> Did, s: Store, last: map<Did, Blob>, snap: Snapshot,
                        w: Weather)
    requires WellFormed(s) && Owned(legacy, owner, s) && OwnedSnapshot(owner, snap) && Follows(s, last)
             && Settled(s, last)
    requires snap.schema <= SCHEMA && Clear(legacy, s, snap, w) && NeverBack(last, Collapse(snap.pairings))
    ensures var t, m := SnapshotApplied(legacy, s, snap, w), Collapse(snap.pairings);
            && WellFormed(t) && Owned(legacy, owner, t) && Follows(t, last + m) && Settled(t, last + m)
            && t.removals == s.removals && t.locked == s.locked
            && (forall d :: d in t.ptr.index <==> d in m)
  {
    hide AfterAdoption, Collapse, NeverBack, Owned, WellFormed, OwnedSnapshot, Walks, Lists, Enumerates, Reconciled,
         Clear, Fair, Follows, Settled, Readable;
    ClearParts(legacy, s, snap, w);
    FairParts(legacy, s, snap, w);
    var a, m := AfterAdoption(legacy, s, snap, w), Collapse(snap.pairings);
    AfterAdoptionFrame(legacy, owner, s, snap, w);
    AdoptionFollows(legacy, owner, s, last, snap, w);
    ReconcileFrame(a, w.recon);
    ReconcileSettles(a, last + m, w.recon.value);
    var (r, p) := Reconciled(a, w.recon);
    HideTheAbsent(r, last + m, m, w.rest);
    SettledIsOwned(legacy, owner, AllHidden(r, Absent(p.order, m.Keys), w.rest), last + m, a);
  }

  lemma ClearParts(legacy: Did -> Pid, s: Store, snap: Snapshot, w: Weather)
    requires Clear(legacy, s, snap, w)
    ensures Fair(legacy, s, snap, w) && Readable(w.rest, AfterAdoption(legacy, s, snap, w).items)
    ensures var m := Collapse(snap.pairings); forall d :: d in m ==> m[d].pid in w.saved
  {
  }

  lemma HideTheAbsent(r: Store, last: map<Did, Blob>, m: map<Did, Blob>, rest: Did -> Option<seq<Blob>>)
    requires WellFormed(r) && Follows(r, last) && Settled(r, last) && Readable(rest, r.items)
    requires forall d :: d in m ==> d in last && Shows(r, last[d].pid)
    ensures var t := AllHidden(r, Absent(r.ptr.order, m.Keys), rest);
            && WellFormed(t) && Follows(t, last) && Settled(t, last)
            && t.items == r.items && t.removals == r.removals && t.sidecars == r.sidecars && t.locked == r.locked
            && (forall d :: d in t.ptr.index <==> d in m)
  {
    var dids := Absent(r.ptr.order, m.Keys);
    AbsentMembers(r.ptr.order, m.Keys);
    forall d | d in dids ensures d in r.ptr.index {
    }
    AllHidingSettles(r, last, dids, rest);
    AllHiddenFrame(r, dids, rest);
    hide AllHidden, Absent, WellFormed, Follows, Readable, Distinct;
    var t := AllHidden(r, dids, rest);
    forall d ensures d in t.ptr.index <==> d in m {
      assert d in r.ptr.order <==> d in r.ptr.index by { UnfoldPointers(r); }
    }
  }

  lemma SettledIsOwned(legacy: Did -> Pid, owner: Pid -> Did, t: Store, last: map<Did, Blob>, a: Store)
    requires Owned(legacy, owner, a) && t.items == a.items && Follows(t, last) && Settled(t, last)
    ensures Owned(legacy, owner, t)
  {
  }

  /** Nor does such a snapshot lose a record. */
  lemma ClearLosesNothing(legacy: Did -> Pid, owner: Pid -> Did, s: Store, last: map<Did, Blob>, snap: Snapshot,
                          w: Weather, q: Pid)
    requires WellFormed(s) && Owned(legacy, owner, s) && OwnedSnapshot(owner, snap) && Follows(s, last)
             && Settled(s, last)
    requires snap.schema <= SCHEMA && Clear(legacy, s, snap, w) && NeverBack(last, Collapse(snap.pairings))
    requires q in s.items
    ensures q in SnapshotApplied(legacy, s, snap, w).items
  {
    SnapshotSettles(legacy, owner, s, last, snap, w);
    RemovingNothingKeepsItems(legacy, owner, s, snap, w);
    AdoptionLoses(legacy, owner, s, snap, w, q);
    var m, d := Collapse(snap.pairings), s.items[q].did;
    assert d in m && m[d].pid == q ==> q in w.saved;
    hide AfterAdoption, SnapshotApplied, Collapse, WellFormed, Owned, Follows, Settled, Clear;
  }

  // Floors.

  lemma {:induction false} FloorsMergedAt(sidecars: map<Did, Sidecar>, floors: map<Did, int>, incoming: set<Did>,
                                          dids: seq<Did>, d: Did)
    requires Distinct(dids) && forall x :: x in dids ==> x in floors
    ensures FloorIn(FloorsMerged(sidecars, floors, incoming, dids), d)
            == if d in dids && d in incoming then Max(FloorIn(sidecars, d), floors[d]) else FloorIn(sidecars, d)
  {
    if dids != [] {
      var front, x := dids[..|dids| - 1], dids[|dids| - 1];
      assert dids == front + [x];
      DistinctSnoc(front, x);
      FloorsMergedAt(sidecars, floors, incoming, front, d);
      hide Distinct;
    }
  }

  /** A snapshot raises the floor of each of its daemons to the one it carries, and leaves every other floor. */
  lemma SnapshotFloors(legacy: Did -> Pid, owner: Pid -> Did, s: Store, snap: Snapshot, w: Weather, d: Did)
    requires WellFormed(s) && Owned(legacy, owner, s) && OwnedSnapshot(owner, snap)
    requires TakenUp(snap, w) && Walks(snap, w)
    ensures FloorOf(SnapshotApplied(legacy, s, snap, w), d)
            == if d in Collapse(snap.pairings) && d in snap.floors then Max(FloorOf(s, d), snap.floors[d])
            else FloorOf(s, d)
  {
    var m := Collapse(snap.pairings);
    var a := AfterAdoption(legacy, s, snap, w);
    IncomingIsOwned(owner, snap);
    AllMirroredFrame(legacy, owner, s, w.local.value, m, w.dids, w.saved);
    FloorsMergedAt(s.sidecars, snap.floors, m.Keys, w.floorDids, d);
    assert a.sidecars == FloorsMerged(s.sidecars, snap.floors, m.Keys, w.floorDids);
    AfterAdoptionFrame(legacy, owner, s, snap, w);
    ReconcileFrame(a, w.recon);
    AllHiddenFrame(Reconciled(a, w.recon).0, Absent(Reconciled(a, w.recon).1.order, m.Keys), w.rest);
    hide AfterAdoption, Reconciled, AllHidden, FloorsMerged, AllMirrored, Collapse, WellFormed, Owned, Distinct;
  }

  // What the mirror would publish in turn.

  /** A settled mirror's newest shown records are those of its listed daemons. */
  lemma SettledCollapse(s: Store, last: map<Did, Blob>, view: seq<Blob>)
    requires WellFormed(s) && Follows(s, last) && Settled(s, last) && Enumerates(view, s.items)
    ensures Collapse(Shown(view, s.hidden)) == map d | d in s.ptr.index :: last[d]
  {
    var blobs := Shown(view, s.hidden);
    ShownMembers(view, s.hidden);
    CollapseIsNewest(blobs);
    ShownAreItems(s, view, blobs);
    hide Shown, Collapse, WellFormed, Enumerates, Follows, Settled, Collapsed;
    CollapseOfShown(s, last, blobs, Collapse(blobs));
  }

  lemma CollapseOfShown(s: Store, last: map<Did, Blob>, blobs: seq<Blob>, m: map<Did, Blob>)
    requires Follows(s, last) && Settled(s, last) && Collapsed(blobs, m)
    requires forall b :: b in blobs <==> Shows(s, b.pid) && s.items[b.pid] == b
    ensures m == map d | d in s.ptr.index :: last[d]
  {
    forall d ensures d in m <==> d in s.ptr.index {
      if d in s.ptr.index {
        assert last[d] in blobs;
      }
    }
    forall d | d in m ensures m[d] == last[d] {
      assert m[d] in blobs && Shows(s, m[d].pid);
    }
  }

  lemma ListingMembers(m: map<Did, Blob>, dids: seq<Did>)
    requires Lists(dids, m.Keys)
    ensures forall b :: b in Listing(m, dids) <==> exists d :: d in m && m[d] == b
  {
    var r := Listing(m, dids);
    forall d | d in m ensures m[d] in r {
      var i :| 0 <= i < |dids| && dids[i] == d;
      assert r[i] == m[d];
    }
    forall b | b in r ensures exists d :: d in m && m[d] == b {
      var i :| 0 <= i < |r| && r[i] == b;
      assert dids[i] in dids && m[dids[i]] == b;
    }
  }

  /** Publishing one record per daemon and collapsing it again gives the same records. */
  lemma ListingCollapses(m: map<Did, Blob>, dids: seq<Did>)
    requires Lists(dids, m.Keys) && forall d :: d in m ==> m[d].did == d
    ensures Collapse(Listing(m, dids)) == m
  {
    var r := Listing(m, dids);
    ListingMembers(m, dids);
    CollapseIsNewest(r);
    hide Listing, Lists, Collapse;
    forall d | d in m ensures d in Collapse(r) && Collapse(r)[d] == m[d] {
      assert m[d] in r;
      assert Collapse(r)[d] in r;
    }
    forall d | d in Collapse(r) ensures d in m {
      assert Collapse(r)[d] in r;
    }
  }

  lemma SortedLists(s: set<string>)
    ensures Lists(Lexical.Sorted(s), s)
  {
    Lexical.SortedIncreases(s);
    IncreasingIsDistinct(Lexical.Sorted(s));
  }

  // Whole runs.

  datatype MirrorEvent =
    | Apply(snap: Snapshot, w: Weather)
    | Read(view: Option<seq<Blob>>)
    | Lock(locked: bool)

  /** The store, the newest record received per daemon, and the snapshot applied last. */
  datatype Mirror = Mirror(store: Store, last: map<Did, Blob>, snap: Snapshot)

  const BLANK := Mirror(FRESH, map[], Snapshot(SCHEMA, [], map[]))

  /** A snapshot that this state applies: neither deferred by a locked keychain nor of a newer schema. */
  predicate Applies(m: Mirror, snap: Snapshot) {
    !m.store.locked && snap.schema <= SCHEMA
  }

  ghost predicate MirrorStep(legacy: Did -> Pid, owner: Pid -> Did, m: Mirror, e: MirrorEvent, n: Mirror) {
    match e
    case Apply(snap, w) =>
      if Applies(m, snap) then
        && OwnedSnapshot(owner, snap) && Clear(legacy, m.store, snap, w) && NeverBack(m.last, Collapse(snap.pairings))
        && n == Mirror(SnapshotApplied(legacy, m.store, snap, w), m.last + Collapse(snap.pairings), snap)
      else
        n == m
    case Read(view) =>
      && (view.None? <==> m.store.locked) && (view.Some? ==> Enumerates(view.value, m.store.items))
      && n == m.(store := Reconciled(m.store, view).0)
    case Lock(locked) =>
      n == m.(store := m.store.(locked := locked))
  }

  ghost predicate MirrorRun(legacy: Did -> Pid, owner: Pid -> Did, events: seq<MirrorEvent>, states: seq<Mirror>) {
    && |states| == |events| + 1 && states[0] == BLANK
    && forall i :: 0 <= i < |events| ==> MirrorStep(legacy, owner, states[i], events[i], states[i + 1])
  }

  ghost predicate Mirrors(s: Store, last: map<Did, Blob>, snap: Snapshot) {
    var m := Collapse(snap.pairings);
    && (forall d :: d in s.ptr.index <==> d in m)
    && (forall d :: d in m ==> d in last && last[d] == m[d])
    && (forall d :: d in m && d in snap.floors ==> snap.floors[d] <= FloorOf(s, d))
  }

  ghost predicate MirrorInvariant(legacy: Did -> Pid, owner: Pid -> Did, m: Mirror) {
    && WellFormed(m.store) && Owned(legacy, owner, m.store) && m.store.removals == []
    && Follows(m.store, m.last) && Settled(m.store, m.last) && Mirrors(m.store, m.last, m.snap)
  }

  lemma ApplyKeepsInvariant(legacy: Did -> Pid, owner: Pid -> Did, m: Mirror, snap: Snapshot, w: Weather, n: Mirror)
    requires MirrorInvariant(legacy, owner, m) && MirrorStep(legacy, owner, m, Apply(snap, w), n) && Applies(m, snap)
    ensures MirrorInvariant(legacy, owner, n)
  {
    var c := Collapse(snap.pairings);
    hide WellFormed, Owned, Follows, Settled, SnapshotApplied, Collapse, NeverBack, OwnedSnapshot, AfterAdoption,
         Enumerates, FloorOf;
    SnapshotSettles(legacy, owner, m.store, m.last, snap, w);
    forall d | d in c && d in snap.floors ensures snap.floors[d] <= FloorOf(n.store, d) {
      SnapshotFloors(legacy, owner, m.store, snap, w, d);
    }
  }

  lemma ReadKeepsInvariant(legacy: Did -> Pid, owner: Pid -> Did, m: Mirror, view: Option<seq<Blob>>, n: Mirror)
    requires MirrorInvariant(legacy, owner, m) && MirrorStep(legacy, owner, m, Read(view), n)
    ensures MirrorInvariant(legacy, owner, n)
  {
    ReconcileFrame(m.store, view);
    if view.Some? {
      hide Reconciled, WellFormed, Enumerates, Follows, Settled, Owned, Mirrors;
      ReconcileSettles(m.store, m.last, view.value);
      InvariantCarries(legacy, owner, m, n);
    }
  }

  lemma InvariantCarries(legacy: Did -> Pid, owner: Pid -> Did, m: Mirror, n: Mirror)
    requires MirrorInvariant(legacy, owner, m) && n.last == m.last && n.snap == m.snap
    requires WellFormed(n.store) && Follows(n.store, n.last) && Settled(n.store, n.last)
    requires n.store.items == m.store.items && n.store.hidden == m.store.hidden
    requires n.store.removals == m.store.removals && n.store.sidecars == m.store.sidecars
    ensures MirrorInvariant(legacy, owner, n)
  {
    hide WellFormed, Follows, Settled, Owned, Collapse;
    SettledListsShown(m.store, n.store, m.last);
    SettledIsOwned(legacy, owner, n.store, m.last, m.store);
  }

  lemma SettledListsShown(s: Store, t: Store, last: map<Did, Blob>)
    requires Settled(s, last) && Settled(t, last) && t.items == s.items && t.hidden == s.hidden
    ensures forall d :: d in t.ptr.index <==> d in s.ptr.index
  {
  }

  lemma MirrorStepKeepsInvariant(legacy: Did -> Pid, owner: Pid -> Did, m: Mirror, e: MirrorEvent, n: Mirror)
    requires MirrorInvariant(legacy, owner, m) && MirrorStep(legacy, owner, m, e, n)
    ensures MirrorInvariant(legacy, owner, n)
  {
    match e
    case Apply(snap, w) =>
      if Applies(m, snap) {
        ApplyKeepsInvariant(legacy, owner, m, snap, w, n);
      }
    case Read(view) =>
      ReadKeepsInvariant(legacy, owner, m, view, n);
    case Lock(_) =>
      hide Collapse, Enumerates;
  }

  lemma {:induction false} InvariantHolds(legacy: Did -> Pid, owner: Pid -> Did, events: seq<MirrorEvent>,
                                          states: seq<Mirror>, k: nat)
    requires OwnedLegacy(legacy, owner) && MirrorRun(legacy, owner, events, states) && k < |states|
    ensures MirrorInvariant(legacy, owner, states[k])
  {
    if k > 0 {
      hide MirrorInvariant, MirrorStep, MirrorRun;
      MirrorRunSteps(legacy, owner, events, states, k);
      InvariantHolds(legacy, owner, events, states, k - 1);
      MirrorStepKeepsInvariant(legacy, owner, states[k - 1], events[k - 1], states[k]);
    }
  }

  lemma MirrorRunSteps(legacy: Did -> Pid, owner: Pid -> Did, events: seq<MirrorEvent>, states: seq<Mirror>, k: nat)
    requires MirrorRun(legacy, owner, events, states) && 0 < k < |states|
    ensures |states| == |events| + 1 && MirrorStep(legacy, owner, states[k - 1], events[k - 1], states[k])
  {
    hide MirrorStep;
  }

  /** What a user and a further mirror see of a store: the snapshot's daemons, its records, floors no lower. */
  ghost predicate SeenAs(s: Store, snap: Snapshot, view: seq<Blob>) {
    var m := Collapse(snap.pairings);
    var (list, out) := (Reconciled(s, Some(view)).1, CommittedSnapshot(s, Some(view)).value);
    && (forall d :: d in list.order <==> d in m)
    && out.pairings == Listing(m, Lexical.Sorted(m.Keys))
    && (forall d ::
          d in m && d in snap.floors && snap.floors[d] > 0 ==> d in out.floors && snap.floors[d] <= out.floors[d])
  }

  lemma MirrorIsSeen(legacy: Did -> Pid, owner: Pid -> Did, m: Mirror, view: seq<Blob>)
    requires MirrorInvariant(legacy, owner, m) && Enumerates(view, m.store.items)
    ensures SeenAs(m.store, m.snap, view)
  {
    var s := m.store;
    SettledCollapse(s, m.last, view);
    ReconcileSettles(s, m.last, view);
    ReconcileFrame(s, Some(view));
    var t := Reconciled(s, Some(view)).0;
    UnfoldPointers(t);
    SettledListsShown(s, t, m.last);
    hide Reconciled, WellFormed, Collapse, Enumerates, Follows, Owned, Settled, Shown, Distinct;
    SeenBy(s, m.last, m.snap, view, t);
  }

  lemma SeenBy(s: Store, last: map<Did, Blob>, snap: Snapshot, view: seq<Blob>, t: Store)
    requires Mirrors(s, last, snap) && WellFormedPointers(t.ptr) && Reconciled(s, Some(view)).1 == t.ptr
    requires Collapse(Shown(view, s.hidden)).Keys == s.ptr.index.Keys
    requires forall d :: d in s.ptr.index ==> d in last && Collapse(Shown(view, s.hidden))[d] == last[d]
    requires forall d :: d in t.ptr.index <==> d in s.ptr.index
    ensures SeenAs(s, snap, view)
  {
    hide Reconciled, Collapse, Shown, Distinct, FloorOf, Listing, Lexical.Sorted;
    var c := Collapse(snap.pairings);
    assert Collapse(Shown(view, s.hidden)) == c;
  }

  /**
   * Over any run from an empty store whose records never go back in time, with faithful reads and locked windows
   * between the snapshots: nothing is ever deleted, no daemon shows two records, and at every point the list and
   * the committed snapshot are those of the snapshot applied last.
   */
  lemma MirrorConverges(legacy: Did -> Pid, owner: Pid -> Did, events: seq<MirrorEvent>, states: seq<Mirror>, k: nat)
    requires OwnedLegacy(legacy, owner) && MirrorRun(legacy, owner, events, states) && k < |states|
    ensures var m := states[k];
            && m.store.removals == [] && OneShownPerDaemon(m.store)
            && (forall view :: Enumerates(view, m.store.items) ==> SeenAs(m.store, m.snap, view))
    ensures k > 0 && events[k - 1].Apply? && Applies(states[k - 1], events[k - 1].snap)
            ==> states[k].snap == events[k - 1].snap
  {
    InvariantHolds(legacy, owner, events, states, k);
    var m := states[k];
    FollowsIsSingle(m.store, m.last);
    forall view | Enumerates(view, m.store.items) ensures SeenAs(m.store, m.snap, view) {
      MirrorIsSeen(legacy, owner, m, view);
    }
    hide MirrorInvariant, Enumerates, SeenAs, OneShownPerDaemon;
    if k > 0 {
      assert MirrorStep(legacy, owner, states[k - 1], events[k - 1], states[k]);
    }
  }

  /** And no record, once stored, is lost again. */
  lemma {:induction false} MirrorLosesNothing(legacy: Did -> Pid, owner: Pid -> Did, events: seq<MirrorEvent>,
                                              states: seq<Mirror>, i: nat, k: nat, q: Pid)
    requires OwnedLegacy(legacy, owner) && MirrorRun(legacy, owner, events, states) && i <= k < |states|
    requires q in states[i].store.items
    ensures q in states[k].store.items
  {
    hide MirrorInvariant, MirrorStep, OwnedLegacy, MirrorRun;
    if i < k {
      MirrorRunSteps(legacy, owner, events, states, k);
      MirrorLosesNothing(legacy, owner, events, states, i, k - 1, q);
      InvariantHolds(legacy, owner, events, states, k - 1);
      MirrorStepLosesNothing(legacy, owner, states[k - 1], events[k - 1], states[k], q);
    }
  }

  lemma MirrorStepLosesNothing(legacy: Did -> Pid, owner: Pid -> Did, m: Mirror, e: MirrorEvent, n: Mirror, q: Pid)
    requires MirrorInvariant(legacy, owner, m) && MirrorStep(legacy, owner, m, e, n) && q in m.store.items
    ensures q in n.store.items
  {
    assert forall d :: d in m.store.ptr.index ==> d in m.last && Shows(m.store, m.last[d].pid);
    hide SnapshotApplied, Reconciled, Collapse, Clear, NeverBack, WellFormed, Owned, Follows, Settled, Mirrors,
         Enumerates;
    match e
    case Apply(snap, w) =>
      if Applies(m, snap) {
        ClearLosesNothing(legacy, owner, m.store, m.last, snap, w, q);
      }
    case Read(view) =>
      ReconcileFrame(m.store, view);
      if view.Some? {
        ReconcileSettles(m.store, m.last, view.value);
      }
    case Lock(_) =>
  }

  lemma CommittedSnapshotIsUnique(s: Store, view: seq<Blob>)
    requires WellFormed(s) && Enumerates(view, s.items)
    ensures var m := Collapse(Shown(view, s.hidden));
            CommittedSnapshot(s, Some(view)).value.pairings == Listing(m, Lexical.Sorted(m.Keys))
            && Collapse(CommittedSnapshot(s, Some(view)).value.pairings) == m
  {
    var m := Collapse(Shown(view, s.hidden));
    CollapseIsNewest(Shown(view, s.hidden));
    SortedLists(m.Keys);
    ListingCollapses(m, Lexical.Sorted(m.Keys));
    hide Collapse, Shown, Lists;
  }

  /** A mirror that last applied what a phone published publishes the phone's very pairings. */
  lemma MirrorRoundTrip(legacy: Did -> Pid, owner: Pid -> Did, phone: Store, phoneView: seq<Blob>, m: Mirror,
                        view: seq<Blob>)
    requires WellFormed(phone) && Enumerates(phoneView, phone.items)
    requires MirrorInvariant(legacy, owner, m) && Enumerates(view, m.store.items)
    requires m.snap == CommittedSnapshot(phone, Some(phoneView)).value
    ensures CommittedSnapshot(m.store, Some(view)).value.pairings == m.snap.pairings
  {
    CommittedSnapshotIsUnique(phone, phoneView);
    MirrorIsSeen(legacy, owner, m, view);
    hide MirrorInvariant, Enumerates, Shown, CommittedSnapshot, Reconciled, WellFormed;
  }

  /**
   * What is published of a readable keychain: for every daemon that shows a record one of its latest, of those the one
   * of the greatest id, in the order of the daemons; and the positive floors of just these daemons.
   */
  lemma SnapshotIsPublished(s: Store, view: seq<Blob>)
    requires WellFormed(s) && Enumerates(view, s.items)
    ensures var r := CommittedSnapshot(s, Some(view));
            && r.Some? && r.value.schema == 1
            && (forall b :: b in r.value.pairings ==> PublishedOf(s, b))
            && (forall q :: Shows(s, q) ==> exists b :: b in r.value.pairings && b.did == s.items[q].did)
            && (forall i, j :: 0 <= i < j < |r.value.pairings| ==>
                  Lexical.Less(r.value.pairings[i].did, r.value.pairings[j].did))
            && (forall d :: d in r.value.floors
                  <==> FloorOf(s, d) > 0 && exists b :: b in r.value.pairings && b.did == d)
            && (forall d :: d in r.value.floors ==> r.value.floors[d] == FloorOf(s, d))
  {
    hide Shown, Collapse, Lexical.Sorted, FloorOf, WellFormed, Enumerates, Listing, PublishedOf, Lexical.Less;
    var m := Collapse(Shown(view, s.hidden));
    NewestArePublished(s, view, m);
    SortedLists(m.Keys);
    ListingMembers(m, Lexical.Sorted(m.Keys));
    ListingInOrder(m);
    assert CommittedSnapshot(s, Some(view)).value.pairings == Listing(m, Lexical.Sorted(m.Keys));
    forall d | d in m ensures exists b :: b in Listing(m, Lexical.Sorted(m.Keys)) && b.did == d {
      assert m[d] in Listing(m, Lexical.Sorted(m.Keys));
    }
  }

  lemma NewestArePublished(s: Store, view: seq<Blob>, m: map<Did, Blob>)
    requires WellFormed(s) && Enumerates(view, s.items) && m == Collapse(Shown(view, s.hidden))
    ensures forall d :: d in m ==> m[d].did == d && PublishedOf(s, m[d])
    ensures forall q :: Shows(s, q) ==> s.items[q].did in m
  {
    hide Shown, Collapse, WellFormed, Enumerates, Lexical.AtMost;
    var shown := Shown(view, s.hidden);
    ShownMembers(view, s.hidden);
    ShownAreShown(s, view, shown);
    CollapseIsLatest(shown);
    forall q | Shows(s, q) ensures s.items[q] in shown && s.items[q].pid == q && s.items[q].did in m {
    }
  }

  lemma ShownAreShown(s: Store, view: seq<Blob>, blobs: seq<Blob>)
    requires WellFormed(s) && Enumerates(view, s.items)
    requires forall b :: b in blobs <==> b in view && b.pid !in s.hidden
    ensures forall b :: b in blobs ==> Shows(s, b.pid) && s.items[b.pid] == b
    ensures forall q :: Shows(s, q) ==> s.items[q] in blobs && s.items[q].pid == q
  {
    ShownAreItems(s, view, blobs);
    hide Enumerates;
  }

  lemma ListingInOrder(m: map<Did, Blob>)
    requires forall d :: d in m ==> m[d].did == d
    ensures var r := Listing(m, Lexical.Sorted(m.Keys));
            forall i, j :: 0 <= i < j < |r| ==> Lexical.Less(r[i].did, r[j].did)
  {
    hide Lexical.Sorted, Lexical.Less;
    var dids := Lexical.Sorted(m.Keys);
    Lexical.SortedIncreases(m.Keys);
    forall i | 0 <= i < |dids| ensures Listing(m, dids)[i].did == dids[i] {
      assert dids[i] in dids;
    }
  }

  /** A shown record that none of its daemon outdates, by time or, at the same time, by id. */
  ghost predicate PublishedOf(s: Store, b: Blob) {
    && Shows(s, b.pid) && s.items[b.pid] == b
    && forall q :: Shows(s, q) && s.items[q].did == b.did ==>
         s.items[q].ts <= b.ts && (s.items[q].ts == b.ts ==> Lexical.AtMost(q, b.pid))
  }
}
