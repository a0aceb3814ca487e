/** What the store's operations leave alone, and that they keep it well formed. */
module PairingFrames {
  import opened Common
  import opened PairingRecords
  import opened PairingState
  import opened PairingReconcile

  lemma {:induction false} WithoutMembers(order: seq<string>, x: string)
    ensures forall d :: d in Without(order, x) <==> d in order && d != x
    ensures Distinct(order) ==> Distinct(Without(order, x))
  {
    if order != [] {
      var front, last := order[..|order| - 1], order[|order| - 1];
      assert order == front + [last];
      WithoutMembers(front, x);
      DistinctSnoc(front, last);
      DistinctSnoc(Without(front, x), last);
      hide Distinct;
      assert last == x ==> Without(order, x) == Without(front, x);
    }
  }

  lemma {:induction false} WithoutKeepsOrder(order: seq<string>, x: string, a: string, b: string)
    requires Before(order, a, b) && a != x && b != x
    ensures Before(Without(order, x), a, b)
  {
    if order != [] {
      var front, last := order[..|order| - 1], order[|order| - 1];
      assert order == front + [last];
      BeforeSnoc(front, last, a, b);
      WithoutMembers(front, x);
      if Before(front, a, b) {
        WithoutKeepsOrder(front, x, a, b);
      }
      BeforeSnoc(Without(front, x), last, a, b);
      hide Before;
      assert last == x ==> Without(order, x) == Without(front, x);
    }
  }

  lemma PointedIsWellFormed(p: Pointers, did: Did, pid: Pid)
    requires WellFormedPointers(p)
    ensures WellFormedPointers(Pointed(p, did, pid))
  {
    DistinctSnoc(p.order, did);
    hide Distinct;
  }

  lemma PointedKeepsOrder(p: Pointers, did: Did, pid: Pid, a: Did, b: Did)
    requires Before(p.order, a, b)
    ensures Before(Pointed(p, did, pid).order, a, b)
  {
    BeforeSnoc(p.order, did, a, b);
  }

  lemma DroppedIsWellFormed(p: Pointers, did: Did)
    requires WellFormedPointers(p)
    ensures WellFormedPointers(Dropped(p, did))
  {
    WithoutMembers(p.order, did);
    hide Distinct;
  }

  // The pending namespace.

  ghost predicate WellFormedPending(s: Store) {
    && (forall p :: p in s.pending ==> s.pending[p].pairing.pid == p)
    && Lists(s.pendingOrder, s.pending.Keys)
  }

  /** Sweeping pending pairings changes nothing else. */
  lemma {:induction false} PendingSweptFrame(s: Store, ids: seq<Pid>)
    ensures var t := PendingSwept(s, ids);
            && t == s.(pending := t.pending, pendingOrder := t.pendingOrder)
            && (forall p :: p in t.pending <==> p in s.pending && p !in ids)
            && (forall p :: p in t.pending ==> t.pending[p] == s.pending[p])
  {
    if ids != [] {
      assert ids == ids[..|ids| - 1] + [ids[|ids| - 1]];
      PendingSweptFrame(s, ids[..|ids| - 1]);
    }
  }

  lemma PendingRemovedIsWellFormed(s: Store, pid: Pid)
    requires WellFormedPending(s)
    ensures WellFormedPending(PendingRemoved(s, pid))
  {
    WithoutMembers(s.pendingOrder, pid);
    hide Distinct;
  }

  lemma {:induction false} PendingSweptIsWellFormed(s: Store, ids: seq<Pid>)
    requires WellFormedPending(s)
    ensures WellFormedPending(PendingSwept(s, ids))
  {
    if ids != [] {
      hide WellFormedPending;
      PendingSweptIsWellFormed(s, ids[..|ids| - 1]);
      PendingRemovedIsWellFormed(PendingSwept(s, ids[..|ids| - 1]), ids[|ids| - 1]);
    }
  }

  lemma {:induction false} PendingOfMembers(s: Store, did: Did, ids: seq<Pid>)
    ensures forall p :: p in PendingOf(s, did, ids) <==> p in ids && p in s.pending && s.pending[p].pairing.did == did
  {
    if ids != [] {
      assert ids == ids[..|ids| - 1] + [ids[|ids| - 1]];
      PendingOfMembers(s, did, ids[..|ids| - 1]);
    }
  }

  // Hiding.

  function Tombs(s: Store, did: Did, view: Option<seq<Blob>>): set<Pid> {
    set p | p in PidsFor(s.ptr, view, did)
  }

  /** Hiding deletes no record, tombstones the daemon's ids, unlists it and drops its pending pairings; no more. */
  lemma HiddenFrame(s: Store, did: Did, view: Option<seq<Blob>>)
    ensures var t := Hidden(s, did, view);
            && t == s.(hidden := s.hidden + Tombs(s, did, view), ptr := Dropped(s.ptr, did),
                       lastGood := Some(Dropped(s.ptr, did)), pending := t.pending, pendingOrder := t.pendingOrder)
            && (WellFormedPending(s) ==>
                forall p :: p in t.pending <==> p in s.pending && s.pending[p].pairing.did != did)
            && (forall p :: p in t.pending ==> p in s.pending && t.pending[p] == s.pending[p])
  {
    var s1 := Write(s.(hidden := s.hidden + Tombs(s, did, view)), Dropped(s.ptr, did));
    PendingSweptFrame(s1, PendingOf(s, did, s.pendingOrder));
    PendingOfMembers(s, did, s.pendingOrder);
    hide PendingSwept, PendingOf, Dropped, PidsFor;
  }

  lemma HiddenIsWellFormed(s: Store, did: Did, view: Option<seq<Blob>>)
    requires WellFormed(s)
    ensures WellFormed(Hidden(s, did, view))
  {
    HiddenFrame(s, did, view);
    DroppedIsWellFormed(s.ptr, did);
    var s1 := Write(s.(hidden := s.hidden + Tombs(s, did, view)), Dropped(s.ptr, did));
    assert WellFormedPending(s1);
    PendingSweptIsWellFormed(s1, PendingOf(s, did, s.pendingOrder));
    hide PendingSwept, PendingOf, Dropped, PidsFor, Lists;
  }

  lemma {:induction false} PidsOfMembers(view: seq<Blob>, did: Did)
    ensures forall p :: p in PidsOf(view, did) <==> exists b :: b in view && b.did == did && b.pid == p
  {
    if view != [] {
      var front, b := view[..|view| - 1], view[|view| - 1];
      assert view == front + [b];
      PidsOfMembers(front, did);
      forall p ensures p in PidsOf(view, did) <==> exists c :: c in view && c.did == did && c.pid == p {
        if p in PidsOf(front, did) {
          var c :| c in front && c.did == did && c.pid == p;
          assert c in view;
        }
      }
    }
  }

  /** On a readable keychain the daemon's ids are exactly those of its records, if it has any. */
  lemma TombsAreItems(s: Store, did: Did, view: seq<Blob>)
    requires KeyedByPid(s.items) && Enumerates(view, s.items)
    ensures (exists q :: q in s.items && s.items[q].did == did) ==>
            forall q :: q in Tombs(s, did, Some(view)) <==> q in s.items && s.items[q].did == did
    ensures (forall q :: q in s.items ==> s.items[q].did != did) ==>
            Tombs(s, did, Some(view)) == if did in s.ptr.index then {s.ptr.index[did]} else {}
  {
    var found := PidsOf(view, did);
    PidsOfMembers(view, did);
    hide PidsOf;
    forall q ensures q in found <==> q in s.items && s.items[q].did == did {
      if q in s.items && s.items[q].did == did {
        assert s.items[q] in view;
      }
    }
    SomeMember(found);
    if q :| q in s.items && s.items[q].did == did {
      assert q in found;
    }
  }

  // A faithful reconcile.

  lemma ReconcileHidesNothing(s: Store, view: seq<Blob>)
    requires WellFormed(s) && Enumerates(view, s.items)
    ensures Reconciled(s, Some(view)).0.hidden == s.hidden
  {
    ReconciledRecords(s, view);
  }

  lemma UnfoldPointers(s: Store)
    requires WellFormed(s)
    ensures WellFormedPointers(s.ptr)
  {
  }

  lemma {:induction false} AbsentMembers(order: seq<Did>, incoming: set<Did>)
    requires Distinct(order)
    ensures forall d :: d in Absent(order, incoming) <==> d in order && d !in incoming
    ensures Distinct(Absent(order, incoming))
  {
    if order != [] {
      var front, x := order[..|order| - 1], order[|order| - 1];
      assert order == front + [x];
      DistinctSnoc(front, x);
      AbsentMembers(front, incoming);
      DistinctSnoc(Absent(front, incoming), x);
      hide Distinct;
      assert x in incoming ==> Absent(order, incoming) == Absent(front, incoming);
    }
  }
}
