/** Applying a peer snapshot: what each daemon's records become, and when the reconcile it triggers deletes. */
module PairingMirror {
  import opened Common
  import opened PairingRecords
  import opened PairingState
  import opened PairingReconcile
  import opened PairingFrames

  // One pairing id belongs to one daemon: `owner` says which.

  ghost predicate OwnedItems(owner: Pid -> Did, items: map<Pid, Blob>) {
    forall q :: q in items ==> owner(q) == items[q].did
  }

  ghost predicate OwnedView(owner: Pid -> Did, view: seq<Blob>) {
    forall b :: b in view ==> owner(b.pid) == b.did
  }

  ghost predicate OwnedPointers(owner: Pid -> Did, p: Pointers) {
    forall d :: d in p.index ==> owner(p.index[d]) == d
  }

  ghost predicate OwnedLegacy(legacy: Did -> Pid, owner: Pid -> Did) {
    forall d :: owner(legacy(d)) == d
  }

  /** The two stores do not differ in anything that belongs to this daemon. */
  ghost predicate Agree(owner: Pid -> Did, d: Did, s: Store, t: Store) {
    && (forall q :: owner(q) == d ==>
        (q in s.items <==> q in t.items) && (q in s.items ==> s.items[q] == t.items[q])
            && (q in s.hidden <==> q in t.hidden))
    && (d in s.ptr.index <==> d in t.ptr.index)
    && (d in s.ptr.index ==> s.ptr.index[d] == t.ptr.index[d])
  }

  /** The fields one record's adoption changes, each at a glance. */
  lemma MirroredFields(legacy: Did -> Pid, s: Store, local: map<Pid, Blob>, b: Blob, saveOk: bool)
    ensures var t := Mirrored(legacy, s, local, b, saveOk);
            var o := OutcomeOf(local, b, saveOk);
            && t.items == (if o == Outcome.Adopted then s.items[b.pid := b]
                           else if o == SaveError then s.items - {b.pid} else s.items)
            && t.hidden == (s.hidden - {b.pid, legacy(b.did)})
                           + (if Holds(local, b) || o == Outcome.Adopted then Others(local, b) else {})
            && t.ptr == (if o == Outcome.Adopted then Pointed(s.ptr, b.did, b.pid) else s.ptr)
            && t.lastGood == (if o == Outcome.Adopted then Some(t.ptr) else s.lastGood)
            && t.removals == s.removals && t.locked == s.locked && t.sidecars == s.sidecars
            && t.pending == s.pending && t.pendingOrder == s.pendingOrder
  {
    hide OutcomeOf, Holds, Others;
  }

  /** One record's adoption touches nothing of any other daemon. */
  lemma MirroredElsewhere(legacy: Did -> Pid, owner: Pid -> Did, s: Store, local: map<Pid, Blob>, b: Blob, saveOk: bool,
                          d: Did)
    requires OwnedLegacy(legacy, owner) && OwnedItems(owner, local) && owner(b.pid) == b.did && d != b.did
    ensures Agree(owner, d, s, Mirrored(legacy, s, local, b, saveOk))
  {
    MirroredFields(legacy, s, local, b, saveOk);
    assert forall q :: q in Others(local, b) ==> owner(q) == b.did;
    assert owner(legacy(b.did)) == b.did;
    hide OutcomeOf, Mirrored, Others, Holds;
  }

  /** What one record's adoption does depends only on its own daemon's state. */
  lemma MirroredCongruent(legacy: Did -> Pid, owner: Pid -> Did, s: Store, t: Store, local: map<Pid, Blob>, b: Blob,
                          saveOk: bool)
    requires Agree(owner, b.did, s, t)
    ensures Agree(owner, b.did, Mirrored(legacy, s, local, b, saveOk), Mirrored(legacy, t, local, b, saveOk))
  {
    MirroredFields(legacy, s, local, b, saveOk);
    MirroredFields(legacy, t, local, b, saveOk);
    hide OutcomeOf, Mirrored, Others, Holds;
  }

  lemma AgreeIsTransitive(owner: Pid -> Did, d: Did, s: Store, t: Store, u: Store)
    requires Agree(owner, d, s, t) && Agree(owner, d, t, u)
    ensures Agree(owner, d, s, u)
  {
  }

  ghost predicate OwnedIncoming(owner: Pid -> Did, incoming: map<Did, Blob>) {
    forall d :: d in incoming ==> incoming[d].did == d && owner(incoming[d].pid) == d
  }

  /** After the whole loop each incoming daemon is as its own record alone left it, and the others are as before. */
  lemma {:induction false} AllMirroredAt(legacy: Did -> Pid, owner: Pid -> Did, s: Store, local: map<Pid, Blob>,
                                         incoming: map<Did, Blob>, dids: seq<Did>, saved: set<Pid>, d: Did)
    requires OwnedLegacy(legacy, owner) && OwnedItems(owner, local) && OwnedIncoming(owner, incoming)
    requires Distinct(dids) && forall x :: x in dids ==> x in incoming
    ensures d !in dids ==> Agree(owner, d, s, AllMirrored(legacy, s, local, incoming, dids, saved))
    ensures d in dids ==> Agree(owner, d, Mirrored(legacy, s, local, incoming[d], incoming[d].pid in saved),
                                AllMirrored(legacy, s, local, incoming, dids, saved))
  {
    if dids != [] {
      var front, x := dids[..|dids| - 1], dids[|dids| - 1];
      assert dids == front + [x];
      DistinctSnoc(front, x);
      AllMirroredAt(legacy, owner, s, local, incoming, front, saved, d);
      var m := AllMirrored(legacy, s, local, incoming, front, saved);
      var b := incoming[x];
      assert AllMirrored(legacy, s, local, incoming, dids, saved) == Mirrored(legacy, m, local, b, b.pid in saved);
      hide Agree, Mirrored, Distinct, OwnedLegacy, OwnedItems;
      if d == x {
        MirroredCongruent(legacy, owner, s, m, local, b, b.pid in saved);
      } else {
        MirroredElsewhere(legacy, owner, m, local, b, b.pid in saved, d);
        if d in front {
          AgreeIsTransitive(owner, d, Mirrored(legacy, s, local, incoming[d], incoming[d].pid in saved), m,
                            Mirrored(legacy, m, local, b, b.pid in saved));
        } else {
          AgreeIsTransitive(owner, d, s, m, Mirrored(legacy, m, local, b, b.pid in saved));
        }
      }
    }
  }

  /** The loop deletes nothing from the log's view, keeps the store well formed and its ids owned. */
  lemma MirroredFrame(legacy: Did -> Pid, owner: Pid -> Did, s: Store, local: map<Pid, Blob>, b: Blob, saveOk: bool)
    requires WellFormed(s) && OwnedItems(owner, s.items) && OwnedPointers(owner, s.ptr) && owner(b.pid) == b.did
    ensures var t := Mirrored(legacy, s, local, b, saveOk);
            && WellFormed(t) && OwnedItems(owner, t.items) && OwnedPointers(owner, t.ptr)
            && t.removals == s.removals && t.locked == s.locked && t.sidecars == s.sidecars
            && t.pending == s.pending && t.pendingOrder == s.pendingOrder
  {
    MirroredFields(legacy, s, local, b, saveOk);
    PointedIsWellFormed(s.ptr, b.did, b.pid);
    hide OutcomeOf, Others, Holds, Lists, Mirrored;
  }

  lemma {:induction false} AllMirroredFrame(legacy: Did -> Pid, owner: Pid -> Did, s: Store, local: map<Pid, Blob>,
                                            incoming: map<Did, Blob>, dids: seq<Did>, saved: set<Pid>)
    requires WellFormed(s) && OwnedItems(owner, s.items) && OwnedPointers(owner, s.ptr)
    requires OwnedIncoming(owner, incoming) && forall x :: x in dids ==> x in incoming
    ensures var t := AllMirrored(legacy, s, local, incoming, dids, saved);
            && WellFormed(t) && OwnedItems(owner, t.items) && OwnedPointers(owner, t.ptr)
            && t.removals == s.removals && t.locked == s.locked && t.sidecars == s.sidecars
            && t.pending == s.pending && t.pendingOrder == s.pendingOrder
  {
    if dids != [] {
      hide Mirrored, WellFormed;
      var m, b := AllMirrored(legacy, s, local, incoming, dids[..|dids| - 1], saved), incoming[dids[|dids| - 1]];
      AllMirroredFrame(legacy, owner, s, local, incoming, dids[..|dids| - 1], saved);
      MirroredFrame(legacy, owner, m, local, b, b.pid in saved);
    }
  }

  // One daemon's shown records, before and after.

  ghost predicate SingleFor(s: Store, d: Did) {
    forall q, r :: Shows(s, q) && Shows(s, r) && s.items[q].did == d && s.items[r].did == d ==> q == r
  }

  /**
   * The incoming record is not adopted and not already ours, the legacy id names a record we hid,
   * and another record of the daemon is shown: un-hiding the legacy id then leaves two shown.
   */
  ghost predicate Revives(legacy: Did -> Pid, s: Store, b: Blob, saveOk: bool) {
    && !Holds(s.items, b)
    && OutcomeOf(s.items, b, saveOk) in {Stale, SaveError}
    && legacy(b.did) in s.items && legacy(b.did) in s.hidden
    && exists q :: Shows(s, q) && s.items[q].did == b.did
  }

  /** Two shown records of one daemon appear exactly when a hidden legacy record is revived beside a shown one. */
  lemma SingleIffNotRevived(legacy: Did -> Pid, owner: Pid -> Did, s: Store, b: Blob, saveOk: bool)
    requires WellFormed(s) && OwnedLegacy(legacy, owner) && OwnedItems(owner, s.items) && owner(b.pid) == b.did
    requires SingleFor(s, b.did)
    ensures SingleFor(Mirrored(legacy, s, s.items, b, saveOk), b.did) <==> !Revives(legacy, s, b, saveOk)
  {
    var t := Mirrored(legacy, s, s.items, b, saveOk);
    var o, l := OutcomeOf(s.items, b, saveOk), legacy(b.did);
    MirroredFields(legacy, s, s.items, b, saveOk);
    assert owner(l) == b.did;
    assert o == Unchanged ==> Holds(s.items, b);
    hide Mirrored, OutcomeOf, SingleFor, WellFormed;
    if Holds(s.items, b) || o == Outcome.Adopted {
      SingleAfterTaking(s, t, b);
    } else {
      assert t.hidden == s.hidden - {b.pid, l};
      SingleAfterSkipping(owner, s, t, b, l);
    }
  }

  lemma SingleAfterTaking(s: Store, t: Store, b: Blob)
    requires forall q :: q in t.items ==> q == b.pid || (q in s.items && t.items[q] == s.items[q])
    requires forall q :: q in Others(s.items, b) ==> q in t.hidden
    ensures SingleFor(t, b.did)
  {
    forall q | Shows(t, q) && t.items[q].did == b.did ensures q == b.pid {
      assert q != b.pid ==> q in Others(s.items, b);
    }
  }

  lemma SingleAfterSkipping(owner: Pid -> Did, s: Store, t: Store, b: Blob, l: Pid)
    requires OwnedItems(owner, s.items) && owner(b.pid) == b.did && owner(l) == b.did
    requires b.pid !in s.items && t.hidden == s.hidden - {b.pid, l}
    requires t.items == s.items || t.items == s.items - {b.pid}
    requires SingleFor(s, b.did)
    ensures SingleFor(t, b.did)
            <==> !(l in s.items && l in s.hidden && exists q :: Shows(s, q) && s.items[q].did == b.did)
  {
    assert t.items == s.items;
    if l in s.items && l in s.hidden && exists q :: Shows(s, q) && s.items[q].did == b.did {
      var q :| Shows(s, q) && s.items[q].did == b.did;
      assert Shows(t, q) && Shows(t, l);
      assert s.items[l].did == b.did;
    }
  }

  /** This record is newer than every record of its daemon that the first read showed. */
  ghost predicate OutranksAll(local: map<Pid, Blob>, b: Blob) {
    forall p :: p in local && local[p].did == b.did ==> Newer(b, local[p])
  }

  /**
   * What becomes of an incoming record: it is to be stored exactly if it outranks all of its daemon's, and is then
   * adopted or lost with its save; otherwise it is no news if the one held under its id is as new, and stale if only
   * another is.
   */
  lemma OutcomeIff(local: map<Pid, Blob>, b: Blob, saveOk: bool)
    requires KeyedByPid(local)
    ensures var o := OutcomeOf(local, b, saveOk);
            && (o == Outcome.Adopted <==> saveOk && OutranksAll(local, b))
            && (o == SaveError <==> !saveOk && OutranksAll(local, b))
            && (o == Unchanged <==> b.pid in local && local[b.pid].did == b.did && !Newer(b, local[b.pid]))
            && (o == Stale <==> o != Unchanged && !OutranksAll(local, b))
  {
    hide Newer;
    if p :| p in Others(local, b) && !Newer(b, local[p]) {
      assert local[p].did == b.did;
    }
    forall p | p in local && local[p].did == b.did && p != b.pid ensures p in Others(local, b) {
    }
  }

  /** The daemons whose incoming record meets this outcome. */
  function Meeting(local: map<Pid, Blob>, incoming: map<Did, Blob>, dids: seq<Did>, saved: set<Pid>,
                   o: Outcome): set<Did>
    requires forall d :: d in dids ==> d in incoming
  {
    set d | d in dids && OutcomeOf(local, incoming[d], incoming[d].pid in saved) == o
  }

  /** Each distinct daemon counts once towards its outcome. */
  lemma {:induction false} OutcomesAreCounted(local: map<Pid, Blob>, incoming: map<Did, Blob>, dids: seq<Did>,
                                              saved: set<Pid>, o: Outcome)
    requires Distinct(dids) && forall d :: d in dids ==> d in incoming
    ensures Outcomes(local, incoming, dids, saved, o) == |Meeting(local, incoming, dids, saved, o)|
  {
    if dids != [] {
      var front, last := dids[..|dids| - 1], dids[|dids| - 1];
      assert dids == front + [last];
      assert last !in front;
      OutcomesAreCounted(local, incoming, front, saved, o);
      MeetingSnoc(local, incoming, front, last, saved, o);
    }
  }

  lemma MeetingSnoc(local: map<Pid, Blob>, incoming: map<Did, Blob>, front: seq<Did>, last: Did, saved: set<Pid>,
                    o: Outcome)
    requires last in incoming && forall d :: d in front ==> d in incoming
    ensures Meeting(local, incoming, front + [last], saved, o)
            == Meeting(local, incoming, front, saved, o)
               + (if OutcomeOf(local, incoming[last], incoming[last].pid in saved) == o then {last} else {})
    ensures last !in front ==> last !in Meeting(local, incoming, front, saved, o)
  {
    hide OutcomeOf;
  }
}
