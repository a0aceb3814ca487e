/** What reconciling the index against the keychain keeps, deletes and lists. */
module PairingReconcile {
  import opened Common
  import opened PairingRecords
  import opened PairingState
  import Lexical

  /** `a` is listed before `b`. */
  ghost predicate Before(order: seq<Did>, a: Did, b: Did) {
    exists i, j :: 0 <= i < j < |order| && order[i] == a && order[j] == b
  }

  lemma BeforeSnoc(order: seq<Did>, x: Did, a: Did, b: Did)
    ensures Before(order + [x], a, b) <==> Before(order, a, b) || (a in order && b == x)
  {
    var r := order + [x];
    if Before(r, a, b) {
      var i, j :| 0 <= i < j < |r| && r[i] == a && r[j] == b;
      assert order[i] == a;
      if j < |order| {
        assert order[j] == b;
      }
    }
    if Before(order, a, b) {
      var i, j :| 0 <= i < j < |order| && order[i] == a && order[j] == b;
      assert r[i] == a && r[j] == b;
    }
    if a in order && b == x {
      var i :| 0 <= i < |order| && order[i] == a;
      assert r[i] == a && r[|order|] == b;
    }
  }

  lemma BeforeAppend(order: seq<Did>, more: seq<Did>, a: Did, b: Did)
    requires Before(order, a, b) || (a in order && b in more)
    ensures Before(order + more, a, b)
  {
    var r := order + more;
    if Before(order, a, b) {
      var i, j :| 0 <= i < j < |order| && order[i] == a && order[j] == b;
      assert r[i] == a && r[j] == b;
    } else {
      var i :| 0 <= i < |order| && order[i] == a;
      var j :| 0 <= j < |more| && more[j] == b;
      assert r[i] == a && r[|order| + j] == b;
    }
  }

  lemma DistinctSnoc(order: seq<string>, x: string)
    ensures Distinct(order + [x]) <==> Distinct(order) && x !in order
  {
    var r := order + [x];
    if Distinct(r) {
      forall i, j | 0 <= i < j < |order| ensures order[i] != order[j] {
        assert r[i] == order[i] && r[j] == order[j];
      }
      forall i | 0 <= i < |order| ensures order[i] != x {
        assert r[i] == order[i] && r[|order|] == x;
      }
    }
  }

  /** The survivors of the old order: who they are, and in the old relative order. */
  lemma {:induction false} KeptIsFilter(p: Pointers, best: map<Did, Blob>, hidden: set<Pid>, order: seq<Did>)
    requires Distinct(order)
    ensures forall d :: d in Kept(p, best, hidden, order) <==> d in order && Resolved(p.index, best, d) !in hidden
    ensures Distinct(Kept(p, best, hidden, order))
    ensures var k := Kept(p, best, hidden, order);
            forall a, b :: Before(order, a, b) && a in k && b in k ==> Before(k, a, b)
  {
    if order != [] {
      var front, x := order[..|order| - 1], order[|order| - 1];
      assert order == front + [x];
      DistinctSnoc(front, x);
      KeptIsFilter(p, best, hidden, front);
      var k, kept := Kept(p, best, hidden, front), Kept(p, best, hidden, order);
      DistinctSnoc(k, x);
      forall a, b | Before(order, a, b) && a in kept && b in kept ensures Before(kept, a, b) {
        BeforeSnoc(front, x, a, b);
        BeforeSnoc(k, x, a, b);
        if Resolved(p.index, best, x) in hidden {
          assert kept == k;
        }
      }
    }
  }

  lemma {:induction false} KeptAll(p: Pointers, best: map<Did, Blob>, hidden: set<Pid>, order: seq<Did>)
    requires forall d :: d in order ==> Resolved(p.index, best, d) !in hidden
    ensures Kept(p, best, hidden, order) == order
  {
    if order != [] {
      assert order == order[..|order| - 1] + [order[|order| - 1]];
      KeptAll(p, best, hidden, order[..|order| - 1]);
    }
  }

  lemma IncreasingIsDistinct(r: seq<string>)
    requires Lexical.Increasing(r)
    ensures Distinct(r)
  {
    forall i, j | 0 <= i < j < |r| ensures r[i] != r[j] {
      Lexical.Irreflexive(r[i]);
    }
  }

  lemma DistinctAppend(a: seq<string>, b: seq<string>)
    requires Distinct(a) && Distinct(b) && forall x :: x in b ==> x !in a
    ensures Distinct(a + b)
  {
    var r := a + b;
    forall i, j | 0 <= i < j < |r| ensures r[i] != r[j] {
      if i < |a| <= j {
        assert b[j - |a|] in b;
      }
    }
  }

  ghost function Arrivals(p: Pointers, best: map<Did, Blob>, hidden: set<Pid>): seq<Did> {
    Lexical.Sorted(best.Keys - (set d | d in Kept(p, best, hidden, p.order)))
  }

  ghost predicate Eligible(best: map<Did, Blob>, hidden: set<Pid>) {
    forall d :: d in best ==> best[d].did == d && best[d].pid !in hidden
  }

  /** The rebuilt index lists the elected daemons, at their winners, and the others whose pointer is not hidden. */
  ghost predicate RebuiltFrom(p: Pointers, best: map<Did, Blob>, hidden: set<Pid>, r: Pointers) {
    && (forall d :: d in r.index <==> (d in best || (d in p.index && p.index[d] !in hidden)))
    && (forall d :: d in best ==> r.index[d] == best[d].pid)
    && (forall d :: d in r.index && d !in best ==> r.index[d] == p.index[d])
  }

  lemma RebuiltParts(p: Pointers, best: map<Did, Blob>, hidden: set<Pid>)
    ensures Rebuilt(p, best, hidden).order == Kept(p, best, hidden, p.order) + Arrivals(p, best, hidden)
    ensures forall d :: d in Rebuilt(p, best, hidden).index <==> d in Rebuilt(p, best, hidden).order
    ensures forall d ::
              d in Rebuilt(p, best, hidden).index ==> Rebuilt(p, best, hidden).index[d] == Resolved(p.index, best, d)
    ensures Lexical.Increasing(Arrivals(p, best, hidden))
    ensures forall d :: d in Arrivals(p, best, hidden) <==> d in best && d !in Kept(p, best, hidden, p.order)
  {
    Lexical.SortedIncreases(best.Keys - (set d | d in Kept(p, best, hidden, p.order)));
  }

  lemma RebuiltMember(p: Pointers, best: map<Did, Blob>, hidden: set<Pid>, d: Did)
    requires WellFormedPointers(p) && Eligible(best, hidden)
    ensures var r := Rebuilt(p, best, hidden);
            && (d in r.index <==> (d in best || (d in p.index && p.index[d] !in hidden)))
            && (d in best ==> r.index[d] == best[d].pid)
            && (d in r.index && d !in best ==> r.index[d] == p.index[d])
  {
    KeptIsFilter(p, best, hidden, p.order);
    RebuiltParts(p, best, hidden);
    hide Kept, Rebuilt, Arrivals, Before, Lexical.Increasing, Distinct;
    var kept, more := Kept(p, best, hidden, p.order), Arrivals(p, best, hidden);
    assert d in kept + more <==> d in kept || d in more;
  }

  lemma RebuiltKeys(p: Pointers, best: map<Did, Blob>, hidden: set<Pid>)
    ensures forall d :: d in Rebuilt(p, best, hidden).order <==> d in Rebuilt(p, best, hidden).index.Keys
  {
  }

  lemma RebuiltIsWellFormed(p: Pointers, best: map<Did, Blob>, hidden: set<Pid>)
    requires WellFormedPointers(p)
    ensures WellFormedPointers(Rebuilt(p, best, hidden))
  {
    RebuiltIsDistinct(p, best, hidden);
    RebuiltKeys(p, best, hidden);
    hide Rebuilt, Distinct;
  }

  lemma RebuiltIsFrom(p: Pointers, best: map<Did, Blob>, hidden: set<Pid>)
    requires WellFormedPointers(p) && Eligible(best, hidden)
    ensures RebuiltFrom(p, best, hidden, Rebuilt(p, best, hidden))
  {
    var r := Rebuilt(p, best, hidden);
    hide Rebuilt, Distinct;
    forall d ensures && (d in r.index <==> (d in best || (d in p.index && p.index[d] !in hidden)))
                     && (d in best ==> r.index[d] == best[d].pid)
                     && (d in r.index && d !in best ==> r.index[d] == p.index[d])
    {
      RebuiltMember(p, best, hidden, d);
    }
  }

  lemma RebuiltIsDistinct(p: Pointers, best: map<Did, Blob>, hidden: set<Pid>)
    requires Distinct(p.order)
    ensures Distinct(Rebuilt(p, best, hidden).order)
  {
    KeptIsFilter(p, best, hidden, p.order);
    RebuiltParts(p, best, hidden);
    hide Kept, Rebuilt, Arrivals, Before, Lexical.Increasing, Distinct;
    IncreasingIsDistinct(Arrivals(p, best, hidden));
    DistinctAppend(Kept(p, best, hidden, p.order), Arrivals(p, best, hidden));
  }

  /** Survivors keep their relative order; newcomers follow every survivor, sorted. */
  lemma RebuiltOrder(p: Pointers, best: map<Did, Blob>, hidden: set<Pid>, a: Did, b: Did)
    requires WellFormedPointers(p) && Eligible(best, hidden)
    requires a in Rebuilt(p, best, hidden).index && b in Rebuilt(p, best, hidden).index
    ensures Before(p.order, a, b) ==> Before(Rebuilt(p, best, hidden).order, a, b)
    ensures a in p.index && b !in p.index ==> Before(Rebuilt(p, best, hidden).order, a, b)
    ensures a !in p.index && b !in p.index && Lexical.Less(a, b) ==> Before(Rebuilt(p, best, hidden).order, a, b)
  {
    KeptIsFilter(p, best, hidden, p.order);
    RebuiltParts(p, best, hidden);
    hide Kept, Rebuilt, Arrivals, Lexical.Increasing;
    var kept, more := Kept(p, best, hidden, p.order), Arrivals(p, best, hidden);
    assert a in kept <==> a in p.index;
    assert b in kept <==> b in p.index;
    if Before(p.order, a, b) {
      assert a in p.order && b in p.order;
      BeforeAppend(kept, more, a, b);
    } else if a in p.index && b !in p.index {
      BeforeAppend(kept, more, a, b);
    } else if a !in p.index && b !in p.index && Lexical.Less(a, b) {
      SortedBefore(kept, more, a, b);
    }
  }

  lemma SortedBefore(kept: seq<Did>, more: seq<Did>, a: Did, b: Did)
    requires Lexical.Increasing(more) && a in more && b in more && Lexical.Less(a, b)
    ensures Before(kept + more, a, b)
  {
    var i :| 0 <= i < |more| && more[i] == a;
    var j :| 0 <= j < |more| && more[j] == b;
    Lexical.Asymmetric(a, b);
    Lexical.Irreflexive(a);
    var r := kept + more;
    assert i < j;
    assert r[|kept| + i] == a && r[|kept| + j] == b;
  }

  // What a faithful enumeration elects.

  predicate Shows(s: Store, q: Pid) {
    q in s.items && q !in s.hidden
  }

  ghost predicate OneShownPerDaemon(s: Store) {
    forall q, r :: Shows(s, q) && Shows(s, r) && s.items[q].did == s.items[r].did ==> q == r
  }

  ghost predicate ElectionOf(s: Store, t: Tally) {
    && (forall d ::
          d in t.best ==> Shows(s, t.best[d].pid) && s.items[t.best[d].pid] == t.best[d] && t.best[d].did == d)
    && (forall q :: Shows(s, q) ==> s.items[q].did in t.best && s.items[q].ts <= t.best[s.items[q].did].ts)
    && (forall q :: q in t.losers <==> Shows(s, q) && t.best[s.items[q].did].pid != q)
  }

  lemma FaithfulElection(s: Store, view: seq<Blob>)
    requires WellFormed(s) && Enumerates(view, s.items)
    ensures ElectionOf(s, Elect(Shown(view, s.hidden)))
    ensures Shown(view, s.hidden) == [] <==> forall q :: !Shows(s, q)
  {
    var blobs := Shown(view, s.hidden);
    ShownMembers(view, s.hidden);
    ShownDistinct(view, s.hidden);
    ElectionIsSound(blobs);
    hide Shown, Elect, DistinctPids;
    ShownAreItems(s, view, blobs);
    TranslateElection(s, blobs, Elect(blobs));
  }

  lemma ShownAreItems(s: Store, view: seq<Blob>, blobs: seq<Blob>)
    requires WellFormed(s) && Enumerates(view, s.items)
    requires forall b :: b in blobs <==> b in view && b.pid !in s.hidden
    ensures forall b :: b in blobs <==> Shows(s, b.pid) && s.items[b.pid] == b
    ensures blobs == [] <==> forall q :: !Shows(s, q)
  {
    forall b ensures b in blobs <==> Shows(s, b.pid) && s.items[b.pid] == b {
      if Shows(s, b.pid) && s.items[b.pid] == b {
        assert s.items[b.pid] in view;
      }
    }
    if blobs != [] {
      assert blobs[0] in blobs;
    }
    forall q | Shows(s, q) ensures blobs != [] {
      assert s.items[q] in blobs;
    }
  }

  lemma TranslateElection(s: Store, blobs: seq<Blob>, t: Tally)
    requires KeyedByPid(s.items) && Elected(blobs, t)
    requires forall b :: b in blobs <==> Shows(s, b.pid) && s.items[b.pid] == b
    ensures ElectionOf(s, t)
  {
    forall q | Shows(s, q) ensures s.items[q] in blobs {
    }
    forall q ensures q in t.losers <==> Shows(s, q) && t.best[s.items[q].did].pid != q {
      if q in t.losers {
        var b :| b in blobs && b.pid == q;
        assert s.items[q] == b;
      }
    }
  }

  /** What a reconcile against any enumeration at all leaves alone. */
  lemma ReconcileFrame(s: Store, view: Option<seq<Blob>>)
    requires WellFormed(s)
    ensures var (t, p) := Reconciled(s, view);
            && t.locked == s.locked && t.sidecars == s.sidecars
            && t.pending == s.pending && t.pendingOrder == s.pendingOrder
            && (view.Some? ==> t.ptr == p) && (view.None? ==> t == s && p == s.ptr)
  {
    hide Shown, Elect, Rebuilt, Lists, KeyedByPid, WellFormedPointers;
  }

  lemma ElectionIsFaithful(s: Store, view: seq<Blob>, e: Tally)
    requires WellFormed(s) && Enumerates(view, s.items) && e == Elect(Shown(view, s.hidden))
    ensures ElectionOf(s, e) && Eligible(e.best, s.hidden) && (forall q :: q in e.losers ==> Shows(s, q))
    ensures Shown(view, s.hidden) == [] <==> forall q :: !Shows(s, q)
    ensures Shown(view, s.hidden) == [] ==> e.losers == []
  {
    hide Shown;
    FaithfulElection(s, view);
    hide ElectionOf, Eligible;
  }

  /** The winners, what was deleted and what became of the index, for a faithful enumeration. */
  lemma ReconcileByElection(s: Store, view: seq<Blob>, e: Tally)
    requires WellFormed(s) && Enumerates(view, s.items) && e == Elect(Shown(view, s.hidden))
    ensures ElectionOf(s, e) && Eligible(e.best, s.hidden)
    ensures var (t, p) := Reconciled(s, Some(view));
            && t.items == s.items - (set q | q in e.losers) && t.removals == s.removals + e.losers
            && t.hidden == s.hidden && t.ptr == p
            && ((forall q :: !Shows(s, q))
                ==> p == s.ptr && t.lastGood == (if p.order == [] then s.lastGood else Some(p)))
            && ((exists q :: Shows(s, q)) ==> p == Rebuilt(s.ptr, e.best, s.hidden) && t.lastGood == Some(p))
  {
    hide Shown, Rebuilt, WellFormed, Enumerates, Elect, ElectionOf;
    ElectionIsFaithful(s, view, e);
    var gone := set q | q in e.losers;
    assert s.hidden - gone == s.hidden;
    if Shown(view, s.hidden) == [] {
      assert gone == {};
      assert s.items - {} == s.items && s.removals + [] == s.removals;
    }
  }

  /** Which records a faithful reconcile keeps: every hidden one, and one of each daemon's shown ones. */
  lemma ReconciledRecords(s: Store, view: seq<Blob>)
    requires WellFormed(s) && Enumerates(view, s.items)
    ensures var t := Reconciled(s, Some(view)).0;
            && t.hidden == s.hidden
            && (forall q :: q in t.items ==> q in s.items && t.items[q] == s.items[q])
            && (forall q :: q in s.items && q in s.hidden ==> q in t.items)
            && OneShownPerDaemon(t)
  {
    var e := Elect(Shown(view, s.hidden));
    ReconcileByElection(s, view, e);
    hide Shown, Elect, Reconciled, Rebuilt, Eligible, WellFormed, Enumerates;
    var t := Reconciled(s, Some(view)).0;
    AfterElection(s, e, t);
  }

  lemma AfterElection(s: Store, e: Tally, t: Store)
    requires ElectionOf(s, e) && t.items == s.items - (set q | q in e.losers) && t.hidden == s.hidden
    ensures forall q :: q in t.items ==> q in s.items && t.items[q] == s.items[q]
    ensures forall q :: q in s.items && q in s.hidden ==> q in t.items
    ensures OneShownPerDaemon(t)
  {
    forall q, r | Shows(t, q) && Shows(t, r) && t.items[q].did == t.items[r].did ensures q == r {
      assert Shows(s, q) && Shows(s, r) && q !in e.losers && r !in e.losers;
    }
  }

  lemma ReconcileKeepsWellFormed(s: Store, view: Option<seq<Blob>>)
    requires WellFormed(s)
    ensures WellFormed(Reconciled(s, view).0)
  {
    if view.Some? {
      hide Shown, Elect, Rebuilt, Eligible, Lists;
      RebuiltIsWellFormed(s.ptr, Elect(Shown(view.value, s.hidden)).best, s.hidden);
    }
  }

  /** Each daemon with a shown record is pointed at its newest, which is still there. */
  lemma ReconciledWinner(s: Store, view: seq<Blob>, q: Pid)
    requires WellFormed(s) && Enumerates(view, s.items) && Shows(s, q)
    ensures var (t, p) := Reconciled(s, Some(view));
            var d := s.items[q].did;
            && d in p.index && Shows(t, p.index[d])
            && t.items[p.index[d]].did == d && s.items[q].ts <= t.items[p.index[d]].ts
  {
    var e := Elect(Shown(view, s.hidden));
    ReconcileByElection(s, view, e);
    hide Shown, Elect, Reconciled, Rebuilt, Eligible;
    RebuiltIsFrom(s.ptr, e.best, s.hidden);
    var w := e.best[s.items[q].did].pid;
    assert Shows(s, w) && w !in e.losers;
  }

  /** A daemon without a shown record keeps its pointer, unless that pointer is hidden and some record is shown. */
  lemma ReconciledAbsentee(s: Store, view: seq<Blob>, d: Did)
    requires WellFormed(s) && Enumerates(view, s.items)
    requires forall q :: Shows(s, q) ==> s.items[q].did != d
    ensures var p := Reconciled(s, Some(view)).1;
            && (d in p.index <==> d in s.ptr.index && (s.ptr.index[d] !in s.hidden || forall q :: !Shows(s, q)))
            && (d in p.index ==> p.index[d] == s.ptr.index[d])
  {
    var e := Elect(Shown(view, s.hidden));
    ReconcileByElection(s, view, e);
    hide Shown, Elect, Reconciled, Rebuilt, Eligible;
    if q :| Shows(s, q) {
      RebuiltIsFrom(s.ptr, e.best, s.hidden);
      assert d !in e.best;
    }
  }

  /** Two daemons listed before and after stay in their order, whatever the enumeration shows. */
  lemma ReconcileKeepsOrder(s: Store, view: seq<Blob>, a: Did, b: Did)
    requires WellFormed(s)
    requires var p := Reconciled(s, Some(view)).1; a in p.index && b in p.index
    ensures Before(s.ptr.order, a, b) ==> Before(Reconciled(s, Some(view)).1.order, a, b)
    ensures a in s.ptr.index && b !in s.ptr.index ==> Before(Reconciled(s, Some(view)).1.order, a, b)
    ensures a !in s.ptr.index && b !in s.ptr.index && Lexical.Less(a, b)
      ==> Before(Reconciled(s, Some(view)).1.order, a, b)
  {
    var blobs := Shown(view, s.hidden);
    AnyElectionIsEligible(view, s.hidden);
    hide Shown, Elect, Rebuilt, Eligible;
    if blobs != [] {
      RebuiltOrder(s.ptr, Elect(blobs).best, s.hidden, a, b);
    }
  }

  lemma {:induction false} ElectedAreMembers(view: seq<Blob>)
    ensures forall d :: d in Elect(view).best ==> Elect(view).best[d] in view && Elect(view).best[d].did == d
  {
    if view != [] {
      assert view == view[..|view| - 1] + [view[|view| - 1]];
      ElectedAreMembers(view[..|view| - 1]);
    }
  }

  lemma AnyElectionIsEligible(view: seq<Blob>, hidden: set<Pid>)
    ensures Eligible(Elect(Shown(view, hidden)).best, hidden)
  {
    ShownMembers(view, hidden);
    ElectedAreMembers(Shown(view, hidden));
  }

  /**
   * Reconciling against a faithful enumeration, all of it: hidden records stay, each daemon with shown records keeps
   * exactly one of them, of greatest time stamp, and is pointed at it; a daemon without one keeps its pointer unless
   * that pointer is hidden; nobody else is listed; the survivors keep their order.
   */
  lemma ReconcileMeetsSpec(s: Store, view: seq<Blob>)
    requires WellFormed(s) && Enumerates(view, s.items)
    ensures var (t, p) := Reconciled(s, Some(view));
            && WellFormed(t) && t.ptr == p && t.hidden == s.hidden && OneShownPerDaemon(t)
            && (forall q :: q in t.items ==> q in s.items && t.items[q] == s.items[q])
            && (forall q :: q in s.items && q in s.hidden ==> q in t.items)
            && (forall q :: Shows(s, q) ==> PointsAtNewest(t, p, s.items[q]))
            && (forall d :: (forall q :: Shows(s, q) ==> s.items[q].did != d) ==>
                && (d in p.index <==> d in s.ptr.index && (s.ptr.index[d] !in s.hidden || forall q :: !Shows(s, q)))
                && (d in p.index ==> p.index[d] == s.ptr.index[d]))
            && (forall a, b :: Before(s.ptr.order, a, b) && a in p.index && b in p.index ==> Before(p.order, a, b))
  {
    ReconcileFrame(s, Some(view));
    ReconcileKeepsWellFormed(s, Some(view));
    ReconciledRecords(s, view);
    hide Reconciled, WellFormed, OneShownPerDaemon, Before;
    forall q | Shows(s, q)
        ensures PointsAtNewest(Reconciled(s, Some(view)).0, Reconciled(s, Some(view)).1, s.items[q]) {
      ReconciledWinner(s, view, q);
    }
    forall d | forall q :: Shows(s, q) ==> s.items[q].did != d
      ensures var p := Reconciled(s, Some(view)).1;
              && (d in p.index <==> d in s.ptr.index && (s.ptr.index[d] !in s.hidden || forall q :: !Shows(s, q)))
              && (d in p.index ==> p.index[d] == s.ptr.index[d])
    {
      ReconciledAbsentee(s, view, d);
    }
    forall a, b | Before(s.ptr.order, a, b) && a in Reconciled(s, Some(view)).1.index
        && b in Reconciled(s, Some(view)).1.index
      ensures Before(Reconciled(s, Some(view)).1.order, a, b)
    {
      ReconcileKeepsOrder(s, view, a, b);
    }
  }

  /** The record's daemon is pointed at a shown record of its own that is at least as recent. */
  predicate PointsAtNewest(t: Store, p: Pointers, b: Blob) {
    b.did in p.index && Shows(t, p.index[b.did]) &&
    t.items[p.index[b.did]].did == b.did && b.ts <= t.items[p.index[b.did]].ts
  }

  lemma SingleHasNoLosers(t: Store, f: Tally)
    requires ElectionOf(t, f) && OneShownPerDaemon(t)
    ensures f.losers == []
  {
    forall q ensures q !in f.losers {
    }
    SomeMember(f.losers);
  }

  lemma SomeMember(r: seq<string>)
    ensures r != [] ==> exists x :: x in r
  {
    if r != [] {
      assert r[0] in r;
    }
  }

  /** Against a complete enumeration the reconcile deletes nothing exactly when no daemon shows two records. */
  lemma SweepsNothingIffSingle(s: Store, view: seq<Blob>)
    requires WellFormed(s) && Enumerates(view, s.items)
    ensures Reconciled(s, Some(view)).0.removals == s.removals <==> OneShownPerDaemon(s)
    ensures OneShownPerDaemon(s) ==> Reconciled(s, Some(view)).0.items == s.items
  {
    var e := Elect(Shown(view, s.hidden));
    ReconcileByElection(s, view, e);
    LosersIffSeveral(s, e);
    hide Shown, Elect, Rebuilt, Reconciled, WellFormed, Enumerates, Eligible, OneShownPerDaemon, ElectionOf;
    NothingSwept(s, e.losers);
  }

  lemma NothingSwept(s: Store, losers: seq<Pid>)
    ensures s.removals + losers == s.removals <==> losers == []
    ensures losers == [] ==> s.items - (set q | q in losers) == s.items
  {
    if losers == [] {
      assert (set q | q in losers) == {};
    } else {
      assert |s.removals + losers| > |s.removals|;
    }
  }

  lemma LosersIffSeveral(s: Store, e: Tally)
    requires ElectionOf(s, e)
    ensures e.losers == [] <==> OneShownPerDaemon(s)
  {
    if OneShownPerDaemon(s) {
      SingleHasNoLosers(s, e);
    } else {
      var q, r :| Shows(s, q) && Shows(s, r) && s.items[q].did == s.items[r].did && q != r;
      assert q in e.losers || r in e.losers;
    }
  }

  /** A second reconcile of what the first left, in whatever order it is enumerated, changes nothing. */
  lemma ReconcileIsIdempotent(s: Store, view: seq<Blob>, again: seq<Blob>)
    requires WellFormed(s) && Enumerates(view, s.items)
    requires Enumerates(again, Reconciled(s, Some(view)).0.items)
    ensures Reconciled(Reconciled(s, Some(view)).0, Some(again)) == Reconciled(s, Some(view))
  {
    var t := Reconciled(s, Some(view)).0;
    ReconcileKeepsWellFormed(s, Some(view));
    ReconciledRecords(s, view);
    SweepsNothingIffSingle(t, again);
    ReconcileFrame(s, Some(view));
    ReconcileFrame(t, Some(again));
    SecondIndex(s, view, again);
    hide Reconciled, WellFormed, Enumerates, OneShownPerDaemon;
  }

  lemma SecondIndex(s: Store, view: seq<Blob>, again: seq<Blob>)
    requires WellFormed(s) && Enumerates(view, s.items)
    requires Enumerates(again, Reconciled(s, Some(view)).0.items)
    ensures var (t, p) := Reconciled(s, Some(view));
            var (u, q) := Reconciled(t, Some(again));
            q == p && u.lastGood == t.lastGood && u.hidden == t.hidden
  {
    var (t, p) := Reconciled(s, Some(view));
    hide Reconciled, WellFormed, Enumerates, ElectionOf, Eligible, Rebuilt, Elect, Shown;
    ReconcileKeepsWellFormed(s, Some(view));
    ReconcileByElection(s, view, Elect(Shown(view, s.hidden)));
    ReconcileByElection(t, again, Elect(Shown(again, t.hidden)));
    if q :| Shows(s, q) {
      ReconciledWinner(s, view, q);
      SecondRebuild(s, view, again);
    } else {
      assert forall r :: Shows(t, r) ==> Shows(s, r);
    }
  }

  lemma SecondRebuild(s: Store, view: seq<Blob>, again: seq<Blob>)
    requires WellFormed(s) && Enumerates(view, s.items) && exists q :: Shows(s, q)
    requires Enumerates(again, Reconciled(s, Some(view)).0.items)
    ensures var (t, p) := Reconciled(s, Some(view));
            Rebuilt(p, Elect(Shown(again, t.hidden)).best, t.hidden) == p
  {
    var (t, p) := Reconciled(s, Some(view));
    var e, f := Elect(Shown(view, s.hidden)), Elect(Shown(again, t.hidden));
    ReconcileKeepsWellFormed(s, Some(view));
    ReconcileByElection(s, view, e);
    ReconciledRecords(s, view);
    ReconcileByElection(t, again, f);
    RebuiltIsFrom(s.ptr, e.best, s.hidden);
    hide Shown, Elect, Rebuilt, Reconciled, Enumerates;
    forall d | d in f.best ensures d in p.index && p.index[d] == f.best[d].pid {
      assert Shows(s, f.best[d].pid);
      ReconciledWinner(s, view, f.best[d].pid);
    }
    RebuiltAgain(p, f.best, t.hidden);
  }

  lemma RebuiltAgain(p: Pointers, best: map<Did, Blob>, hidden: set<Pid>)
    requires WellFormedPointers(p)
    requires forall d :: d in best ==> d in p.index && p.index[d] == best[d].pid
    requires forall d :: d in p.index ==> p.index[d] !in hidden
    ensures Rebuilt(p, best, hidden) == p
  {
    KeptAll(p, best, hidden, p.order);
    NoArrivals(p, best, hidden);
    hide Kept, Arrivals, Distinct;
    assert Rebuilt(p, best, hidden).order == p.order + [] == p.order;
    SameIndex(p, best, hidden, Rebuilt(p, best, hidden));
  }

  lemma SameIndex(p: Pointers, best: map<Did, Blob>, hidden: set<Pid>, r: Pointers)
    requires WellFormedPointers(p) && r.order == p.order
    requires r.index == map d | d in r.order :: Resolved(p.index, best, d)
    requires forall d :: d in best ==> d in p.index && p.index[d] == best[d].pid
    ensures r.index == p.index
  {
    hide Distinct;
  }

  lemma NoArrivals(p: Pointers, best: map<Did, Blob>, hidden: set<Pid>)
    requires Kept(p, best, hidden, p.order) == p.order && forall d :: d in best ==> d in p.order
    ensures Arrivals(p, best, hidden) == []
  {
    assert best.Keys - (set d | d in p.order) == {};
    assert Lexical.Sorted({}) == [];
  }
}
