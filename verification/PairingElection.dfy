/** Which records a reconcile sweeps, whatever its enumeration shows: partial, out of date, or one id twice. */
module PairingElection {
  import opened Common
  import opened PairingRecords
  import opened PairingState

  /** The second position shows a record of the same daemon that is later, or as late and enumerated before. */
  predicate Later(view: seq<Blob>, i: int, j: int)
    requires 0 <= i < |view| && 0 <= j < |view|
  {
    view[i].did == view[j].did && (view[i].ts < view[j].ts || (view[i].ts == view[j].ts && j < i))
  }

  /** The record at the first position loses to the one at the second. */
  predicate Outranks(view: seq<Blob>, hidden: set<Pid>, i: int, j: int) {
    0 <= i < |view| && 0 <= j < |view| && view[i].pid !in hidden && view[j].pid !in hidden && Later(view, i, j)
  }

  /** The enumeration shows this id at a position that loses. */
  ghost predicate Outranked(view: seq<Blob>, hidden: set<Pid>, q: Pid) {
    exists i, j :: Outranks(view, hidden, i, j) && view[i].pid == q
  }

  /** Of what is not hidden, the enumeration shows no daemon at two positions. */
  ghost predicate OnePerDaemon(view: seq<Blob>, hidden: set<Pid>) {
    forall i, j ::
      0 <= i < j < |view| && view[i].pid !in hidden && view[j].pid !in hidden ==> view[i].did != view[j].did
  }

  lemma OnePerDaemonIff(view: seq<Blob>, hidden: set<Pid>)
    ensures OnePerDaemon(view, hidden) <==> forall q :: !Outranked(view, hidden, q)
  {
    if q :| Outranked(view, hidden, q) {
      var i, j :| Outranks(view, hidden, i, j) && view[i].pid == q;
      assert i < j || j < i;
    }
    if i, j :| 0 <= i < j < |view| && view[i].pid !in hidden && view[j].pid !in hidden && view[i].did == view[j].did {
      assert Outranks(view, hidden, i, j) || Outranks(view, hidden, j, i);
      assert Outranked(view, hidden, view[i].pid) || Outranked(view, hidden, view[j].pid);
    }
  }

  /** This position is not hidden and nothing outranks it. */
  ghost predicate Wins(view: seq<Blob>, hidden: set<Pid>, i: int) {
    0 <= i < |view| && view[i].pid !in hidden && forall j :: !Outranks(view, hidden, i, j)
  }

  /** A tally of the positions: the winners are the best, the outranked the losers. */
  ghost predicate TalliedAt(view: seq<Blob>, hidden: set<Pid>, t: Tally) {
    && (forall i :: 0 <= i < |view| && view[i].pid !in hidden ==> view[i].did in t.best)
    && (forall d :: d in t.best ==> exists i :: Wins(view, hidden, i) && view[i] == t.best[d] && view[i].did == d)
    && (forall q :: q in t.losers <==> Outranked(view, hidden, q))
  }

  /** The loop sweeps exactly the ids at positions that lose, and elects the ones that do not. */
  lemma {:induction false} ElectionByPosition(view: seq<Blob>, hidden: set<Pid>)
    ensures TalliedAt(view, hidden, Elect(Shown(view, hidden)))
  {
    if view != [] {
      hide TalliedAt, Count;
      var front, b := view[..|view| - 1], view[|view| - 1];
      assert view == front + [b];
      ElectionByPosition(front, hidden);
      var shown := Shown(front, hidden);
      if b.pid in hidden {
        assert Shown(view, hidden) == shown;
        HiddenAdds(front, b, hidden, Elect(shown));
      } else {
        assert Shown(view, hidden) == shown + [b] && (shown + [b])[..|shown|] == shown;
        assert Elect(shown + [b]) == Count(Elect(shown), b);
        ShownAdds(front, b, hidden, Elect(shown));
      }
    } else {
      assert Shown(view, hidden) == [];
    }
  }

  lemma FrontOutranks(front: seq<Blob>, b: Blob, hidden: set<Pid>, i: int, j: int)
    requires 0 <= i < |front| && 0 <= j < |front|
    ensures Outranks(front + [b], hidden, i, j) <==> Outranks(front, hidden, i, j)
  {
  }

  lemma HiddenAdds(front: seq<Blob>, b: Blob, hidden: set<Pid>, t: Tally)
    requires TalliedAt(front, hidden, t) && b.pid in hidden
    ensures TalliedAt(front + [b], hidden, t)
  {
    var view := front + [b];
    forall d | d in t.best ensures exists i :: Wins(view, hidden, i) && view[i] == t.best[d] && view[i].did == d {
      var w := WinnerIn(front, hidden, t, d);
      WinnerStays(front, b, hidden, w);
      assert view[w] == t.best[d];
    }
    forall q ensures Outranked(view, hidden, q) <==> Outranked(front, hidden, q) {
      if i, j :| Outranks(view, hidden, i, j) && view[i].pid == q {
        FrontOutranks(front, b, hidden, i, j);
      }
      if Outranked(front, hidden, q) {
        OutrankedStays(front, b, hidden, q);
      }
    }
  }

  /** Every other shown position of a winner's daemon is outranked by it. */
  lemma WinnerOutranks(view: seq<Blob>, hidden: set<Pid>, w: int, i: int)
    requires Wins(view, hidden, w) && 0 <= i < |view| && i != w && view[i].pid !in hidden && view[i].did == view[w].did
    ensures Outranks(view, hidden, i, w)
  {
    assert !Outranks(view, hidden, w, i);
  }

  lemma WinnerIn(view: seq<Blob>, hidden: set<Pid>, t: Tally, d: Did) returns (w: int)
    requires TalliedAt(view, hidden, t) && d in t.best
    ensures Wins(view, hidden, w) && view[w] == t.best[d] && view[w].did == d
  {
    w :| Wins(view, hidden, w) && view[w] == t.best[d] && view[w].did == d;
  }

  /** A winner stays one if the next record is of another daemon, hidden, or not later. */
  lemma WinnerStays(front: seq<Blob>, b: Blob, hidden: set<Pid>, w: int)
    requires Wins(front, hidden, w) && (front[w].did == b.did ==> b.pid in hidden || b.ts <= front[w].ts)
    ensures Wins(front + [b], hidden, w)
  {
    var view := front + [b];
    forall j ensures !Outranks(view, hidden, w, j) {
      if 0 <= j < |front| {
        FrontOutranks(front, b, hidden, w, j);
      }
    }
  }

  /** Who is outranked once a record has been added: those before, and the one it adds. */
  ghost predicate Adds(front: seq<Blob>, b: Blob, hidden: set<Pid>, loser: Option<Pid>) {
    forall q :: Outranked(front + [b], hidden, q) <==> Outranked(front, hidden, q) || loser == Some(q)
  }

  lemma OutrankedStays(front: seq<Blob>, b: Blob, hidden: set<Pid>, q: Pid)
    requires Outranked(front, hidden, q)
    ensures Outranked(front + [b], hidden, q)
  {
    var i, j :| Outranks(front, hidden, i, j) && front[i].pid == q;
    FrontOutranks(front, b, hidden, i, j);
    assert (front + [b])[i].pid == q;
  }

  lemma NewDaemonAdds(front: seq<Blob>, b: Blob, hidden: set<Pid>, t: Tally)
    requires TalliedAt(front, hidden, t) && b.did !in t.best
    ensures Adds(front, b, hidden, None) && (b.pid !in hidden ==> Wins(front + [b], hidden, |front|))
  {
    var view := front + [b];
    forall q ensures Outranked(view, hidden, q) <==> Outranked(front, hidden, q) {
      if i, j :| Outranks(view, hidden, i, j) && view[i].pid == q {
        assert i < |front| && j < |front|;
        FrontOutranks(front, b, hidden, i, j);
      }
      if Outranked(front, hidden, q) {
        OutrankedStays(front, b, hidden, q);
      }
    }
  }

  lemma OldAdds(front: seq<Blob>, b: Blob, hidden: set<Pid>, w: int)
    requires Wins(front, hidden, w) && front[w].did == b.did && b.pid !in hidden && b.ts <= front[w].ts
    ensures Adds(front, b, hidden, Some(b.pid))
  {
    var view := front + [b];
    assert Outranks(view, hidden, |front|, w) && view[|front|].pid == b.pid;
    forall q ensures Outranked(view, hidden, q) <==> Outranked(front, hidden, q) || q == b.pid {
      if i, j :| Outranks(view, hidden, i, j) && view[i].pid == q {
        if i < |front| {
          WinnerStays(front, b, hidden, w);
          OutrankedInFront(front, b, hidden, w, i, j);
        }
      }
      if Outranked(front, hidden, q) {
        OutrankedStays(front, b, hidden, q);
      }
    }
  }

  lemma OutrankedInFront(front: seq<Blob>, b: Blob, hidden: set<Pid>, w: int, i: int, j: int)
    requires Wins(front, hidden, w) && front[w].did == b.did && 0 <= i < |front| && i != w
    requires Outranks(front + [b], hidden, i, j)
    ensures Outranked(front, hidden, front[i].pid)
  {
    if j < |front| {
      FrontOutranks(front, b, hidden, i, j);
    } else {
      WinnerOutranks(front, hidden, w, i);
    }
  }

  lemma LaterAdds(front: seq<Blob>, b: Blob, hidden: set<Pid>, w: int)
    requires Wins(front, hidden, w) && front[w].did == b.did && b.pid !in hidden && b.ts > front[w].ts
    ensures Adds(front, b, hidden, Some(front[w].pid)) && Wins(front + [b], hidden, |front|)
  {
    var view := front + [b];
    assert Outranks(view, hidden, w, |front|) && view[w].pid == front[w].pid;
    forall q ensures Outranked(view, hidden, q) <==> Outranked(front, hidden, q) || q == front[w].pid {
      if i, j :| Outranks(view, hidden, i, j) && view[i].pid == q {
        if i < |front| && i != w {
          OutrankedInFront(front, b, hidden, w, i, j);
        } else if i == |front| {
          NotOutranked(front, b, hidden, w, j);
        }
      }
      if Outranked(front, hidden, q) {
        OutrankedStays(front, b, hidden, q);
      }
    }
    forall j ensures !Outranks(view, hidden, |front|, j) {
      NotOutranked(front, b, hidden, w, j);
    }
  }

  lemma NotOutranked(front: seq<Blob>, b: Blob, hidden: set<Pid>, w: int, j: int)
    requires Wins(front, hidden, w) && front[w].did == b.did && b.ts > front[w].ts
    ensures !Outranks(front + [b], hidden, |front|, j)
  {
    if j < |front| {
      assert !Outranks(front, hidden, w, j);
    }
  }

  lemma ShownAdds(front: seq<Blob>, b: Blob, hidden: set<Pid>, t: Tally)
    requires TalliedAt(front, hidden, t) && b.pid !in hidden
    ensures TalliedAt(front + [b], hidden, Count(t, b))
  {
    var view, u, n := front + [b], Count(t, b), |front|;
    var loser: Option<Pid>, won: bool := None, true;
    if b.did !in t.best {
      NewDaemonAdds(front, b, hidden, t);
    } else {
      var w := WinnerIn(front, hidden, t, b.did);
      if t.best[b.did].ts >= b.ts {
        OldAdds(front, b, hidden, w);
        loser, won := Some(b.pid), false;
      } else {
        LaterAdds(front, b, hidden, w);
        loser := Some(t.best[b.did].pid);
      }
    }
    hide Outranked, Outranks;
    assert forall q :: q in u.losers <==> q in t.losers || loser == Some(q);
    forall d | d in u.best ensures exists i :: Wins(view, hidden, i) && view[i] == u.best[d] && view[i].did == d {
      if d == b.did && won {
        assert Wins(view, hidden, n) && view[n] == u.best[d];
      } else {
        var w := WinnerIn(front, hidden, t, d);
        WinnerStays(front, b, hidden, w);
        assert view[w] == u.best[d];
      }
    }
  }

  lemma LosersIff(view: seq<Blob>, hidden: set<Pid>)
    ensures forall q :: q in Elect(Shown(view, hidden)).losers <==> Outranked(view, hidden, q)
  {
    hide Elect, Shown, Outranked, Wins;
    ElectionByPosition(view, hidden);
  }

  /** What a reconcile deletes, whatever its enumeration shows: exactly the records shown at positions that lose. */
  lemma SweepsIff(s: Store, view: seq<Blob>)
    ensures var t := Reconciled(s, Some(view)).0;
            && |s.removals| <= |t.removals| && t.removals[..|s.removals|] == s.removals
            && (forall q :: q in t.removals[|s.removals|..] <==> Outranked(view, s.hidden, q))
            && (forall q :: q in t.items <==> q in s.items && !Outranked(view, s.hidden, q))
            && (forall q :: q in t.items ==> t.items[q] == s.items[q])
  {
    assert Elect([]) == Tally(map[], []);
    hide Elect, Shown, Outranked, Rebuilt;
    LosersIff(view, s.hidden);
    assert s.removals + Elect(Shown(view, s.hidden)).losers == Reconciled(s, Some(view)).0.removals;
  }

  /** It deletes nothing exactly when no daemon is shown at two positions. */
  lemma SweepsNothingIff(s: Store, view: seq<Blob>)
    ensures Reconciled(s, Some(view)).0.removals == s.removals <==> OnePerDaemon(view, s.hidden)
  {
    SweepsIff(s, view);
    OnePerDaemonIff(view, s.hidden);
    hide Reconciled, Outranked, OnePerDaemon;
    NothingNew(s.removals, Reconciled(s, Some(view)).0.removals);
  }

  lemma NothingNew(before: seq<Pid>, after: seq<Pid>)
    requires |before| <= |after| && after[..|before|] == before
    ensures after == before <==> forall q :: q !in after[|before|..]
  {
    if |after| > |before| {
      assert after[|before|..][0] in after[|before|..];
    } else {
      assert after[..|before|] == after;
    }
  }
}
