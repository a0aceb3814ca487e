/** Committed pairing records and the two ways the store picks one record per daemon. */
module PairingRecords {
  import Lexical

  type Did = string
  type Pid = string

  /** One committed record. `payload` stands for the secret, keys, relay address, version and host name. */
  datatype Blob = Blob(did: Did, pid: Pid, ts: int, payload: string)

  /** Newer time stamp first, the pairing id deciding ties. */
  predicate Newer(a: Blob, b: Blob) {
    if a.ts != b.ts then a.ts > b.ts else Lexical.Less(b.pid, a.pid)
  }

  lemma NewerIsTransitive(a: Blob, b: Blob, c: Blob)
    requires Newer(a, b) && Newer(b, c)
    ensures Newer(a, c)
  {
    if a.ts == b.ts == c.ts {
      Lexical.Transitive(c.pid, b.pid, a.pid);
    }
  }

  /** On records that differ in time or id the comparison is a strict total order. */
  lemma NewerIsTotal(a: Blob, b: Blob)
    ensures !Newer(a, a)
    ensures Newer(a, b) ==> !Newer(b, a)
    ensures a.ts != b.ts || a.pid != b.pid ==> Newer(a, b) || Newer(b, a)
  {
    Lexical.Irreflexive(a.pid);
    Lexical.Total(a.pid, b.pid);
    if Newer(a, b) && Newer(b, a) {
      NewerIsTransitive(a, b, a);
    }
  }

  // Enumerations of the keychain.

  ghost predicate KeyedByPid(items: map<Pid, Blob>) {
    forall p :: p in items ==> items[p].pid == p
  }

  /** The whole keychain, in some order. */
  ghost predicate Enumerates(view: seq<Blob>, items: map<Pid, Blob>) {
    && (forall b :: b in view ==> b.pid in items && items[b.pid] == b)
    && (forall p :: p in items ==> items[p] in view)
    && (forall i, j :: 0 <= i < j < |view| ==> view[i].pid != view[j].pid)
  }

  /** The records of one enumeration that are not hidden here. */
  function Shown(view: seq<Blob>, hidden: set<Pid>): seq<Blob> {
    if view == [] then []
    else Shown(view[..|view| - 1], hidden) + (if view[|view| - 1].pid !in hidden then [view[|view| - 1]] else [])
  }

  lemma {:induction false} ShownMembers(view: seq<Blob>, hidden: set<Pid>)
    ensures forall b :: b in Shown(view, hidden) <==> b in view && b.pid !in hidden
  {
    if view != [] {
      ShownMembers(view[..|view| - 1], hidden);
      assert view == view[..|view| - 1] + [view[|view| - 1]];
    }
  }

  ghost predicate DistinctPids(view: seq<Blob>) {
    forall i, j :: 0 <= i < j < |view| ==> view[i].pid != view[j].pid
  }

  lemma {:induction false} ShownDistinct(view: seq<Blob>, hidden: set<Pid>)
    requires DistinctPids(view)
    ensures DistinctPids(Shown(view, hidden))
  {
    if view != [] {
      var front, last := view[..|view| - 1], view[|view| - 1];
      ShownDistinct(front, hidden);
      ShownMembers(front, hidden);
      var r := Shown(front, hidden);
      forall k | 0 <= k < |r| ensures r[k].pid != last.pid {
        assert r[k] in r && r[k] in front;
      }
    }
  }

  // The reconcile loop's election: first of the latest time stamp.

  datatype Tally = Tally(best: map<Did, Blob>, losers: seq<Pid>)

  function Count(t: Tally, b: Blob): Tally {
    if b.did !in t.best then Tally(t.best[b.did := b], t.losers)
    else if t.best[b.did].ts >= b.ts then Tally(t.best, t.losers + [b.pid])
    else Tally(t.best[b.did := b], t.losers + [t.best[b.did].pid])
  }

  function Elect(view: seq<Blob>): Tally {
    if view == [] then Tally(map[], []) else Count(Elect(view[..|view| - 1]), view[|view| - 1])
  }

  ghost predicate Elected(view: seq<Blob>, t: Tally) {
    && (forall b :: b in view ==> b.did in t.best && b.ts <= t.best[b.did].ts)
    && (forall d :: d in t.best ==> t.best[d] in view && t.best[d].did == d)
    && (forall b :: b in view && b.pid in t.losers ==> t.best[b.did] != b)
    && (forall b :: b in view && t.best[b.did] != b ==> b.pid in t.losers)
    && (forall p :: p in t.losers ==> exists b :: b in view && b.pid == p)
  }

  lemma DistinctFront(front: seq<Blob>, b: Blob)
    requires DistinctPids(front + [b])
    ensures DistinctPids(front)
    ensures forall c, d :: c in front && d in front && c.pid == d.pid ==> c == d
    ensures forall c :: c in front ==> c.pid != b.pid
  {
    var view := front + [b];
    forall i, j | 0 <= i < j < |front| ensures front[i].pid != front[j].pid {
      assert view[i] == front[i] && view[j] == front[j];
    }
    forall i | 0 <= i < |front| ensures front[i].pid != b.pid {
      assert view[i] == front[i] && view[|front|] == b;
    }
  }

  /** The winner of each daemon has its greatest time stamp, and everything else of it loses. */
  lemma {:induction false} ElectionIsSound(view: seq<Blob>)
    requires DistinctPids(view)
    ensures Elected(view, Elect(view))
  {
    if view != [] {
      hide Elected, Count, DistinctPids;
      var front, b := view[..|view| - 1], view[|view| - 1];
      assert view == front + [b];
      DistinctFront(front, b);
      ElectionIsSound(front);
      ElectionStep(front, b, Elect(front));
    }
  }

  lemma ElectionStep(front: seq<Blob>, b: Blob, t: Tally)
    requires Elected(front, t) && forall c :: c in front ==> c.pid != b.pid
    requires forall c, d :: c in front && d in front && c.pid == d.pid ==> c == d
    ensures Elected(front + [b], Count(t, b))
  {
    var view, u := front + [b], Count(t, b);
    forall c ensures c in view <==> c in front || c == b {
    }
    forall p | p in u.losers ensures exists c :: c in view && c.pid == p {
      if p in t.losers {
        var c :| c in front && c.pid == p;
        assert c in view;
      } else if p == b.pid {
        assert b in view;
      } else {
        assert t.best[b.did] in view && t.best[b.did].pid == p;
      }
    }
    assert b.pid !in t.losers;
    forall c | c in view ensures c.pid in u.losers <==> u.best[c.did] != c {
      if c != b && b.did in t.best {
        assert t.best[b.did] in front;
        assert c.pid == t.best[b.did].pid ==> c == t.best[b.did];
      }
    }
  }

  // The snapshot's collapse: the newest in the total order.

  function Prefer(m: map<Did, Blob>, b: Blob): map<Did, Blob> {
    if b.did in m && !Newer(b, m[b.did]) then m else m[b.did := b]
  }

  function Collapse(view: seq<Blob>): map<Did, Blob> {
    if view == [] then map[] else Prefer(Collapse(view[..|view| - 1]), view[|view| - 1])
  }

  ghost predicate Collapsed(view: seq<Blob>, m: map<Did, Blob>) {
    && (forall b :: b in view ==> b.did in m && !Newer(b, m[b.did]))
    && (forall d :: d in m ==> m[d] in view && m[d].did == d)
  }

  lemma {:induction false} CollapseIsNewest(view: seq<Blob>)
    ensures Collapsed(view, Collapse(view))
  {
    if view != [] {
      var front, b := view[..|view| - 1], view[|view| - 1];
      CollapseIsNewest(front);
      var m, n := Collapse(front), Collapse(view);
      assert view == front + [b];
      forall c | c in view ensures c.did in n && !Newer(c, n[c.did]) {
        NewerIsTotal(c, c);
        if c != b && c.did == b.did && Newer(b, m[b.did]) && Newer(c, b) {
          NewerIsTransitive(c, b, m[b.did]);
        }
      }
    }
  }

  /** Of a daemon's records the snapshot takes one of the latest time, and of those one of the greatest pairing id. */
  lemma CollapseIsLatest(view: seq<Blob>)
    ensures var m := Collapse(view);
            && (forall d :: d in m ==> m[d] in view && m[d].did == d)
            && (forall b :: b in view ==> b.did in m && b.ts <= m[b.did].ts
                                          && (b.ts == m[b.did].ts ==> Lexical.AtMost(b.pid, m[b.did].pid)))
  {
    CollapseIsNewest(view);
    var m := Collapse(view);
    hide Collapse;
    forall b | b in view ensures b.ts == m[b.did].ts ==> Lexical.AtMost(b.pid, m[b.did].pid) {
      Lexical.Total(b.pid, m[b.did].pid);
    }
  }

  /** Records equal in time and id are the same record. */
  ghost predicate OneRecordPerKey(view: seq<Blob>) {
    forall a, b :: a in view && b in view && a.ts == b.ts && a.pid == b.pid ==> a == b
  }

  /** The newest record per daemon does not depend on the order of the enumeration. */
  lemma CollapseIgnoresOrder(view: seq<Blob>, other: seq<Blob>)
    requires OneRecordPerKey(view) && forall b :: b in view <==> b in other
    ensures Collapse(view) == Collapse(other)
  {
    CollapseIsNewest(view);
    CollapseIsNewest(other);
    var m, n := Collapse(view), Collapse(other);
    forall d | d in m ensures d in n && m[d] == n[d] {
      assert m[d] in view && m[d] in other && n[d] in other;
      NewerIsTotal(m[d], n[d]);
    }
    forall d | d in n ensures d in m {
      assert n[d] in view;
    }
  }

  /** Where a daemon's records all differ in time, reconcile and snapshot agree on its current one. */
  lemma ElectionAgreesWithCollapse(view: seq<Blob>)
    requires DistinctPids(view)
    requires forall a, b :: a in view && b in view && a.did == b.did && a.ts == b.ts ==> a == b
    ensures Elect(view).best == Collapse(view)
  {
    ElectionIsSound(view);
    CollapseIsNewest(view);
    var m, n := Elect(view).best, Collapse(view);
    forall d | d in m ensures d in n && m[d] == n[d] {
      assert m[d] in view && n[d] in view;
      assert n[d].ts <= m[d].ts;
    }
    forall d | d in n ensures d in m {
      assert n[d] in view;
    }
  }
}
