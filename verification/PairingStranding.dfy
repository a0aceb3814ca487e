/**
 * How a snapshot can take one of its own daemons off the list, or leave its pointer at a tombstoned id: a read that
 * shows too little, or a failed save.
 */
module PairingStranding {
  import opened Common
  import opened PairingRecords
  import opened PairingState
  import opened PairingReconcile
  import opened PairingMirror
  import opened PairingMirrorSafety
  import opened PairingConvergence
  import opened PairingRuns
  import opened PairingListing

  /** A daemon's record in a snapshot, with the unchanging record of another daemon or alone. */
  function Sent(d: Did, e: Did, alone: bool, pid: Pid, ts: int): Snapshot {
    Snapshot(SCHEMA, [Blob(d, pid, ts, "")] + (if alone then [] else [Blob(e, "E", 1, "")]), map[])
  }

  function Received(d: Did, e: Did, alone: bool, pid: Pid, ts: int): map<Did, Blob> {
    if alone then map[d := Blob(d, pid, ts, "")] else map[d := Blob(d, pid, ts, ""), e := Blob(e, "E", 1, "")]
  }

  lemma SentCollapses(d: Did, e: Did, alone: bool, pid: Pid, ts: int)
    requires d != e
    ensures Collapse(Sent(d, e, alone, pid, ts).pairings) == Received(d, e, alone, pid, ts)
  {
    var b, c := Blob(d, pid, ts, ""), Blob(e, "E", 1, "");
    assert [b][..0] == [] && Collapse([b]) == map[d := b];
    if !alone {
      assert ([b] + [c])[..1] == [b];
    }
  }

  lemma SentFacts(owner: Pid -> Did, d: Did, e: Did, alone: bool)
    requires owner("P") == owner("Q") == d && owner("E") == e && d != e
    ensures forall pid, ts :: pid in {"P", "Q"} ==> OwnedSnapshot(owner, Sent(d, e, alone, pid, ts))
    ensures NeverBack(map[], Received(d, e, alone, "P", 1))
            && NeverBack(Received(d, e, alone, "P", 1), Received(d, e, alone, "Q", 2))
    ensures map[] + Received(d, e, alone, "P", 1) == Received(d, e, alone, "P", 1)
    ensures Received(d, e, alone, "P", 1) + Received(d, e, alone, "Q", 2) == Received(d, e, alone, "Q", 2)
  {
  }

  /** A fair snapshot whose saves all succeed, applied. */
  lemma Arrives(legacy: Did -> Pid, owner: Pid -> Did, s: Store, last: map<Did, Blob>, snap: Snapshot,
                next: map<Did, Blob>)
    returns (w: Weather, t: Store)
    requires WellFormed(s) && Owned(legacy, owner, s) && OwnedSnapshot(owner, snap) && Follows(s, last)
             && Settled(s, last)
    requires snap.schema <= SCHEMA && Collapse(snap.pairings) == next && NeverBack(last, next)
    ensures Clear(legacy, s, snap, w) && t == SnapshotApplied(legacy, s, snap, w)
    ensures WellFormed(t) && Owned(legacy, owner, t) && Follows(t, last + next) && Settled(t, last + next)
    ensures forall x :: x in t.ptr.index <==> x in next
    ensures forall q :: q in s.items ==> q in t.items
  {
    hide WellFormed, Owned, OwnedSnapshot, Collapse, NeverBack, Clear, SnapshotApplied, Follows, Settled;
    w := ClearWeatherExists(legacy, owner, s, snap);
    ClearIsFair(legacy, owner, s, snap, w);
    t := SnapshotApplied(legacy, s, snap, w);
    SnapshotSettles(legacy, owner, s, last, snap, w);
    forall q | q in s.items ensures q in t.items {
      ClearLosesNothing(legacy, owner, s, last, snap, w, q);
    }
  }

  lemma BlankSettles(legacy: Did -> Pid, owner: Pid -> Did)
    requires OwnedLegacy(legacy, owner)
    ensures WellFormed(FRESH) && Owned(legacy, owner, FRESH) && Follows(FRESH, map[]) && Settled(FRESH, map[])
  {
  }

  /** P then Q arrive and are kept; the daemon points at Q, and P is still stored. */
  lemma TwoArrive(legacy: Did -> Pid, owner: Pid -> Did, d: Did, e: Did, alone: bool)
      returns (w1: Weather, w2: Weather, s1: Store, s2: Store)
    requires OwnedLegacy(legacy, owner) && owner("P") == owner("Q") == d && owner("E") == e && d != e
    ensures Clear(legacy, FRESH, Sent(d, e, alone, "P", 1), w1)
            && s1 == SnapshotApplied(legacy, FRESH, Sent(d, e, alone, "P", 1), w1)
    ensures Clear(legacy, s1, Sent(d, e, alone, "Q", 2), w2)
            && s2 == SnapshotApplied(legacy, s1, Sent(d, e, alone, "Q", 2), w2)
    ensures "P" in s2.items && d in s2.ptr.index
    ensures WellFormed(s1) && Owned(legacy, owner, s1) && WellFormed(s2) && Owned(legacy, owner, s2)
    ensures Follows(s2, Received(d, e, alone, "Q", 2)) && Settled(s2, Received(d, e, alone, "Q", 2))
  {
    var m1, m2 := Received(d, e, alone, "P", 1), Received(d, e, alone, "Q", 2);
    SentCollapses(d, e, alone, "P", 1);
    SentCollapses(d, e, alone, "Q", 2);
    SentFacts(owner, d, e, alone);
    BlankSettles(legacy, owner);
    hide WellFormed, Owned, OwnedSnapshot, Collapse, NeverBack, Clear, SnapshotApplied, Settled, Follows;
    w1, s1 := Arrives(legacy, owner, FRESH, map[], Sent(d, e, alone, "P", 1), m1);
    NewestIsStored(s1, m1, d);
    w2, s2 := Arrives(legacy, owner, s1, m1, Sent(d, e, alone, "Q", 2), m2);
  }

  lemma NewestIsStored(s: Store, last: map<Did, Blob>, d: Did)
    requires Follows(s, last) && d in last
    ensures last[d].pid in s.items
  {
  }

  /** P written again and not saved strands the daemon, which points at Q. */
  lemma ThirdStrands(legacy: Did -> Pid, owner: Pid -> Did, d: Did, e: Did, alone: bool, s: Store)
    requires d != e && owner("P") == owner("Q") == d && owner("E") == e
    requires WellFormed(s) && Owned(legacy, owner, s) && "P" in s.items && d in s.ptr.index
    requires Follows(s, Received(d, e, alone, "Q", 2)) && Settled(s, Received(d, e, alone, "Q", 2))
    ensures Strands(s, Blob(d, "P", 3, ""), false) && !ShowsAfterwards(legacy, s, Blob(d, "P", 3, ""), false)
    ensures PointsOpenly(s, d)
  {
    var b, last := Blob(d, "P", 3, ""), Received(d, e, alone, "Q", 2);
    assert s.items["P"].did == d;
    forall q | q in Others(s.items, b) ensures Newer(b, s.items[q]) {
    }
    assert Newer(b, s.items["P"]);
    assert last[d].pid == "Q" && s.items["Q"] == last[d] && "Q" in Others(s.items, b);
  }

  /** The other daemon's record, if it came, is shown. */
  lemma OtherIsShown(legacy: Did -> Pid, d: Did, e: Did, alone: bool, s: Store)
    requires d != e && Follows(s, Received(d, e, alone, "Q", 2)) && Settled(s, Received(d, e, alone, "Q", 2))
    ensures !alone ==> ShowsAfterwards(legacy, s, Blob(e, "E", 1, ""), true)
    ensures alone ==> forall q :: Shows(s, q) ==> s.items[q].did == d
  {
    var last := Received(d, e, alone, "Q", 2);
    if !alone {
      var c := Blob(e, "E", 1, "");
      assert last[e] == c && s.items["E"] == c;
      NewerIsTotal(c, c);
    }
  }

  /** The third snapshot, with only the other daemon's save succeeding. */
  lemma ThirdSent(legacy: Did -> Pid, owner: Pid -> Did, d: Did, e: Did, alone: bool, s: Store)
      returns (w: Weather, t: Store)
    requires d != e && owner("P") == owner("Q") == d && owner("E") == e
    requires Sound(legacy, owner, s) && "P" in s.items && d in s.ptr.index
    requires Follows(s, Received(d, e, alone, "Q", 2)) && Settled(s, Received(d, e, alone, "Q", 2))
    ensures OwnedApplication(owner, Sent(d, e, alone, "P", 3), w)
            && t == SnapshotApplied(legacy, s, Sent(d, e, alone, "P", 3), w)
    ensures Fair(legacy, s, Sent(d, e, alone, "P", 3), w) && Openly(s, d)
    ensures if alone then d in t.ptr.index && t.ptr.index[d] in t.hidden else d !in t.ptr.index
  {
    var r := Sent(d, e, alone, "P", 3);
    SentCollapses(d, e, alone, "P", 3);
    SentFacts(owner, d, e, alone);
    ThirdStrands(legacy, owner, d, e, alone, s);
    OtherIsShown(legacy, d, e, alone, s);
    w := FairWeatherExists(legacy, owner, s, r, {"E"});
    WeatherIsFair(legacy, owner, s, r, w);
    hide Sound, Collapse, SnapshotApplied, Strands, ShowsAfterwards, Follows, Settled, OwnedApplication,
         NothingShownAfter, NeverBack;
    NothingShownIff(legacy, s, r, w, d, e, alone);
    ThirdApplied(legacy, owner, s, r, w, d, alone);
    t := SnapshotApplied(legacy, s, r, w);
  }

  /**
   * Three snapshots, each carrying the daemon and each read as the keychain is. Sent alone the daemon ends listed at a
   * tombstoned id; sent along with another it leaves the list.
   */
  ghost predicate EndsStranded(legacy: Did -> Pid, owner: Pid -> Did, events: seq<Event>, states: seq<Store>, d: Did,
                               alone: bool) {
    && Run(legacy, owner, events, states) && |events| == 3
    && (forall k :: 0 <= k < 3 ==> events[k].Applying? && d in Collapse(events[k].snap.pairings))
    && (forall k :: 0 <= k < 3 ==> Fair(legacy, states[k], events[k].snap, events[k].w)) && Openly(states[2], d)
    && if alone then d in states[3].ptr.index && states[3].ptr.index[d] in states[3].hidden
       else d !in states[3].ptr.index
  }

  /** P, Q and P again are sent, and the last save fails. */
  lemma StrandingHappens(legacy: Did -> Pid, owner: Pid -> Did, d: Did, e: Did, alone: bool)
    requires OwnedLegacy(legacy, owner) && owner("P") == owner("Q") == d && owner("E") == e && d != e
    ensures exists events, states :: EndsStranded(legacy, owner, events, states, d, alone)
  {
    hide WellFormed, Owned, OwnedSnapshot, Collapse, SnapshotApplied, Follows, Settled, Clear, Fair, OwnedApplication,
         Run, Openly, Sent, Received, Sound, EndsStranded, ThreeOf;
    var p, q, r := Sent(d, e, alone, "P", 1), Sent(d, e, alone, "Q", 2), Sent(d, e, alone, "P", 3);
    SentCarries(d, e, alone, "P", 1);
    SentCarries(d, e, alone, "Q", 2);
    SentCarries(d, e, alone, "P", 3);
    var w1, w2, s1, s2 := TwoArrive(legacy, owner, d, e, alone);
    TwoAreFair(legacy, owner, d, e, alone, w1, w2, s1, s2);
    var w3, s3 := ThirdSent(legacy, owner, d, e, alone, s2);
    ThreeSteps(legacy, owner, p, q, r, w1, w2, w3, s1, s2, s3);
    EndsSo(legacy, owner, p, q, r, w1, w2, w3, s1, s2, s3, d, alone);
  }

  lemma SentCarries(d: Did, e: Did, alone: bool, pid: Pid, ts: int)
    requires d != e
    ensures Sent(d, e, alone, pid, ts).schema == SCHEMA && d in Collapse(Sent(d, e, alone, pid, ts).pairings)
  {
    SentCollapses(d, e, alone, pid, ts);
  }

  lemma EndsSo(legacy: Did -> Pid, owner: Pid -> Did, p: Snapshot, q: Snapshot, r: Snapshot, w1: Weather, w2: Weather,
               w3: Weather, s1: Store, s2: Store, s3: Store, d: Did, alone: bool)
    requires Run(legacy, owner, ThreeOf(Applying(p, w1), Applying(q, w2), Applying(r, w3)), [FRESH, s1, s2, s3])
    requires d in Collapse(p.pairings) && d in Collapse(q.pairings) && d in Collapse(r.pairings)
    requires Fair(legacy, FRESH, p, w1) && Fair(legacy, s1, q, w2) && Fair(legacy, s2, r, w3) && Openly(s2, d)
    requires if alone then d in s3.ptr.index && s3.ptr.index[d] in s3.hidden else d !in s3.ptr.index
    ensures EndsStranded(legacy, owner, ThreeOf(Applying(p, w1), Applying(q, w2), Applying(r, w3)), [FRESH, s1, s2, s3],
                         d, alone)
  {
    hide Run, Fair, Openly, Collapse;
  }

  function ThreeOf(a: Event, b: Event, c: Event): (r: seq<Event>)
    ensures |r| == 3 && r[0] == a && r[1] == b && r[2] == c
  {
    [a, b, c]
  }

  lemma TwoAreFair(legacy: Did -> Pid, owner: Pid -> Did, d: Did, e: Did, alone: bool, w1: Weather, w2: Weather,
                   s1: Store, s2: Store)
    requires OwnedLegacy(legacy, owner) && owner("P") == owner("Q") == d && owner("E") == e && d != e
    requires Clear(legacy, FRESH, Sent(d, e, alone, "P", 1), w1)
             && s1 == SnapshotApplied(legacy, FRESH, Sent(d, e, alone, "P", 1), w1)
    requires Clear(legacy, s1, Sent(d, e, alone, "Q", 2), w2)
             && s2 == SnapshotApplied(legacy, s1, Sent(d, e, alone, "Q", 2), w2)
    requires WellFormed(s1) && Owned(legacy, owner, s1)
    ensures OwnedApplication(owner, Sent(d, e, alone, "P", 1), w1)
    ensures OwnedApplication(owner, Sent(d, e, alone, "Q", 2), w2)
    ensures Sound(legacy, owner, s2)
    ensures Fair(legacy, FRESH, Sent(d, e, alone, "P", 1), w1) && Fair(legacy, s1, Sent(d, e, alone, "Q", 2), w2)
  {
    SentFacts(owner, d, e, alone);
    BlankSettles(legacy, owner);
    assert Sound(legacy, owner, FRESH);
    hide WellFormed, Owned, OwnedSnapshot, SnapshotApplied, Clear, Collapse, Sound;
    ClearIsFair(legacy, owner, FRESH, Sent(d, e, alone, "P", 1), w1);
    ClearIsFair(legacy, owner, s1, Sent(d, e, alone, "Q", 2), w2);
    ApplyingKeepsSound(legacy, owner, FRESH, Sent(d, e, alone, "P", 1), w1);
    ApplyingKeepsSound(legacy, owner, s1, Sent(d, e, alone, "Q", 2), w2);
  }

  lemma ThirdApplied(legacy: Did -> Pid, owner: Pid -> Did, s: Store, r: Snapshot, w: Weather, d: Did, alone: bool)
    requires Sound(legacy, owner, s) && OwnedApplication(owner, r, w) && Fair(legacy, s, r, w) && r.schema <= SCHEMA
    requires d in s.ptr.index && PointsOpenly(s, d) && d in Collapse(r.pairings)
    requires Collapse(r.pairings)[d] == Blob(d, "P", 3, "") && Strands(s, Blob(d, "P", 3, ""), false)
             && w.saved == {"E"}
    requires NothingShownAfter(legacy, s, r, w) <==> alone
    ensures var t := SnapshotApplied(legacy, s, r, w);
            if alone then d in t.ptr.index && t.ptr.index[d] in t.hidden else d !in t.ptr.index
  {
    assert "P"[0] != "E"[0];
    assert "P" !in w.saved;
    FairParts(legacy, s, r, w);
    hide Sound, Fair, OwnedApplication, Collapse, NothingShownAfter, SnapshotApplied, Strands;
    FaithfulListsIff(legacy, owner, s, r, w, d);
  }

  lemma NothingShownIff(legacy: Did -> Pid, s: Store, r: Snapshot, w: Weather, d: Did, e: Did, alone: bool)
    requires d != e && Collapse(r.pairings) == Received(d, e, alone, "P", 3) && w.saved == {"E"}
    requires !ShowsAfterwards(legacy, s, Blob(d, "P", 3, ""), false)
    requires !alone ==> ShowsAfterwards(legacy, s, Blob(e, "E", 1, ""), true)
    requires alone ==> forall q :: Shows(s, q) ==> s.items[q].did == d
    ensures NothingShownAfter(legacy, s, r, w) <==> alone
  {
    hide Collapse, ShowsAfterwards;
    assert "P"[0] != "E"[0];
    assert "P" !in w.saved && "E" in w.saved;
    var m := Collapse(r.pairings);
    assert !alone ==> e in m && m[e] == Blob(e, "E", 1, "");
  }

  lemma ClearIsFair(legacy: Did -> Pid, owner: Pid -> Did, s: Store, snap: Snapshot, w: Weather)
    requires WellFormed(s) && Owned(legacy, owner, s) && OwnedSnapshot(owner, snap) && Clear(legacy, s, snap, w)
    ensures OwnedApplication(owner, snap, w) && Fair(legacy, s, snap, w)
  {
    ClearParts(legacy, s, snap, w);
    WeatherIsFair(legacy, owner, s, snap, w);
  }

  lemma WeatherIsFair(legacy: Did -> Pid, owner: Pid -> Did, s: Store, snap: Snapshot, w: Weather)
    requires WellFormed(s) && Owned(legacy, owner, s) && OwnedSnapshot(owner, snap)
    requires Fair(legacy, s, snap, w) && Readable(w.rest, AfterAdoption(legacy, s, snap, w).items)
    ensures OwnedApplication(owner, snap, w)
  {
    var items := AfterAdoption(legacy, s, snap, w).items;
    AfterAdoptionFrame(legacy, owner, s, snap, w);
    EnumerationIsOwned(owner, w.recon.value, items);
    hide AfterAdoption, Enumerates, Collapse, Distinct;
    forall d ensures OwnedEnumeration(owner, w.rest(d)) {
      EnumerationIsOwned(owner, w.rest(d).value, items);
    }
  }

  lemma ThreeSteps(legacy: Did -> Pid, owner: Pid -> Did, p: Snapshot, q: Snapshot, r: Snapshot, w1: Weather,
                   w2: Weather, w3: Weather, s1: Store, s2: Store, s3: Store)
    requires p.schema == q.schema == r.schema == SCHEMA
    requires OwnedApplication(owner, p, w1) && s1 == SnapshotApplied(legacy, FRESH, p, w1)
    requires OwnedApplication(owner, q, w2) && s2 == SnapshotApplied(legacy, s1, q, w2)
    requires OwnedApplication(owner, r, w3) && s3 == SnapshotApplied(legacy, s2, r, w3)
    ensures Run(legacy, owner, ThreeOf(Applying(p, w1), Applying(q, w2), Applying(r, w3)), [FRESH, s1, s2, s3])
  {
    hide OwnedApplication, SnapshotApplied, Step, ThreeOf;
    ApplyingIsStep(legacy, owner, FRESH, p, w1, s1);
    ApplyingIsStep(legacy, owner, s1, q, w2, s2);
    ApplyingIsStep(legacy, owner, s2, r, w3, s3);
    var events, states := ThreeOf(Applying(p, w1), Applying(q, w2), Applying(r, w3)), [FRESH, s1, s2, s3];
    forall i | 0 <= i < |events| ensures Step(legacy, owner, states[i], events[i], states[i + 1]) {
      assert i == 0 || i == 1 || i == 2;
    }
  }

  lemma ApplyingIsStep(legacy: Did -> Pid, owner: Pid -> Did, s: Store, snap: Snapshot, w: Weather, t: Store)
    requires snap.schema <= SCHEMA && OwnedApplication(owner, snap, w) && t == SnapshotApplied(legacy, s, snap, w)
    ensures Step(legacy, owner, s, Applying(snap, w), t)
  {
    ApplicationWalks(owner, snap, w);
    hide OwnedApplication, SnapshotApplied, Walks;
  }

  // A read that shows too little.

  /** Two records of one daemon, the older tombstoned, and one of another. */
  ghost function Twice(d: Did, e: Did): Store {
    FRESH.(items := map["P" := Blob(d, "P", 1, ""), "Q" := Blob(d, "Q", 2, ""), "E" := Blob(e, "E", 1, "")],
           hidden := {"P"}, ptr := Pointers([d, e], map[d := "Q", e := "E"]))
  }

  lemma TwiceIsQuiet(legacy: Did -> Pid, owner: Pid -> Did, d: Did, e: Did)
    requires OwnedLegacy(legacy, owner) && owner("P") == owner("Q") == d && owner("E") == e && d != e
    ensures var s := Twice(d, e);
            Sound(legacy, owner, s) && OneShownPerDaemon(s) && NoHiddenPointer(s) && Openly(s, d) && Openly(s, e)
  {
  }

  lemma TwiceOvertakes(d: Did, e: Did, w: Weather)
    requires d != e && w.local == Some(Twice(d, e).items)
    ensures var m := Collapse(Sent(d, e, false, "P", 1).pairings);
            m.Keys == {d, e} && m[d] == Blob(d, "P", 1, "") && m[e] == Blob(e, "E", 1, "")
    ensures OvertakenIn(Twice(d, e), Sent(d, e, false, "P", 1), w, d)
  {
    var s, b := Twice(d, e), Blob(d, "P", 1, "");
    SentCollapses(d, e, false, "P", 1);
    NewerIsTotal(b, b);
    assert "Q" in Others(s.items, b) && Overtaken(s, s.items, b, "P" in w.saved);
  }

  lemma TwiceStaysShown(legacy: Did -> Pid, d: Did, e: Did, w: Weather)
    requires d != e && w.local == Some(Twice(d, e).items)
    ensures !StaysHidden(legacy, Twice(d, e), Sent(d, e, false, "P", 1), w, Blob(e, "E", 1, ""))
  {
    var c := Blob(e, "E", 1, "");
    SentCollapses(d, e, false, "P", 1);
    NewerIsTotal(c, c);
    assert Others(Twice(d, e).items, c) == {};
  }

  /**
   * The older record is sent again, together with the other daemon's. Nothing needs saving, yet the newer record has
   * been hidden by the time the application reconciles. Shown only the other daemon's record it takes this one off the
   * list; shown nothing, or refused, it leaves the pointer at the hidden record.
   */
  lemma ShortReadUnlists(legacy: Did -> Pid, owner: Pid -> Did, d: Did, e: Did, w: Weather)
    requires OwnedLegacy(legacy, owner) && owner("P") == owner("Q") == d && owner("E") == e && d != e
    requires OwnedApplication(owner, Sent(d, e, false, "P", 1), w) && w.local == Some(Twice(d, e).items)
    ensures var t := SnapshotApplied(legacy, Twice(d, e), Sent(d, e, false, "P", 1), w);
            && Openly(Twice(d, e), d) && d in Collapse(Sent(d, e, false, "P", 1).pairings)
            && (w.recon == Some([Blob(e, "E", 1, "")]) ==> d !in t.ptr.index)
            && (w.recon in {None, Some([])} ==> !PointsOpenly(t, d))
  {
    var s, snap := Twice(d, e), Sent(d, e, false, "P", 1);
    var b, c, q := Blob(d, "P", 1, ""), Blob(e, "E", 1, ""), Blob(d, "Q", 2, "");
    hide Sound, OwnedApplication, Collapse, SnapshotApplied, OvertakenIn, StaysHidden, Openly, OwnedLegacy;
    TwiceIsQuiet(legacy, owner, d, e);
    TwiceOvertakes(d, e, w);
    TwiceStaysShown(legacy, d, e, w);
    assert "P"[0] != "E"[0];
    ApplyingListsIff(legacy, owner, s, snap, w, d);
    if w.recon == Some([c]) {
      assert c in w.recon.value;
      assert Unseen(legacy, s, snap, w, d);
    }
  }
}
