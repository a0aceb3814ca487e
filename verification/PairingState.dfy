/**
 * The pairing store as a value, and what each operation does to it. Where the source depends on an order or
 * an outcome it does not control (an enumeration's order, a dictionary's, whether a save succeeds), that is an
 * argument here. `legacy` is the derivation of a pairing id from a daemon id.
 */
module PairingState {
  import opened Common
  import opened PairingRecords
  import Lexical

  /** The device-local index: daemons in display order, each with its current pairing id. */
  datatype Pointers = Pointers(order: seq<Did>, index: map<Did, Pid>)

  datatype Sidecar = Sidecar(floor: Option<int>, confirmedPct: Option<string>)

  datatype Pairing = Pairing(did: Did, pid: Pid, version: nat, minV: int, payload: string)

  datatype Pending = Pending(pairing: Pairing, createdAt: int)

  datatype Store = Store(
    items: map<Pid, Blob>, locked: bool, removals: seq<Pid>,
    ptr: Pointers, lastGood: Option<Pointers>, hidden: set<Pid>,
    sidecars: map<Did, Sidecar>,
    pending: map<Pid, Pending>, pendingOrder: seq<Pid>)

  const NO_POINTERS := Pointers([], map[])

  /** A fresh install over an empty keychain. */
  const FRESH := Store(map[], false, [], NO_POINTERS, None, {}, map[], map[], [])

  // Pointers.

  function Without(order: seq<string>, x: string): seq<string> {
    if order == [] then []
    else Without(order[..|order| - 1], x) + (if order[|order| - 1] == x then [] else [order[|order| - 1]])
  }

  function Pointed(p: Pointers, did: Did, pid: Pid): Pointers {
    Pointers(if did in p.index then p.order else p.order + [did], p.index[did := pid])
  }

  function Dropped(p: Pointers, did: Did): Pointers {
    Pointers(Without(p.order, did), p.index - {did})
  }

  function Write(s: Store, p: Pointers): Store {
    s.(ptr := p, lastGood := Some(p))
  }

  // Reconciliation of the index against one enumeration.

  /** The pairing id a listed daemon resolves to: its elected record, or else its old pointer. */
  function Resolved(index: map<Did, Pid>, best: map<Did, Blob>, did: Did): Pid {
    if did in best then best[did].pid else if did in index then index[did] else ""
  }

  function Kept(p: Pointers, best: map<Did, Blob>, hidden: set<Pid>, order: seq<Did>): seq<Did> {
    if order == [] then []
    else
      var did := order[|order| - 1];
      Kept(p, best, hidden, order[..|order| - 1]) +
      (if Resolved(p.index, best, did) in hidden then [] else [did])
  }

  ghost function Rebuilt(p: Pointers, best: map<Did, Blob>, hidden: set<Pid>): Pointers {
    var kept := Kept(p, best, hidden, p.order);
    var order := kept + Lexical.Sorted(best.Keys - (set d | d in kept));
    Pointers(order, map d | d in order :: Resolved(p.index, best, d))
  }

  function Swept(s: Store, pids: seq<Pid>): Store {
    var gone := set p | p in pids;
    s.(items := s.items - gone, removals := s.removals + pids, hidden := s.hidden - gone)
  }

  /** `reconciledPointers` on what one enumeration showed, `None` when the keychain was locked. */
  ghost function Reconciled(s: Store, view: Option<seq<Blob>>): (Store, Pointers) {
    if view.None? then
      (s, s.lastGood.GetOr(s.ptr))
    else
      var blobs := Shown(view.value, s.hidden);
      if blobs == [] then
        (if s.ptr.order == [] then s else s.(lastGood := Some(s.ptr)), s.ptr)
      else
        var t := Elect(blobs);
        var p := Rebuilt(s.ptr, t.best, s.hidden);
        (Write(Swept(s, t.losers), p), p)
  }

  // Hiding and unpairing.

  function PidsOf(view: seq<Blob>, did: Did): seq<Pid> {
    if view == [] then []
    else PidsOf(view[..|view| - 1], did) + (if view[|view| - 1].did == did then [view[|view| - 1].pid] else [])
  }

  /** The daemon's pairing ids in an enumeration, or failing that its pointer. */
  function PidsFor(p: Pointers, view: Option<seq<Blob>>, did: Did): seq<Pid> {
    var found := if view.Some? then PidsOf(view.value, did) else [];
    if found != [] then found else if did in p.index then [p.index[did]] else []
  }

  function PendingOf(s: Store, did: Did, ids: seq<Pid>): seq<Pid> {
    if ids == [] then []
    else
      var pid := ids[|ids| - 1];
      PendingOf(s, did, ids[..|ids| - 1]) +
      (if pid in s.pending && s.pending[pid].pairing.did == did then [pid] else [])
  }

  function PendingRemoved(s: Store, pid: Pid): Store {
    s.(pending := s.pending - {pid}, pendingOrder := Without(s.pendingOrder, pid))
  }

  function PendingSwept(s: Store, ids: seq<Pid>): Store {
    if ids == [] then s else PendingRemoved(PendingSwept(s, ids[..|ids| - 1]), ids[|ids| - 1])
  }

  /** `hideLocally`: tombstone the daemon's ids, drop its pointer and its pending pairings; delete nothing. */
  function Hidden(s: Store, did: Did, view: Option<seq<Blob>>): Store {
    var tombs := set p | p in PidsFor(s.ptr, view, did);
    var s1 := Write(s.(hidden := s.hidden + tombs), Dropped(s.ptr, did));
    PendingSwept(s1, PendingOf(s, did, s.pendingOrder))
  }

  function Unhidden(legacy: Did -> Pid, hidden: set<Pid>, did: Did, pid: Pid): set<Pid> {
    hidden - {pid, legacy(did)}
  }

  /** `remove`: delete the daemon's records, sidecar and pointer everywhere. */
  function Unpaired(legacy: Did -> Pid, s: Store, did: Did, view: Option<seq<Blob>>): Store {
    var s1 := Swept(s, PidsFor(s.ptr, view, did));
    Write(s1.(hidden := s1.hidden - {legacy(did)}, sidecars := s1.sidecars - {did}), Dropped(s.ptr, did))
  }

  // Ingest and commit.

  /** What decoding a link yields: a version 4 link starts at floor 3, older ones at 0 with a derived id. */
  function Decoded(legacy: Did -> Pid, did: Did, explicit: Pid, version: nat, payload: string): Pairing {
    Pairing(did, if explicit == "" then legacy(did) else explicit, version, if version >= 4 then 3 else 0, payload)
  }

  /** `ingest`: un-hide at once, then record the pending pairing if its secret could be stored. */
  function Ingested(legacy: Did -> Pid, s: Store, p: Pairing, now: int, secretOk: bool): Store {
    var s1 := s.(hidden := Unhidden(legacy, s.hidden, p.did, p.pid));
    if !secretOk then s1
    else s1.(pending := s1.pending[p.pid := Pending(p, now)],
             pendingOrder := if p.pid in s1.pendingOrder then s1.pendingOrder else s1.pendingOrder + [p.pid])
  }

  /** A missing sidecar or floor reads as 0. */
  function FloorIn(sidecars: map<Did, Sidecar>, did: Did): int {
    if did in sidecars then sidecars[did].floor.GetOr(0) else 0
  }

  function FloorOf(s: Store, did: Did): int {
    FloorIn(s.sidecars, did)
  }

  function PctOf(s: Store, did: Did): Option<string> {
    if did in s.sidecars then s.sidecars[did].confirmedPct else None
  }

  function BlobOf(p: Pairing, now: int): Blob {
    Blob(p.did, p.pid, now, p.payload)
  }

  /** `persist` after its save succeeded: repoint, un-hide, sweep the daemon's other records, raise the floor. */
  function Persisted(legacy: Did -> Pid, s: Store, p: Pairing, now: int, view: Option<seq<Blob>>): Store {
    var s1 := Write(s.(items := s.items[p.pid := BlobOf(p, now)]), Pointed(s.ptr, p.did, p.pid));
    var s2 := s1.(hidden := Unhidden(legacy, s1.hidden, p.did, p.pid));
    var s3 := Swept(s2, Without(PidsFor(s2.ptr, view, p.did), p.pid));
    var floor := if p.minV > FloorOf(s3, p.did) then p.minV else FloorOf(s3, p.did);
    s3.(sidecars := s3.sidecars[p.did := Sidecar(Some(floor), PctOf(s3, p.did))])
  }

  /** A failed save has already deleted the record it meant to replace. */
  function SaveFailed(s: Store, pid: Pid): Store {
    s.(items := s.items - {pid})
  }

  datatype Promotion = NothingPending | Failed | Committed

  /** `promote`: a pending record becomes a committed one, or nothing of it is lost. */
  function Promoted(legacy: Did -> Pid, s: Store, pid: Pid, now: int, secretOk: bool, saveOk: bool,
                    view: Option<seq<Blob>>): (Store, Promotion)
  {
    if pid !in s.pending then (s, NothingPending)
    else if !secretOk then (s, Failed)
    else
      var p := s.pending[pid].pairing;
      if !saveOk then (SaveFailed(s, p.pid), Failed)
      else (PendingRemoved(Persisted(legacy, s, p, now, view), pid), Committed)
  }

  // Floors.

  function PendingFloorRaised(s: Store, pid: Pid, v: int): Store {
    if pid in s.pending && v > s.pending[pid].pairing.minV
    then s.(pending := s.pending[pid := s.pending[pid].(pairing := s.pending[pid].pairing.(minV := v))])
    else s
  }

  function FloorRaised(s: Store, did: Did, v: int): Store {
    if did in s.sidecars && v > FloorOf(s, did)
    then s.(sidecars := s.sidecars[did := s.sidecars[did].(floor := Some(v))])
    else s
  }

  function PctRecorded(s: Store, did: Did, tag: string): Store {
    if did in s.sidecars
    then s.(sidecars := s.sidecars[did := s.sidecars[did].(confirmedPct := Some(tag))])
    else s
  }

  // The companion mirror.

  datatype Snapshot = Snapshot(schema: int, pairings: seq<Blob>, floors: map<Did, int>)

  const SCHEMA: int := 1

  /** What this device would publish, `None` while the keychain cannot be read. */
  ghost function CommittedSnapshot(s: Store, view: Option<seq<Blob>>): Option<Snapshot> {
    if view.None? then None
    else
      var newest := Collapse(Shown(view.value, s.hidden));
      Some(Snapshot(SCHEMA, Listing(newest, Lexical.Sorted(newest.Keys)),
                    map d | d in newest && FloorOf(s, d) > 0 :: FloorOf(s, d)))
  }

  function Listing(newest: map<Did, Blob>, dids: seq<Did>): seq<Blob>
    requires forall d :: d in dids ==> d in newest
  {
    seq(|dids|, i requires 0 <= i < |dids| => newest[dids[i]])
  }

  datatype Outcome = Unchanged | Stale | SaveError | Adopted

  function Others(local: map<Pid, Blob>, b: Blob): set<Pid> {
    set p | p in local && local[p].did == b.did && p != b.pid
  }

  predicate Holds(local: map<Pid, Blob>, b: Blob) {
    b.pid in local && local[b.pid].did == b.did
  }

  function OutcomeOf(local: map<Pid, Blob>, b: Blob, saveOk: bool): Outcome {
    if Holds(local, b) && !Newer(b, local[b.pid]) then Unchanged
    else if exists p :: p in Others(local, b) && !Newer(b, local[p]) then Stale
    else if !saveOk then SaveError
    else Outcome.Adopted
  }

  /** One incoming record: un-hide, re-assert the superseded tombstones, and adopt it if it outranks our own. */
  function Mirrored(legacy: Did -> Pid, s: Store, local: map<Pid, Blob>, b: Blob, saveOk: bool): Store {
    var shown := Unhidden(legacy, s.hidden, b.did, b.pid);
    var s1 := s.(hidden := if Holds(local, b) then shown + Others(local, b) else shown);
    match OutcomeOf(local, b, saveOk)
    case Unchanged => s1
    case Stale => s1
    case SaveError => SaveFailed(s1, b.pid)
    case Adopted =>
      Write(s1.(items := s1.items[b.pid := b], hidden := s1.hidden + Others(local, b)),
            Pointed(s1.ptr, b.did, b.pid))
  }

  /** The adoption loop over the incoming daemons, in the order the dictionary gives them. */
  function AllMirrored(legacy: Did -> Pid, s: Store, local: map<Pid, Blob>, incoming: map<Did, Blob>, dids: seq<Did>,
                       saved: set<Pid>): Store
    requires forall d :: d in dids ==> d in incoming
  {
    if dids == [] then s
    else
      var b := incoming[dids[|dids| - 1]];
      Mirrored(legacy, AllMirrored(legacy, s, local, incoming, dids[..|dids| - 1], saved), local, b, b.pid in saved)
  }

  function Outcomes(local: map<Pid, Blob>, incoming: map<Did, Blob>, dids: seq<Did>, saved: set<Pid>, o: Outcome): nat
    requires forall d :: d in dids ==> d in incoming
  {
    if dids == [] then 0
    else
      var b := incoming[dids[|dids| - 1]];
      Outcomes(local, incoming, dids[..|dids| - 1], saved, o) +
      (if OutcomeOf(local, b, b.pid in saved) == o then 1 else 0)
  }

  /** Floors merge by maximum, for the incoming daemons only, creating a sidecar where there is none. */
  function FloorMerged(sidecars: map<Did, Sidecar>, did: Did, floor: int): map<Did, Sidecar> {
    var was := if did in sidecars then sidecars[did] else Sidecar(None, None);
    if floor > was.floor.GetOr(0) then sidecars[did := was.(floor := Some(floor))] else sidecars
  }

  function FloorsMerged(sidecars: map<Did, Sidecar>, floors: map<Did, int>, incoming: set<Did>,
                        dids: seq<Did>): map<Did, Sidecar>
    requires forall d :: d in dids ==> d in floors
  {
    if dids == [] then sidecars
    else
      var d := dids[|dids| - 1];
      var m := FloorsMerged(sidecars, floors, incoming, dids[..|dids| - 1]);
      if d in incoming then FloorMerged(m, d, floors[d]) else m
  }

  function Absent(order: seq<Did>, incoming: set<Did>): seq<Did> {
    if order == [] then []
    else Absent(order[..|order| - 1], incoming) +
         (if order[|order| - 1] in incoming then [] else [order[|order| - 1]])
  }

  /** Hide these daemons one after the other, each hide with an enumeration of its own. */
  function AllHidden(s: Store, dids: seq<Did>, rest: Did -> Option<seq<Blob>>): Store {
    if dids == [] then s
    else
      var d := dids[|dids| - 1];
      Hidden(AllHidden(s, dids[..|dids| - 1], rest), d, rest(d))
  }

  /**
   * What one snapshot application meets: the orders its dictionaries are walked in, the saves that succeed, the records
   * its first read shows, what its reconcile enumerates, and what each hide does. A read shows nothing while locked.
   */
  datatype Weather = Weather(dids: seq<Did>, floorDids: seq<Did>, saved: set<Pid>, local: Option<map<Pid, Blob>>,
                             recon: Option<seq<Blob>>, rest: Did -> Option<seq<Blob>>)

  ghost predicate Distinct(order: seq<string>) {
    forall i, j :: 0 <= i < j < |order| ==> order[i] != order[j]
  }

  /** The elements of a set, each once, in some order. */
  ghost predicate Lists(order: seq<string>, s: set<string>) {
    (forall x :: x in order <==> x in s) && Distinct(order)
  }

  /** The schema is known and the first read succeeds; otherwise a snapshot changes nothing. */
  predicate TakenUp(snap: Snapshot, w: Weather) {
    snap.schema <= SCHEMA && w.local.Some?
  }

  /** The walks are complete. */
  ghost predicate Walks(snap: Snapshot, w: Weather) {
    && Lists(w.dids, Collapse(snap.pairings).Keys) && Lists(w.floorDids, snap.floors.Keys)
    && w.local.Some?
  }

  ghost function AfterAdoption(legacy: Did -> Pid, s: Store, snap: Snapshot, w: Weather): Store
    requires Walks(snap, w)
  {
    var incoming := Collapse(snap.pairings);
    var s1 := AllMirrored(legacy, s, w.local.value, incoming, w.dids, w.saved);
    s1.(sidecars := FloorsMerged(s1.sidecars, snap.floors, incoming.Keys, w.floorDids))
  }

  /** `applyPeerSnapshot`: adopt, merge floors, reconcile, hide the absent. */
  ghost function SnapshotApplied(legacy: Did -> Pid, s: Store, snap: Snapshot, w: Weather): Store
    requires TakenUp(snap, w) ==> Walks(snap, w)
  {
    if !TakenUp(snap, w) then s
    else
      var (s2, p) := Reconciled(AfterAdoption(legacy, s, snap, w), w.recon);
      AllHidden(s2, Absent(p.order, Collapse(snap.pairings).Keys), w.rest)
  }

  // Well-formed stores.

  ghost predicate WellFormedPointers(p: Pointers) {
    Lists(p.order, p.index.Keys)
  }

  ghost predicate WellFormed(s: Store) {
    && KeyedByPid(s.items)
    && WellFormedPointers(s.ptr)
    && (s.lastGood == None || s.lastGood == Some(s.ptr))
    && (forall p :: p in s.pending ==> s.pending[p].pairing.pid == p)
    && Lists(s.pendingOrder, s.pending.Keys)
  }
}
