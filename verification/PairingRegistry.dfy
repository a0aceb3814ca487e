/** The view model's two maps of live relay clients, and the calls it has queued on every client it ever made. */
module PairingRegistry {
  import opened Common
  import opened PairingRecords

  datatype Call = Connect | Disconnect | SetPhase(pending: bool) | SendUnpair

  /** Committed clients by daemon, pending ones by pairing id; `calls` remembers dropped clients too. */
  datatype Registry<!C(==)> = Registry(clients: map<Did, C>, pendings: map<Pid, C>, calls: map<C, seq<Call>>)

  function Queue<C>(r: Registry<C>, c: C): seq<Call> {
    if c in r.calls then r.calls[c] else []
  }

  function Called<C>(r: Registry<C>, c: C, more: seq<Call>): Registry<C> {
    r.(calls := r.calls[c := Queue(r, c) + more])
  }

  function CalledAt<C>(r: Registry<C>, did: Did, more: seq<Call>): Registry<C> {
    if did in r.clients then Called(r, r.clients[did], more) else r
  }

  function CalledPending<C>(r: Registry<C>, pid: Pid, more: seq<Call>): Registry<C> {
    if pid in r.pendings then Called(r, r.pendings[pid], more) else r
  }

  /** `connect`: a rebuilt client replaces the daemon's old one. */
  function Opened<C>(r: Registry<C>, did: Did, c: C): Registry<C> {
    var s := CalledAt(r, did, [Disconnect]);
    Called(s.(clients := s.clients[did := c]), c, [SetPhase(false), Connect])
  }

  /** `beginPending`: one client per pending pairing. */
  function Begun<C>(r: Registry<C>, pid: Pid, c: C): Registry<C> {
    if pid in r.pendings then r
    else Called(r.(pendings := r.pendings[pid := c]), c, [SetPhase(true), Connect])
  }

  function Dropped<C>(r: Registry<C>, did: Did, last: seq<Call>): Registry<C> {
    var s := CalledAt(r, did, last);
    s.(clients := s.clients - {did})
  }

  function DroppedPending<C>(r: Registry<C>, pid: Pid): Registry<C> {
    var s := CalledPending(r, pid, [Disconnect]);
    s.(pendings := s.pendings - {pid})
  }

  function DroppedPendings<C>(r: Registry<C>, pids: seq<Pid>): Registry<C> {
    if pids == [] then r else DroppedPending(DroppedPendings(r, pids[..|pids| - 1]), pids[|pids| - 1])
  }

  /** A confirmed pending client becomes the daemon's client, still connected; a stale one is disconnected. */
  function Rekeyed<C>(r: Registry<C>, pid: Pid, did: Did): Registry<C> {
    if pid !in r.pendings then r
    else
      var c := r.pendings[pid];
      var s := r.(pendings := r.pendings - {pid});
      var t := if did in s.clients && s.clients[did] != c then Called(s, s.clients[did], [Disconnect]) else s;
      Called(t.(clients := t.clients[did := c]), c, [SetPhase(false)])
  }

  // Every client held once, and every other one told to disconnect.

  predicate Lifecycle(call: Call) {
    call == Connect || call == Disconnect
  }

  /** The last connect or disconnect queued. */
  function LastLifecycle(calls: seq<Call>): Option<Call> {
    if calls == [] then None
    else if Lifecycle(calls[|calls| - 1]) then Some(calls[|calls| - 1])
    else LastLifecycle(calls[..|calls| - 1])
  }

  function Phase(calls: seq<Call>): Option<bool> {
    if calls == [] then None
    else if calls[|calls| - 1].SetPhase? then Some(calls[|calls| - 1].pending)
    else Phase(calls[..|calls| - 1])
  }

  lemma LastOfAppended(calls: seq<Call>, more: Call)
    ensures LastLifecycle(calls + [more]) == if Lifecycle(more) then Some(more) else LastLifecycle(calls)
    ensures Phase(calls + [more]) == if more.SetPhase? then Some(more.pending) else Phase(calls)
  {
    assert (calls + [more])[..|calls|] == calls;
  }

  ghost predicate HeldByDaemon<C>(r: Registry<C>, c: C) {
    exists did :: did in r.clients && r.clients[did] == c
  }

  ghost predicate HeldByPending<C>(r: Registry<C>, c: C) {
    exists pid :: pid in r.pendings && r.pendings[pid] == c
  }

  /** No client under two keys. */
  ghost predicate OnceEach<C>(r: Registry<C>) {
    && (forall a, b :: a in r.clients && b in r.clients && r.clients[a] == r.clients[b] ==> a == b)
    && (forall a, b :: a in r.pendings && b in r.pendings && r.pendings[a] == r.pendings[b] ==> a == b)
    && (forall a, b :: a in r.clients && b in r.pendings ==> r.clients[a] != r.pendings[b])
  }

  /**
   * A client in the maps was last told to connect, and is in the phase of its map; any other was last told to
   * disconnect, or was never told anything.
   */
  ghost predicate Kept<C>(r: Registry<C>, c: C) {
    && (HeldByDaemon(r, c) ==> LastLifecycle(Queue(r, c)) == Some(Connect) && Phase(Queue(r, c)) == Some(false))
    && (HeldByPending(r, c) ==> LastLifecycle(Queue(r, c)) == Some(Connect) && Phase(Queue(r, c)) == Some(true))
    && (!HeldByDaemon(r, c) && !HeldByPending(r, c) ==> LastLifecycle(Queue(r, c)) in {None, Some(Disconnect)})
  }

  ghost predicate Tidy<C>(r: Registry<C>) {
    && OnceEach(r) && r.clients.Values <= r.calls.Keys && r.pendings.Values <= r.calls.Keys
    && forall c :: c in r.calls ==> Kept(r, c)
  }

  lemma HeldAreMade<C>(r: Registry<C>)
    requires Tidy(r)
    ensures OnceEach(r)
    ensures forall did :: did in r.clients ==> r.clients[did] in r.calls
    ensures forall pid :: pid in r.pendings ==> r.pendings[pid] in r.calls
    ensures forall did, pid :: did in r.clients && pid in r.pendings ==> r.clients[did] != r.pendings[pid]
  {
    forall did | did in r.clients ensures r.clients[did] in r.calls {
      assert r.clients[did] in r.clients.Values;
    }
    forall pid | pid in r.pendings ensures r.pendings[pid] in r.calls {
      assert r.pendings[pid] in r.pendings.Values;
    }
  }

  /** Queueing calls on one client leaves the others as they were. */
  lemma CalledElsewhere<C>(r: Registry<C>, c: C, more: seq<Call>, other: C)
    ensures Called(r, c, more).clients == r.clients && Called(r, c, more).pendings == r.pendings
    ensures Queue(Called(r, c, more), other) == if other == c then Queue(r, c) + more else Queue(r, other)
  {
  }

  lemma DroppedIsTidy<C>(r: Registry<C>, did: Did, last: seq<Call>)
    requires Tidy(r) && (last == [Disconnect] || last == [SendUnpair, Disconnect])
    ensures Tidy(Dropped(r, did, last))
  {
    var s := Dropped(r, did, last);
    if did in r.clients {
      var gone := r.clients[did];
      forall c | c in s.calls ensures Kept(s, c) {
        assert c in r.calls && Kept(r, c);
        CalledElsewhere(r, gone, last, c);
        DroppedHolds(r, s, did, c);
        if c == gone {
          LastOfDisconnect(Queue(r, c), last);
        }
        hide LastLifecycle, Phase, Dropped, HeldByDaemon, HeldByPending;
      }
    } else {
      assert r.clients - {did} == r.clients;
    }
  }

  lemma DroppedHolds<C>(r: Registry<C>, s: Registry<C>, did: Did, c: C)
    requires OnceEach(r) && did in r.clients && s.clients == r.clients - {did} && s.pendings == r.pendings
    ensures HeldByPending(s, c) <==> HeldByPending(r, c)
    ensures HeldByDaemon(s, c) <==> HeldByDaemon(r, c) && c != r.clients[did]
    ensures c == r.clients[did] ==> HeldByDaemon(r, c) && !HeldByPending(r, c)
  {
    if HeldByDaemon(r, c) && c != r.clients[did] {
      var d :| d in r.clients && r.clients[d] == c;
      assert d in s.clients && s.clients[d] == c;
    }
    if HeldByDaemon(s, c) {
      var d :| d in s.clients && s.clients[d] == c;
      assert d in r.clients && r.clients[d] == c;
    }
    if HeldByPending(r, c) {
      var p :| p in r.pendings && r.pendings[p] == c;
      assert p in s.pendings && s.pendings[p] == c;
    }
    if HeldByPending(s, c) {
      var p :| p in s.pendings && s.pendings[p] == c;
      assert p in r.pendings && r.pendings[p] == c;
    }
  }

  lemma LastOfDisconnect(calls: seq<Call>, last: seq<Call>)
    requires last == [Disconnect] || last == [SendUnpair, Disconnect]
    ensures LastLifecycle(calls + last) == Some(Disconnect)
  {
    LastOfAppended(calls, Disconnect);
    if last == [SendUnpair, Disconnect] {
      LastOfAppended(calls + [SendUnpair], Disconnect);
      assert calls + last == calls + [SendUnpair] + [Disconnect];
    }
  }

  lemma LastOfNew(phase: bool)
    ensures LastLifecycle([SetPhase(phase), Connect]) == Some(Connect)
            && Phase([SetPhase(phase), Connect]) == Some(phase)
  {
    LastOfAppended([SetPhase(phase)], Connect);
    LastOfAppended([], SetPhase(phase));
    assert [SetPhase(phase)] + [Connect] == [SetPhase(phase), Connect];
    assert [] + [SetPhase(phase)] == [SetPhase(phase)];
  }

  lemma DroppedPendingIsTidy<C>(r: Registry<C>, pid: Pid)
    requires Tidy(r)
    ensures Tidy(DroppedPending(r, pid))
  {
    var s := DroppedPending(r, pid);
    if pid in r.pendings {
      var gone := r.pendings[pid];
      forall c | c in s.calls ensures Kept(s, c) {
        assert c in r.calls && Kept(r, c);
        CalledElsewhere(r, gone, [Disconnect], c);
        DroppedPendingHolds(r, s, pid, c);
        if c == gone {
          LastOfDisconnect(Queue(r, c), [Disconnect]);
        }
        hide LastLifecycle, Phase, DroppedPending, HeldByDaemon, HeldByPending;
      }
    } else {
      assert r.pendings - {pid} == r.pendings;
    }
  }

  lemma DroppedPendingHolds<C>(r: Registry<C>, s: Registry<C>, pid: Pid, c: C)
    requires OnceEach(r) && pid in r.pendings && s.pendings == r.pendings - {pid} && s.clients == r.clients
    ensures HeldByDaemon(s, c) <==> HeldByDaemon(r, c)
    ensures HeldByPending(s, c) <==> HeldByPending(r, c) && c != r.pendings[pid]
    ensures c == r.pendings[pid] ==> HeldByPending(r, c) && !HeldByDaemon(r, c)
  {
    if HeldByPending(r, c) && c != r.pendings[pid] {
      var d :| d in r.pendings && r.pendings[d] == c;
      assert d in s.pendings && s.pendings[d] == c;
    }
    if HeldByPending(s, c) {
      var d :| d in s.pendings && s.pendings[d] == c;
      assert d in r.pendings && r.pendings[d] == c;
    }
    if HeldByDaemon(r, c) {
      var d :| d in r.clients && r.clients[d] == c;
      assert d in s.clients && s.clients[d] == c;
    }
    if HeldByDaemon(s, c) {
      var d :| d in s.clients && s.clients[d] == c;
      assert d in r.clients && r.clients[d] == c;
    }
  }

  lemma {:induction false} DroppedPendingsIsTidy<C>(r: Registry<C>, pids: seq<Pid>)
    requires Tidy(r)
    ensures Tidy(DroppedPendings(r, pids))
  {
    if pids != [] {
      hide Tidy, DroppedPending;
      DroppedPendingsIsTidy(r, pids[..|pids| - 1]);
      DroppedPendingIsTidy(DroppedPendings(r, pids[..|pids| - 1]), pids[|pids| - 1]);
    }
  }

  // Adding clients.

  /** A client no map holds and nothing was ever queued on. */
  predicate Brand<C(==)>(r: Registry<C>, c: C) {
    c !in r.calls
  }

  lemma AddedIsTidy<C>(r: Registry<C>, did: Did, c: C)
    requires Tidy(r) && Brand(r, c) && did !in r.clients
    ensures Tidy(Called(r.(clients := r.clients[did := c]), c, [SetPhase(false), Connect]))
  {
    var m := r.(clients := r.clients[did := c]);
    var s := Called(m, c, [SetPhase(false), Connect]);
    LastOfNew(false);
    hide LastLifecycle, Phase, HeldByDaemon, HeldByPending;
    assert [] + [SetPhase(false), Connect] == [SetPhase(false), Connect];
    forall x | x in s.calls ensures Kept(s, x) {
      assert x in r.calls ==> Kept(r, x);
      CalledElsewhere(m, c, [SetPhase(false), Connect], x);
      AddedHolds(r, s, did, c, x);
    }
  }

  lemma AddedHolds<C>(r: Registry<C>, s: Registry<C>, did: Did, c: C, x: C)
    requires Brand(r, c) && r.pendings.Values <= r.calls.Keys && did !in r.clients && s.clients == r.clients[did := c]
             && s.pendings == r.pendings
    ensures HeldByDaemon(s, x) <==> HeldByDaemon(r, x) || x == c
    ensures HeldByPending(s, x) <==> HeldByPending(r, x)
    ensures x == c ==> !HeldByPending(r, x)
  {
    assert did in s.clients && s.clients[did] == c;
    if HeldByDaemon(r, x) {
      var d :| d in r.clients && r.clients[d] == x;
      assert d in s.clients && s.clients[d] == x;
    }
    if HeldByDaemon(s, x) && x != c {
      var d :| d in s.clients && s.clients[d] == x;
      assert d in r.clients && r.clients[d] == x;
    }
    if HeldByPending(r, x) {
      var p :| p in r.pendings && r.pendings[p] == x;
      assert p in s.pendings && s.pendings[p] == x;
    }
    if HeldByPending(s, x) {
      var p :| p in s.pendings && s.pendings[p] == x;
      assert p in r.pendings && r.pendings[p] == x;
    }
  }

  /** Reconnecting a daemon is dropping its old client and adding the new one. */
  lemma OpenedIsTidy<C>(r: Registry<C>, did: Did, c: C)
    requires Tidy(r) && Brand(r, c)
    ensures Tidy(Opened(r, did, c))
  {
    var s := Dropped(r, did, [Disconnect]);
    assert Brand(s, c) by {
      assert did in r.clients ==> r.clients[did] in r.clients.Values;
    }
    OpenedByParts(r, did, c);
    hide Tidy, Dropped, Opened, Called, Brand;
    DroppedIsTidy(r, did, [Disconnect]);
    AddedIsTidy(s, did, c);
  }

  lemma OpenedByParts<C>(r: Registry<C>, did: Did, c: C)
    ensures var s := Dropped(r, did, [Disconnect]);
            && did !in s.clients
            && Opened(r, did, c) == Called(s.(clients := s.clients[did := c]), c, [SetPhase(false), Connect])
  {
    var s := Dropped(r, did, [Disconnect]);
    assert s.clients[did := c] == r.clients[did := c];
    hide Called;
  }

  lemma BegunIsTidy<C>(r: Registry<C>, pid: Pid, c: C)
    requires Tidy(r) && Brand(r, c)
    ensures Tidy(Begun(r, pid, c))
  {
    if pid !in r.pendings {
      var m := r.(pendings := r.pendings[pid := c]);
      var s := Begun(r, pid, c);
      LastOfNew(true);
      hide LastLifecycle, Phase, HeldByDaemon, HeldByPending;
      assert [] + [SetPhase(true), Connect] == [SetPhase(true), Connect];
      forall x | x in s.calls ensures Kept(s, x) {
        assert x in r.calls ==> Kept(r, x);
        CalledElsewhere(m, c, [SetPhase(true), Connect], x);
        BegunHolds(r, s, pid, c, x);
      }
    }
  }

  lemma BegunHolds<C>(r: Registry<C>, s: Registry<C>, pid: Pid, c: C, x: C)
    requires Brand(r, c) && r.clients.Values <= r.calls.Keys && pid !in r.pendings && s.pendings == r.pendings[pid := c]
             && s.clients == r.clients
    ensures HeldByPending(s, x) <==> HeldByPending(r, x) || x == c
    ensures HeldByDaemon(s, x) <==> HeldByDaemon(r, x)
    ensures x == c ==> !HeldByDaemon(r, x)
  {
    assert pid in s.pendings && s.pendings[pid] == c;
    if HeldByPending(r, x) {
      var d :| d in r.pendings && r.pendings[d] == x;
      assert d in s.pendings && s.pendings[d] == x;
    }
    if HeldByPending(s, x) && x != c {
      var d :| d in s.pendings && s.pendings[d] == x;
      assert d in r.pendings && r.pendings[d] == x;
    }
    if HeldByDaemon(r, x) {
      var p :| p in r.clients && r.clients[p] == x;
      assert p in s.clients && s.clients[p] == x;
    }
    if HeldByDaemon(s, x) {
      var p :| p in s.clients && s.clients[p] == x;
      assert p in r.clients && r.clients[p] == x;
    }
  }

  // Re-keying.

  lemma MovedHolds<C>(r: Registry<C>, s: Registry<C>, pid: Pid, did: Did, x: C)
    requires OnceEach(r) && pid in r.pendings && did !in r.clients
    requires s.pendings == r.pendings - {pid} && s.clients == r.clients[did := r.pendings[pid]]
    ensures HeldByPending(s, x) <==> HeldByPending(r, x) && x != r.pendings[pid]
    ensures HeldByDaemon(s, x) <==> HeldByDaemon(r, x) || x == r.pendings[pid]
    ensures x == r.pendings[pid] ==> HeldByPending(r, x)
  {
    assert did in s.clients && s.clients[did] == r.pendings[pid];
    if HeldByPending(r, x) && x != r.pendings[pid] {
      var d :| d in r.pendings && r.pendings[d] == x;
      assert d in s.pendings && s.pendings[d] == x;
    }
    if HeldByPending(s, x) {
      var d :| d in s.pendings && s.pendings[d] == x;
      assert d in r.pendings && r.pendings[d] == x;
    }
    if HeldByDaemon(r, x) {
      var p :| p in r.clients && r.clients[p] == x;
      assert p in s.clients && s.clients[p] == x;
    }
    if HeldByDaemon(s, x) && x != r.pendings[pid] {
      var p :| p in s.clients && s.clients[p] == x;
      assert p in r.clients && r.clients[p] == x;
    }
  }

  lemma MovedIsTidy<C>(r: Registry<C>, pid: Pid, did: Did)
    requires Tidy(r) && pid in r.pendings && did !in r.clients
    ensures var c := r.pendings[pid];
            Tidy(Called(r.(pendings := r.pendings - {pid}, clients := r.clients[did := c]), c, [SetPhase(false)]))
  {
    var c := r.pendings[pid];
    var m := r.(pendings := r.pendings - {pid}, clients := r.clients[did := c]);
    var s := Called(m, c, [SetPhase(false)]);
    hide LastLifecycle, Phase, HeldByDaemon, HeldByPending;
    LastOfAppended(Queue(m, c), SetPhase(false));
    forall x | x in s.calls ensures Kept(s, x) {
      assert x in r.calls ==> Kept(r, x);
      CalledElsewhere(m, c, [SetPhase(false)], x);
      MovedHolds(r, s, pid, did, x);
    }
  }

  /** Promotion moves the live client over without a disconnect, and disconnects the one it displaces. */
  lemma RekeyedIsTidy<C>(r: Registry<C>, pid: Pid, did: Did)
    requires Tidy(r)
    ensures Tidy(Rekeyed(r, pid, did))
    ensures pid in r.pendings
            ==> did in Rekeyed(r, pid, did).clients && Rekeyed(r, pid, did).clients[did] == r.pendings[pid]
  {
    if pid in r.pendings {
      var s := Dropped(r, did, [Disconnect]);
      DroppedIsTidy(r, did, [Disconnect]);
      MovedIsTidy(s, pid, did);
      RekeyedByParts(r, pid, did);
    }
  }

  lemma RekeyedByParts<C>(r: Registry<C>, pid: Pid, did: Did)
    requires OnceEach(r) && pid in r.pendings
    ensures var s, c := Dropped(r, did, [Disconnect]), r.pendings[pid];
            Rekeyed(r, pid, did) == Called(s.(pendings := s.pendings - {pid}, clients := s.clients[did := c]), c,
                                           [SetPhase(false)])
  {
    var s, c := Dropped(r, did, [Disconnect]), r.pendings[pid];
    assert did in r.clients ==> r.clients[did] != c;
    assert (r.clients - {did})[did := c] == r.clients[did := c];
  }

  lemma RekeyedBySteps<C>(r: Registry<C>, pid: Pid, did: Did)
    requires OnceEach(r) && pid in r.pendings
    ensures var m, c := CalledAt(r.(pendings := r.pendings - {pid}), did, [Disconnect]), r.pendings[pid];
            Rekeyed(r, pid, did) == Called(m.(clients := m.clients[did := c]), c, [SetPhase(false)])
  {
  }

  // What each operation tells each client.

  /** Every client is told just this, if anything, and nobody else anything. */
  ghost predicate TellsOnly<C>(r: Registry<C>, s: Registry<C>, told: map<C, seq<Call>>) {
    && r.calls.Keys <= s.calls.Keys
    && forall c :: c in s.calls ==> Queue(s, c) == Queue(r, c) + if c in told then told[c] else []
  }

  lemma OpenedTells<C>(r: Registry<C>, did: Did, c: C)
    requires Brand(r, c) && Tidy(r)
    ensures var s := Opened(r, did, c);
            && s.clients == r.clients[did := c] && s.pendings == r.pendings
            && TellsOnly(r, s, (if did in r.clients then map[r.clients[did] := [Disconnect]] else map[])
                               + map[c := [SetPhase(false), Connect]])
  {
    HeldAreMade(r);
  }

  lemma BegunTells<C>(r: Registry<C>, pid: Pid, c: C)
    requires Brand(r, c) && pid !in r.pendings
    ensures var s := Begun(r, pid, c);
            && s.clients == r.clients && s.pendings == r.pendings[pid := c]
            && TellsOnly(r, s, map[c := [SetPhase(true), Connect]])
  {
  }

  lemma DroppedTells<C>(r: Registry<C>, did: Did, last: seq<Call>)
    ensures var s := Dropped(r, did, last);
            && s.clients == r.clients - {did} && s.pendings == r.pendings
            && TellsOnly(r, s, if did in r.clients then map[r.clients[did] := last] else map[])
  {
  }

  lemma DroppedPendingTells<C>(r: Registry<C>, pid: Pid)
    ensures var s := DroppedPending(r, pid);
            && s.clients == r.clients && s.pendings == r.pendings - {pid}
            && TellsOnly(r, s, if pid in r.pendings then map[r.pendings[pid] := [Disconnect]] else map[])
  {
  }

  /** Promotion tells the client itself only of its phase: it stays connected. */
  lemma RekeyedTells<C>(r: Registry<C>, pid: Pid, did: Did)
    requires OnceEach(r) && pid in r.pendings
    ensures var s, c := Rekeyed(r, pid, did), r.pendings[pid];
            && s.clients == r.clients[did := c] && s.pendings == r.pendings - {pid}
            && TellsOnly(r, s, (if did in r.clients then map[r.clients[did] := [Disconnect]] else map[])
                               + map[c := [SetPhase(false)]])
  {
  }

  // Nudging.

  /** What was queued is still there, and only connects were added. */
  ghost predicate OnlyConnects(was: seq<Call>, now: seq<Call>) {
    |was| <= |now| && now[..|was|] == was && forall i :: |was| <= i < |now| ==> now[i] == Connect
  }

  /** Every client is still held under its key, and was at most asked to connect. */
  ghost predicate Gentle<C>(r: Registry<C>, s: Registry<C>) {
    && (forall did :: did in r.clients ==> did in s.clients && s.clients[did] == r.clients[did])
    && (forall pid :: pid in r.pendings ==> pid in s.pendings && s.pendings[pid] == r.pendings[pid])
    && (forall c :: c in r.calls ==> c in s.calls && OnlyConnects(r.calls[c], s.calls[c]))
  }

  lemma GentleIsTransitive<C>(r: Registry<C>, s: Registry<C>, t: Registry<C>)
    requires Gentle(r, s) && Gentle(s, t)
    ensures Gentle(r, t)
  {
    forall c | c in r.calls ensures c in t.calls && OnlyConnects(r.calls[c], t.calls[c]) {
      var n := |r.calls[c]|;
      assert t.calls[c][..n] == t.calls[c][..|s.calls[c]|][..n] == s.calls[c][..n];
      forall i | n <= i < |t.calls[c]| ensures t.calls[c][i] == Connect {
        assert i < |s.calls[c]| ==> t.calls[c][..|s.calls[c]|][i] == s.calls[c][i];
      }
    }
  }

  /** The client was asked to connect in between. */
  ghost predicate Asked<C>(r: Registry<C>, s: Registry<C>, c: C) {
    c in r.calls && c in s.calls && OnlyConnects(r.calls[c], s.calls[c]) && |r.calls[c]| < |s.calls[c]|
  }

  /** Each of these daemons that had a client has had it asked. */
  ghost predicate AllAsked<C>(r: Registry<C>, s: Registry<C>, dids: seq<Did>) {
    forall did :: did in dids && did in r.clients ==> Asked(r, s, r.clients[did])
  }

  ghost predicate AllPendingAsked<C>(r: Registry<C>, s: Registry<C>, pids: seq<Pid>) {
    forall pid :: pid in pids && pid in r.pendings ==> Asked(r, s, r.pendings[pid])
  }

  lemma AskedAround<C>(r: Registry<C>, s: Registry<C>, t: Registry<C>, c: C)
    requires Gentle(r, s) && Gentle(s, t) && c in r.calls && (Asked(r, s, c) || Asked(s, t, c))
    ensures Asked(r, t, c)
  {
    GentleIsTransitive(r, s, t);
  }

  lemma AskedGoesOn<C>(r: Registry<C>, s: Registry<C>, t: Registry<C>, dids: seq<Did>, pids: seq<Pid>)
    requires Tidy(r) && Gentle(r, s) && Gentle(s, t)
    ensures AllAsked(r, s, dids) ==> AllAsked(r, t, dids)
    ensures AllPendingAsked(r, s, pids) ==> AllPendingAsked(r, t, pids)
  {
    HeldAreMade(r);
    hide Tidy, Gentle, Asked;
    if AllAsked(r, s, dids) {
      forall did | did in dids && did in r.clients ensures Asked(r, t, r.clients[did]) {
        AskedAround(r, s, t, r.clients[did]);
      }
    }
    if AllPendingAsked(r, s, pids) {
      forall pid | pid in pids && pid in r.pendings ensures Asked(r, t, r.pendings[pid]) {
        AskedAround(r, s, t, r.pendings[pid]);
      }
    }
  }

  lemma OneMoreAsked<C>(r: Registry<C>, s: Registry<C>, t: Registry<C>, dids: seq<Did>, did: Did)
    requires Tidy(r) && Gentle(r, s) && Gentle(s, t) && AllAsked(r, s, dids)
    requires did in s.clients ==> Asked(s, t, s.clients[did])
    ensures AllAsked(r, t, dids + [did])
  {
    HeldAreMade(r);
    AskedGoesOn(r, s, t, dids, []);
    if did in r.clients {
      assert s.clients[did] == r.clients[did];
      AskedAround(r, s, t, r.clients[did]);
    }
    hide Tidy, Gentle, Asked;
  }

  lemma OneMorePendingAsked<C>(r: Registry<C>, s: Registry<C>, t: Registry<C>, pids: seq<Pid>, pid: Pid)
    requires Tidy(r) && Gentle(r, s) && Gentle(s, t) && AllPendingAsked(r, s, pids)
    requires pid in s.pendings ==> Asked(s, t, s.pendings[pid])
    ensures AllPendingAsked(r, t, pids + [pid])
  {
    HeldAreMade(r);
    AskedGoesOn(r, s, t, [], pids);
    if pid in r.pendings {
      assert s.pendings[pid] == r.pendings[pid];
      AskedAround(r, s, t, r.pendings[pid]);
    }
    hide Tidy, Gentle, Asked;
  }

  lemma PendingAskedBefore<C>(r: Registry<C>, s: Registry<C>, t: Registry<C>, pids: seq<Pid>)
    requires Tidy(r) && Gentle(r, s) && Gentle(s, t) && AllPendingAsked(s, t, pids)
    ensures AllPendingAsked(r, t, pids)
  {
    HeldAreMade(r);
    hide Tidy, Asked;
    forall pid | pid in pids && pid in r.pendings ensures Asked(r, t, r.pendings[pid]) {
      assert s.pendings[pid] == r.pendings[pid];
      AskedAround(r, s, t, r.pendings[pid]);
    }
  }

  lemma CalledIsAsked<C>(r: Registry<C>, c: C)
    requires c in r.calls
    ensures Asked(r, Called(r, c, [Connect]), c)
  {
  }

  lemma GentleSelf<C>(r: Registry<C>)
    ensures Gentle(r, r)
  {
  }

  lemma GentleCall<C>(r: Registry<C>, c: C)
    requires c in r.calls
    ensures Gentle(r, Called(r, c, [Connect]))
  {
  }

  lemma GentleOpened<C>(r: Registry<C>, did: Did, c: C)
    requires did !in r.clients && Brand(r, c)
    ensures Gentle(r, Opened(r, did, c))
  {
  }

  lemma GentleBegun<C>(r: Registry<C>, pid: Pid, c: C)
    requires Brand(r, c)
    ensures Gentle(r, Begun(r, pid, c))
  {
  }

  /** A nudge queues one more connect on a client that is kept. */
  lemma NudgedIsTidy<C>(r: Registry<C>, c: C)
    requires Tidy(r) && (HeldByDaemon(r, c) || HeldByPending(r, c))
    ensures Tidy(Called(r, c, [Connect]))
  {
    var s := Called(r, c, [Connect]);
    forall x | x in s.calls ensures Kept(s, x) {
      assert x in r.calls ==> Kept(r, x);
      CalledElsewhere(r, c, [Connect], x);
      LastOfAppended(Queue(r, c), Connect);
      assert HeldByDaemon(s, x) <==> HeldByDaemon(r, x);
      assert HeldByPending(s, x) <==> HeldByPending(r, x);
      hide LastLifecycle, Phase, HeldByDaemon, HeldByPending;
    }
  }

  /** Of all the clients ever made, those last told to connect are no more than the entries of the two maps. */
  lemma WantedAreHeld<C>(r: Registry<C>, wanted: set<C>)
    requires Tidy(r) && forall c :: c in wanted ==> LastLifecycle(Queue(r, c)) == Some(Connect)
    ensures |wanted| <= |r.clients| + |r.pendings|
  {
    forall c | c in wanted ensures c in r.clients.Values + r.pendings.Values {
      assert Kept(r, c);
    }
    FewerElements(wanted, r.clients.Values + r.pendings.Values);
    FewerValues(r.clients);
    FewerValues(r.pendings);
  }

  lemma FewerElements<T>(a: set<T>, b: set<T>)
    requires a <= b
    ensures |a| <= |b|
  {
    assert b == a + (b - a);
  }

  lemma {:induction false} FewerValues<K, V>(m: map<K, V>)
    ensures |m.Values| <= |m|
    decreases |m|
  {
    if m != map[] {
      var k :| k in m;
      var n := m - {k};
      assert n.Keys == m.Keys - {k};
      FewerValues(n);
      assert m.Values <= n.Values + {m[k]} by {
        forall v | v in m.Values ensures v in n.Values + {m[k]} {
          var j :| j in m && m[j] == v;
          assert j != k ==> j in n && n[j] == v;
        }
      }
      FewerElements(m.Values, n.Values + {m[k]});
    }
  }
}
