/** The session store: per-session rows, terminal text, indexes and cursors, and the session list. */
module SessionStoreModel {
  import opened Common
  import opened SessionLog
  import opened SessionIndex
  import Lexical

  datatype SessionMeta = SessionMeta(sid: string, state: string, updatedAt: real, detail: string)

  // The one session order every list and stepper shares.

  predicate Before(pinned: set<string>, a: SessionMeta, b: SessionMeta) {
    if (a.sid in pinned) != (b.sid in pinned) then a.sid in pinned
    else if (a.state == "running") != (b.state == "running") then a.state == "running"
    else if a.updatedAt != b.updatedAt then a.updatedAt > b.updatedAt
    else Lexical.Less(a.sid, b.sid)
  }

  lemma BeforeIsTransitive(pinned: set<string>, a: SessionMeta, b: SessionMeta, c: SessionMeta)
    requires Before(pinned, a, b) && Before(pinned, b, c)
    ensures Before(pinned, a, c)
  {
    if Lexical.Less(a.sid, b.sid) && Lexical.Less(b.sid, c.sid) {
      Lexical.Transitive(a.sid, b.sid, c.sid);
    }
  }

  /** On sessions with different ids the comparison is a strict total order. */
  lemma BeforeIsTotal(pinned: set<string>, a: SessionMeta, b: SessionMeta)
    ensures !Before(pinned, a, a)
    ensures Before(pinned, a, b) ==> !Before(pinned, b, a)
    ensures a.sid != b.sid ==> Before(pinned, a, b) || Before(pinned, b, a)
  {
    Lexical.Irreflexive(a.sid);
    Lexical.Total(a.sid, b.sid);
    if Before(pinned, a, b) && Before(pinned, b, a) {
      BeforeIsTransitive(pinned, a, b, a);
    }
  }

  /** What the order means: pinned sessions first, then running ones, then the latest updated, then by id. */
  ghost predicate ListedInOrder(pinned: set<string>, a: SessionMeta, b: SessionMeta) {
    && (b.sid in pinned ==> a.sid in pinned)
    && ((a.sid in pinned <==> b.sid in pinned) ==>
        && (b.state == "running" ==> a.state == "running")
        && ((a.state == "running" <==> b.state == "running") ==>
            && a.updatedAt >= b.updatedAt
            && (a.updatedAt == b.updatedAt ==> Lexical.Less(a.sid, b.sid))))
  }

  lemma OrderIsMeant(pinned: set<string>, r: seq<SessionMeta>)
    requires Ordered(pinned, r)
    ensures forall i, j :: 0 <= i < j < |r| ==> ListedInOrder(pinned, r[i], r[j])
  {
    forall i, j | 0 <= i < j < |r| ensures ListedInOrder(pinned, r[i], r[j]) {
      assert Before(pinned, r[i], r[j]);
    }
  }

  ghost predicate Ordered(pinned: set<string>, r: seq<SessionMeta>) {
    forall i, j :: 0 <= i < j < |r| ==> Before(pinned, r[i], r[j])
  }

  ghost predicate Lists(r: seq<SessionMeta>, sessions: map<string, SessionMeta>) {
    && (forall m :: m in r ==> m.sid in sessions && sessions[m.sid] == m)
    && (forall sid :: sid in sessions ==> sessions[sid] in r)
  }

  /** Whatever order the dictionary is walked in, there is one ordered listing of it. */
  lemma {:induction false} OrderIsCanonical(pinned: set<string>, r: seq<SessionMeta>, s: seq<SessionMeta>)
    requires Ordered(pinned, r) && Ordered(pinned, s)
    requires forall m :: m in r <==> m in s
    ensures r == s
  {
    if s != [] {
      assert s[0] in s;
    }
    if r != [] {
      assert r[0] in r && r[0] in s;
      var k :| 0 <= k < |s| && s[k] == r[0];
      assert s[0] in s && s[0] in r;
      var l :| 0 <= l < |r| && r[l] == s[0];
      BeforeIsTotal(pinned, r[0], s[0]);
      assert r[0] == s[0];
      forall m ensures m in r[1..] <==> m in s[1..] {
        TailMembers(pinned, r, m);
        TailMembers(pinned, s, m);
      }
      OrderIsCanonical(pinned, r[1..], s[1..]);
      assert r == [r[0]] + r[1..] && s == [s[0]] + s[1..];
    }
  }

  lemma TailMembers(pinned: set<string>, r: seq<SessionMeta>, m: SessionMeta)
    requires r != [] && Ordered(pinned, r)
    ensures m in r[1..] <==> m in r && m != r[0]
  {
    if m in r[1..] {
      var k :| 0 <= k < |r[1..]| && r[1..][k] == m;
      assert r[k + 1] == m && Before(pinned, r[0], r[k + 1]);
      BeforeIsTotal(pinned, m, m);
    }
    if m in r && m != r[0] {
      var k :| 0 <= k < |r| && r[k] == m;
      assert r[1..][k - 1] == m;
    }
  }

  predicate Placeholder(sid: string) {
    "pending-" <= sid
  }

  /** The flat session list is some merge of the daemons' buckets without placeholders. */
  ghost predicate MergesBuckets(flat: map<string, SessionMeta>, buckets: map<string, map<string, SessionMeta>>) {
    && (forall sid :: sid in flat <==> !Placeholder(sid) && exists d :: d in buckets && sid in buckets[d])
    && (forall sid :: sid in flat ==> exists d :: d in buckets && sid in buckets[d] && flat[sid] == buckets[d][sid])
  }

  lemma NoPlaceholders(flat: map<string, SessionMeta>, buckets: map<string, map<string, SessionMeta>>)
    requires MergesBuckets(flat, buckets)
    ensures forall sid :: sid in flat <==> !("pending-" <= sid) && exists d :: d in buckets && sid in buckets[d]
  {
  }

  function Bucket(metas: seq<SessionMeta>): map<string, SessionMeta> {
    if metas == [] then map[]
    else Bucket(metas[..|metas| - 1])[metas[|metas| - 1].sid := metas[|metas| - 1]]
  }

  /** The last of these sessions that has this id. */
  ghost predicate LastOf(metas: seq<SessionMeta>, sid: string, m: SessionMeta) {
    exists i :: 0 <= i < |metas| && metas[i] == m && m.sid == sid && !Names(metas[i + 1..], sid)
  }

  ghost predicate Names(metas: seq<SessionMeta>, sid: string) {
    exists m :: m in metas && m.sid == sid
  }

  lemma LastOfSnoc(metas: seq<SessionMeta>, last: SessionMeta, sid: string, m: SessionMeta)
    requires if last.sid == sid then m == last else LastOf(metas, sid, m)
    ensures LastOf(metas + [last], sid, m)
  {
    var all := metas + [last];
    if last.sid == sid {
      assert all[|metas|] == m && all[|metas| + 1..] == [];
    } else {
      var i :| 0 <= i < |metas| && metas[i] == m && m.sid == sid && !Names(metas[i + 1..], sid);
      assert all[i] == m && all[i + 1..] == metas[i + 1..] + [last];
    }
  }

  /** Refreshed sessions are the last ones given of their id; every other one is as before. */
  lemma {:induction false} UpsertedKeepsLast(sessions: map<string, SessionMeta>, metas: seq<SessionMeta>, sid: string)
    ensures sid in Upserted(sessions, metas) <==> sid in sessions || Names(metas, sid)
    ensures Names(metas, sid) ==> LastOf(metas, sid, Upserted(sessions, metas)[sid])
    ensures !Names(metas, sid) && sid in sessions ==> Upserted(sessions, metas)[sid] == sessions[sid]
  {
    if metas != [] {
      var front, last := metas[..|metas| - 1], metas[|metas| - 1];
      assert metas == front + [last];
      UpsertedKeepsLast(sessions, front, sid);
      assert Names(metas, sid) <==> Names(front, sid) || last.sid == sid by {
        assert last in metas;
        hide Upserted;
      }
      if Names(metas, sid) {
        LastOfSnoc(front, last, sid, Upserted(sessions, metas)[sid]);
      }
    }
  }

  lemma {:induction false} BucketIsUpserted(metas: seq<SessionMeta>)
    ensures Bucket(metas) == Upserted(map[], metas)
  {
    if metas != [] {
      BucketIsUpserted(metas[..|metas| - 1]);
    }
  }

  ghost predicate Keyed(metas: map<string, SessionMeta>) {
    forall sid :: sid in metas ==> metas[sid].sid == sid
  }

  ghost predicate AllKeyed(buckets: map<string, map<string, SessionMeta>>) {
    forall d :: d in buckets ==> Keyed(buckets[d])
  }

  function Without(buckets: map<string, map<string, SessionMeta>>,
                   sid: string): (r: map<string, map<string, SessionMeta>>)
    ensures r.Keys == buckets.Keys
    ensures forall d :: d in buckets ==> r[d] == buckets[d] - {sid}
    ensures AllKeyed(buckets) ==> AllKeyed(r)
  {
    map d | d in buckets :: buckets[d] - {sid}
  }

  function Upserted(sessions: map<string, SessionMeta>, metas: seq<SessionMeta>): map<string, SessionMeta> {
    if metas == [] then sessions
    else Upserted(sessions, metas[..|metas| - 1])[metas[|metas| - 1].sid := metas[|metas| - 1]]
  }

  class SessionStore {
    var chatItems: map<string, seq<ChatItem>>
    var chatRevision: map<string, nat>
    var terminalOutput: map<string, string>
    var cursors: map<string, int>
    var pendingPreById: map<string, map<string, nat>>
    var pendingPreNoIdByName: map<string, map<string, seq<nat>>>
    var sessions: map<string, SessionMeta>
    var sessionsByDaemon: map<string, map<string, SessionMeta>>
    var pinnedSids: set<string>

    function Rows(sid: string): seq<ChatItem>
      reads this
    { At(chatItems, sid, []) }

    function Cursor(sid: string): int
      reads this
    { At(cursors, sid, 0) }

    function ById(sid: string): map<string, nat>
      reads this
    { At(pendingPreById, sid, map[]) }

    function ByName(sid: string): map<string, seq<nat>>
      reads this
    { At(pendingPreNoIdByName, sid, map[]) }

    function FeedOf(sid: string): Feed
      reads this
    {
      Feed(Rows(sid), At(chatRevision, sid, 0), At(terminalOutput, sid, ""), Cursor(sid))
    }

    ghost predicate Valid()
      reads this
    {
      && AllLinked(chatItems, pendingPreById, pendingPreNoIdByName)
      && Keyed(sessions)
      && AllKeyed(sessionsByDaemon)
    }

    constructor (persisted: map<string, SessionMeta>, pinned: set<string>)
      requires Keyed(persisted)
      ensures Valid() && sessions == persisted && pinnedSids == pinned
      ensures forall sid :: FeedOf(sid) == NO_FEED
    {
      NoneLinked();
      chatItems, chatRevision, terminalOutput, cursors := map[], map[], map[], map[];
      pendingPreById, pendingPreNoIdByName := map[], map[];
      sessions, sessionsByDaemon, pinnedSids := persisted, map[], pinned;
    }

    /** Consume the index entry of the row a finished call folds into, if there is one. */
    method TakePendingPre(sid: string, post: ChatItem) returns (r: Option<nat>)
      requires Valid() && IsPost(post)
      modifies this`pendingPreById, this`pendingPreNoIdByName
      ensures r == var t := Target(Rows(sid), post); if t < 0 then None else Some(t)
      ensures pendingPreById - {sid} == old(pendingPreById) - {sid}
      ensures pendingPreNoIdByName - {sid} == old(pendingPreNoIdByName) - {sid}
      ensures r.None? ==> ById(sid) == old(ById(sid)) && ByName(sid) == old(ByName(sid))
      ensures r.Some? ==> Linked(Rows(sid)[r.value := post.(seqNo := Rows(sid)[r.value].seqNo)], ById(sid), ByName(sid))
    {
      hide Linked, Target, AllLinked;
      ghost var rows := Rows(sid);
      LinkedAt(chatItems, pendingPreById, pendingPreNoIdByName, sid);
      LookUp(rows, ById(sid), ByName(sid), post);
      if Target(rows, post) >= 0 {
        LinkMerge(rows, ById(sid), ByName(sid), post);
      }
      match post.hook.toolUseId
      case Some(id) =>
        if sid in pendingPreById && id in pendingPreById[sid] {
          r := Some(pendingPreById[sid][id]);
          pendingPreById := pendingPreById[sid := pendingPreById[sid] - {id}];
        } else {
          r := None;
        }
      case None =>
        r := None;
        if post.hook.toolName.Some? {
          var name := post.hook.toolName.value;
          if sid in pendingPreNoIdByName && name in pendingPreNoIdByName[sid] && pendingPreNoIdByName[sid][name] != [] {
            var queue := pendingPreNoIdByName[sid][name];
            r := Some(queue[0]);
            pendingPreNoIdByName := pendingPreNoIdByName[sid := pendingPreNoIdByName[sid][name := queue[1..]]];
          }
        }
    }

    /** One decoded event: a started call is registered, a finished one replaces its row, the rest append. */
    method AppendEvent(item: ChatItem)
      requires Valid()
      modifies this`chatItems, this`chatRevision, this`pendingPreById, this`pendingPreNoIdByName
      ensures Valid()
      ensures chatItems == old(chatItems)[item.sid := Coalesce(old(Rows(item.sid)), item)]
      ensures chatRevision == old(chatRevision)[item.sid := old(At(chatRevision, item.sid, 0)) + 1]
    {
      hide Linked, Target, AllLinked, Keyed, AllKeyed, Queue;
      var sid := item.sid;
      var items := Rows(sid);
      ghost var was, ids, names := chatItems, pendingPreById, pendingPreNoIdByName;
      LinkedAt(was, ids, names, sid);
      if item.hook.name == "PreToolUse" {
        LinkPre(items, ById(sid), ByName(sid), item);
        if item.hook.toolUseId.Some? {
          pendingPreById := pendingPreById[sid := ById(sid)[item.hook.toolUseId.value := |items|]];
        } else if item.hook.toolName.Some? {
          var name := item.hook.toolName.value;
          pendingPreNoIdByName := pendingPreNoIdByName[
            sid := ByName(sid)[name := Queue(ByName(sid), name) + [|items|]]];
        }
        items := items + [item];
      } else if item.hook.name == "PostToolUse" {
        var idx := TakePendingPre(sid, item);
        if idx.Some? {
          items := items[idx.value := item.(seqNo := items[idx.value].seqNo)];
        } else {
          LinkOther(items, ById(sid), ByName(sid), item);
          items := items + [item];
        }
      } else {
        LinkOther(items, ById(sid), ByName(sid), item);
        items := items + [item];
      }
      chatItems := chatItems[sid := items];
      chatRevision := chatRevision[sid := At(chatRevision, sid, 0) + 1];
      Relink(was, ids, names, chatItems, pendingPreById, pendingPreNoIdByName, sid);
    }

    /** One record through the cursor gate: the indexed form computes what the plain scan does. */
    method AppendRec(rec: Rec)
      requires Valid()
      modifies this`chatItems, this`chatRevision, this`terminalOutput, this`cursors,
               this`pendingPreById, this`pendingPreNoIdByName
      ensures Valid()
      ensures FeedOf(rec.sid) == Apply(old(FeedOf(rec.sid)), rec)
      ensures forall sid :: sid != rec.sid ==> FeedOf(sid) == old(FeedOf(sid))
    {
      hide AllLinked, Coalesce;
      if rec.seqNo <= Cursor(rec.sid) {
        return;
      }
      cursors := cursors[rec.sid := rec.seqNo];
      match rec.body
      case Event(None) =>
      case Event(Some(hook)) =>
        AppendEvent(ChatItem(rec.seqNo, rec.sid, hook));
      case Io(None) =>
      case Io(Some(text)) =>
        terminalOutput := terminalOutput[rec.sid := At(terminalOutput, rec.sid, "") + text];
      case Meta =>
    }

    /** A batch is its records one after the other; each session sees only its own. */
    method AppendBatch(sid: string, recs: seq<Rec>)
      requires Valid()
      modifies this`chatItems, this`chatRevision, this`terminalOutput, this`cursors,
               this`pendingPreById, this`pendingPreNoIdByName
      ensures Valid()
      ensures forall s :: FeedOf(s) == ApplyAll(old(FeedOf(s)), Of(recs, s))
      ensures forall s :: At(terminalOutput, s, "") == old(At(terminalOutput, s, ""))
                                                      + Texts(Applied(old(Cursor(s)), Of(recs, s)))
    {
      for i := 0 to |recs|
        invariant Valid()
        invariant forall s :: FeedOf(s) == ApplyAll(old(FeedOf(s)), Of(recs[..i], s))
      {
        forall s ensures Of(recs[..i + 1], s) == Of(recs[..i], s) + (if recs[i].sid == s then [recs[i]] else []) {
          assert recs[..i + 1][..i] == recs[..i];
        }
        forall s ensures ApplyAll(old(FeedOf(s)), Of(recs[..i + 1], s))
            == if recs[i].sid == s then Apply(ApplyAll(old(FeedOf(s)), Of(recs[..i], s)), recs[i])
               else ApplyAll(old(FeedOf(s)), Of(recs[..i], s))
        {
          var front := Of(recs[..i], s);
          assert (front + [recs[i]])[..|front|] == front && front + [] == front;
        }
        AppendRec(recs[i]);
      }
      assert recs[..|recs|] == recs;
      forall s ensures At(terminalOutput, s, "") == old(At(terminalOutput, s, ""))
                                                   + Texts(Applied(old(Cursor(s)), Of(recs, s)))
      {
        TextIsConcatenated(old(FeedOf(s)), Of(recs, s));
        assert FeedOf(s).text == At(terminalOutput, s, "");
      }
    }

    /** The typing indicator: a running session whose last turn boundary opened a turn. */
    method IsWorking(sid: Option<string>) returns (busy: bool)
      ensures busy == (sid.Some? && sid.value in sessions && sessions[sid.value].state == "running"
                       && TurnOpen(Rows(sid.value)))
      ensures busy ==> sid.Some? && sid.value in sessions && sessions[sid.value].state == "running"
      ensures sid.Some? && sid.value in sessions && sessions[sid.value].state == "running" ==>
                (busy <==> LastBoundaryOpens(Rows(sid.value)))
    {
      hide LastBoundaryOpens;
      if sid.Some? {
        TurnOpenIff(Rows(sid.value));
      }
      if sid.None? || sid.value !in sessions || sessions[sid.value].state != "running" {
        return false;
      }
      var rows := Rows(sid.value);
      var n := |rows|;
      assert rows[..n] == rows;
      while n > 0
        invariant 0 <= n <= |rows|
        invariant TurnOpen(rows) == TurnOpen(rows[..n])
      {
        var item := rows[n - 1];
        assert rows[..n][..n - 1] == rows[..n - 1];
        if item.hook.name == "UserPromptSubmit" {
          return true;
        }
        if item.hook.name in ["Stop", "StopFailure", "PermissionRequest", "Elicitation"] {
          return false;
        }
        n := n - 1;
      }
      return false;
    }

    /** The session list, in the one order `OrderIsCanonical` leaves possible. */
    method OrderedSessions() returns (r: seq<SessionMeta>)
      requires Valid()
      ensures Ordered(pinnedSids, r) && Lists(r, sessions)
      ensures forall i, j :: 0 <= i < j < |r| ==> ListedInOrder(pinnedSids, r[i], r[j])
    {
      r := [];
      var todo := sessions.Keys;
      while todo != {}
        invariant todo <= sessions.Keys
        invariant Ordered(pinnedSids, r)
        invariant forall m :: m in r ==> m.sid in sessions && m.sid !in todo && sessions[m.sid] == m
        invariant forall sid :: sid in sessions && sid !in todo ==> sessions[sid] in r
        decreases todo
      {
        var sid :| sid in todo;
        todo := todo - {sid};
        r := Insert(pinnedSids, r, sessions[sid]);
      }
      OrderIsMeant(pinnedSids, r);
    }

    /** Drop every trace of a session, also from the daemons' buckets. */
    method RemoveSession(sid: string)
      requires Valid()
      modifies this
      ensures Valid()
      ensures FeedOf(sid) == NO_FEED
      ensures forall s :: s != sid ==> FeedOf(s) == old(FeedOf(s))
      ensures sessions == old(sessions) - {sid} && pinnedSids == old(pinnedSids) - {sid}
      ensures sessionsByDaemon == Without(old(sessionsByDaemon), sid)
    {
      hide AllLinked, AllKeyed, Without, At;
      Unlink(chatItems, pendingPreById, pendingPreNoIdByName, sid);
      AtRemoved(chatItems, sid, []);
      AtRemoved(chatRevision, sid, 0);
      AtRemoved(terminalOutput, sid, "");
      AtRemoved(cursors, sid, 0);
      sessions := sessions - {sid};
      chatItems := chatItems - {sid};
      chatRevision := chatRevision - {sid};
      pendingPreById := pendingPreById - {sid};
      pendingPreNoIdByName := pendingPreNoIdByName - {sid};
      terminalOutput := terminalOutput - {sid};
      cursors := cursors - {sid};
      pinnedSids := pinnedSids - {sid};
      sessionsByDaemon := Without(sessionsByDaemon, sid);
    }

    /** A daemon's hello replaces its whole bucket; what it no longer reports is gone from the flat list. */
    method ReplaceSessionsForDaemon(daemonId: string, metas: seq<SessionMeta>)
      requires Valid()
      modifies this`sessions, this`sessionsByDaemon
      ensures Valid()
      ensures sessionsByDaemon == old(sessionsByDaemon)[daemonId := Bucket(metas)]
      ensures forall sid :: sid in sessionsByDaemon[daemonId] <==> Names(metas, sid)
      ensures forall sid :: sid in sessionsByDaemon[daemonId] ==> LastOf(metas, sid, sessionsByDaemon[daemonId][sid])
      ensures MergesBuckets(sessions, sessionsByDaemon)
      ensures forall sid :: sid in sessions
                <==> !("pending-" <= sid) && exists d :: d in sessionsByDaemon && sid in sessionsByDaemon[d]
    {
      hide AllLinked, MergesBuckets;
      var bucket: map<string, SessionMeta> := map[];
      for i := 0 to |metas|
        invariant bucket == Bucket(metas[..i])
        invariant Keyed(bucket)
      {
        assert metas[..i + 1][..i] == metas[..i];
        bucket := bucket[metas[i].sid := metas[i]];
      }
      assert metas[..|metas|] == metas;
      BucketIsUpserted(metas);
      forall sid ensures sid in bucket <==> Names(metas, sid)
                 ensures sid in bucket ==> LastOf(metas, sid, bucket[sid])
      {
        UpsertedKeepsLast(map[], metas, sid);
      }
      sessionsByDaemon := sessionsByDaemon[daemonId := bucket];
      sessions := MergeBuckets(sessionsByDaemon);
      NoPlaceholders(sessions, sessionsByDaemon);
    }

    /** Refresh or add these sessions in the flat list, the later of two for one id winning; no bucket changes. */
    method UpsertSessions(metas: seq<SessionMeta>)
      requires Valid()
      modifies this`sessions
      ensures Valid() && sessions == Upserted(old(sessions), metas)
      ensures forall sid :: sid in sessions <==> sid in old(sessions) || Names(metas, sid)
      ensures forall sid :: Names(metas, sid) ==> LastOf(metas, sid, sessions[sid])
      ensures forall sid :: sid in old(sessions) && !Names(metas, sid) ==> sessions[sid] == old(sessions)[sid]
    {
      hide AllLinked;
      for i := 0 to |metas|
        invariant Keyed(sessions) && sessions == Upserted(old(sessions), metas[..i])
      {
        assert metas[..i + 1][..i] == metas[..i];
        sessions := sessions[metas[i].sid := metas[i]];
      }
      assert metas[..|metas|] == metas;
      forall sid ensures sid in sessions <==> sid in old(sessions) || Names(metas, sid)
                 ensures Names(metas, sid) ==> LastOf(metas, sid, sessions[sid])
                 ensures sid in old(sessions) && !Names(metas, sid) ==> sessions[sid] == old(sessions)[sid]
      {
        UpsertedKeepsLast(old(sessions), metas, sid);
      }
    }

    /** A daemon's state reply refreshes or adds one session. */
    method AppendState(meta: SessionMeta)
      requires Valid()
      modifies this`sessions
      ensures Valid() && sessions == old(sessions)[meta.sid := meta]
    {
      hide AllLinked;
      sessions := sessions[meta.sid := meta];
    }
  }

  // The session list over whole runs.

  datatype Directory = Directory(sessions: map<string, SessionMeta>, buckets: map<string, map<string, SessionMeta>>)

  datatype Change =
    | Report(daemonId: string, metas: seq<SessionMeta>)
    | Upsert(metas: seq<SessionMeta>)
    | Refresh(meta: SessionMeta)
    | Drop(sid: string)

  /** What the four operations do to the list and the buckets; a report may merge the buckets in any order. */
  ghost predicate Changes(d: Directory, c: Change, e: Directory) {
    match c
    case Report(daemonId, metas) =>
      e.buckets == d.buckets[daemonId := Bucket(metas)] && MergesBuckets(e.sessions, e.buckets)
    case Upsert(metas) => e == d.(sessions := Upserted(d.sessions, metas))
    case Refresh(meta) => e == d.(sessions := d.sessions[meta.sid := meta])
    case Drop(sid) => e == Directory(d.sessions - {sid}, Without(d.buckets, sid))
  }

  /** The daemon speaks of this session. */
  ghost predicate Mentions(c: Change, sid: string) {
    match c
    case Report(_, metas) => Names(metas, sid)
    case Upsert(metas) => Names(metas, sid)
    case Refresh(meta) => meta.sid == sid
    case Drop(_) => false
  }

  ghost predicate Gone(d: Directory, sid: string) {
    sid !in d.sessions && forall x :: x in d.buckets ==> sid !in d.buckets[x]
  }

  lemma ChangeKeepsGone(d: Directory, c: Change, e: Directory, sid: string)
    requires Gone(d, sid) && Changes(d, c, e) && !Mentions(c, sid)
    ensures Gone(e, sid)
  {
    match c
    case Report(daemonId, metas) => { BucketIsUpserted(metas); UpsertedKeepsLast(map[], metas, sid); }
    case Upsert(metas) => { UpsertedKeepsLast(d.sessions, metas, sid); }
    case _ => {
    }
  }

  /** A dropped session is back, in the list or in a bucket, only if some daemon has spoken of it since. */
  lemma {:induction false} NoGhostRows(changes: seq<Change>, states: seq<Directory>, i: nat, k: nat, sid: string)
    requires |states| == |changes| + 1 && i < k < |states|
    requires forall j :: 0 <= j < |changes| ==> Changes(states[j], changes[j], states[j + 1])
    requires changes[i] == Drop(sid) && forall j :: i < j < k ==> !Mentions(changes[j], sid)
    ensures Gone(states[k], sid)
  {
    if k == i + 1 {
      assert Changes(states[i], changes[i], states[k]);
    } else {
      hide Changes, Mentions, Gone;
      NoGhostRows(changes, states, i, k - 1, sid);
      ChangeKeepsGone(states[k - 1], changes[k - 1], states[k], sid);
    }
  }

  /** The daemons' buckets merged in whatever order the dictionary is walked, placeholders stripped. */
  method MergeBuckets(buckets: map<string, map<string, SessionMeta>>) returns (flat: map<string, SessionMeta>)
    requires AllKeyed(buckets)
    ensures MergesBuckets(flat, buckets) && Keyed(flat)
  {
    var merged: map<string, SessionMeta> := map[];
    var todo := buckets.Keys;
    while todo != {}
      invariant todo <= buckets.Keys
      invariant forall sid :: sid in merged <==> exists d :: d in buckets && d !in todo && sid in buckets[d]
      invariant forall sid ::
                  sid in merged ==> exists d :: d in buckets && sid in buckets[d] && merged[sid] == buckets[d][sid]
      decreases todo
    {
      var d :| d in todo;
      todo := todo - {d};
      merged := merged + buckets[d];
    }
    flat := map sid | sid in merged && !Placeholder(sid) :: merged[sid];
  }

  method Insert(pinned: set<string>, r: seq<SessionMeta>, m: SessionMeta) returns (s: seq<SessionMeta>)
    requires Ordered(pinned, r) && forall x :: x in r ==> x.sid != m.sid
    ensures Ordered(pinned, s) && forall x :: x in s <==> x == m || x in r
  {
    var k := 0;
    while k < |r| && Before(pinned, r[k], m)
      invariant 0 <= k <= |r|
      invariant forall i :: 0 <= i < k ==> Before(pinned, r[i], m)
    {
      k := k + 1;
    }
    s := r[..k] + [m] + r[k..];
    forall j | k <= j < |r| ensures Before(pinned, m, r[j]) {
      assert r[k] in r;
      BeforeIsTotal(pinned, m, r[k]);
      if j > k {
        BeforeIsTransitive(pinned, m, r[k], r[j]);
      }
    }
    forall x ensures x in s <==> x == m || x in r {
      assert r == r[..k] + r[k..];
    }
  }
}
