/** What one session's record log means: a plain scan over its rows, with no index. */
module SessionLog {
  import opened Common

  /** A decoded hook event. `detail` stands for the fields the store only carries along. */
  datatype HookEvent = HookEvent(name: string, toolName: Option<string>, toolUseId: Option<string>, detail: string)

  /** A record's kind with what its payload decodes to, `None` where decoding fails. */
  datatype Body = Event(hook: Option<HookEvent>) | Io(text: Option<string>) | Meta

  datatype Rec = Rec(sid: string, seqNo: int, body: Body)

  datatype ChatItem = ChatItem(seqNo: int, sid: string, hook: HookEvent)

  /** Everything the UI reads about one session. */
  datatype Feed = Feed(rows: seq<ChatItem>, revision: nat, text: string, cursor: int)

  const NO_FEED := Feed([], 0, "", 0)

  predicate IsPre(item: ChatItem) { item.hook.name == "PreToolUse" }

  predicate IsPost(item: ChatItem) { item.hook.name == "PostToolUse" }

  /** A tool row, started or finished, that names this call. */
  predicate Carries(item: ChatItem, id: string) {
    (IsPre(item) || IsPost(item)) && item.hook.toolUseId == Some(id)
  }

  /** A started row of a call that has no id. */
  predicate Open(item: ChatItem, name: string) {
    IsPre(item) && item.hook.toolUseId.None? && item.hook.toolName == Some(name)
  }

  /** The last tool row carrying `id`, or -1. */
  function LastWith(rows: seq<ChatItem>, id: string): (r: int)
    ensures -1 <= r < |rows|
    ensures r >= 0 ==> Carries(rows[r], id)
    ensures forall i :: r < i < |rows| ==> !Carries(rows[i], id)
  {
    if rows == [] then -1
    else if Carries(rows[|rows| - 1], id) then |rows| - 1
    else LastWith(rows[..|rows| - 1], id)
  }

  /** The first open row of that tool name, or -1. */
  function FirstOpen(rows: seq<ChatItem>, name: string): (r: int)
    ensures -1 <= r < |rows|
    ensures r >= 0 ==> Open(rows[r], name) && forall i :: 0 <= i < r ==> !Open(rows[i], name)
    ensures r == -1 ==> forall i :: 0 <= i < |rows| ==> !Open(rows[i], name)
  {
    if rows == [] then -1
    else
      var r := FirstOpen(rows[..|rows| - 1], name);
      if r >= 0 then r else if Open(rows[|rows| - 1], name) then |rows| - 1 else -1
  }

  /** The row a finished call belongs to, or -1. */
  function Target(rows: seq<ChatItem>, post: ChatItem): (t: int)
    ensures -1 <= t < |rows|
    ensures t >= 0 ==> IsPre(rows[t]) && rows[t].hook.toolUseId == post.hook.toolUseId
  {
    match post.hook.toolUseId
    case Some(id) =>
      var i := LastWith(rows, id);
      if i >= 0 && IsPre(rows[i]) then i else -1
    case None =>
      if post.hook.toolName.Some? then FirstOpen(rows, post.hook.toolName.value) else -1
  }

  function Coalesce(rows: seq<ChatItem>, item: ChatItem): seq<ChatItem> {
    var t := if IsPost(item) then Target(rows, item) else -1;
    if t >= 0 then rows[t := item.(seqNo := rows[t].seqNo)] else rows + [item]
  }

  function Apply(f: Feed, r: Rec): Feed {
    if r.seqNo <= f.cursor then f
    else
      var g := f.(cursor := r.seqNo);
      match r.body
      case Event(Some(hook)) =>
        g.(rows := Coalesce(f.rows, ChatItem(r.seqNo, r.sid, hook)), revision := f.revision + 1)
      case Io(Some(text)) => g.(text := f.text + text)
      case _ => g
  }

  function ApplyAll(f: Feed, recs: seq<Rec>): Feed {
    if recs == [] then f else Apply(ApplyAll(f, recs[..|recs| - 1]), recs[|recs| - 1])
  }

  /** The records of one session, in order. */
  function Of(recs: seq<Rec>, sid: string): seq<Rec> {
    if recs == [] then []
    else Of(recs[..|recs| - 1], sid) + (if recs[|recs| - 1].sid == sid then [recs[|recs| - 1]] else [])
  }

  // What the fold keeps.

  ghost predicate RowsAscend(f: Feed) {
    && (forall i :: 0 <= i < |f.rows| ==> f.rows[i].seqNo <= f.cursor)
    && (forall i, j :: 0 <= i < j < |f.rows| ==> f.rows[i].seqNo < f.rows[j].seqNo)
  }

  /** Row numbers stay distinct, ascending and at most the cursor, whatever arrives in whatever order. */
  lemma {:induction false} RowsStayAscending(f: Feed, recs: seq<Rec>)
    requires RowsAscend(f)
    ensures RowsAscend(ApplyAll(f, recs)) && f.cursor <= ApplyAll(f, recs).cursor
  {
    if recs != [] {
      RowsStayAscending(f, recs[..|recs| - 1]);
    }
  }

  /** The records that pass the cursor gate: each one above every record before it. */
  function Applied(cursor: int, recs: seq<Rec>): seq<Rec> {
    if recs == [] then []
    else
      var r := recs[|recs| - 1];
      Applied(cursor, recs[..|recs| - 1]) + (if r.seqNo > Height(cursor, recs[..|recs| - 1]) then [r] else [])
  }

  function Height(cursor: int, recs: seq<Rec>): int {
    if recs == [] then cursor
    else
      var h := Height(cursor, recs[..|recs| - 1]);
      if recs[|recs| - 1].seqNo > h then recs[|recs| - 1].seqNo else h
  }

  lemma {:induction false} HeightBounds(cursor: int, recs: seq<Rec>)
    ensures Height(cursor, recs) >= cursor
    ensures forall r :: r in recs ==> r.seqNo <= Height(cursor, recs)
  {
    if recs != [] {
      HeightBounds(cursor, recs[..|recs| - 1]);
      assert recs == recs[..|recs| - 1] + [recs[|recs| - 1]];
    }
  }

  lemma {:induction false} CursorIsHeight(f: Feed, recs: seq<Rec>)
    ensures ApplyAll(f, recs).cursor == Height(f.cursor, recs)
  {
    if recs != [] {
      CursorIsHeight(f, recs[..|recs| - 1]);
    }
  }

  lemma {:induction false} AppliedHeight(cursor: int, recs: seq<Rec>)
    ensures Height(cursor, Applied(cursor, recs)) == Height(cursor, recs)
  {
    if recs != [] {
      var front, r := recs[..|recs| - 1], recs[|recs| - 1];
      AppliedHeight(cursor, front);
      if r.seqNo > Height(cursor, front) {
        var a := Applied(cursor, front);
        assert Applied(cursor, recs)[..|a|] == a;
      } else {
        assert Applied(cursor, recs) == Applied(cursor, front);
      }
    }
  }

  /** Any delivery ends where the plain fold over just its gate-passing records ends. */
  lemma {:induction false} DeliveryIsApplied(f: Feed, recs: seq<Rec>)
    ensures ApplyAll(f, recs) == ApplyAll(f, Applied(f.cursor, recs))
  {
    if recs != [] {
      var front, r := recs[..|recs| - 1], recs[|recs| - 1];
      DeliveryIsApplied(f, front);
      CursorIsHeight(f, front);
      var a := Applied(f.cursor, front);
      if r.seqNo > Height(f.cursor, front) {
        assert Applied(f.cursor, recs)[..|a|] == a;
      } else {
        assert Applied(f.cursor, recs) == a;
      }
    }
  }

  /** A delivery of records none of which is new changes nothing. */
  lemma {:induction false} OldRecordsChangeNothing(f: Feed, recs: seq<Rec>)
    requires forall r :: r in recs ==> r.seqNo <= f.cursor
    ensures ApplyAll(f, recs) == f
  {
    if recs != [] {
      OldRecordsChangeNothing(f, recs[..|recs| - 1]);
    }
  }

  /** Applying a batch a second time changes nothing, though records of other batches came between. */
  lemma ReplayChangesNothing(f: Feed, batch: seq<Rec>, between: seq<Rec>)
    ensures var g := ApplyAll(ApplyAll(f, batch), between);
            ApplyAll(g, batch) == g
  {
    var b := ApplyAll(f, batch);
    CursorIsHeight(f, batch);
    CursorIsHeight(b, between);
    HeightBounds(f.cursor, batch);
    HeightBounds(b.cursor, between);
    OldRecordsChangeNothing(ApplyAll(b, between), batch);
  }

  // What the fold shows.

  /** The texts of the decoded io records, the first one first. */
  function Texts(recs: seq<Rec>): string {
    if recs == [] then ""
    else (if recs[0].body.Io? && recs[0].body.text.Some? then recs[0].body.text.value else "") + Texts(recs[1..])
  }

  lemma {:induction false} TextsSnoc(recs: seq<Rec>, r: Rec)
    ensures Texts(recs + [r]) == Texts(recs) + Texts([r])
  {
    if recs == [] {
      assert [] + [r] == [r];
    } else {
      TextsSnoc(recs[1..], r);
      assert (recs + [r])[1..] == recs[1..] + [r];
    }
  }

  lemma TextStep(g: Feed, r: Rec)
    ensures Apply(g, r).text == if r.seqNo > g.cursor then g.text + Texts([r]) else g.text
  {
    assert Texts([r][1..]) == "" && g.text + "" == g.text;
  }

  /** The terminal shows, after what it showed before, the text of every applied io record, in their order. */
  lemma {:induction false} TextIsConcatenated(f: Feed, recs: seq<Rec>)
    ensures ApplyAll(f, recs).text == f.text + Texts(Applied(f.cursor, recs))
  {
    if recs != [] {
      var front, r := recs[..|recs| - 1], recs[|recs| - 1];
      var a := Applied(f.cursor, front);
      var more := if r.seqNo > Height(f.cursor, front) then [r] else [];
      assert ApplyAll(f, recs) == Apply(ApplyAll(f, front), r) && Applied(f.cursor, recs) == a + more;
      hide ApplyAll, Apply, Applied, Height, Texts;
      TextIsConcatenated(f, front);
      CursorIsHeight(f, front);
      TextStep(ApplyAll(f, front), r);
      if more == [r] {
        TextsSnoc(a, r);
        Joined(f.text, Texts(a), Texts([r]));
      } else {
        assert a + more == a;
      }
    }
  }

  lemma Joined(a: string, b: string, c: string)
    ensures a + b + c == a + (b + c)
  {
  }

  /** A start and an end of one call: of the same id, or both without one and of the same tool. */
  predicate SameCall(pre: ChatItem, post: ChatItem) {
    && pre.hook.name == "PreToolUse" && post.hook.name == "PostToolUse" && pre.hook.toolUseId == post.hook.toolUseId
    && (pre.hook.toolUseId.None? ==> pre.hook.toolName.Some? && pre.hook.toolName == post.hook.toolName)
  }

  /**
   * The row is this event, or the place where this call's start was, now showing what a later event said of its end.
   */
  predicate RowOf(row: ChatItem, e: ChatItem, events: seq<ChatItem>) {
    || row == e
    || (row.seqNo == e.seqNo && SameCall(e, row)
        && exists p :: p in events && p.hook == row.hook && p.sid == row.sid && p.seqNo > e.seqNo)
  }

  /** Each row is of an event. */
  ghost predicate RowsAreOf(rows: seq<ChatItem>, events: seq<ChatItem>) {
    forall row :: row in rows ==> exists e :: e in events && RowOf(row, e, events)
  }

  /** Each event is told by a row. */
  ghost predicate EventsAreTold(rows: seq<ChatItem>, events: seq<ChatItem>) {
    forall e :: e in events ==> exists row :: row in rows && TellsOf(row, e)
  }

  /** The row stands where the event was, or, for a call's end, shows what it said at the place of an earlier event. */
  predicate TellsOf(row: ChatItem, e: ChatItem) {
    || row.seqNo == e.seqNo
    || (e.hook.name == "PostToolUse" && row.hook == e.hook && row.sid == e.sid && row.seqNo < e.seqNo)
  }

  /** The target of a finished call is a started one of the same call, and the row it leaves is of both. */
  lemma TargetIsSameCall(rows: seq<ChatItem>, post: ChatItem)
    requires IsPost(post) && Target(rows, post) >= 0
    ensures SameCall(rows[Target(rows, post)], post)
  {
  }

  lemma RowOfGrows(row: ChatItem, e: ChatItem, events: seq<ChatItem>, item: ChatItem)
    requires RowOf(row, e, events)
    ensures RowOf(row, e, events + [item])
  {
    if row != e {
      var p :| p in events && p.hook == row.hook && p.sid == row.sid && p.seqNo > e.seqNo;
      assert p in events + [item];
    }
  }

  /** Every row but the given one is of an event as before. */
  lemma OtherRows(rows: seq<ChatItem>, events: seq<ChatItem>, item: ChatItem, row: ChatItem)
    requires RowsAreOf(rows, events) && row in rows
    ensures exists e :: e in events + [item] && RowOf(row, e, events + [item])
  {
    hide RowOf;
    var e :| e in events && RowOf(row, e, events);
    RowOfGrows(row, e, events, item);
    assert e in events + [item];
  }

  lemma AppendedRows(rows: seq<ChatItem>, events: seq<ChatItem>, item: ChatItem)
    requires RowsAreOf(rows, events)
    ensures RowsAreOf(rows + [item], events + [item])
  {
    assert item in events + [item] && RowOf(item, item, events + [item]);
    hide RowOf;
    forall row | row in rows + [item] ensures exists e :: e in events + [item] && RowOf(row, e, events + [item]) {
      if row in rows {
        OtherRows(rows, events, item, row);
      }
    }
  }

  lemma AppendedTells(rows: seq<ChatItem>, events: seq<ChatItem>, item: ChatItem)
    requires EventsAreTold(rows, events)
    ensures EventsAreTold(rows + [item], events + [item])
  {
    assert item in rows + [item] && TellsOf(item, item);
    hide TellsOf;
    forall e | e in events + [item] ensures exists row :: row in rows + [item] && TellsOf(row, e) {
      if e in events {
        var row :| row in rows && TellsOf(row, e);
        assert row in rows + [item];
      }
    }
  }

  /** A row that is a start is the event itself. */
  lemma StartIsEvent(rows: seq<ChatItem>, events: seq<ChatItem>, row: ChatItem)
    requires RowsAreOf(rows, events) && row in rows && row.hook.name == "PreToolUse"
    ensures row in events
  {
    var e :| e in events && RowOf(row, e, events);
  }

  /** The row of a start that is overwritten told of no other event. */
  lemma StillTold(rows: seq<ChatItem>, t: nat, merged: ChatItem, e: ChatItem)
    requires t < |rows| && rows[t].hook.name == "PreToolUse" && merged.seqNo == rows[t].seqNo
    requires exists row :: row in rows && TellsOf(row, e)
    ensures exists row :: row in rows[t := merged] && TellsOf(row, e)
  {
    var k :| 0 <= k < |rows| && TellsOf(rows[k], e);
    assert TellsOf(rows[t := merged][k], e) && rows[t := merged][k] in rows[t := merged];
  }

  lemma MergedRow(pre: ChatItem, item: ChatItem, events: seq<ChatItem>)
    requires SameCall(pre, item) && pre.seqNo < item.seqNo && item in events
    ensures RowOf(item.(seqNo := pre.seqNo), pre, events) && TellsOf(item.(seqNo := pre.seqNo), item)
    ensures pre.hook.name == "PreToolUse"
  {
  }

  lemma RowsButOne(rows: seq<ChatItem>, t: nat, merged: ChatItem)
    requires t < |rows|
    ensures forall row :: row in rows[t := merged] ==> row == merged || row in rows
    ensures merged in rows[t := merged]
  {
    assert rows[t := merged][t] == merged;
  }

  lemma MergedRows(rows: seq<ChatItem>, events: seq<ChatItem>, t: nat, item: ChatItem)
    requires RowsAreOf(rows, events) && t < |rows| && SameCall(rows[t], item) && rows[t].seqNo < item.seqNo
    ensures RowsAreOf(rows[t := item.(seqNo := rows[t].seqNo)], events + [item])
  {
    hide RowOf, TellsOf, SameCall;
    var pre, merged, events' := rows[t], item.(seqNo := rows[t].seqNo), events + [item];
    assert pre in rows && item in events';
    MergedRow(pre, item, events');
    StartIsEvent(rows, events, pre);
    RowsButOne(rows, t, merged);
    assert pre in events' && RowOf(merged, pre, events');
    hide RowsAreOf;
    var rows' := rows[t := merged];
    forall row | row in rows' ensures exists e :: e in events' && RowOf(row, e, events') {
      if row != merged {
        OtherRows(rows, events, item, row);
      }
    }
    RowsAreOfIs(rows', events');
  }

  lemma RowsAreOfIs(rows: seq<ChatItem>, events: seq<ChatItem>)
    requires forall row :: row in rows ==> exists e :: e in events && RowOf(row, e, events)
    ensures RowsAreOf(rows, events)
  {
  }

  lemma MergedTells(rows: seq<ChatItem>, events: seq<ChatItem>, t: nat, item: ChatItem)
    requires EventsAreTold(rows, events) && t < |rows| && SameCall(rows[t], item) && rows[t].seqNo < item.seqNo
    ensures EventsAreTold(rows[t := item.(seqNo := rows[t].seqNo)], events + [item])
  {
    hide RowOf, TellsOf, SameCall;
    var merged := item.(seqNo := rows[t].seqNo);
    MergedRow(rows[t], item, [item]);
    RowsButOne(rows, t, merged);
    var rows' := rows[t := merged];
    forall e | e in events + [item] ensures exists row :: row in rows' && TellsOf(row, e) {
      if e in events {
        StillTold(rows, t, merged, e);
      } else {
        assert merged in rows' && TellsOf(merged, item);
      }
    }
  }

  lemma EventStepTells(g: Feed, events: seq<Rec>, r: Rec)
    requires RowsAscend(g) && r.seqNo > g.cursor
    requires RowsAreOf(g.rows, Events(events)) && EventsAreTold(g.rows, Events(events))
    ensures RowsAreOf(Apply(g, r).rows, Events(events + [r])) && EventsAreTold(Apply(g, r).rows, Events(events + [r]))
  {
    hide RowsAreOf, EventsAreTold, Events, Target;
    EventsSnoc(events, r);
    if r.body.Event? && r.body.hook.Some? {
      var item := ChatItem(r.seqNo, r.sid, r.body.hook.value);
      if IsPost(item) && Target(g.rows, item) >= 0 {
        TargetIsSameCall(g.rows, item);
        MergedRows(g.rows, Events(events), Target(g.rows, item), item);
        MergedTells(g.rows, Events(events), Target(g.rows, item), item);
      } else {
        AppendedRows(g.rows, Events(events), item);
        AppendedTells(g.rows, Events(events), item);
      }
    } else {
      assert Events(events) + [] == Events(events);
    }
  }

  /** However batches overlap, the rows tell exactly the applied events: each has its row, and each row is of one. */
  lemma {:induction false} RowsTellEvents(recs: seq<Rec>)
    ensures var rows, events := ApplyAll(NO_FEED, recs).rows, Events(Applied(0, recs));
            RowsAreOf(rows, events) && EventsAreTold(rows, events)
  {
    if recs != [] {
      hide Apply, Height, RowsAreOf, EventsAreTold, Events;
      var front, r := recs[..|recs| - 1], recs[|recs| - 1];
      RowsTellEvents(front);
      CursorIsHeight(NO_FEED, front);
      RowsStayAscending(NO_FEED, front);
      var g, a := ApplyAll(NO_FEED, front), Applied(0, front);
      if r.seqNo > g.cursor {
        EventStepTells(g, a, r);
      } else {
        SkipsOld(g, r);
        assert a + [] == a;
      }
    }
  }

  lemma SkipsOld(g: Feed, r: Rec)
    requires r.seqNo <= g.cursor
    ensures Apply(g, r) == g
  {
  }

  // Convergence with one log.

  ghost predicate IsLog(log: seq<Rec>) {
    && (forall i :: 0 <= i < |log| ==> log[i].seqNo > 0)
    && (forall i, j :: 0 <= i < j < |log| ==> log[i].seqNo < log[j].seqNo)
  }

  /** How much of the log has been delivered in order, ignoring what is not next. */
  function Reached(log: seq<Rec>, recs: seq<Rec>): (n: nat)
    ensures n <= |log|
  {
    if recs == [] then 0
    else
      var n := Reached(log, recs[..|recs| - 1]);
      if n < |log| && recs[|recs| - 1] == log[n] then n + 1 else n
  }

  predicate WithinReach(log: seq<Rec>, n: nat, r: Rec) {
    exists k :: 0 <= k <= n && k < |log| && log[k] == r
  }

  /** Every delivered record is one already reached or the very next one. */
  predicate Gapless(log: seq<Rec>, recs: seq<Rec>) {
    recs == [] ||
    (Gapless(log, recs[..|recs| - 1]) &&
     WithinReach(log, Reached(log, recs[..|recs| - 1]), recs[|recs| - 1]))
  }

  lemma {:induction false} LogHeight(log: seq<Rec>, n: nat)
    requires IsLog(log) && n <= |log|
    ensures Height(0, log[..n]) == if n == 0 then 0 else log[n - 1].seqNo
  {
    if n > 0 {
      assert log[..n][..n - 1] == log[..n - 1];
      LogHeight(log, n - 1);
    }
  }

  lemma NextOfLog(log: seq<Rec>, n: nat, k: nat)
    requires IsLog(log) && n <= |log| && k < |log|
    ensures log[k].seqNo > Height(0, log[..n]) <==> k >= n
  {
    LogHeight(log, n);
  }

  lemma LogIsDistinct(log: seq<Rec>, k: nat, n: nat)
    requires IsLog(log) && k < |log| && n < |log|
    ensures log[k] == log[n] <==> k == n
  {
    if k != n {
      assert log[k].seqNo < log[n].seqNo || log[n].seqNo < log[k].seqNo;
    }
  }

  lemma Snoc(log: seq<Rec>, front: seq<Rec>, r: Rec)
    ensures Applied(0, front + [r]) == Applied(0, front) + (if r.seqNo > Height(0, front) then [r] else [])
    ensures var n := Reached(log, front);
            Reached(log, front + [r]) == if n < |log| && r == log[n] then n + 1 else n
  {
    assert (front + [r])[..|front|] == front;
  }

  lemma PrefixGrows(log: seq<Rec>, n: nat, r: Rec, a: seq<Rec>)
    requires n < |log| && r == log[n] && a == log[..n] + [r]
    ensures a == log[..n + 1]
  {
  }

  lemma GaplessLast(log: seq<Rec>, front: seq<Rec>, r: Rec) returns (k: nat)
    requires Gapless(log, front + [r])
    ensures Gapless(log, front) && k <= Reached(log, front) && k < |log| && log[k] == r
  {
    assert (front + [r])[..|front|] == front;
    k :| 0 <= k <= Reached(log, front) && k < |log| && log[k] == r;
  }

  lemma {:induction false} GaplessApplies(log: seq<Rec>, recs: seq<Rec>)
    requires IsLog(log) && Gapless(log, recs)
    ensures Applied(0, recs) == log[..Reached(log, recs)]
  {
    if recs != [] {
      hide IsLog, Gapless, Applied, Reached, Height;
      var front, r := recs[..|recs| - 1], recs[|recs| - 1];
      assert recs == front + [r];
      var k := GaplessLast(log, front, r);
      GaplessApplies(log, front);
      var n := Reached(log, front);
      AppliedHeight(0, front);
      NextOfLog(log, n, k);
      Snoc(log, front, r);
      if k == n {
        PrefixGrows(log, n, r, Applied(0, recs));
      } else if n < |log| {
        LogIsDistinct(log, k, n);
      }
    }
  }

  lemma {:induction false} PrefixShowsNoGap(log: seq<Rec>, recs: seq<Rec>, n: nat)
    requires IsLog(log) && (forall r :: r in recs ==> r in log) && n <= |log|
    requires Applied(0, recs) == log[..n]
    ensures Gapless(log, recs)
  {
    if recs != [] {
      var front, r := recs[..|recs| - 1], recs[|recs| - 1];
      var m := |Applied(0, front)|;
      assert Applied(0, front) == log[..n][..m] == log[..m];
      PrefixShowsNoGap(log, front, m);
      GaplessApplies(log, front);
      assert Reached(log, front) == m;
      AppliedHeight(0, front);
      assert r in recs;
      var k :| 0 <= k < |log| && log[k] == r;
      NextOfLog(log, m, k);
      assert r.seqNo > Height(0, front) ==> Applied(0, recs) == Applied(0, front) + [r];
      assert n > m ==> log[..n][m] == log[m];
    }
  }

  /** A delivery from one log applies a prefix of it exactly when it leaves no gap. */
  lemma PrefixAppliedIffGapless(log: seq<Rec>, recs: seq<Rec>)
    requires IsLog(log) && forall r :: r in recs ==> r in log
    ensures (exists n: nat :: n <= |log| && Applied(0, recs) == log[..n]) <==> Gapless(log, recs)
  {
    if Gapless(log, recs) {
      GaplessApplies(log, recs);
    }
    forall n: nat | n <= |log| && Applied(0, recs) == log[..n] ensures Gapless(log, recs) {
      PrefixShowsNoGap(log, recs, n);
    }
  }

  /** Overlapping batches and live records that leave no gap end exactly as one pass over the log's prefix. */
  lemma ReplayConverges(log: seq<Rec>, recs: seq<Rec>)
    requires IsLog(log) && Gapless(log, recs)
    ensures ApplyAll(NO_FEED, recs) == ApplyAll(NO_FEED, log[..Reached(log, recs)])
  {
    DeliveryIsApplied(NO_FEED, recs);
    GaplessApplies(log, recs);
  }

  // Counting, and the typing indicator.

  function Events(recs: seq<Rec>): seq<ChatItem> {
    if recs == [] then []
    else
      var r := recs[|recs| - 1];
      Events(recs[..|recs| - 1]) +
      (if r.body.Event? && r.body.hook.Some? then [ChatItem(r.seqNo, r.sid, r.body.hook.value)] else [])
  }

  /** How many of the event records of a run were folded into an earlier row. */
  function Merges(f: Feed, recs: seq<Rec>): nat {
    if recs == [] then 0
    else
      var front, r := recs[..|recs| - 1], recs[|recs| - 1];
      var g := ApplyAll(f, front);
      Merges(f, front) +
      (if r.seqNo > g.cursor && r.body.Event? && r.body.hook.Some? &&
          IsPost(ChatItem(r.seqNo, r.sid, r.body.hook.value)) &&
          Target(g.rows, ChatItem(r.seqNo, r.sid, r.body.hook.value)) >= 0 then 1 else 0)
  }

  lemma EventsSnoc(recs: seq<Rec>, r: Rec)
    ensures Events(recs + [r]) == Events(recs) +
      (if r.body.Event? && r.body.hook.Some? then [ChatItem(r.seqNo, r.sid, r.body.hook.value)] else [])
  {
    assert (recs + [r])[..|recs|] == recs;
  }

  /** One record adds a row, or is folded into one, or is not an applied event. */
  lemma CountStep(g: Feed, events: seq<Rec>, r: Rec)
    ensures var item := if r.body.Event? && r.body.hook.Some? then [ChatItem(r.seqNo, r.sid, r.body.hook.value)]
            else [];
            var merged := if r.seqNo > g.cursor && item != [] && IsPost(item[0]) && Target(g.rows, item[0]) >= 0 then 1
                else 0;
            var gained := if r.seqNo > g.cursor then |item| else 0;
            && |Apply(g, r).rows| + merged == |g.rows| + gained
            && Apply(g, r).revision == g.revision + gained
            && |Events(events + [r])| == |Events(events)| + |item|
  {
    EventsSnoc(events, r);
  }

  /** Every decoded event record that was applied is a row of its own or was folded into one; none is lost. */
  lemma {:induction false} EventsAreConserved(f: Feed, recs: seq<Rec>)
    ensures var g := ApplyAll(f, recs);
            && |g.rows| - |f.rows| + Merges(f, recs) == |Events(Applied(f.cursor, recs))|
            && g.revision - f.revision == |Events(Applied(f.cursor, recs))|
  {
    if recs != [] {
      hide Apply, Events, IsPost, Target, Height;
      var front, r := recs[..|recs| - 1], recs[|recs| - 1];
      EventsAreConserved(f, front);
      CursorIsHeight(f, front);
      CountStep(ApplyAll(f, front), Applied(f.cursor, front), r);
      if r.seqNo <= Height(f.cursor, front) {
        assert Applied(f.cursor, recs) == Applied(f.cursor, front) + [] == Applied(f.cursor, front);
      }
    }
  }

  predicate OpensTurn(item: ChatItem) { item.hook.name == "UserPromptSubmit" }

  predicate ClosesTurn(item: ChatItem) {
    item.hook.name in ["Stop", "StopFailure", "PermissionRequest", "Elicitation"]
  }

  /** Whether the last turn boundary, seen from the end, is an opening one. */
  predicate TurnOpen(rows: seq<ChatItem>) {
    rows != [] &&
    (OpensTurn(rows[|rows| - 1]) || (!ClosesTurn(rows[|rows| - 1]) && TurnOpen(rows[..|rows| - 1])))
  }

  /** A prompt, and nothing after it that ends the turn or waits for the user. */
  predicate LastBoundaryOpens(rows: seq<ChatItem>) {
    exists i :: 0 <= i < |rows| && rows[i].hook.name == "UserPromptSubmit" && Unbounded(rows[i + 1..])
  }

  predicate Unbounded(rows: seq<ChatItem>) {
    forall row :: row in rows ==>
      row.hook.name !in {"UserPromptSubmit", "Stop", "StopFailure", "PermissionRequest", "Elicitation"}
  }

  lemma UnboundedSnoc(rows: seq<ChatItem>, last: ChatItem)
    ensures Unbounded(rows + [last]) <==> Unbounded(rows) && !OpensTurn(last) && !ClosesTurn(last)
  {
    assert last in rows + [last];
  }

  lemma BoundaryStays(front: seq<ChatItem>, last: ChatItem)
    requires LastBoundaryOpens(front) && !OpensTurn(last) && !ClosesTurn(last)
    ensures LastBoundaryOpens(front + [last])
  {
    var rows := front + [last];
    var i :| 0 <= i < |front| && front[i].hook.name == "UserPromptSubmit" && Unbounded(front[i + 1..]);
    assert rows[i + 1..] == front[i + 1..] + [last] && rows[i] == front[i];
    hide Unbounded, OpensTurn, ClosesTurn;
    UnboundedSnoc(front[i + 1..], last);
  }

  lemma BoundaryWas(front: seq<ChatItem>, last: ChatItem)
    requires LastBoundaryOpens(front + [last]) && !OpensTurn(last)
    ensures LastBoundaryOpens(front) && !ClosesTurn(last)
  {
    var rows := front + [last];
    var i :| 0 <= i < |rows| && rows[i].hook.name == "UserPromptSubmit" && Unbounded(rows[i + 1..]);
    assert i < |front|;
    assert rows[i + 1..] == front[i + 1..] + [last] && rows[i] == front[i];
    hide Unbounded, OpensTurn, ClosesTurn;
    UnboundedSnoc(front[i + 1..], last);
  }

  /** The scan from the end finds a turn open exactly if the last boundary is a prompt. */
  lemma {:induction false} TurnOpenIff(rows: seq<ChatItem>)
    ensures TurnOpen(rows) <==> LastBoundaryOpens(rows)
  {
    if rows != [] {
      var front, last := rows[..|rows| - 1], rows[|rows| - 1];
      assert rows == front + [last];
      TurnOpenIff(front);
      if OpensTurn(last) {
        assert rows[|front| + 1..] == [] && rows[|front|] == last;
      } else {
        hide LastBoundaryOpens, OpensTurn, ClosesTurn;
        if LastBoundaryOpens(rows) {
          BoundaryWas(front, last);
        } else if LastBoundaryOpens(front) && !ClosesTurn(last) {
          BoundaryStays(front, last);
        }
      }
    }
  }

  lemma {:induction false} ToolRowsDoNotMatter(rows: seq<ChatItem>, t: nat, item: ChatItem)
    requires t < |rows| && IsPre(rows[t]) && IsPost(item)
    ensures TurnOpen(rows[t := item]) == TurnOpen(rows)
  {
    var n := |rows| - 1;
    if t < n {
      ToolRowsDoNotMatter(rows[..n], t, item);
      assert rows[t := item][..n] == rows[..n][t := item];
    } else {
      assert rows[t := item][..n] == rows[..n];
    }
  }

  lemma TurnAfter(rows: seq<ChatItem>, item: ChatItem)
    ensures TurnOpen(Coalesce(rows, item)) == (OpensTurn(item) || (!ClosesTurn(item) && TurnOpen(rows)))
  {
    var t := if IsPost(item) then Target(rows, item) else -1;
    if t >= 0 {
      ToolRowsDoNotMatter(rows, t, item.(seqNo := rows[t].seqNo));
    } else {
      assert (rows + [item])[..|rows|] == rows;
    }
  }

  lemma TurnSnoc(rows: seq<ChatItem>, item: ChatItem)
    ensures TurnOpen(rows + [item]) == (OpensTurn(item) || (!ClosesTurn(item) && TurnOpen(rows)))
  {
    assert (rows + [item])[..|rows|] == rows;
  }

  /** One applied record moves the coalesced rows and the uncoalesced events alike. */
  lemma TurnStep(f: Feed, events: seq<Rec>, r: Rec)
    requires r.seqNo > f.cursor && TurnOpen(f.rows) == TurnOpen(Events(events))
    ensures TurnOpen(Apply(f, r).rows) == TurnOpen(Events(events + [r]))
  {
    hide Coalesce, OpensTurn, ClosesTurn, TurnOpen, Events;
    EventsSnoc(events, r);
    if r.body.Event? && r.body.hook.Some? {
      var item := ChatItem(r.seqNo, r.sid, r.body.hook.value);
      TurnAfter(f.rows, item);
      TurnSnoc(Events(events), item);
    } else {
      assert Events(events) + [] == Events(events);
    }
  }

  /** Coalescing never changes whether a turn is open: the rows answer as the uncoalesced events do. */
  lemma {:induction false} CoalescingKeepsTurn(recs: seq<Rec>)
    ensures TurnOpen(ApplyAll(NO_FEED, recs).rows) == TurnOpen(Events(Applied(0, recs)))
  {
    hide Apply, TurnOpen, Events;
    if recs != [] {
      var front, r := recs[..|recs| - 1], recs[|recs| - 1];
      CoalescingKeepsTurn(front);
      CursorIsHeight(NO_FEED, front);
      if r.seqNo > Height(0, front) {
        TurnStep(ApplyAll(NO_FEED, front), Applied(0, front), r);
      } else {
        assert Applied(0, recs) == Applied(0, front) + [] == Applied(0, front);
        GateShut(ApplyAll(NO_FEED, front), r);
      }
    } else {
      assert Applied(0, recs) == [] && Events([]) == [] by { EventsOfNone(); }
    }
  }

  lemma GateShut(f: Feed, r: Rec)
    requires r.seqNo <= f.cursor
    ensures Apply(f, r) == f
  {
  }

  lemma EventsOfNone()
    ensures Events([]) == []
  {
  }
}
