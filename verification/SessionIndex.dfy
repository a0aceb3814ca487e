/** The two indexes that let `appendRec` find a finished call's row without scanning. */
module SessionIndex {
  import opened Common
  import opened SessionLog

  /** The open rows of one tool name, oldest first. */
  function OpenIndices(rows: seq<ChatItem>, name: string): (q: seq<nat>)
    ensures forall k :: 0 <= k < |q| ==> q[k] < |rows| && Open(rows[q[k]], name)
  {
    if rows == [] then []
    else
      var n := |rows| - 1;
      OpenIndices(rows[..n], name) + (if Open(rows[n], name) then [n] else [])
  }

  function Queue(byName: map<string, seq<nat>>, name: string): seq<nat> {
    if name in byName then byName[name] else []
  }

  ghost predicate LinkedIds(rows: seq<ChatItem>, byId: map<string, nat>) {
    && (forall id :: id in byId <==> (LastWith(rows, id) >= 0 && IsPre(rows[LastWith(rows, id)])))
    && (forall id :: id in byId ==> byId[id] == LastWith(rows, id))
  }

  ghost predicate LinkedNames(rows: seq<ChatItem>, byName: map<string, seq<nat>>) {
    forall name :: Queue(byName, name) == OpenIndices(rows, name)
  }

  /** The indexes hold exactly what a scan of the rows would find. */
  ghost predicate Linked(rows: seq<ChatItem>, byId: map<string, nat>, byName: map<string, seq<nat>>) {
    LinkedIds(rows, byId) && LinkedNames(rows, byName)
  }

  lemma {:induction false} FirstIsHead(rows: seq<ChatItem>, name: string)
    ensures FirstOpen(rows, name) == if OpenIndices(rows, name) == [] then -1 else OpenIndices(rows, name)[0]
  {
    if rows != [] {
      FirstIsHead(rows[..|rows| - 1], name);
    }
  }

  lemma LastWithSnoc(rows: seq<ChatItem>, item: ChatItem, id: string)
    ensures LastWith(rows + [item], id) == if Carries(item, id) then |rows| else LastWith(rows, id)
  {
    assert (rows + [item])[..|rows|] == rows;
  }

  lemma OpenSnoc(rows: seq<ChatItem>, item: ChatItem, name: string)
    ensures OpenIndices(rows + [item], name)
         == OpenIndices(rows, name) + (if Open(item, name) then [|rows|] else [])
  {
    assert (rows + [item])[..|rows|] == rows;
  }

  lemma {:induction false} LastWithReplace(rows: seq<ChatItem>, t: nat, item: ChatItem, id: string)
    requires t < |rows| && Carries(rows[t], id) == Carries(item, id)
    ensures LastWith(rows[t := item], id) == LastWith(rows, id)
  {
    var n := |rows| - 1;
    if t < n {
      LastWithReplace(rows[..n], t, item, id);
      assert rows[t := item][..n] == rows[..n][t := item];
    } else {
      assert rows[t := item][..n] == rows[..n];
    }
  }

  lemma {:induction false} OpenMember(rows: seq<ChatItem>, t: nat, name: string)
    requires t < |rows| && Open(rows[t], name)
    ensures t in OpenIndices(rows, name)
  {
    if t < |rows| - 1 {
      OpenMember(rows[..|rows| - 1], t, name);
    }
  }

  lemma {:induction false} OpenReplace(rows: seq<ChatItem>, t: nat, item: ChatItem, name: string)
    requires t < |rows| && !Open(item, name)
    requires Open(rows[t], name) ==> OpenIndices(rows, name) != [] && OpenIndices(rows, name)[0] == t
    ensures OpenIndices(rows[t := item], name)
         == if Open(rows[t], name) then OpenIndices(rows, name)[1..] else OpenIndices(rows, name)
  {
    hide Open, OpenIndices;
    var n := |rows| - 1;
    var front, last := rows[..n], rows[n];
    assert rows == front + [last];
    OpenSnoc(front, last, name);
    if t < n {
      assert rows[t := item] == front[t := item] + [last];
      OpenSnoc(front[t := item], last, name);
      if Open(rows[t], name) {
        OpenMember(front, t, name);
      }
      OpenReplace(front, t, item, name);
    } else {
      assert rows[t := item] == front + [item];
      OpenSnoc(front, item, name);
    }
  }

  lemma IdsSnoc(rows: seq<ChatItem>, byId: map<string, nat>, item: ChatItem)
    requires LinkedIds(rows, byId)
    ensures IsPre(item) && item.hook.toolUseId.Some?
            ==> LinkedIds(rows + [item], byId[item.hook.toolUseId.value := |rows|])
    ensures IsPre(item) && item.hook.toolUseId.None? ==> LinkedIds(rows + [item], byId)
    ensures !IsPre(item) && (IsPost(item) ==> Target(rows, item) < 0) ==> LinkedIds(rows + [item], byId)
  {
    hide LastWith;
    forall id ensures LastWith(rows + [item], id) == if Carries(item, id) then |rows| else LastWith(rows, id) {
      LastWithSnoc(rows, item, id);
    }
  }

  lemma NamesSnoc(rows: seq<ChatItem>, byName: map<string, seq<nat>>, item: ChatItem)
    requires LinkedNames(rows, byName)
    ensures IsPre(item) && item.hook.toolUseId.None? && item.hook.toolName.Some?
            ==> var name := item.hook.toolName.value;
                LinkedNames(rows + [item], byName[name := Queue(byName, name) + [|rows|]])
    ensures !IsPre(item) || item.hook.toolUseId.Some? || item.hook.toolName.None?
            ==> LinkedNames(rows + [item], byName)
  {
    hide OpenIndices;
    forall name ensures OpenIndices(rows + [item], name)
         == OpenIndices(rows, name) + (if Open(item, name) then [|rows|] else [])
    {
      OpenSnoc(rows, item, name);
    }
  }

  lemma IdsReplace(rows: seq<ChatItem>, byId: map<string, nat>, t: nat, item: ChatItem)
    requires LinkedIds(rows, byId) && t < |rows| && IsPre(rows[t]) && IsPost(item)
    requires rows[t].hook.toolUseId == item.hook.toolUseId
    ensures item.hook.toolUseId.None? ==> LinkedIds(rows[t := item], byId)
    ensures item.hook.toolUseId.Some? && LastWith(rows, item.hook.toolUseId.value) == t
            ==> LinkedIds(rows[t := item], byId - {item.hook.toolUseId.value})
  {
    hide LastWith;
    forall id ensures LastWith(rows[t := item], id) == LastWith(rows, id) {
      LastWithReplace(rows, t, item, id);
    }
    forall id | item.hook.toolUseId != Some(id) ensures LastWith(rows, id) != t {
      assert !Carries(rows[t], id);
    }
  }

  lemma NamesReplace(rows: seq<ChatItem>, byName: map<string, seq<nat>>, t: nat, item: ChatItem)
    requires LinkedNames(rows, byName) && t < |rows| && IsPre(rows[t]) && IsPost(item)
    requires rows[t].hook.toolUseId == item.hook.toolUseId
    ensures item.hook.toolUseId.Some? ==> LinkedNames(rows[t := item], byName)
    ensures item.hook.toolUseId.None? && item.hook.toolName.Some? && FirstOpen(rows, item.hook.toolName.value) == t
            ==> var name := item.hook.toolName.value;
                && Queue(byName, name) != [] && Queue(byName, name)[0] == t
                && LinkedNames(rows[t := item], byName[name := Queue(byName, name)[1..]])
  {
    hide OpenIndices, FirstOpen;
    if item.hook.toolUseId.Some? {
      forall name ensures OpenIndices(rows[t := item], name) == OpenIndices(rows, name) {
        OpenReplace(rows, t, item, name);
      }
    } else if item.hook.toolName.Some? && FirstOpen(rows, item.hook.toolName.value) == t {
      var name := item.hook.toolName.value;
      FirstIsHead(rows, name);
      var byName' := byName[name := Queue(byName, name)[1..]];
      forall n ensures Queue(byName', n) == OpenIndices(rows[t := item], n) {
        OpenReplace(rows, t, item, n);
      }
    }
  }

  /** A started call is registered under its id, or queued under its tool name. */
  lemma LinkPre(rows: seq<ChatItem>, byId: map<string, nat>, byName: map<string, seq<nat>>, item: ChatItem)
    requires Linked(rows, byId, byName) && IsPre(item)
    ensures item.hook.toolUseId.Some?
            ==> Linked(rows + [item], byId[item.hook.toolUseId.value := |rows|], byName)
    ensures item.hook.toolUseId.None? && item.hook.toolName.Some?
            ==> var name := item.hook.toolName.value;
                Linked(rows + [item], byId, byName[name := Queue(byName, name) + [|rows|]])
    ensures item.hook.toolUseId.None? && item.hook.toolName.None? ==> Linked(rows + [item], byId, byName)
  {
    hide LinkedIds, LinkedNames;
    IdsSnoc(rows, byId, item);
    NamesSnoc(rows, byName, item);
  }

  /** A row that is not a started call, and finishes none, leaves the indexes as they are. */
  lemma LinkOther(rows: seq<ChatItem>, byId: map<string, nat>, byName: map<string, seq<nat>>, item: ChatItem)
    requires Linked(rows, byId, byName) && !IsPre(item) && (IsPost(item) ==> Target(rows, item) < 0)
    ensures Linked(rows + [item], byId, byName)
  {
    hide LinkedIds, LinkedNames;
    IdsSnoc(rows, byId, item);
    NamesSnoc(rows, byName, item);
  }

  /** A finished call takes its entry out of the index as its row replaces the started one. */
  lemma LinkMerge(rows: seq<ChatItem>, byId: map<string, nat>, byName: map<string, seq<nat>>, item: ChatItem)
    requires Linked(rows, byId, byName) && IsPost(item) && Target(rows, item) >= 0
    ensures var t := Target(rows, item);
            var merged := rows[t := item.(seqNo := rows[t].seqNo)];
            && (item.hook.toolUseId.Some? ==> Linked(merged, byId - {item.hook.toolUseId.value}, byName))
            && (item.hook.toolUseId.None? ==>
                var name := item.hook.toolName.value;
                && Queue(byName, name) != []
                && Linked(merged, byId, byName[name := Queue(byName, name)[1..]]))
  {
    hide LinkedIds, LinkedNames, LastWith, FirstOpen;
    var t := Target(rows, item);
    IdsReplace(rows, byId, t, item.(seqNo := rows[t].seqNo));
    NamesReplace(rows, byName, t, item.(seqNo := rows[t].seqNo));
  }

  /** Looking a finished call up in the indexes finds what the scan finds. */
  lemma LookUp(rows: seq<ChatItem>, byId: map<string, nat>, byName: map<string, seq<nat>>, item: ChatItem)
    requires Linked(rows, byId, byName) && IsPost(item)
    ensures match item.hook.toolUseId
            case Some(id) => Target(rows, item) == if id in byId then byId[id] else -1
            case None =>
              var q := if item.hook.toolName.Some? then Queue(byName, item.hook.toolName.value) else [];
              Target(rows, item) == if q == [] then -1 else q[0]
  {
    hide LastWith, FirstOpen, OpenIndices;
    if item.hook.toolUseId.None? && item.hook.toolName.Some? {
      FirstIsHead(rows, item.hook.toolName.value);
      assert Queue(byName, item.hook.toolName.value) == OpenIndices(rows, item.hook.toolName.value);
    }
  }

  // All sessions at once.

  function At<T>(m: map<string, T>, sid: string, none: T): T {
    if sid in m then m[sid] else none
  }

  ghost predicate AllLinked(items: map<string, seq<ChatItem>>, ids: map<string, map<string, nat>>,
                            names: map<string, map<string, seq<nat>>>)
  {
    forall sid :: Linked(At(items, sid, []), At(ids, sid, map[]), At(names, sid, map[]))
  }

  lemma NoneLinked()
    ensures AllLinked(map[], map[], map[])
  {
  }

  lemma LinkedAt(items: map<string, seq<ChatItem>>, ids: map<string, map<string, nat>>,
                 names: map<string, map<string, seq<nat>>>, sid: string)
    requires AllLinked(items, ids, names)
    ensures Linked(At(items, sid, []), At(ids, sid, map[]), At(names, sid, map[]))
  {
  }

  /** Only one session's entries change, and they are linked: all are. */
  lemma Relink(items: map<string, seq<ChatItem>>, ids: map<string, map<string, nat>>,
               names: map<string, map<string, seq<nat>>>,
               items': map<string, seq<ChatItem>>, ids': map<string, map<string, nat>>,
               names': map<string, map<string, seq<nat>>>, sid: string)
    requires AllLinked(items, ids, names)
    requires items' - {sid} == items - {sid} && ids' - {sid} == ids - {sid} && names' - {sid} == names - {sid}
    requires Linked(At(items', sid, []), At(ids', sid, map[]), At(names', sid, map[]))
    ensures AllLinked(items', ids', names')
  {
    hide Linked;
    forall s ensures Linked(At(items', s, []), At(ids', s, map[]), At(names', s, map[])) {
      if s != sid {
        assert s in items' <==> s in items' - {sid};
        assert s in items <==> s in items - {sid};
        assert s in ids' <==> s in ids' - {sid};
        assert s in ids <==> s in ids - {sid};
        assert s in names' <==> s in names' - {sid};
        assert s in names <==> s in names - {sid};
        LinkedAt(items, ids, names, s);
        assert At(items', s, []) == At(items, s, []);
        assert At(ids', s, map[]) == At(ids, s, map[]);
        assert At(names', s, map[]) == At(names, s, map[]);
      }
    }
  }

  lemma LinkedEmpty()
    ensures Linked([], map[], map[])
  {
  }

  lemma Unlink(items: map<string, seq<ChatItem>>, ids: map<string, map<string, nat>>,
               names: map<string, map<string, seq<nat>>>, sid: string)
    requires AllLinked(items, ids, names)
    ensures AllLinked(items - {sid}, ids - {sid}, names - {sid})
  {
    hide Linked, AllLinked;
    LinkedEmpty();
    assert (items - {sid}) - {sid} == items - {sid};
    assert (ids - {sid}) - {sid} == ids - {sid};
    assert (names - {sid}) - {sid} == names - {sid};
    Relink(items, ids, names, items - {sid}, ids - {sid}, names - {sid}, sid);
  }

  lemma AtRemoved<T>(m: map<string, T>, sid: string, none: T)
    ensures forall s :: At(m - {sid}, s, none) == if s == sid then none else At(m, s, none)
  {
  }
}
