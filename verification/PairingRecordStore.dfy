/** The keychain's committed records: enumerate all, upsert one, delete one. */
module PairingRecordStoreModel {
  import opened Common
  import opened PairingRecords

  /** What a read of the keychain returns: nothing while it is locked, otherwise every record in some order. */
  ghost predicate Faithful(view: Option<seq<Blob>>, locked: bool, items: map<Pid, Blob>) {
    (view.None? <==> locked) && (view.Some? ==> Enumerates(view.value, items))
  }

  /** The keychain's committed records; `removals` logs the deletes issued to it. */
  class KeychainRecordStore {
    var items: map<Pid, Blob>
    var locked: bool
    ghost var removals: seq<Pid>

    constructor ()
      ensures items == map[] && !locked && removals == []
    {
      items, locked, removals := map[], false, [];
    }

    method LoadAll() returns (blobs: Option<seq<Blob>>)
      requires KeyedByPid(items)
      ensures Faithful(blobs, locked, items)
    {
      if locked {
        return None;
      }
      var read: seq<Blob> := [];
      var todo := items.Keys;
      while todo != {}
        invariant todo <= items.Keys
        invariant Enumerates(read, items - todo)
        decreases todo
      {
        var pid :| pid in todo;
        EnumerateOneMore(read, items - todo, items[pid]);
        assert items - (todo - {pid}) == (items - todo)[pid := items[pid]];
        todo := todo - {pid};
        read := read + [items[pid]];
      }
      assert items - {} == items;
      return Some(read);
    }

    /** Delete then add: a failed add has already lost the record it was to replace. */
    method Save(blob: Blob, added: bool) returns (ok: bool)
      modifies this`items
      ensures ok == added
      ensures items == if added then old(items)[blob.pid := blob] else old(items) - {blob.pid}
    {
      items := items - {blob.pid};
      if added {
        items := items[blob.pid := blob];
      }
      ok := added;
    }

    method Remove(pid: Pid)
      modifies this
      ensures items == old(items) - {pid} && removals == old(removals) + [pid] && locked == old(locked)
    {
      items := items - {pid};
      removals := removals + [pid];
    }
  }

  lemma EnumerateOneMore(view: seq<Blob>, items: map<Pid, Blob>, b: Blob)
    requires Enumerates(view, items) && b.pid !in items
    ensures Enumerates(view + [b], items[b.pid := b])
  {
    var r := view + [b];
    var more := items[b.pid := b];
    forall p | p in more ensures more[p] in r {
      if p == b.pid {
        assert r[|view|] == b;
      } else {
        assert items[p] in view;
      }
    }
    forall i, j | 0 <= i < j < |r| ensures r[i].pid != r[j].pid {
      assert r[i] in view;
    }
  }

  /** There is an enumeration of any keychain. */
  lemma SomeEnumeration(items: map<Pid, Blob>) returns (view: seq<Blob>)
    requires KeyedByPid(items)
    ensures Enumerates(view, items)
  {
    view := [];
    var todo := items.Keys;
    while todo != {}
      invariant todo <= items.Keys && Enumerates(view, items - todo)
      decreases todo
    {
      var pid :| pid in todo;
      EnumerateOneMore(view, items - todo, items[pid]);
      assert items - (todo - {pid}) == (items - todo)[pid := items[pid]];
      todo := todo - {pid};
      view := view + [items[pid]];
    }
    assert items - {} == items;
  }
}
