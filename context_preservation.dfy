/**
 * `ContextPreservationService`: the generation contexts of each field, in the
 * order they were stored, with the field's current one; every context is kept
 * in memory by id and written to disk, and a context missing from memory is
 * read back from disk and cached.
 *
 * A context is one object shared by its field's history and the in-memory map,
 * so the model keeps each context once, in the in-memory map by id, and a
 * history lists ids: updating a context in place is then seen through both. The
 * storage directory is a map from id to the context its file holds, and a new
 * context's id and creation time are parameters.
 */
module CoreContextPreservation {
  import opened Wrappers
  import opened IsoTime
  import opened JsonValues

  /** A context id (a `UUID`), by its text. */
  type Id = string

  /** `GenerationContext`. */
  datatype Context = Context(
    id: Id,
    fieldName: string,
    baseContext: map<string, Json>,
    dependencies: map<string, string>,
    userModifications: map<string, Json>,
    metadata: map<string, Json>,
    parentContextId: Option<Id>,
    createdAt: Timestamp)

  /** `ContextHistory`: the field's contexts, by id, in the order they were added, and its current one. */
  datatype History = History(contexts: seq<Id>, currentContextId: Option<Id>)

  /** Everything the service holds: `_context_histories`, `_active_contexts` and the storage directory. */
  datatype Store = Store(histories: map<string, History>, active: map<Id, Context>, disk: map<Id, Context>)

  /**
   * What the service keeps true: every context a history lists and every current
   * context is in memory, and each context in memory is kept under its own id.
   */
  ghost predicate Valid(s: Store)
  {
    && (forall f, i :: f in s.histories && 0 <= i < |s.histories[f].contexts| ==> s.histories[f].contexts[i] in s.active)
    && (forall f :: f in s.histories && s.histories[f].currentContextId.Some? ==>
          s.histories[f].currentContextId.value in s.histories[f].contexts)
    && (forall id :: id in s.active ==> s.active[id].id == id)
  }

  /** `self._context_histories.get(field)`, with an empty history for a field that has none. */
  function HistoryFor(s: Store, field: string): History
  {
    if field in s.histories then s.histories[field] else History([], None)
  }

  /** `store_context(c)`: appended to its field's history and made current, kept in memory and written to disk. */
  function Stored(s: Store, c: Context): (r: Store)
    ensures HistoryFor(r, c.fieldName) == History(HistoryFor(s, c.fieldName).contexts + [c.id], Some(c.id))
    ensures forall f :: f != c.fieldName ==> HistoryFor(r, f) == HistoryFor(s, f)
    ensures r.active == s.active[c.id := c] && r.disk == s.disk[c.id := c]
  {
    var h := HistoryFor(s, c.fieldName);
    Store(s.histories[c.fieldName := History(h.contexts + [c.id], Some(c.id))], s.active[c.id := c], s.disk[c.id := c])
  }

  /**
   * `_load_context(id)`: the context the file for `id` holds, cached in memory under
   * its own id and added to its field's history unless the history already lists it;
   * `None` when there is no such file.
   */
  function Loaded(s: Store, id: Id): (r: (Store, Option<Context>))
    ensures id !in s.disk ==> r == (s, None)
    ensures id in s.disk ==> r.1 == Some(s.disk[id]) && r.0.active == s.active[s.disk[id].id := s.disk[id]]
    ensures id in s.disk ==> var c := s.disk[id];
      HistoryFor(r.0, c.fieldName).contexts
        == HistoryFor(s, c.fieldName).contexts + (if c.id in HistoryFor(s, c.fieldName).contexts then [] else [c.id])
    ensures id in s.disk ==> HistoryFor(r.0, s.disk[id].fieldName).currentContextId
                             == HistoryFor(s, s.disk[id].fieldName).currentContextId
    ensures id in s.disk ==> forall f :: f != s.disk[id].fieldName ==> HistoryFor(r.0, f) == HistoryFor(s, f)
    ensures r.0.disk == s.disk
  {
    if id !in s.disk then (s, None)
    else
      var c := s.disk[id];
      var h := HistoryFor(s, c.fieldName);
      var h' := if c.id in h.contexts then h else h.(contexts := h.contexts + [c.id]);
      (s.(active := s.active[c.id := c], histories := s.histories[c.fieldName := h']), Some(c))
  }

  /** `get_context(field, id)` with an id: the context in memory, else the one read from disk. */
  function Fetched(s: Store, id: Id): (r: (Store, Option<Context>))
  {
    if id in s.active then (s, Some(s.active[id])) else Loaded(s, id)
  }

  /** `get_context(field)` without an id: the field's current context, if it has one. */
  function CurrentOf(s: Store, field: string): (r: (Store, Option<Context>))
  {
    if field !in s.histories || s.histories[field].currentContextId.None? then (s, None)
    else Fetched(s, s.histories[field].currentContextId.value)
  }

  /**
   * `update_context(field, updates, create_new)`: with a current context and
   * `create_new` false, the updates are merged into its base context and its user
   * modifications in place; otherwise a new context is stored whose base context is
   * `updates` and whose parent is the current one. `newId` and `now` are the new
   * context's `uuid4()` and clock reading.
   */
  function Updated(s: Store, field: string, updates: map<string, Json>, createNew: bool, newId: Id, now: Timestamp)
    : (Store, Option<Id>)
  {
    var (s1, current) := CurrentOf(s, field);
    if current.Some? && !createNew then
      var c := current.value;
      var merged := c.(baseContext := c.baseContext + updates, userModifications := c.userModifications + updates);
      (s1.(active := s1.active[c.id := merged], disk := s1.disk[c.id := merged]), Some(c.id))
    else
      var c := Context(newId, field, updates, map[], map[], map[], if current.Some? then Some(current.value.id) else None, now);
      (Stored(s1, c), Some(newId))
  }

  /** The in-memory contexts of `ids`, in order. */
  function ContextsOf(active: map<Id, Context>, ids: seq<Id>): (r: seq<Context>)
    requires forall i :: 0 <= i < |ids| ==> ids[i] in active
    ensures |r| == |ids| && forall i :: 0 <= i < |ids| ==> r[i] == active[ids[i]]
  {
    if |ids| == 0 then [] else ContextsOf(active, ids[..|ids| - 1]) + [active[ids[|ids| - 1]]]
  }

  /** `get_context_history(field)` on a valid store: the field's contexts, in the order they were added. */
  function HistoryContexts(s: Store, field: string): seq<Context>
    requires Valid(s)
  {
    if field !in s.histories then [] else ContextsOf(s.active, s.histories[field].contexts)
  }

  // ---------------------------------------------------------------- properties

  /** Storing keeps the store valid and makes the stored context its field's current one. */
  lemma {:induction false} StoreMakesCurrent(s: Store, c: Context)
    requires Valid(s)
    ensures Valid(Stored(s, c))
    ensures CurrentOf(Stored(s, c), c.fieldName) == (Stored(s, c), Some(c))
  {
    var r := Stored(s, c);
    forall f, i | f in r.histories && 0 <= i < |r.histories[f].contexts| ensures r.histories[f].contexts[i] in r.active {
      if f != c.fieldName {
        assert HistoryFor(r, f) == HistoryFor(s, f);
      } else if i < |HistoryFor(s, f).contexts| {
        assert r.histories[f].contexts[i] == HistoryFor(s, f).contexts[i];
      }
    }
    forall f | f in r.histories && r.histories[f].currentContextId.Some?
      ensures r.histories[f].currentContextId.value in r.histories[f].contexts
    {
      if f != c.fieldName {
        assert HistoryFor(r, f) == HistoryFor(s, f);
      }
    }
  }

  /**
   * Storing a context with a new id adds it at the end of its field's history and
   * leaves the rest of that history and every other field's history as they were.
   */
  lemma {:induction false} StoreAppendsToHistory(s: Store, c: Context)
    requires Valid(s) && c.id !in s.active
    ensures Valid(Stored(s, c))
    ensures HistoryContexts(Stored(s, c), c.fieldName) == HistoryContexts(s, c.fieldName) + [c]
    ensures forall f :: f != c.fieldName ==> HistoryContexts(Stored(s, c), f) == HistoryContexts(s, f)
  {
    StoreMakesCurrent(s, c);
    StoreExtendsOwnHistory(s, c);
    forall f | f != c.fieldName ensures HistoryContexts(Stored(s, c), f) == HistoryContexts(s, f) {
      StoreKeepsOtherHistory(s, c, f);
    }
  }

  /** Storing a context with a new id adds it at the end of its own field's history. */
  lemma StoreExtendsOwnHistory(s: Store, c: Context)
    requires Valid(s) && c.id !in s.active && Valid(Stored(s, c))
    ensures HistoryContexts(Stored(s, c), c.fieldName) == HistoryContexts(s, c.fieldName) + [c]
  {
    var r := Stored(s, c);
    var ids := HistoryFor(s, c.fieldName).contexts;
    ContextsOfFresh(s.active, ids, c);
    assert r.histories[c.fieldName].contexts == ids + [c.id];
    assert (ids + [c.id])[..|ids|] == ids;
  }

  /** Storing a context with a new id leaves the history of every other field as it was. */
  lemma StoreKeepsOtherHistory(s: Store, c: Context, f: string)
    requires Valid(s) && c.id !in s.active && Valid(Stored(s, c)) && f != c.fieldName
    ensures HistoryContexts(Stored(s, c), f) == HistoryContexts(s, f)
  {
    if f in s.histories {
      assert HistoryFor(Stored(s, c), f) == HistoryFor(s, f);
      ContextsOfFresh(s.active, s.histories[f].contexts, c);
    }
  }

  /** Adding a context under an id no listed id uses leaves the contexts of those ids as they were. */
  lemma {:induction false} ContextsOfFresh(active: map<Id, Context>, ids: seq<Id>, c: Context)
    requires forall i :: 0 <= i < |ids| ==> ids[i] in active
    requires c.id !in active
    ensures ContextsOf(active[c.id := c], ids) == ContextsOf(active, ids)
  {
    assert forall i :: 0 <= i < |ids| ==> ids[i] != c.id;
  }

  /** Asking by id prefers the context in memory and changes nothing. */
  lemma {:induction false} FetchPrefersMemory(s: Store, id: Id)
    requires id in s.active
    ensures Fetched(s, id) == (s, Some(s.active[id]))
  {
  }

  /** Reading a context from disk keeps the store valid, and never lists a context twice in its history. */
  lemma {:induction false} LoadKeepsValid(s: Store, id: Id)
    requires Valid(s)
    ensures Valid(Loaded(s, id).0)
    ensures id in s.disk && s.disk[id].id in HistoryFor(s, s.disk[id].fieldName).contexts ==>
      HistoryFor(Loaded(s, id).0, s.disk[id].fieldName) == HistoryFor(s, s.disk[id].fieldName)
  {
    if id in s.disk {
      var c := s.disk[id];
      var r := Loaded(s, id).0;
      forall f, i | f in r.histories && 0 <= i < |r.histories[f].contexts| ensures r.histories[f].contexts[i] in r.active {
        if f != c.fieldName {
          assert HistoryFor(r, f) == HistoryFor(s, f);
        } else if i < |HistoryFor(s, f).contexts| {
          assert r.histories[f].contexts[i] == HistoryFor(s, f).contexts[i];
        }
      }
      forall f | f in r.histories && r.histories[f].currentContextId.Some?
        ensures r.histories[f].currentContextId.value in r.histories[f].contexts
      {
        assert r.histories[f].currentContextId == HistoryFor(s, f).currentContextId;
        if f == c.fieldName {
          assert forall x :: x in HistoryFor(s, f).contexts ==> x in r.histories[f].contexts;
        } else {
          assert HistoryFor(r, f) == HistoryFor(s, f);
        }
      }
    }
  }

  /** Without an id, the answer is the field's current context, or `None` when it has none. */
  lemma {:induction false} CurrentIsLatestStored(s: Store, field: string)
    requires Valid(s)
    ensures CurrentOf(s, field).1.Some? <==> field in s.histories && s.histories[field].currentContextId.Some?
    ensures CurrentOf(s, field).1.Some? ==>
      CurrentOf(s, field) == (s, Some(s.active[s.histories[field].currentContextId.value]))
  {
  }

  /**
   * Updating without `create_new` when the field has a current context merges the
   * updates into it, the updates winning, and keeps its id, its parent and its field.
   */
  lemma {:induction false} UpdateMergesInPlace(s: Store, field: string, updates: map<string, Json>, newId: Id, now: Timestamp)
    requires Valid(s) && field in s.histories && s.histories[field].currentContextId.Some?
    ensures var id := s.histories[field].currentContextId.value;
      var c := s.active[id];
      var (r, out) := Updated(s, field, updates, false, newId, now);
      && out == Some(id) && id in r.active
      && r.active[id] == c.(baseContext := c.baseContext + updates, userModifications := c.userModifications + updates)
      && (forall k :: k in updates ==> r.active[id].baseContext[k] == updates[k] && r.active[id].userModifications[k] == updates[k])
      && (forall k :: k in c.baseContext && k !in updates ==> r.active[id].baseContext[k] == c.baseContext[k])
      && r.histories == s.histories && r.disk[id] == r.active[id]
      && Valid(r)
  {
  }

  /** Every kind of update keeps the store valid. */
  lemma {:induction false} UpdateKeepsValid(s: Store, field: string, updates: map<string, Json>, createNew: bool,
                                           newId: Id, now: Timestamp)
    requires Valid(s)
    ensures Valid(Updated(s, field, updates, createNew, newId, now).0)
  {
    var (s1, current) := CurrentOf(s, field);
    assert s1 == s;
    if current.Some? && !createNew {
      UpdateMergesInPlace(s, field, updates, newId, now);
    } else {
      var c := Context(newId, field, updates, map[], map[], map[], if current.Some? then Some(current.value.id) else None, now);
      StoreMakesCurrent(s, c);
    }
  }

  /** Asking for a context, by id or as the field's current one, keeps the store valid. */
  lemma {:induction false} FetchKeepsValid(s: Store, field: string, id: Id)
    requires Valid(s)
    ensures Valid(Fetched(s, id).0) && Valid(CurrentOf(s, field).0)
  {
    LoadKeepsValid(s, id);
  }

  /**
   * Otherwise a new context is stored, made current and added at the end of the
   * field's history: its base context is exactly the updates, with nothing merged,
   * and its parent is the field's previous current context.
   */
  lemma {:induction false} UpdateCreatesChild(s: Store, field: string, updates: map<string, Json>, createNew: bool,
                                             newId: Id, now: Timestamp)
    requires Valid(s) && newId !in s.active
    requires createNew || field !in s.histories || s.histories[field].currentContextId.None?
    ensures var (r, out) := Updated(s, field, updates, createNew, newId, now);
      && out == Some(newId) && Valid(r) && newId in r.active
      && r.active[newId].baseContext == updates && r.active[newId].fieldName == field
      && r.active[newId].userModifications == map[]
      && r.active[newId].parentContextId
         == (if field in s.histories && s.histories[field].currentContextId.Some?
             then s.histories[field].currentContextId else None)
      && HistoryFor(r, field).currentContextId == Some(newId)
      && HistoryContexts(r, field) == HistoryContexts(s, field) + [r.active[newId]]
  {
    var c := Context(newId, field, updates, map[], map[], map[],
                     if field in s.histories && s.histories[field].currentContextId.Some?
                     then s.histories[field].currentContextId else None, now);
    assert Updated(s, field, updates, createNew, newId, now) == (Stored(s, c), Some(newId));
    StoreAppendsToHistory(s, c);
  }

  // ---------------------------------------------------------------- the service

  /** The service, over a storage directory holding `disk` when it starts. */
  class ContextPreservationService {
    var histories: map<string, History>
    var active: map<Id, Context>
    var disk: map<Id, Context>

    function Snapshot(): Store
      reads this
    {
      Store(histories, active, disk)
    }

    constructor(disk: map<Id, Context>)
      ensures Snapshot() == Store(map[], map[], disk) && Valid(Snapshot())
    {
      histories, active := map[], map[];
      this.disk := disk;
    }

    /** `store_context(c)`. */
    method StoreContext(c: Context) returns (id: Id)
      requires Valid(Snapshot())
      modifies this
      ensures id == c.id && Snapshot() == Stored(old(Snapshot()), c)
      ensures Valid(Snapshot())
    {
      StoreMakesCurrent(Snapshot(), c);
      var h := if c.fieldName in histories then histories[c.fieldName] else History([], None);
      histories := histories[c.fieldName := History(h.contexts + [c.id], Some(c.id))];
      active := active[c.id := c];
      disk := disk[c.id := c];
      id := c.id;
    }

    /** `_load_context(id)`. */
    method LoadContext(id: Id) returns (r: Option<Context>)
      requires Valid(Snapshot())
      modifies this
      ensures (Snapshot(), r) == Loaded(old(Snapshot()), id)
      ensures Valid(Snapshot())
    {
      LoadKeepsValid(Snapshot(), id);
      if id !in disk {
        return None;
      }
      var c := disk[id];
      active := active[c.id := c];
      var h := if c.fieldName in histories then histories[c.fieldName] else History([], None);
      if c.id !in h.contexts {
        h := h.(contexts := h.contexts + [c.id]);
      }
      histories := histories[c.fieldName := h];
      r := Some(c);
    }

    /** `get_context(field, id)`: by id, or the field's current context when `id` is `None`. */
    method GetContext(field: string, id: Option<Id>) returns (r: Option<Context>)
      requires Valid(Snapshot())
      modifies this
      ensures id.Some? ==> (Snapshot(), r) == Fetched(old(Snapshot()), id.value)
      ensures id.None? ==> (Snapshot(), r) == CurrentOf(old(Snapshot()), field)
      ensures Valid(Snapshot())
      decreases if id.Some? then 0 else 1
    {
      if id.Some? {
        if id.value in active {
          return Some(active[id.value]);
        }
        r := LoadContext(id.value);
        return;
      }
      if field !in histories || histories[field].currentContextId.None? {
        return None;
      }
      r := GetContext(field, histories[field].currentContextId);
    }

    /** `update_context(field, updates, create_new)`. */
    method UpdateContext(field: string, updates: map<string, Json>, createNew: bool, newId: Id, now: Timestamp)
      returns (r: Option<Id>)
      requires Valid(Snapshot())
      modifies this
      ensures (Snapshot(), r) == Updated(old(Snapshot()), field, updates, createNew, newId, now)
      ensures Valid(Snapshot())
    {
      UpdateKeepsValid(Snapshot(), field, updates, createNew, newId, now);
      var current := GetContext(field, None);
      if current.Some? && !createNew {
        var c := current.value;
        var merged := c.(baseContext := c.baseContext + updates, userModifications := c.userModifications + updates);
        active := active[c.id := merged];
        disk := disk[c.id := merged];
        return Some(c.id);
      }
      var c := Context(newId, field, updates, map[], map[], map[], if current.Some? then Some(current.value.id) else None, now);
      var id := StoreContext(c);
      r := Some(id);
    }

    /** `get_context_history(field)`: each context the field's history lists, asked for by id. */
    method GetContextHistory(field: string) returns (r: seq<Context>)
      requires Valid(Snapshot())
      modifies this
      ensures Snapshot() == old(Snapshot()) && Valid(Snapshot())
      ensures r == HistoryContexts(Snapshot(), field)
    {
      if field !in histories {
        return [];
      }
      var ids := histories[field].contexts;
      r := [];
      for i := 0 to |ids|
        invariant Snapshot() == old(Snapshot())
        invariant r == ContextsOf(active, ids[..i])
      {
        assert ids[..i + 1][..i] == ids[..i];
        var loaded := GetContext(field, Some(ids[i]));
        if loaded.Some? {
          r := r + [loaded.value];
        }
      }
      assert ids[..|ids|] == ids;
    }
  }
}
