/**
 * `StateManagerBase`: a key-value state, a stack of the names of the running
 * operations, and a history of the changes `batch_update` made, each tagged
 * with the innermost running operation.
 */
module CoreStateBase {
  import opened Wrappers
  import opened IsoTime
  import opened JsonValues
  import opened Dicts
  import opened Lists

  datatype StateChangeEvent = StateChangeEvent(key: string, oldValue: Json, newValue: Json, timestamp: Timestamp, source: string)

  /** `state.get(key)`: `None` for a key never set. */
  function Stored(state: map<string, Json>, key: string): Json
  {
    if key in state then state[key] else Null
  }

  /** `_get_current_operation()`: the innermost running operation, or the empty name. */
  function CurrentOperation(operations: seq<string>): string
  {
    if |operations| == 0 then "" else operations[|operations| - 1]
  }

  /** What `complete_operation(name)` and `fail_operation(name)` leave: the stack popped only when `name` is on top. */
  function Finished(operations: seq<string>, name: string): (r: seq<string>)
    ensures r != operations <==> CurrentOperation(operations) == name && |operations| > 0
    ensures r != operations ==> r + [name] == operations
  {
    if |operations| > 0 && operations[|operations| - 1] == name then operations[..|operations| - 1] else operations
  }

  // ---------------------------------------------------------------- batch updates

  /** The state after assigning every entry of `updates`, in order. */
  function Applied(state: map<string, Json>, updates: Dict<string, Json>): map<string, Json>
  {
    if |updates| == 0 then state
    else
      var last := updates[|updates| - 1];
      Applied(state, updates[..|updates| - 1])[last.0 := last.1]
  }

  /** One event per entry of `updates`, each with the value its key held before the batch. */
  function BatchEvents(start: map<string, Json>, updates: Dict<string, Json>, source: string, now: Timestamp): (r: seq<StateChangeEvent>)
    ensures |r| == |updates|
  {
    if |updates| == 0 then []
    else
      var last := updates[|updates| - 1];
      BatchEvents(start, updates[..|updates| - 1], source, now)
        + [StateChangeEvent(last.0, Stored(start, last.0), last.1, now, source)]
  }

  /** Keys outside the batch keep what they held; a key of a batch without repeated keys holds the batch's value for it. */
  lemma {:induction false} AppliedMeaning(state: map<string, Json>, updates: Dict<string, Json>, key: string)
    ensures key !in Keys(updates) ==> Stored(Applied(state, updates), key) == Stored(state, key)
    ensures key in Keys(updates) ==> key in Applied(state, updates)
    ensures DistinctKeys(updates) && key in Keys(updates) ==> Applied(state, updates)[key] == Get(updates, key).value
    decreases |updates|
  {
    if |updates| > 0 {
      var init, last := updates[..|updates| - 1], updates[|updates| - 1];
      assert updates == init + [last];
      AppliedMeaning(state, init, key);
      GetSnoc(init, last, key);
      if DistinctKeys(updates) {
        assert DistinctKeys(init) by {
          forall i, j | 0 <= i < j < |init| ensures init[i].0 != init[j].0 {
            assert init[i] == updates[i] && init[j] == updates[j];
          }
        }
        KeysAt(init, last.0);
        forall i | 0 <= i < |init| ensures init[i].0 != last.0 {
          assert init[i] == updates[i];
        }
      }
    }
  }

  /** Undoing `events`, newest first: each key gets back the value its event recorded as old. */
  function Undone(state: map<string, Json>, events: seq<StateChangeEvent>): map<string, Json>
    decreases |events|
  {
    if |events| == 0 then state
    else
      var last := events[|events| - 1];
      Undone(state[last.key := last.oldValue], events[..|events| - 1])
  }

  /** Undoing a batch's events from any state restores what the batch's keys held before it, and touches no other key. */
  lemma {:induction false} UndoBatchEvents(start: map<string, Json>, x: map<string, Json>, updates: Dict<string, Json>,
                                           source: string, now: Timestamp, key: string)
    ensures Stored(Undone(x, BatchEvents(start, updates, source, now)), key)
         == if key in Keys(updates) then Stored(start, key) else Stored(x, key)
    decreases |updates|
  {
    if |updates| > 0 {
      var init, last := updates[..|updates| - 1], updates[|updates| - 1];
      assert updates == init + [last];
      var events := BatchEvents(start, updates, source, now);
      assert events[..|events| - 1] == BatchEvents(start, init, source, now);
      UndoBatchEvents(start, x[last.0 := Stored(start, last.0)], init, source, now, key);
      GetSnoc(init, last, key);
    }
  }

  /**
   * The old values `batch_update` records are enough to roll it back: undoing its
   * events leaves every key holding what it held before the batch.
   */
  lemma BatchRollsBack(start: map<string, Json>, updates: Dict<string, Json>, source: string, now: Timestamp, key: string)
    ensures Stored(Undone(Applied(start, updates), BatchEvents(start, updates, source, now)), key) == Stored(start, key)
  {
    UndoBatchEvents(start, Applied(start, updates), updates, source, now, key);
    AppliedMeaning(start, updates, key);
  }

  /**
   * When no key repeats, each event's old value is what its key held just before
   * that entry was assigned, and its new value what the key holds just after.
   */
  lemma {:induction false} EventsRecordChange(start: map<string, Json>, updates: Dict<string, Json>, source: string,
                                              now: Timestamp, i: nat)
    requires DistinctKeys(updates) && i < |updates|
    ensures BatchEvents(start, updates, source, now)[i].key == updates[i].0
    ensures BatchEvents(start, updates, source, now)[i].oldValue == Stored(Applied(start, updates[..i]), updates[i].0)
    ensures BatchEvents(start, updates, source, now)[i].newValue == Stored(Applied(start, updates[..i + 1]), updates[i].0)
    ensures BatchEvents(start, updates, source, now)[i].source == source
    decreases |updates|
  {
    var init, last := updates[..|updates| - 1], updates[|updates| - 1];
    assert updates == init + [last];
    if i < |init| {
      assert DistinctKeys(init) by {
        forall a, b | 0 <= a < b < |init| ensures init[a].0 != init[b].0 {
          assert init[a] == updates[a] && init[b] == updates[b];
        }
      }
      EventsRecordChange(start, init, source, now, i);
      assert init[..i] == updates[..i] && init[..i + 1] == updates[..i + 1];
    } else {
      var key := updates[i].0;
      assert updates[..i] == init && updates[..i + 1] == updates;
      KeysAt(init, key);
      forall j | 0 <= j < |init| ensures init[j].0 != key {
        assert init[j] == updates[j];
      }
      AppliedMeaning(start, init, key);
    }
  }

  // ---------------------------------------------------------------- operations

  /**
   * The body of a `with self.operation(name):` block, by what it does to the
   * manager: nested operations, state updates, batches, and a raised exception,
   * which ends the block.
   */
  datatype Work = Work(name: string, steps: seq<Step>)

  datatype Step =
    | Nested(work: Work)
    | Update(key: string, value: Json)
    | Batch(updates: Dict<string, Json>)
    | Raise(message: string)

  /** Everything a manager holds that its operations change. */
  datatype Snapshot = Snapshot(state: map<string, Json>, operations: seq<string>, history: seq<StateChangeEvent>)

  /**
   * `update_state(key, value)`: the new manager and whether it changed. The
   * stored value is compared with Python's `==`, so `True` over a stored `1`
   * changes nothing.
   */
  function UpdateSpec(s: Snapshot, key: string, value: Json): (Snapshot, bool)
  {
    if PyEq(Stored(s.state, key), value) then (s, false) else (s.(state := s.state[key := value]), true)
  }

  /** `batch_update(updates)`. */
  function BatchSpec(s: Snapshot, updates: Dict<string, Json>, now: Timestamp): Snapshot
  {
    s.(state := Applied(s.state, updates),
       history := s.history + BatchEvents(s.state, updates, CurrentOperation(s.operations), now))
  }

  /**
   * `with self.operation(w.name):` running `w`: the name is pushed, the steps run
   * until one raises, and the name is popped whether or not one did; the raised
   * message is re-raised.
   */
  function RunWork(s: Snapshot, w: Work, now: Timestamp): (r: (Snapshot, Option<string>))
    ensures r.0.operations == s.operations
    ensures s.history <= r.0.history
    decreases w, 1
  {
    var inner := RunSteps(s.(operations := s.operations + [w.name]), w, 0, now);
    (inner.0.(operations := inner.0.operations[..|inner.0.operations| - 1]), inner.1)
  }

  /** The steps of `w` from the `i`-th on, stopping at the first that raises. */
  function RunSteps(s: Snapshot, w: Work, i: nat, now: Timestamp): (r: (Snapshot, Option<string>))
    requires i <= |w.steps|
    ensures r.0.operations == s.operations
    ensures s.history <= r.0.history
    decreases w, 0, |w.steps| - i
  {
    if i == |w.steps| then (s, None)
    else
      match w.steps[i]
      case Nested(inner) =>
        var t := RunWork(s, inner, now);
        if t.1.Some? then t else RunSteps(t.0, w, i + 1, now)
      case Update(key, value) => RunSteps(UpdateSpec(s, key, value).0, w, i + 1, now)
      case Batch(updates) => RunSteps(BatchSpec(s, updates, now), w, i + 1, now)
      case Raise(message) => (s, Some(message))
  }

  /** The names of `w` and of every operation nested in it. */
  function Names(w: Work): set<string>
    decreases w, 1
  {
    {w.name} + NamesFrom(w, 0)
  }

  function NamesFrom(w: Work, i: nat): set<string>
    requires i <= |w.steps|
    decreases w, 0, |w.steps| - i
  {
    if i == |w.steps| then {}
    else (if w.steps[i].Nested? then Names(w.steps[i].work) else {}) + NamesFrom(w, i + 1)
  }

  /** Every change recorded while `w` runs is tagged with `w` or an operation nested in it. */
  lemma {:induction false} WorkSources(s: Snapshot, w: Work, now: Timestamp)
    ensures forall e :: e in RunWork(s, w, now).0.history[|s.history|..] ==> e.source in Names(w)
    decreases w, 1
  {
    StepsSources(s.(operations := s.operations + [w.name]), w, 0, now);
  }

  lemma {:induction false} StepsSources(s: Snapshot, w: Work, i: nat, now: Timestamp)
    requires i <= |w.steps|
    requires |s.operations| > 0 && s.operations[|s.operations| - 1] == w.name
    ensures forall e :: e in RunSteps(s, w, i, now).0.history[|s.history|..] ==> e.source in Names(w)
    decreases w, 0, |w.steps| - i
  {
    if i < |w.steps| {
      var r := RunSteps(s, w, i, now);
      NamesFromGrows(w, i);
      match w.steps[i]
      case Nested(inner) =>
        var t := RunWork(s, inner, now);
        WorkSources(s, inner, now);
        if t.1.None? {
          StepsSources(t.0, w, i + 1, now);
          NewEventsSplit(s.history, t.0.history, r.0.history);
        }
      case Update(key, value) =>
        StepsSources(UpdateSpec(s, key, value).0, w, i + 1, now);
      case Batch(updates) =>
        var b := BatchSpec(s, updates, now);
        StepsSources(b, w, i + 1, now);
        NewEventsSplit(s.history, b.history, r.0.history);
        BatchSources(s.state, updates, w.name, now);
      case Raise(message) =>
        assert r.0.history[|s.history|..] == [];
    }
  }

  lemma NamesFromGrows(w: Work, i: nat)
    requires i < |w.steps|
    ensures w.name in Names(w)
    ensures NamesFrom(w, i + 1) <= Names(w)
    ensures w.steps[i].Nested? ==> Names(w.steps[i].work) <= Names(w)
    decreases i
  {
    if i > 0 {
      NamesFromGrows(w, i - 1);
    }
  }

  lemma NewEventsSplit(a: seq<StateChangeEvent>, b: seq<StateChangeEvent>, c: seq<StateChangeEvent>)
    requires a <= b <= c
    ensures forall e :: e in c[|a|..] ==> e in b[|a|..] || e in c[|b|..]
  {
    forall e | e in c[|a|..] ensures e in b[|a|..] || e in c[|b|..] {
      var k :| |a| <= k < |c| && c[k] == e;
      if k < |b| {
        assert b[|a|..][k - |a|] == e;
      } else {
        assert c[|b|..][k - |b|] == e;
      }
    }
  }

  lemma {:induction false} BatchSources(start: map<string, Json>, updates: Dict<string, Json>, source: string, now: Timestamp)
    ensures forall e :: e in BatchEvents(start, updates, source, now) ==> e.source == source
    decreases |updates|
  {
    if |updates| > 0 {
      BatchSources(start, updates[..|updates| - 1], source, now);
    }
  }

  // ---------------------------------------------------------------- history

  /** `[event for event in history if event.key == key]`. */
  function EventsOf(history: seq<StateChangeEvent>, key: string): seq<StateChangeEvent>
  {
    if |history| == 0 then []
    else (if history[0].key == key then [history[0]] else []) + EventsOf(history[1..], key)
  }

  /** `get_history(key)` holds each change of `key` as often as the history does, no other change, in the order made. */
  lemma {:induction false} EventsOfMeaning(history: seq<StateChangeEvent>, key: string)
    ensures forall e :: multiset(EventsOf(history, key))[e] == if e.key == key then multiset(history)[e] else 0
    ensures Subsequence(EventsOf(history, key), history)
    decreases |history|
  {
    if |history| > 0 {
      EventsOfMeaning(history[1..], key);
      assert history == [history[0]] + history[1..];
      assert multiset(history) == multiset{history[0]} + multiset(history[1..]);
      var rest := EventsOf(history[1..], key);
      if history[0].key == key {
        assert ([history[0]] + rest)[1..] == rest;
      } else {
        assert EventsOf(history, key) == rest;
      }
    }
  }

  // ---------------------------------------------------------------- the manager

  /** `StateManagerBase`. */
  class StateManagerBase {
    /** `_state`. */
    var state: map<string, Json>
    /** `_operation_stack`, innermost last. */
    var operations: seq<string>
    /** `_state_history`, oldest first. */
    var history: seq<StateChangeEvent>

    function Current(): Snapshot
      reads this
    {
      Snapshot(state, operations, history)
    }

    constructor()
      ensures state == map[] && operations == [] && history == []
    {
      state, operations, history := map[], [], [];
    }

    /** `get_state(key, default)`. */
    method GetState(key: string, default: Json) returns (v: Json)
      ensures key in state ==> v == state[key]
      ensures key !in state ==> v == default
    {
      v := if key in state then state[key] else default;
    }

    /**
     * `update_state(key, value)`: a value equal to the stored one (a missing key
     * stores `None`) changes nothing and answers false. No history is recorded.
     */
    method UpdateState(key: string, value: Json) returns (changed: bool)
      modifies this
      ensures changed <==> !PyEq(Stored(old(state), key), value)
      ensures changed ==> Stored(state, key) == value
      ensures PyEq(Stored(state, key), value)
      ensures (Current(), changed) == UpdateSpec(old(Current()), key, value)
    {
      var oldValue := Stored(state, key);
      if PyEq(oldValue, value) {
        return false;
      }
      PyEqRefl(value);
      state := state[key := value];
      changed := true;
    }

    /**
     * `batch_update(updates)`: assigns every entry in order and records one event
     * per entry, tagged with the innermost running operation. It always succeeds.
     */
    method BatchUpdate(updates: Dict<string, Json>, now: Timestamp) returns (ok: bool)
      modifies this
      ensures ok
      ensures Current() == BatchSpec(old(Current()), updates, now)
    {
      var oldValues := map key | key in Keys(updates) :: Stored(state, key);
      var source := CurrentOperation(operations);
      ghost var start := state;
      for i := 0 to |updates|
        invariant state == Applied(start, updates[..i])
        invariant history == old(history) + BatchEvents(start, updates[..i], source, now)
        invariant operations == old(operations)
      {
        var entry := updates[i];
        KeysAt(updates, entry.0);
        state := state[entry.0 := entry.1];
        history := history + [StateChangeEvent(entry.0, oldValues[entry.0], entry.1, now, source)];
        assert updates[..i + 1][..i] == updates[..i];
      }
      assert updates[..|updates|] == updates;
      ok := true;
    }

    /** `with self.operation(w.name):` around the steps of `w`. */
    method Operation(w: Work, now: Timestamp) returns (raised: Option<string>)
      modifies this
      ensures (Current(), raised) == RunWork(old(Current()), w, now)
      decreases w, 1
    {
      ghost var s0 := Current();
      operations := operations + [w.name];
      ghost var s1 := Current();
      raised := None;
      var i := 0;
      while i < |w.steps| && raised.None?
        invariant i <= |w.steps|
        invariant RunSteps(s1, w, 0, now) == if raised.None? then RunSteps(Current(), w, i, now) else (Current(), raised)
        decreases |w.steps| - i
      {
        match w.steps[i] {
          case Nested(inner) =>
            raised := Operation(inner, now);
          case Update(key, value) =>
            var _ := UpdateState(key, value);
          case Batch(updates) =>
            var _ := BatchUpdate(updates, now);
          case Raise(message) =>
            raised := Some(message);
        }
        i := i + 1;
      }
      operations := operations[..|operations| - 1];
    }

    /** `start_operation(name)`. */
    method StartOperation(name: string)
      modifies this
      ensures operations == old(operations) + [name]
      ensures state == old(state) && history == old(history)
    {
      operations := operations + [name];
    }

    /** `complete_operation(name)`: pops only when `name` is the innermost operation. */
    method CompleteOperation(name: string)
      modifies this
      ensures operations == Finished(old(operations), name)
      ensures state == old(state) && history == old(history)
    {
      if |operations| > 0 && operations[|operations| - 1] == name {
        operations := operations[..|operations| - 1];
      }
    }

    /** `fail_operation(name, error)`: the same pop as completing it. */
    method FailOperation(name: string, error: string)
      modifies this
      ensures operations == Finished(old(operations), name)
      ensures state == old(state) && history == old(history)
    {
      CompleteOperation(name);
    }

    /** `clear_history()`. */
    method ClearHistory()
      modifies this
      ensures history == [] && state == old(state) && operations == old(operations)
    {
      history := [];
    }

    /** `get_history(key)`: the whole history, or the changes of one key. */
    method GetHistory(key: Option<string>) returns (r: seq<StateChangeEvent>)
      ensures key.None? ==> r == history
      ensures key.Some? ==> r == EventsOf(history, key.value)
    {
      if key.None? {
        return history;
      }
      r := [];
      for i := 0 to |history|
        invariant r == EventsOf(history[..i], key.value)
      {
        EventsOfSnoc(history[..i], history[i], key.value);
        assert history[..i + 1] == history[..i] + [history[i]];
        if history[i].key == key.value {
          r := r + [history[i]];
        }
      }
      assert history[..|history|] == history;
    }
  }

  lemma {:induction false} EventsOfSnoc(h: seq<StateChangeEvent>, e: StateChangeEvent, key: string)
    ensures EventsOf(h + [e], key) == EventsOf(h, key) + (if e.key == key then [e] else [])
    decreases |h|
  {
    if |h| == 0 {
      assert h + [e] == [e];
    } else {
      var t := h + [e];
      assert t[0] == h[0] && t[1..] == h[1..] + [e];
      EventsOfSnoc(h[1..], e, key);
      var head := if h[0].key == key then [h[0]] else [];
      var tail := if e.key == key then [e] else [];
      calc {
        EventsOf(t, key);
        head + EventsOf(h[1..] + [e], key);
        head + (EventsOf(h[1..], key) + tail);
        (head + EventsOf(h[1..], key)) + tail;
      }
    }
  }

  /** A second `update_state` with the value just stored changes nothing and answers false. */
  lemma UpdateIdempotent(s: Snapshot, key: string, value: Json)
    ensures UpdateSpec(UpdateSpec(s, key, value).0, key, value) == (UpdateSpec(s, key, value).0, false)
  {
    PyEqRefl(value);
  }

  /** `update_state(key, True)` over a stored `1`, or `1.0` over `1`, keeps the `1` and answers false. */
  lemma UpdateKeepsEqualNumber(s: Snapshot, key: string)
    requires Stored(s.state, key) == Int(1)
    ensures UpdateSpec(s, key, Bool(true)) == (s, false)
    ensures UpdateSpec(s, key, Num(1.0)) == (s, false)
    ensures UpdateSpec(s, key, Str("1")).1
  {
  }

  /** Completing the operation just started restores the stack. */
  lemma StartThenComplete(operations: seq<string>, name: string)
    ensures Finished(operations + [name], name) == operations
  {
  }
}
