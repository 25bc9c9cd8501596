/**
 * `GenerationQueueManager`: a request waits in `queued` until every request it
 * depends on has completed; at most `maxConcurrent` requests are `active`; a
 * finished request leaves a `completed` or `failed` result. `blocking` maps a
 * request to the requests that wait on it.
 *
 * Request ids are handed out in increasing order, and the clock reading taken
 * when a request is queued is its id, so that readings differ and increase.
 */
module CoreQueue {
  import opened Wrappers
  import opened Lists
  import G = CoreGeneration
  import M = CorePromptModels
  import D = Dependency
  import Strings

  type Id = G.Id

  /** `QueuedGeneration`. */
  datatype Entry = Entry(
    request: G.Request,
    deps: set<Id>,
    promptSet: M.PromptSet,
    userInput: Option<string>,
    priority: int,
    queuedAt: G.Instant)

  /** The `ValueError`s the manager raises. */
  datatype QueueError = NoActiveGeneration(id: Id) | NoGeneration(id: Id)

  /** `queue_status`: how many requests each map holds. */
  datatype QueueCounts = QueueCounts(queued: nat, active: nat, completed: nat, failed: nat)

  /** `get_field_order`: the position of the request's field in its prompt set's order,
      or the length of the order when the field is not listed. */
  function FieldOrder(e: Entry): (r: nat)
    ensures r <= |e.promptSet.generationOrder|
    ensures r < |e.promptSet.generationOrder| <==> e.request.fieldName in e.promptSet.generationOrder
    ensures r < |e.promptSet.generationOrder| ==>
      e.promptSet.generationOrder[r] == e.request.fieldName
      && forall k :: 0 <= k < r ==> e.promptSet.generationOrder[k] != e.request.fieldName
  {
    match IndexOf(e.promptSet.generationOrder, e.request.fieldName)
    case Some(i) => i
    case None => |e.promptSet.generationOrder|
  }

  /** `a` sorts no later than `b` under the key (field order, -priority, queued_at). */
  predicate SortsFirst(a: Entry, b: Entry)
  {
    || FieldOrder(a) < FieldOrder(b)
    || (FieldOrder(a) == FieldOrder(b) && a.priority > b.priority)
    || (FieldOrder(a) == FieldOrder(b) && a.priority == b.priority && a.queuedAt <= b.queuedAt)
  }

  /** A queued request that waits on nothing. */
  predicate Ready(q: map<Id, Entry>, y: Id)
  {
    y in q && q[y].deps == {}
  }

  /** `y` is the ready request that sorts first. */
  predicate IsNext(q: map<Id, Entry>, y: Id)
  {
    Ready(q, y) && forall z :: z in q && Ready(q, z) ==> SortsFirst(q[y], q[z])
  }

  /** The live requests whose field is among `fields`. */
  function Waits(live: map<Id, Entry>, fields: set<string>): set<Id>
  {
    set z | z in live && live[z].request.fieldName in fields
  }

  /** The requests blocked by `x` in `b`. */
  function Blocked(b: map<Id, set<Id>>, x: Id): set<Id>
  {
    if x in b then b[x] else {}
  }

  /** `b1` is `_blocking` `b0` once request `id` waits on each of `deps`. */
  ghost predicate AddsBlocked(b0: map<Id, set<Id>>, b1: map<Id, set<Id>>, deps: set<Id>, id: Id)
  {
    && b1.Keys == b0.Keys + deps
    && forall x :: x in b1 ==> b1[x] == Blocked(b0, x) + (if x in deps then {id} else {})
  }

  /** A request for `field` that has just been queued with id `id`, waiting on nothing yet. */
  function Fresh(field: string, ps: M.PromptSet, userInput: Option<string>, priority: int, id: Id): Entry
  {
    Entry(G.Request(field, ps.name, ps.version, priority, id, 0, 3, id), {}, ps, userInput, priority, id)
  }

  /** The fields the request of `e` depends on. */
  function DepFields(e: Entry): set<string>
  {
    D.GetFieldDependencies(e.promptSet, e.request.fieldName)
  }

  /** `_queued` once `e` is queued as `id` and waits on the live requests, itself included,
      whose field is among its field's dependencies. */
  function Enqueued(q: map<Id, Entry>, a: map<Id, Entry>, e: Entry, id: Id): map<Id, Entry>
  {
    var q1 := q[id := e];
    q1[id := e.(deps := Waits(q1 + a, DepFields(e)))]
  }

  /** A newly queued request waits on exactly the live requests whose field its own field
      depends on, and on itself when its field depends on itself. */
  lemma {:induction false} EnqueuedWaitsOn(q: map<Id, Entry>, a: map<Id, Entry>, e: Entry, id: Id, y: Id)
    requires id !in q && id !in a
    ensures y in Enqueued(q, a, e, id)[id].deps <==>
      || (y == id && e.request.fieldName in DepFields(e))
      || (y in q && y !in a && q[y].request.fieldName in DepFields(e))
      || (y in a && a[y].request.fieldName in DepFields(e))
  {
  }

  /** `_queued` once request `x` has completed: the queued requests it blocked no longer
      wait on it. */
  function Released(q: map<Id, Entry>, blocked: set<Id>, x: Id): map<Id, Entry>
  {
    map y | y in q :: if y in blocked then q[y].(deps := q[y].deps - {x}) else q[y]
  }

  /** One more blocked request `b` stops waiting on `x`. */
  lemma {:induction false} ReleaseStep(q: map<Id, Entry>, d: set<Id>, b: Id, x: Id)
    requires b !in d
    ensures b in q ==> Released(q, d + {b}, x) == Released(q, d, x)[b := q[b].(deps := q[b].deps - {x})]
    ensures b !in q ==> Released(q, d + {b}, x) == Released(q, d, x)
    ensures b in q ==> Released(q, d, x)[b] == q[b]
  {
  }

  /** The result recorded when request `id` fails with `message`. */
  function FailedResult(id: Id, e: Entry, message: string): G.Result
  {
    G.Result(id, e.request.fieldName, "", G.Failed, e.queuedAt, Some(message), 0)
  }

  /** The message of a request that fails because request `x` failed. */
  function DependentFailed(x: Id): string
  {
    "Dependent generation " + Strings.Decimal(x) + " failed"
  }

  /** The results of the live requests among `victims`, failed because `x` failed. */
  function Cascade(live: map<Id, Entry>, victims: set<Id>, x: Id): map<Id, G.Result>
  {
    map b | b in victims && b in live :: FailedResult(b, live[b], DependentFailed(x))
  }

  /** Which of the ready requests is started is decided by the key alone: two different
      queued requests never tie, since their queuing times differ. */
  lemma {:induction false} NextIsUnique(q: map<Id, Entry>, y: Id, z: Id)
    requires forall w :: w in q ==> q[w].queuedAt == w
    requires IsNext(q, y) && IsNext(q, z)
    ensures y == z
  {
    assert SortsFirst(q[y], q[z]) && SortsFirst(q[z], q[y]);
  }

  // ---------------------------------------------------------------- invariants

  /** The live requests (`{**queued, **active}`) and the results, by id. */
  type Live = map<Id, Entry>
  type Results = map<Id, G.Result>
  type Blocks = map<Id, set<Id>>

  /** No request is in two of the four maps. */
  ghost predicate Disjoint(q: Live, a: Live, c: Results, f: Results)
  {
    && (forall y :: y in q ==> y !in a && y !in c && y !in f)
    && (forall y :: y in a ==> y !in c && y !in f)
    && (forall y :: y in c ==> y !in f)
  }

  /** Every id is one handed out already; a request is blocked only by itself or by
      requests queued before it; a live entry carries its own id and queuing time. */
  ghost predicate Issued(q: Live, a: Live, c: Results, f: Results, b: Blocks, next: Id)
  {
    && (forall y :: y in q ==> y < next && q[y].queuedAt == y && q[y].request.id == y)
    && (forall y :: y in a ==> y < next && a[y].queuedAt == y && a[y].request.id == y)
    && (forall y :: y in c ==> y < next)
    && (forall y :: y in f ==> y < next)
    && Ordered(b, next)
  }

  /** No request is both queued and active. */
  ghost predicate Separate(q: Live, a: Live)
  {
    forall y :: y in q ==> y !in a
  }

  /** A request is blocked only by itself or by requests queued before it. */
  ghost predicate Ordered(b: Blocks, next: Id)
  {
    forall x :: x in b ==> x < next && forall y :: y in b[x] ==> x <= y < next
  }

  /** A live request that `x` blocks still waits on `x`. */
  ghost predicate Waiting(q: Live, a: Live, b: Blocks)
  {
    && (forall x, y :: x in b && y in b[x] && y in q ==> x in q[y].deps)
    && (forall x, y :: x in b && y in b[x] && y in a ==> x in a[y].deps)
  }

  /** The invariant of the queue manager, over its maps, its counter and its cap. */
  ghost predicate Inv(q: Live, a: Live, c: Results, f: Results, b: Blocks, next: Id, cap: int)
  {
    Disjoint(q, a, c, f) && Issued(q, a, c, f, b, next) && Waiting(q, a, b) && (|a| == 0 || |a| <= cap)
  }

  /** `m1` keeps some of the entries of `m0` and adds none. */
  ghost predicate Within<V>(m1: map<Id, V>, m0: map<Id, V>)
  {
    forall y :: y in m1 ==> y in m0 && m1[y] == m0[y]
  }

  /** Dropping live requests and `_blocking` entries keeps the invariants. */
  lemma {:induction false} DropKeeps(q: Live, a: Live, c: Results, f: Results, b: Blocks, next: Id,
                                     q1: Live, a1: Live, b1: Blocks)
    requires Disjoint(q, a, c, f) && Issued(q, a, c, f, b, next) && Waiting(q, a, b)
    requires Within(q1, q) && Within(a1, a) && Within(b1, b)
    ensures Disjoint(q1, a1, c, f) && Issued(q1, a1, c, f, b1, next) && Waiting(q1, a1, b1)
    ensures |a1| <= |a|
  {
    SubsetCard(a1.Keys, a.Keys);
  }

  /** Queuing a fresh request keeps the invariants. */
  lemma {:induction false} EnqueueKeeps(q: Live, a: Live, c: Results, f: Results, b: Blocks, b1: Blocks, e: Entry, id: Id)
    requires Disjoint(q, a, c, f) && Issued(q, a, c, f, b, id) && Waiting(q, a, b)
    requires e.request.id == id && e.queuedAt == id
    requires AddsBlocked(b, b1, Enqueued(q, a, e, id)[id].deps, id)
    ensures var q1 := Enqueued(q, a, e, id);
      Disjoint(q1, a, c, f) && Issued(q1, a, c, f, b1, id + 1) && Waiting(q1, a, b1)
  {
    var q1 := Enqueued(q, a, e, id);
    EnqueueIssued(q, a, c, f, b, b1, e, id);
    EnqueueWaiting(q, a, c, f, b, b1, e, id);
    assert Disjoint(q1, a, c, f);
  }

  lemma {:induction false} EnqueueIssued(q: Live, a: Live, c: Results, f: Results, b: Blocks, b1: Blocks, e: Entry, id: Id)
    requires Issued(q, a, c, f, b, id)
    requires e.request.id == id && e.queuedAt == id
    requires AddsBlocked(b, b1, Enqueued(q, a, e, id)[id].deps, id)
    ensures Issued(Enqueued(q, a, e, id), a, c, f, b1, id + 1)
  {
    var q1 := Enqueued(q, a, e, id);
    var deps := q1[id].deps;
    assert forall y :: y in deps ==> y <= id;
    forall x | x in b1 ensures x < id + 1 && forall y :: y in b1[x] ==> x <= y < id + 1 {
      assert b1[x] == Blocked(b, x) + (if x in deps then {id} else {});
    }
  }

  lemma {:induction false} EnqueueWaiting(q: Live, a: Live, c: Results, f: Results, b: Blocks, b1: Blocks, e: Entry, id: Id)
    requires Issued(q, a, c, f, b, id) && Waiting(q, a, b)
    requires AddsBlocked(b, b1, Enqueued(q, a, e, id)[id].deps, id)
    ensures Waiting(Enqueued(q, a, e, id), a, b1)
  {
    var q1 := Enqueued(q, a, e, id);
    var deps := q1[id].deps;
    forall x, y | x in b1 && y in b1[x] && y in q1 ensures x in q1[y].deps {
      if y != id {
        assert y in b[x];
      }
    }
    forall x, y | x in b1 && y in b1[x] && y in a ensures x in a[y].deps {
      assert y in b[x];
    }
  }

  /** Starting a ready request keeps the invariants and the cap. */
  lemma {:induction false} StartKeeps(q: Live, a: Live, c: Results, f: Results, b: Blocks, next: Id, y: Id, cap: int)
    requires Disjoint(q, a, c, f) && Issued(q, a, c, f, b, next) && Waiting(q, a, b)
    requires Ready(q, y) && |a| < cap
    ensures var q1, a1 := q - {y}, a[y := q[y]];
      Disjoint(q1, a1, c, f) && Issued(q1, a1, c, f, b, next) && Waiting(q1, a1, b) && |a1| <= cap
  {
    var a1 := a[y := q[y]];
    assert a1.Keys == a.Keys + {y};
    forall x | x in b ensures y !in b[x] {
      if y in b[x] {
        assert false;
      }
    }
  }

  /** Completing an active request keeps the invariants. */
  lemma {:induction false} CompleteKeeps(q: Live, a: Live, c: Results, f: Results, b: Blocks, next: Id, id: Id, r: G.Result)
    requires Disjoint(q, a, c, f) && Issued(q, a, c, f, b, next) && Waiting(q, a, b)
    requires id in a
    ensures var q1 := Released(q, Blocked(b, id), id);
      && Disjoint(q1, a - {id}, c[id := r], f) && Issued(q1, a - {id}, c[id := r], f, b - {id}, next)
      && Waiting(q1, a - {id}, b - {id}) && |a - {id}| <= |a|
  {
    CompleteIssued(q, a, c, f, b, next, id, r);
    CompleteWaiting(q, a, b, id);
    SubsetCard((a - {id}).Keys, a.Keys);
  }

  lemma {:induction false} CompleteIssued(q: Live, a: Live, c: Results, f: Results, b: Blocks, next: Id, id: Id, r: G.Result)
    requires Disjoint(q, a, c, f) && Issued(q, a, c, f, b, next)
    requires id in a
    ensures var q1 := Released(q, Blocked(b, id), id);
      Disjoint(q1, a - {id}, c[id := r], f) && Issued(q1, a - {id}, c[id := r], f, b - {id}, next)
  {
    var q1 := Released(q, Blocked(b, id), id);
    assert q1.Keys == q.Keys;
  }

  lemma {:induction false} CompleteWaiting(q: Live, a: Live, b: Blocks, id: Id)
    requires Waiting(q, a, b)
    ensures Waiting(Released(q, Blocked(b, id), id), a - {id}, b - {id})
  {
    var q1 := Released(q, Blocked(b, id), id);
    forall x, y | x in b - {id} && y in (b - {id})[x] && y in q1 ensures x in q1[y].deps {
      assert x in q[y].deps;
    }
  }

  /** Putting a failed request back in the queue keeps the invariants. */
  lemma {:induction false} RequeueKeeps(q: Live, a: Live, c: Results, f: Results, b: Blocks, next: Id, id: Id, e: Entry)
    requires Disjoint(q, a, c, f) && Issued(q, a, c, f, b, next) && Waiting(q, a, b)
    requires (id in q && e.deps == q[id].deps) || (id in a && e.deps == a[id].deps)
    requires e.queuedAt == id && e.request.id == id
    ensures Disjoint(q[id := e], a - {id}, c, f) && Issued(q[id := e], a - {id}, c, f, b, next)
    ensures Waiting(q[id := e], a - {id}, b) && |a - {id}| <= |a|
  {
    RequeueIssued(q, a, c, f, b, next, id, e);
    RequeueWaiting(q, a, b, id, e);
    SubsetCard((a - {id}).Keys, a.Keys);
  }

  lemma {:induction false} RequeueIssued(q: Live, a: Live, c: Results, f: Results, b: Blocks, next: Id, id: Id, e: Entry)
    requires Disjoint(q, a, c, f) && Issued(q, a, c, f, b, next)
    requires id in q || id in a
    requires e.queuedAt == id && e.request.id == id
    ensures Disjoint(q[id := e], a - {id}, c, f) && Issued(q[id := e], a - {id}, c, f, b, next)
  {
    assert id < next && id !in c && id !in f;
  }

  lemma {:induction false} RequeueWaiting(q: Live, a: Live, b: Blocks, id: Id, e: Entry)
    requires Waiting(q, a, b)
    requires (id in q && e.deps == q[id].deps) || (id in a && e.deps == a[id].deps)
    ensures Waiting(q[id := e], a - {id}, b)
  {
    forall x, y | x in b && y in b[x] && y in q[id := e] ensures x in q[id := e][y].deps {
      if y == id && id in a {
        assert x in a[y].deps;
      }
    }
  }

  /** Failing a request for good, with the live requests it blocks, keeps the invariants. */
  lemma {:induction false} FailKeeps(q: Live, a: Live, c: Results, f: Results, b: Blocks, next: Id, cap: int,
                                     id: Id, r: G.Result)
    requires Inv(q, a, c, f, b, next, cap)
    requires id in q || id in a
    ensures var bl := Blocked(b, id);
      Inv((q - {id}) - bl, (a - {id}) - bl, c, f[id := r] + Cascade((q - {id}) + (a - {id}), bl, id), b - {id}, next, cap)
  {
    var bl := Blocked(b, id);
    DropKeeps(q, a, c, f, b, next, (q - {id}) - bl, (a - {id}) - bl, b - {id});
    FailDisjoint(q, a, c, f, id, r, bl);
    FailIssued(q, a, c, f, b, next, id, r);
  }

  lemma {:induction false} FailDisjoint(q: Live, a: Live, c: Results, f: Results, id: Id, r: G.Result, bl: set<Id>)
    requires Disjoint(q, a, c, f) && (id in q || id in a)
    ensures Disjoint((q - {id}) - bl, (a - {id}) - bl, c, f[id := r] + Cascade((q - {id}) + (a - {id}), bl, id))
  {
    var f1 := f[id := r] + Cascade((q - {id}) + (a - {id}), bl, id);
    assert forall y :: y in f1 ==> y in f || y == id || (y in bl && (y in q || y in a));
  }

  lemma {:induction false} FailIssued(q: Live, a: Live, c: Results, f: Results, b: Blocks, next: Id, id: Id, r: G.Result)
    requires Issued(q, a, c, f, b, next)
    requires id in q || id in a
    ensures var bl := Blocked(b, id);
      Issued((q - {id}) - bl, (a - {id}) - bl, c, f[id := r] + Cascade((q - {id}) + (a - {id}), bl, id), b - {id}, next)
  {
    var bl := Blocked(b, id);
    var f1 := f[id := r] + Cascade((q - {id}) + (a - {id}), bl, id);
    assert forall y :: y in f1 ==> y in f || y in q || y in a;
  }

  /**
   * `removed` is exactly the set of live requests that `id` reaches through
   * `_blocking`, passing through live requests only: it holds `id` when `id` is live,
   * every live request a removed one blocks, and nothing else, since each removed
   * request but `id` is blocked by an earlier removed one (see `ReachUnique`).
   */
  ghost predicate ReachSet(b: Blocks, live: set<Id>, id: Id, removed: set<Id>)
  {
    && removed <= live
    && (id in live ==> id in removed)
    && (forall y, z :: y in removed && z in Blocked(b, y) && z in live ==> z in removed)
    && (forall y :: y in removed && y != id ==> exists x :: x in removed && x < y && y in Blocked(b, x))
  }

  /** Each request of one reach set is in any other reach set from the same request. */
  lemma {:induction false} ReachIncluded(b: Blocks, live: set<Id>, id: Id, r1: set<Id>, r2: set<Id>, y: Id)
    requires ReachSet(b, live, id, r1) && ReachSet(b, live, id, r2) && y in r1
    ensures y in r2
    decreases y
  {
    if y != id {
      var x :| x in r1 && x < y && y in Blocked(b, x);
      ReachIncluded(b, live, id, r1, r2, x);
    }
  }

  /** The reach set from a request is unique: `ReachSet` says which requests it holds
      and no other set satisfies it. */
  lemma {:induction false} ReachUnique(b: Blocks, live: set<Id>, id: Id, r1: set<Id>, r2: set<Id>)
    requires ReachSet(b, live, id, r1) && ReachSet(b, live, id, r2)
    ensures r1 == r2
  {
    forall y | y in r1 ensures y in r2 { ReachIncluded(b, live, id, r1, r2, y); }
    forall y | y in r2 ensures y in r1 { ReachIncluded(b, live, id, r2, r1, y); }
  }

  /** A live request that blocks nothing reaches only itself; one that is not live reaches nothing. */
  lemma {:induction false} ReachAlone(b: Blocks, live: set<Id>, id: Id, removed: set<Id>)
    requires ReachSet(b, live, id, removed) && Blocked(b, id) == {}
    ensures removed == if id in live then {id} else {}
  {
    var single: set<Id> := if id in live then {id} else {};
    assert ReachSet(b, live, id, single);
    ReachUnique(b, live, id, removed, single);
  }

  /** Request `y` was live in `l0` and is gone from `l1`. The parent clauses below hang
      on this term rather than on set membership, so that the earlier request each one
      names does not call for a parent of its own. */
  ghost predicate Dropped(l0: set<Id>, l1: set<Id>, y: Id)
  {
    y in l0 && y !in l1
  }

  /** The requests removed from `l0`, leaving `l1`, were all queued no earlier than `id`;
      every live request one of them blocked is gone too; each of them but `id` was
      blocked by an earlier removed one; and a `_blocking` entry is dropped exactly
      with its request. */
  ghost predicate Cancelled(l0: set<Id>, l1: set<Id>, b0: Blocks, b1: Blocks, id: Id)
  {
    && (forall y :: y in l0 && y !in l1 ==> id <= y && y !in b1 && forall z :: z in Blocked(b0, y) ==> z !in l1)
    && (forall y :: Dropped(l0, l1, y) && y != id ==>
          exists x :: x in l0 && x !in l1 && x < y && y in Blocked(b0, x))
    && (forall y :: y in b0 && y !in b1 ==> y in l0 && y !in l1)
  }

  /** A cancellation removes exactly the requests `id` reaches, and the `_blocking`
      entries of exactly those. */
  lemma {:induction false} CancelledReaches(l0: set<Id>, l1: set<Id>, b0: Blocks, b1: Blocks, id: Id)
    requires Cancelled(l0, l1, b0, b1, id) && l1 <= l0 && id !in l1 && Within(b1, b0)
    ensures ReachSet(b0, l0, id, l0 - l1)
    ensures b1 == b0 - (l0 - l1)
  {
    forall y | y in l0 - l1 && y != id
      ensures exists x :: x in l0 - l1 && x < y && y in Blocked(b0, x)
    {
      assert Dropped(l0, l1, y);
    }
  }

  lemma {:induction false} MinusStep<V>(m: map<Id, V>, d: set<Id>, b: Id)
    ensures (m - d) - {b} == m - (d + {b})
  {
  }

  /** One more blocked request `b` failing adds its result to the cascade. */
  lemma {:induction false} CascadeStep(f: Results, live: Live, d: set<Id>, b: Id, x: Id)
    ensures b in live ==>
      f + Cascade(live, d + {b}, x) == (f + Cascade(live, d, x))[b := FailedResult(b, live[b], DependentFailed(x))]
    ensures b !in live ==> Cascade(live, d + {b}, x) == Cascade(live, d, x)
  {
  }

  /** `Cancelled` for every request removed but `id`, whose blocked requests are still
      being dropped. */
  ghost predicate CancelledBeside(l0: set<Id>, l1: set<Id>, b0: Blocks, b1: Blocks, id: Id)
  {
    && (forall y :: y in l0 && y !in l1 && y != id ==>
          id <= y && y !in b1 && forall z :: z in Blocked(b0, y) ==> z !in l1)
    && (forall y :: Dropped(l0, l1, y) && y != id ==>
          exists x :: x in l0 && x !in l1 && x < y && y in Blocked(b0, x))
    && (forall y :: y in b0 && y !in b1 ==> y in l0 && y !in l1)
  }

  /** `CancelStep` over the live tables themselves, before and after `z` is dropped. */
  lemma {:induction false} CancelOneStep(l0: set<Id>, b0: Blocks, q1: Live, a1: Live, b1: Blocks,
                                         q2: Live, a2: Live, b2: Blocks, id: Id, z: Id)
    requires Within(q2, q1) && Within(a2, a1) && Within(b2, b1) && Within(b1, b0)
    requires id !in q1 && id !in a1 && id !in b1 && id in l0 && q1.Keys + a1.Keys <= l0
    requires z in Blocked(b0, id) && id <= z
    requires CancelledBeside(l0, q1.Keys + a1.Keys, b0, b1, id)
    requires Cancelled(q1.Keys + a1.Keys, q2.Keys + a2.Keys, b1, b2, z)
    ensures id !in q2 && id !in a2 && id !in b2
    ensures q2.Keys + a2.Keys <= l0 && Within(b2, b0)
    ensures CancelledBeside(l0, q2.Keys + a2.Keys, b0, b2, id)
  {
    CancelStep(l0, q1.Keys + a1.Keys, q2.Keys + a2.Keys, b0, b1, b2, id, z);
  }

  /** A request `z` that `id` blocks, dropped with what it blocks in turn, keeps
      `CancelledBeside` for `id`. */
  lemma {:induction false} CancelStep(l0: set<Id>, l1: set<Id>, l2: set<Id>, b0: Blocks, b1: Blocks, b2: Blocks, id: Id, z: Id)
    requires CancelledBeside(l0, l1, b0, b1, id) && Cancelled(l1, l2, b1, b2, z)
    requires l2 <= l1 <= l0 && Within(b2, b1) && Within(b1, b0) && id <= z
    requires id in l0 && id !in l1 && z in Blocked(b0, id)
    ensures CancelledBeside(l0, l2, b0, b2, id)
  {
    forall y | y in l0 && y !in l2 && y != id
      ensures id <= y && y !in b2 && forall w :: w in Blocked(b0, y) ==> w !in l2
    {
      if y in l1 {
        assert Blocked(b0, y) == Blocked(b1, y);
      }
    }
    forall y | y in l0 && y !in l2 && y != id
      ensures exists x :: x in l0 && x !in l2 && x < y && y in Blocked(b0, x)
    {
      if y !in l1 {
        assert Dropped(l0, l1, y);
        var x :| x in l0 && x !in l1 && x < y && y in Blocked(b0, x);
      } else if y == z {
        assert id < y;
      } else {
        assert Dropped(l1, l2, y);
        var x :| x in l1 && x !in l2 && x < y && y in Blocked(b1, x);
        assert x in b1;
        assert Blocked(b0, x) == Blocked(b1, x);
      }
    }
  }

  /** Once every request `id` blocks is gone, `id` itself is `Cancelled`. */
  lemma {:induction false} CancelDone(l0: set<Id>, l1: set<Id>, b0: Blocks, b1: Blocks, id: Id)
    requires CancelledBeside(l0, l1, b0, b1, id) && id !in b1
    requires forall z :: z in Blocked(b0, id) ==> z !in l1
    ensures Cancelled(l0, l1, b0, b1, id)
  {
  }

  /** `GenerationQueueManager`. */
  class GenerationQueueManager {
    const maxConcurrent: int
    var queued: map<Id, Entry>
    var active: map<Id, Entry>
    var completed: map<Id, G.Result>
    var failed: map<Id, G.Result>
    /** `_blocking`: request -> the requests that wait on it. */
    var blocking: map<Id, set<Id>>
    /** The id the next request gets. */
    var nextId: Id

    /** Each request is in at most one of the four maps, `blocking` is contained in the
        inverse of the waiting relation, and at most `maxConcurrent` requests are active. */
    ghost predicate Valid()
      reads this
    {
      Inv(queued, active, completed, failed, blocking, nextId, maxConcurrent)
    }

    /** The ids of the live requests. */
    function LiveIds(): set<Id>
      reads this
    {
      queued.Keys + active.Keys
    }

    constructor(maxConcurrent: int)
      ensures Valid()
      ensures this.maxConcurrent == maxConcurrent
      ensures queued == map[] && active == map[] && completed == map[] && failed == map[] && blocking == map[]
    {
      this.maxConcurrent := maxConcurrent;
      queued, active, completed, failed, blocking := map[], map[], map[], map[], map[];
      nextId := 0;
    }

    /** `queue_generation`: a fresh request for `field`, waiting on the live requests its
        field depends on (`EnqueuedWaitsOn`); `blocking` records the inverse. */
    method QueueGeneration(field: string, ps: M.PromptSet, userInput: Option<string>, priority: int)
      returns (id: Id)
      requires Valid()
      modifies this
      ensures Valid()
      ensures id == old(nextId) && nextId == id + 1
      ensures id !in old(queued) && id !in old(active) && id !in old(completed) && id !in old(failed)
      ensures queued == Enqueued(old(queued), old(active), Fresh(field, ps, userInput, priority, id), id)
      ensures AddsBlocked(old(blocking), blocking, queued[id].deps, id)
      ensures active == old(active) && completed == old(completed) && failed == old(failed)
    {
      id := Enqueue(field, ps, userInput, priority);
      EnqueueKeeps(old(queued), active, completed, failed, old(blocking), blocking, Fresh(field, ps, userInput, priority, id), id);
    }

    /** The state change of `QueueGeneration`. */
    method Enqueue(field: string, ps: M.PromptSet, userInput: Option<string>, priority: int)
      returns (id: Id)
      modifies this
      ensures id == old(nextId) && nextId == id + 1
      ensures queued == Enqueued(old(queued), old(active), Fresh(field, ps, userInput, priority, id), id)
      ensures AddsBlocked(old(blocking), blocking, queued[id].deps, id)
      ensures active == old(active) && completed == old(completed) && failed == old(failed)
    {
      id := nextId;
      var e := Fresh(field, ps, userInput, priority, id);
      nextId := nextId + 1;
      queued := queued[id := e];
      SetupDependencies(id);
    }

    /** `_setup_dependencies`: request `id` waits on every live request whose field is among
        its field's dependencies. The source walks the dependency fields and, for each, the
        live requests; walking the live requests once gives the same sets. */
    method SetupDependencies(id: Id)
      requires id in queued && queued[id].deps == {}
      modifies this
      ensures var e := old(queued)[id];
        queued == old(queued)[id := e.(deps := Waits(old(queued) + old(active), DepFields(e)))]
      ensures AddsBlocked(old(blocking), blocking, queued[id].deps, id)
      ensures active == old(active) && completed == old(completed) && failed == old(failed) && nextId == old(nextId)
    {
      var e := queued[id];
      var fields := DepFields(e);
      var live := queued + active;
      var deps: set<Id> := {};
      var todo := live.Keys;
      while todo != {}
        invariant todo <= live.Keys
        invariant forall y :: y in deps <==> y in live && y !in todo && live[y].request.fieldName in fields
        invariant AddsBlocked(old(blocking), blocking, deps, id)
        invariant queued == old(queued) && active == old(active)
        invariant completed == old(completed) && failed == old(failed) && nextId == old(nextId)
        decreases todo
      {
        var z :| z in todo;
        if live[z].request.fieldName in fields {
          deps := deps + {z};
          blocking := blocking[z := Blocked(blocking, z) + {id}];
        }
        todo := todo - {z};
      }
      assert deps == Waits(live, fields);
      queued := queued[id := e.(deps := deps)];
    }

    /** `get_next_generation`: nothing when the active requests fill the cap or no queued
        request is ready; otherwise the ready request that sorts first moves to `active`. */
    method GetNextGeneration() returns (r: Option<G.Request>)
      requires Valid()
      modifies this
      ensures Valid()
      ensures r.None? <==> |old(active)| >= maxConcurrent || forall y :: y in old(queued) ==> !Ready(old(queued), y)
      ensures r.None? ==> queued == old(queued) && active == old(active)
      ensures r.Some? ==>
        var y := r.value.id;
        && IsNext(old(queued), y) && r.value == old(queued)[y].request
        && queued == old(queued) - {y} && active == old(active)[y := old(queued)[y]]
      ensures completed == old(completed) && failed == old(failed)
      ensures blocking == old(blocking) && nextId == old(nextId)
    {
      if |active| >= maxConcurrent {
        return None;
      }
      var best := PickNext();
      if best.None? {
        return None;
      }
      var y := best.value;
      var e := queued[y];
      StartKeeps(queued, active, completed, failed, blocking, nextId, y, maxConcurrent);
      queued := queued - {y};
      active := active[y := e];
      r := Some(e.request);
    }

    /** The ready request that sorts first, if any: the head of `ready` once sorted. */
    method PickNext() returns (best: Option<Id>)
      ensures best.None? <==> forall y :: y in queued ==> !Ready(queued, y)
      ensures best.Some? ==> IsNext(queued, best.value)
    {
      best := None;
      var todo := queued.Keys;
      while todo != {}
        invariant todo <= queued.Keys
        invariant best.None? ==> forall z :: z in queued && z !in todo ==> !Ready(queued, z)
        invariant best.Some? ==> Ready(queued, best.value)
        invariant best.Some? ==> forall z :: z in queued && z !in todo && Ready(queued, z) ==> SortsFirst(queued[best.value], queued[z])
        decreases todo
      {
        var z :| z in todo;
        if Ready(queued, z) && (best.None? || !SortsFirst(queued[best.value], queued[z])) {
          best := Some(z);
        }
        todo := todo - {z};
      }
    }

    /** `complete_generation`: only an active request completes; its result is recorded
        and the queued requests it blocked stop waiting on it. */
    method CompleteGeneration(id: Id, content: string) returns (r: Result<G.Result, QueueError>)
      requires Valid()
      modifies this
      ensures Valid()
      ensures r.Failure? <==> id !in old(active)
      ensures r.Failure? ==> r.error == NoActiveGeneration(id) && unchanged(this)
      ensures r.Success? ==>
        var e := old(active)[id];
        && r.value == G.Result(id, e.request.fieldName, content, G.Completed, e.queuedAt, None, 0)
        && active == old(active) - {id} && completed == old(completed)[id := r.value]
        && queued == Released(old(queued), Blocked(old(blocking), id), id)
        && blocking == old(blocking) - {id}
        && failed == old(failed) && nextId == old(nextId)
    {
      if id !in active {
        return Failure(NoActiveGeneration(id));
      }
      var e := active[id];
      var res := G.Result(id, e.request.fieldName, content, G.Completed, e.queuedAt, None, 0);
      CompleteKeeps(queued, active, completed, failed, blocking, nextId, id, res);
      assert forall y :: y in Blocked(blocking, id) && y in queued ==> id in queued[y].deps;
      Complete(id, res);
      return Success(res);
    }

    /** The state change of `CompleteGeneration`. */
    method Complete(id: Id, res: G.Result)
      requires forall y :: y in Blocked(blocking, id) && y in queued ==> id in queued[y].deps
      modifies this
      ensures active == old(active) - {id} && completed == old(completed)[id := res]
      ensures queued == Released(old(queued), Blocked(old(blocking), id), id)
      ensures blocking == old(blocking) - {id}
      ensures failed == old(failed) && nextId == old(nextId)
    {
      active := active - {id};
      completed := completed[id := res];
      var blocked := Blocked(blocking, id);
      blocking := blocking - {id};
      ReleaseBlocked(blocked, id);
    }

    /** The loop of `complete_generation`: each queued request in `blocked` stops waiting
        on `x`. Python's `set.remove` would raise for a request not waiting on `x`; the
        precondition, which the invariant gives, says there is none. */
    method ReleaseBlocked(blocked: set<Id>, x: Id)
      requires forall y :: y in blocked && y in queued ==> x in queued[y].deps
      modifies this
      ensures queued == Released(old(queued), blocked, x)
      ensures active == old(active) && completed == old(completed) && failed == old(failed)
      ensures blocking == old(blocking) && nextId == old(nextId)
    {
      ghost var done: set<Id> := {};
      var todo := blocked;
      while todo != {}
        invariant todo <= blocked && done == blocked - todo
        invariant queued == Released(old(queued), done, x)
        invariant active == old(active) && completed == old(completed) && failed == old(failed)
        invariant blocking == old(blocking) && nextId == old(nextId)
        decreases todo
      {
        var b :| b in todo;
        ReleaseStep(old(queued), done, b, x);
        if b in queued {
          assert queued[b] == old(queued)[b];
          assert x in queued[b].deps;
          queued := queued[b := queued[b].(deps := queued[b].deps - {x})];
        }
        done := done + {b};
        todo := todo - {b};
      }
    }

    /** The request of `e` put back in the queue with one more retry counted. */
    static function Retried(e: Entry): Entry
    {
      e.(request := e.request.(retryCount := e.request.retryCount + 1))
    }

    /** `fail_generation`: only a live request fails. With retries left it goes back to the
        queue with its retry count raised; otherwise it fails for good, and so does every
        live request it blocks. */
    method FailGeneration(id: Id, message: string, shouldRetry: bool, retryLimit: int)
      returns (r: Result<G.Result, QueueError>)
      requires Valid()
      modifies this
      ensures Valid()
      ensures r.Failure? <==> id !in old(queued) && id !in old(active)
      ensures r.Failure? ==> r.error == NoGeneration(id) && unchanged(this)
      ensures r.Success? ==>
        var e := if id in old(active) then old(active)[id] else old(queued)[id];
        && r.value == FailedResult(id, e, message)
        && completed == old(completed) && nextId == old(nextId)
        && if shouldRetry && e.request.retryCount < retryLimit then
             && queued == old(queued)[id := Retried(e)] && active == old(active) - {id}
             && failed == old(failed) && blocking == old(blocking)
           else
             var bl := Blocked(old(blocking), id);
             && queued == (old(queued) - {id}) - bl && active == (old(active) - {id}) - bl
             && failed == old(failed)[id := r.value] + Cascade((old(queued) - {id}) + (old(active) - {id}), bl, id)
             && blocking == old(blocking) - {id}
    {
      var e: Entry;
      if id in active {
        e := active[id];
      } else if id in queued {
        e := queued[id];
      } else {
        return Failure(NoGeneration(id));
      }
      var res := FailedResult(id, e, message);
      if shouldRetry && e.request.retryCount < retryLimit {
        Requeue(id, Retried(e));
      } else {
        FailForGood(id, res);
      }
      return Success(res);
    }

    /** The retry branch of `fail_generation`: live request `id` goes back to the queue as `e`. */
    method Requeue(id: Id, e: Entry)
      requires Valid()
      requires (id in queued && e.deps == queued[id].deps) || (id in active && e.deps == active[id].deps)
      requires e.queuedAt == id && e.request.id == id
      modifies this
      ensures Valid()
      ensures queued == old(queued)[id := e] && active == old(active) - {id}
      ensures completed == old(completed) && failed == old(failed)
      ensures blocking == old(blocking) && nextId == old(nextId)
    {
      RequeueKeeps(queued, active, completed, failed, blocking, nextId, id, e);
      Requeued(id, e);
    }

    /** The state change of `Requeue`. */
    method Requeued(id: Id, e: Entry)
      modifies this
      ensures queued == old(queued)[id := e] && active == old(active) - {id}
      ensures completed == old(completed) && failed == old(failed)
      ensures blocking == old(blocking) && nextId == old(nextId)
    {
      active := active - {id};
      queued := queued[id := e];
    }

    /** The other branch of `fail_generation`: live request `id` fails with result `res`, and
        so does every live request it blocks. */
    method FailForGood(id: Id, res: G.Result)
      requires Valid()
      requires id in queued || id in active
      modifies this
      ensures Valid()
      ensures var bl := Blocked(old(blocking), id);
        && queued == (old(queued) - {id}) - bl && active == (old(active) - {id}) - bl
        && failed == old(failed)[id := res] + Cascade((old(queued) - {id}) + (old(active) - {id}), bl, id)
        && blocking == old(blocking) - {id}
      ensures completed == old(completed) && nextId == old(nextId)
    {
      FailKeeps(queued, active, completed, failed, blocking, nextId, maxConcurrent, id, res);
      FailCore(id, res);
    }

    /** The state change of `FailForGood`. */
    method FailCore(id: Id, res: G.Result)
      requires forall y :: y in queued ==> y !in active
      modifies this
      ensures var bl := Blocked(old(blocking), id);
        && queued == (old(queued) - {id}) - bl && active == (old(active) - {id}) - bl
        && failed == old(failed)[id := res] + Cascade((old(queued) - {id}) + (old(active) - {id}), bl, id)
        && blocking == old(blocking) - {id}
      ensures completed == old(completed) && nextId == old(nextId)
    {
      active, queued := active - {id}, queued - {id};
      failed := failed[id := res];
      var blocked := Blocked(blocking, id);
      blocking := blocking - {id};
      FailBlocked(blocked, id);
    }

    /** The loop of `fail_generation`: each live request in `blocked` fails because `x`
        failed. */
    method FailBlocked(blocked: set<Id>, x: Id)
      requires forall y :: y in queued ==> y !in active
      modifies this
      ensures queued == old(queued) - blocked && active == old(active) - blocked
      ensures failed == old(failed) + Cascade(old(queued) + old(active), blocked, x)
      ensures completed == old(completed) && blocking == old(blocking) && nextId == old(nextId)
    {
      ghost var live := queued + active;
      ghost var done: set<Id> := {};
      var todo := blocked;
      while todo != {}
        invariant todo <= blocked && done == blocked - todo
        invariant queued == old(queued) - done && active == old(active) - done
        invariant failed == old(failed) + Cascade(live, done, x)
        invariant completed == old(completed) && blocking == old(blocking) && nextId == old(nextId)
        decreases todo
      {
        var b :| b in todo;
        MinusStep(old(queued), done, b);
        MinusStep(old(active), done, b);
        CascadeStep(old(failed), live, done, b, x);
        FailDependent(b, x);
        done := done + {b};
        todo := todo - {b};
      }
    }

    /** One pass of that loop: request `b`, if live, fails because `x` failed. */
    method FailDependent(b: Id, x: Id)
      modifies this
      ensures queued == old(queued) - {b}
      ensures active == if b in old(queued) then old(active) else old(active) - {b}
      ensures failed ==
        if b in old(queued) then old(failed)[b := FailedResult(b, old(queued)[b], DependentFailed(x))]
        else if b in old(active) then old(failed)[b := FailedResult(b, old(active)[b], DependentFailed(x))]
        else old(failed)
      ensures completed == old(completed) && blocking == old(blocking) && nextId == old(nextId)
    {
      var dep: Option<Entry> := None;
      if b in queued {
        dep := Some(queued[b]);
        queued := queued - {b};
      } else if b in active {
        dep := Some(active[b]);
        active := active - {b};
      }
      if dep.Some? {
        failed := failed[b := FailedResult(b, dep.value, DependentFailed(x))];
      }
    }

    /** `cancel_generation`: a live request is dropped without a record, and so, one level
        after another, is every live request it blocks; `false` for any other id. */
    method CancelGeneration(id: Id) returns (r: bool)
      requires Valid()
      modifies this
      ensures Valid()
      ensures r <==> id in old(queued) || id in old(active)
      ensures !r ==> unchanged(this)
      ensures id !in queued && id !in active
      ensures Within(queued, old(queued)) && Within(active, old(active)) && Within(blocking, old(blocking))
      ensures completed == old(completed) && failed == old(failed) && nextId == old(nextId)
      ensures Cancelled(old(LiveIds()), LiveIds(), old(blocking), blocking, id)
      ensures ReachSet(old(blocking), old(LiveIds()), id, old(LiveIds()) - LiveIds())
      ensures blocking == old(blocking) - (old(LiveIds()) - LiveIds())
    {
      r := CancelFrom(id);
      DropKeeps(old(queued), old(active), completed, failed, old(blocking), nextId, queued, active, blocking);
      CancelledReaches(old(LiveIds()), LiveIds(), old(blocking), blocking, id);
    }

    /** The body of `cancel_generation`, which calls itself for each request that the
        dropped one blocks. */
    method CancelFrom(id: Id) returns (r: bool)
      requires Ordered(blocking, nextId) && Separate(queued, active)
      modifies this`queued, this`active, this`blocking
      decreases nextId - id, if id in queued || id in active then 1 else 0, 0
      ensures Ordered(blocking, nextId) && Separate(queued, active)
      ensures r <==> id in old(queued) || id in old(active)
      ensures !r ==> unchanged(this)
      ensures id !in queued && id !in active
      ensures Within(queued, old(queued)) && Within(active, old(active)) && Within(blocking, old(blocking))
      ensures Cancelled(old(LiveIds()), LiveIds(), old(blocking), blocking, id)
    {
      if id !in queued && id !in active {
        return false;
      }
      if id in queued {
        queued := queued - {id};
      } else {
        active := active - {id};
      }
      var blocked := Blocked(blocking, id);
      blocking := blocking - {id};
      CancelBlocked(blocked, id, old(LiveIds()), old(blocking));
      CancelDone(old(LiveIds()), LiveIds(), old(blocking), blocking, id);
      return true;
    }

    /** The loop of `cancel_generation`: each request in `blocked`, which `id` blocked
        in `b0` when `l0` were live, is cancelled in turn. */
    method CancelBlocked(blocked: set<Id>, id: Id, ghost l0: set<Id>, ghost b0: Blocks)
      requires blocked == Blocked(b0, id) && forall z :: z in blocked ==> id <= z < nextId
      requires Ordered(blocking, nextId) && Separate(queued, active)
      requires id !in queued && id !in active && id !in blocking && id in l0
      requires LiveIds() <= l0 && Within(blocking, b0)
      requires CancelledBeside(l0, LiveIds(), b0, blocking, id)
      modifies this`queued, this`active, this`blocking
      decreases nextId - id, 0, 2
      ensures Ordered(blocking, nextId) && Separate(queued, active)
      ensures id !in queued && id !in active && id !in blocking
      ensures Within(queued, old(queued)) && Within(active, old(active)) && Within(blocking, old(blocking))
      ensures forall z :: z in blocked ==> z !in LiveIds()
      ensures CancelledBeside(l0, LiveIds(), b0, blocking, id)
    {
      var todo := blocked;
      while todo != {}
        invariant todo <= blocked
        invariant Ordered(blocking, nextId) && Separate(queued, active)
        invariant LiveIds() <= l0 && Within(blocking, b0)
        invariant Within(queued, old(queued)) && Within(active, old(active)) && Within(blocking, old(blocking))
        invariant id !in queued && id !in active && id !in blocking
        invariant forall z :: z in blocked && z !in todo ==> z !in LiveIds()
        invariant CancelledBeside(l0, LiveIds(), b0, blocking, id)
        decreases todo
      {
        var z :| z in todo;
        CancelOneBlocked(z, id, l0, b0);
        todo := todo - {z};
      }
    }

    /** One pass of that loop: request `z`, which `id` blocked, is cancelled with what it
        blocks in turn. */
    method CancelOneBlocked(z: Id, id: Id, ghost l0: set<Id>, ghost b0: Blocks)
      requires z in Blocked(b0, id) && id <= z < nextId
      requires Ordered(blocking, nextId) && Separate(queued, active)
      requires id !in queued && id !in active && id !in blocking && id in l0
      requires LiveIds() <= l0 && Within(blocking, b0)
      requires CancelledBeside(l0, LiveIds(), b0, blocking, id)
      modifies this`queued, this`active, this`blocking
      decreases nextId - id, 0, 1
      ensures Ordered(blocking, nextId) && Separate(queued, active)
      ensures id !in queued && id !in active && id !in blocking
      ensures Within(queued, old(queued)) && Within(active, old(active)) && Within(blocking, old(blocking))
      ensures z !in LiveIds() && LiveIds() <= l0 && Within(blocking, b0)
      ensures CancelledBeside(l0, LiveIds(), b0, blocking, id)
    {
      ghost var q1, a1, b1 := queued, active, blocking;
      var _ := CancelFrom(z);
      CancelOneStep(l0, b0, q1, a1, b1, queued, active, blocking, id, z);
    }

    /** `get_queue_status`: each request is counted once. */
    function GetQueueStatus(): (r: QueueCounts)
      reads this
      ensures Valid() ==> r.queued + r.active + r.completed + r.failed == |queued.Keys + active.Keys + completed.Keys + failed.Keys|
    {
      QueueCounts(|queued|, |active|, |completed|, |failed|)
    }

    /** `get_generation_status`: queued, then active, then completed, then failed; since no
        request is in two maps, the status names the one map that holds it. */
    function GetGenerationStatus(id: Id): (r: Option<G.Status>)
      reads this
      ensures r.None? <==> id !in queued && id !in active && id !in completed && id !in failed
      ensures r != Some(G.Cancelled)
      ensures Valid() ==>
        && (r == Some(G.Queued) <==> id in queued) && (r == Some(G.InProgress) <==> id in active)
        && (r == Some(G.Completed) <==> id in completed) && (r == Some(G.Failed) <==> id in failed)
    {
      if id in queued then Some(G.Queued)
      else if id in active then Some(G.InProgress)
      else if id in completed then Some(G.Completed)
      else if id in failed then Some(G.Failed)
      else None
    }

    /** `clear_completed()` with no age given. */
    method ClearCompleted()
      requires Valid()
      modifies this
      ensures Valid() && completed == map[]
      ensures queued == old(queued) && active == old(active) && failed == old(failed)
      ensures blocking == old(blocking) && nextId == old(nextId)
    {
      completed := map[];
    }

    /** `clear_failed()` with no age given. */
    method ClearFailed()
      requires Valid()
      modifies this
      ensures Valid() && failed == map[]
      ensures queued == old(queued) && active == old(active) && completed == old(completed)
      ensures blocking == old(blocking) && nextId == old(nextId)
    {
      failed := map[];
    }
  }
}
