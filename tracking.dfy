/**
 * `GenerationTrackingService`: a `pending` list kept in priority order, the
 * requests `inProgress` with a counter of them capped at three, and the
 * `completed`, `failed` and `cancelled` results. A failed request with retries
 * left goes back to the end of `pending` without re-sorting.
 */
module CoreTracking {
  import opened Wrappers
  import G = CoreGeneration

  type Id = G.Id

  /** `_max_concurrent`. */
  const MaxConcurrent := 3

  /** The `StateError` raised for an id that is not in progress. */
  datatype TrackError = NoActiveGeneration(id: Id)

  /** `get_queue_status`. */
  datatype TrackCounts = TrackCounts(pending: nat, inProgress: int, completed: nat, failed: nat, cancelled: nat)

  // ------------------------------------------------------------------ ordering

  /** `a` sorts no later than `b` under the key (-priority, created_at). */
  predicate Before(a: G.Request, b: G.Request)
  {
    a.priority > b.priority || (a.priority == b.priority && a.createdAt <= b.createdAt)
  }

  predicate SortedByKey(s: seq<G.Request>)
  {
    forall i, j :: 0 <= i < j < |s| ==> Before(s[i], s[j])
  }

  /** `x` placed into `s` after every element that sorts no later than it. */
  function Insert(s: seq<G.Request>, x: G.Request): seq<G.Request>
  {
    if s == [] || !Before(s[0], x) then [x] + s else [s[0]] + Insert(s[1..], x)
  }

  /** `list.sort` with the key (-priority, created_at): a stable insertion sort. */
  function Sort(s: seq<G.Request>): seq<G.Request>
  {
    if s == [] then [] else Insert(Sort(s[..|s| - 1]), s[|s| - 1])
  }

  lemma {:induction false} InsertSorted(s: seq<G.Request>, x: G.Request)
    requires SortedByKey(s)
    ensures SortedByKey(Insert(s, x))
  {
    if s != [] && Before(s[0], x) {
      var t := Insert(s[1..], x);
      InsertSorted(s[1..], x);
      InsertElems(s[1..], x);
      forall k | 0 <= k < |t| ensures Before(s[0], t[k]) {
        if t[k] != x {
          var j :| 0 <= j < |s[1..]| && s[1..][j] == t[k];
          assert s[j + 1] == t[k];
        }
      }
    }
  }

  lemma {:induction false} InsertPerm(s: seq<G.Request>, x: G.Request)
    ensures multiset(Insert(s, x)) == multiset(s) + multiset{x} && |Insert(s, x)| == |s| + 1
  {
    if s != [] && Before(s[0], x) {
      InsertPerm(s[1..], x);
      assert s == [s[0]] + s[1..];
    }
  }

  /** The sort gives the same requests, in key order. */
  lemma {:induction false} SortSorts(s: seq<G.Request>)
    ensures SortedByKey(Sort(s)) && multiset(Sort(s)) == multiset(s) && |Sort(s)| == |s|
    decreases |s|
  {
    if s != [] {
      var init := s[..|s| - 1];
      SortSorts(init);
      InsertSorted(Sort(init), s[|s| - 1]);
      InsertPerm(Sort(init), s[|s| - 1]);
      assert s == init + [s[|s| - 1]];
    }
  }

  // ----------------------------------------------------------------- invariant

  /** The ids of the pending requests differ from each other and from those in progress. */
  ghost predicate Apart(p: seq<G.Request>, ip: map<Id, G.Request>)
  {
    && (forall i, j :: 0 <= i < j < |p| ==> p[i].id != p[j].id)
    && (forall i :: 0 <= i < |p| ==> p[i].id !in ip)
  }

  /** `_current_generations` counts the requests in progress, each kept under its own id. */
  ghost predicate Counted(p: seq<G.Request>, ip: map<Id, G.Request>, n: int)
  {
    && Apart(p, ip)
    && (forall k :: k in ip ==> ip[k].id == k)
    && n == |ip|
  }

  /** No pending request carries `id`. */
  predicate Unlisted(p: seq<G.Request>, id: Id)
  {
    forall i :: 0 <= i < |p| ==> p[i].id != id
  }

  lemma {:induction false} InsertApart(s: seq<G.Request>, x: G.Request, ip: map<Id, G.Request>)
    requires Apart(s, ip) && Unlisted(s, x.id) && x.id !in ip
    ensures Apart(Insert(s, x), ip)
  {
    if s != [] && Before(s[0], x) {
      InsertApart(s[1..], x, ip);
      InsertElems(s[1..], x);
    }
  }

  lemma {:induction false} InsertElems(s: seq<G.Request>, x: G.Request)
    ensures forall k :: 0 <= k < |Insert(s, x)| ==> Insert(s, x)[k] == x || Insert(s, x)[k] in s
  {
    if s != [] && Before(s[0], x) {
      InsertElems(s[1..], x);
      assert forall r :: r in s[1..] ==> r in s;
    }
  }

  lemma {:induction false} SortApart(s: seq<G.Request>, ip: map<Id, G.Request>)
    requires Apart(s, ip)
    ensures Apart(Sort(s), ip)
    decreases |s|
  {
    if s != [] {
      var init := s[..|s| - 1];
      SortApart(init, ip);
      SortElems(init);
      forall k | 0 <= k < |Sort(init)| ensures Sort(init)[k].id != s[|s| - 1].id {
        assert Sort(init)[k] in init;
        var j :| 0 <= j < |init| && init[j] == Sort(init)[k];
        assert init[j] == s[j];
      }
      InsertApart(Sort(init), s[|s| - 1], ip);
    }
  }

  lemma {:induction false} SortElems(s: seq<G.Request>)
    ensures forall r :: r in Sort(s) ==> r in s
    decreases |s|
  {
    if s != [] {
      var init := s[..|s| - 1];
      SortElems(init);
      InsertElems(Sort(init), s[|s| - 1]);
      assert forall r :: r in init ==> r in s;
    }
  }

  /** Queuing a request whose id is new keeps the counter right. */
  lemma {:induction false} QueueCounted(p: seq<G.Request>, ip: map<Id, G.Request>, n: int, r: G.Request)
    requires Counted(p, ip, n) && Unlisted(p, r.id) && r.id !in ip
    ensures Counted(Sort(p + [r]), ip, n)
  {
    SortApart(p + [r], ip);
  }

  /** Starting the head of `pending` keeps the counter right. */
  lemma {:induction false} StartCounted(p: seq<G.Request>, ip: map<Id, G.Request>, n: int)
    requires Counted(p, ip, n) && p != []
    ensures Counted(p[1..], ip[p[0].id := p[0]], n + 1)
  {
    assert (ip[p[0].id := p[0]]).Keys == ip.Keys + {p[0].id};
  }

  /** Completing, failing for good or cancelling a request in progress keeps the counter right. */
  lemma {:induction false} FinishCounted(p: seq<G.Request>, ip: map<Id, G.Request>, n: int, id: Id)
    requires Counted(p, ip, n) && id in ip
    ensures Counted(p, ip - {id}, n - 1)
  {
    assert ip.Keys == (ip - {id}).Keys + {id};
  }

  /** Sending a failed request back to `pending` keeps the counter right. */
  lemma {:induction false} RetryCounted(p: seq<G.Request>, ip: map<Id, G.Request>, n: int, id: Id)
    requires Counted(p, ip, n) && id in ip
    ensures Counted(p + [Retried(ip[id])], ip - {id}, n - 1)
  {
    FinishCounted(p, ip, n, id);
  }

  /** Dropping a pending request keeps the counter right. */
  lemma {:induction false} DropCounted(p: seq<G.Request>, ip: map<Id, G.Request>, n: int, i: nat)
    requires Counted(p, ip, n) && i < |p|
    ensures Counted(p[..i] + p[i + 1..], ip, n)
  {
    var p1 := p[..i] + p[i + 1..];
    assert forall k :: 0 <= k < |p1| ==> p1[k] == if k < i then p[k] else p[k + 1];
  }

  /** The request sent back with one more retry counted. */
  function Retried(r: G.Request): G.Request
  {
    r.(retryCount := r.retryCount + 1)
  }

  /** The first position of a pending request with `id`, or `|p|` when there is none. */
  function FirstWith(p: seq<G.Request>, id: Id): (r: nat)
    ensures r <= |p| && (r < |p| ==> p[r].id == id)
    ensures forall k :: 0 <= k < r ==> p[k].id != id
  {
    if p == [] then 0 else if p[0].id == id then 0 else 1 + FirstWith(p[1..], id)
  }

  /** The result recorded for a cancelled request. */
  function CancelledResult(r: G.Request): G.Result
  {
    G.Result(r.id, r.fieldName, "", G.Cancelled, r.createdAt, None, 0)
  }

  class GenerationTrackingService {
    var pending: seq<G.Request>
    var inProgress: map<Id, G.Request>
    var completed: map<Id, G.Result>
    var failed: map<Id, G.Result>
    var cancelled: map<Id, G.Result>
    /** `_current_generations`. */
    var current: int

    /** The counter equals the number of requests in progress, while ids stay distinct. */
    ghost predicate Tracked()
      reads this
    {
      Counted(pending, inProgress, current)
    }

    constructor()
      ensures Tracked()
      ensures pending == [] && inProgress == map[] && current == 0
      ensures completed == map[] && failed == map[] && cancelled == map[]
    {
      pending, inProgress, current := [], map[], 0;
      completed, failed, cancelled := map[], map[], map[];
    }

    /** `queue_generation`: the request joins `pending`, which is sorted again. */
    method QueueGeneration(request: G.Request) returns (id: Id)
      modifies this
      ensures id == request.id && pending == Sort(old(pending) + [request])
      ensures SortedByKey(pending) && multiset(pending) == multiset(old(pending)) + multiset{request}
      ensures old(Tracked()) && Unlisted(old(pending), id) && id !in inProgress ==> Tracked()
      ensures inProgress == old(inProgress) && current == old(current)
      ensures completed == old(completed) && failed == old(failed) && cancelled == old(cancelled)
    {
      if Tracked() && Unlisted(pending, request.id) && request.id !in inProgress {
        QueueCounted(pending, inProgress, current, request);
      }
      SortSorts(pending + [request]);
      pending := Sort(pending + [request]);
      return request.id;
    }

    /** `start_next_generation`: nothing at the cap or with nothing pending; otherwise the
        head of `pending` goes in progress. */
    method StartNextGeneration() returns (r: Option<G.Request>)
      modifies this
      ensures r.None? <==> old(current) >= MaxConcurrent || old(pending) == []
      ensures r.None? ==> pending == old(pending) && inProgress == old(inProgress) && current == old(current)
      ensures r.Some? ==>
        && r.value == old(pending)[0] && pending == old(pending)[1..]
        && inProgress == old(inProgress)[r.value.id := r.value] && current == old(current) + 1
      ensures r.Some? && SortedByKey(old(pending)) ==> forall q :: q in old(pending) ==> Before(r.value, q)
      ensures old(Tracked()) ==> Tracked()
      ensures completed == old(completed) && failed == old(failed) && cancelled == old(cancelled)
    {
      if current >= MaxConcurrent || pending == [] {
        return None;
      }
      var request := pending[0];
      if Tracked() {
        StartCounted(pending, inProgress, current);
      }
      pending := pending[1..];
      inProgress := inProgress[request.id := request];
      current := current + 1;
      return Some(request);
    }

    /** `complete_generation`: only a request in progress completes. */
    method CompleteGeneration(id: Id, content: string) returns (r: Result<G.Result, TrackError>)
      modifies this
      ensures r.Failure? <==> id !in old(inProgress)
      ensures r.Failure? ==> r.error == NoActiveGeneration(id) && unchanged(this)
      ensures r.Success? ==>
        var q := old(inProgress)[id];
        && r.value == G.Result(id, q.fieldName, content, G.Completed, q.createdAt, None, q.retryCount)
        && inProgress == old(inProgress) - {id} && current == old(current) - 1
        && completed == old(completed)[id := r.value]
        && pending == old(pending) && failed == old(failed) && cancelled == old(cancelled)
      ensures old(Tracked()) ==> Tracked()
    {
      if id !in inProgress {
        return Failure(NoActiveGeneration(id));
      }
      var request := inProgress[id];
      if Tracked() {
        FinishCounted(pending, inProgress, current, id);
      }
      inProgress := inProgress - {id};
      current := current - 1;
      var res := G.Result(id, request.fieldName, content, G.Completed, request.createdAt, None, request.retryCount);
      completed := completed[id := res];
      return Success(res);
    }

    /** `fail_generation`: only a request in progress fails; it goes back to the end of
        `pending` while it has retries left, and is recorded as failed otherwise. The
        result carries the retry count from before the retry. */
    method FailGeneration(id: Id, message: string, shouldRetry: bool) returns (r: Result<G.Result, TrackError>)
      modifies this
      ensures r.Failure? <==> id !in old(inProgress)
      ensures r.Failure? ==> r.error == NoActiveGeneration(id) && unchanged(this)
      ensures r.Success? ==>
        var q := old(inProgress)[id];
        && r.value == G.Result(id, q.fieldName, "", G.Failed, q.createdAt, Some(message), q.retryCount)
        && inProgress == old(inProgress) - {id} && current == old(current) - 1
        && completed == old(completed) && cancelled == old(cancelled)
        && if shouldRetry && q.retryCount < q.maxRetries then
             pending == old(pending) + [Retried(q)] && failed == old(failed)
           else
             pending == old(pending) && failed == old(failed)[id := r.value]
      ensures old(Tracked()) ==> Tracked()
    {
      if id !in inProgress {
        return Failure(NoActiveGeneration(id));
      }
      var request := inProgress[id];
      if Tracked() {
        if shouldRetry && request.retryCount < request.maxRetries {
          RetryCounted(pending, inProgress, current, id);
        } else {
          FinishCounted(pending, inProgress, current, id);
        }
      }
      inProgress := inProgress - {id};
      current := current - 1;
      var res := G.Result(id, request.fieldName, "", G.Failed, request.createdAt, Some(message), request.retryCount);
      if shouldRetry && request.retryCount < request.maxRetries {
        pending := pending + [Retried(request)];
      } else {
        failed := failed[id := res];
      }
      return Success(res);
    }

    /** `get_queue_status`; the in-progress count is the counter, which equals the number of
        requests in progress. */
    function GetQueueStatus(): (r: TrackCounts)
      reads this
      ensures r.pending == |pending| && r.completed == |completed| && r.failed == |failed|
      ensures r.cancelled == |cancelled|
      ensures Tracked() ==> r.inProgress == |inProgress|
    {
      TrackCounts(|pending|, current, |completed|, |failed|, |cancelled|)
    }

    /** The scan of `pending` for `id` that status lookup and cancellation share. */
    method FindPending(id: Id) returns (i: nat)
      ensures i == FirstWith(pending, id)
    {
      i := 0;
      while i < |pending| && pending[i].id != id
        invariant i <= |pending|
        invariant FirstWith(pending[i..], id) + i == FirstWith(pending, id)
      {
        assert pending[i..] == [pending[i]] + pending[i + 1..];
        i := i + 1;
      }
    }

    /** `get_generation_status`: in progress, completed, failed and cancelled are looked up in
        that order, and only then is `pending` searched. */
    method GetGenerationStatus(id: Id) returns (r: Option<G.Status>)
      ensures id in inProgress ==> r == Some(G.InProgress)
      ensures id !in inProgress && id in completed ==> r == Some(G.Completed)
      ensures id !in inProgress && id !in completed && id in failed ==> r == Some(G.Failed)
      ensures id !in inProgress && id !in completed && id !in failed && id in cancelled ==> r == Some(G.Cancelled)
      ensures id !in inProgress && id !in completed && id !in failed && id !in cancelled ==>
        (r == Some(G.Queued) <==> !Unlisted(pending, id)) && (r.None? <==> Unlisted(pending, id))
    {
      if id in inProgress {
        return Some(G.InProgress);
      } else if id in completed {
        return Some(G.Completed);
      } else if id in failed {
        return Some(G.Failed);
      } else if id in cancelled {
        return Some(G.Cancelled);
      }
      var i := FindPending(id);
      if i < |pending| {
        return Some(G.Queued);
      }
      return None;
    }

    /** `cancel_generation`: the first pending request with `id`, or else the one in
        progress, is dropped with a cancelled result; `false` when neither exists. */
    method CancelGeneration(id: Id) returns (b: bool)
      modifies this
      ensures b <==> !Unlisted(old(pending), id) || id in old(inProgress)
      ensures !b ==> unchanged(this)
      ensures !Unlisted(old(pending), id) ==>
        var i := FirstWith(old(pending), id);
        && pending == old(pending)[..i] + old(pending)[i + 1..]
        && cancelled == old(cancelled)[id := CancelledResult(old(pending)[i])]
        && inProgress == old(inProgress) && current == old(current)
      ensures Unlisted(old(pending), id) && id in old(inProgress) ==>
        && pending == old(pending)
        && cancelled == old(cancelled)[id := CancelledResult(old(inProgress)[id])]
        && inProgress == old(inProgress) - {id} && current == old(current) - 1
      ensures completed == old(completed) && failed == old(failed)
      ensures old(Tracked()) ==> Tracked()
    {
      var i := FindPending(id);
      if i < |pending| {
        var request := pending[i];
        if Tracked() {
          DropCounted(pending, inProgress, current, i);
        }
        pending := pending[..i] + pending[i + 1..];
        cancelled := cancelled[id := CancelledResult(request)];
        return true;
      }
      if id in inProgress {
        var request := inProgress[id];
        if Tracked() {
          FinishCounted(pending, inProgress, current, id);
        }
        inProgress := inProgress - {id};
        current := current - 1;
        cancelled := cancelled[id := CancelledResult(request)];
        return true;
      }
      return false;
    }
  }
}
