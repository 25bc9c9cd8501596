/**
 * `BatchOperation`: a set of request ids whose progress counts and status are
 * recomputed from a map of request statuses.
 */
module CoreBatch {
  import opened Wrappers
  import G = CoreGeneration

  type Id = G.Id

  /** `BatchStatus`. */
  datatype BatchStatus = Pending | InProgress | Completed | Failed | PartiallyCompleted | Cancelled

  /** `BatchProgress`. */
  datatype BatchProgress = BatchProgress(total: nat, completed: nat, failed: nat, inProgress: nat, pending: nat)

  /** `progress_percentage`: the share of requests that finished, completed or failed. */
  function ProgressPercentage(p: BatchProgress): real
  {
    if p.total == 0 then 0.0 else (p.completed + p.failed) as real / p.total as real * 100.0
  }

  /** The percentage is 0 for an empty batch, 100 once every request finished, and lies
      between the two while no more requests finished than the batch holds. */
  lemma {:induction false} PercentageBounds(p: BatchProgress)
    ensures p.total == 0 ==> ProgressPercentage(p) == 0.0
    ensures p.total > 0 && p.completed + p.failed == p.total ==> ProgressPercentage(p) == 100.0
    ensures p.completed + p.failed <= p.total ==> 0.0 <= ProgressPercentage(p) <= 100.0
  {
    if p.total > 0 {
      var done, all := (p.completed + p.failed) as real, p.total as real;
      assert ProgressPercentage(p) == done / all * 100.0;
      if p.completed + p.failed <= p.total {
        ShareBounds(done, all);
      }
    }
  }

  /** A part of a positive whole is a share between 0 and 1, and the whole itself is 1. */
  lemma {:induction false} ShareBounds(part: real, whole: real)
    requires 0.0 <= part <= whole && 0.0 < whole
    ensures 0.0 <= part / whole <= 1.0
    ensures part == whole ==> part / whole == 1.0
  {
    assert part / whole * whole == part;
  }

  /** The requests in `statuses` that have status `s`. */
  function WithStatus(statuses: map<Id, G.Status>, s: G.Status): set<Id>
  {
    set k | k in statuses && statuses[k] == s
  }

  /** The counts `update_progress` takes: the batch size, and the statuses in the map. */
  function Count(requestIds: set<Id>, statuses: map<Id, G.Status>): (p: BatchProgress)
    ensures p.total == |requestIds|
    ensures p.completed == |WithStatus(statuses, G.Completed)| && p.failed == |WithStatus(statuses, G.Failed)|
    ensures p.inProgress == |WithStatus(statuses, G.InProgress)| && p.pending == |WithStatus(statuses, G.Queued)|
  {
    BatchProgress(|requestIds|, |WithStatus(statuses, G.Completed)|, |WithStatus(statuses, G.Failed)|,
                  |WithStatus(statuses, G.InProgress)|, |WithStatus(statuses, G.Queued)|)
  }

  /** Every request in the map is counted at most once, and cancelled ones not at all. */
  lemma {:induction false} CountsBounded(requestIds: set<Id>, statuses: map<Id, G.Status>)
    ensures var p := Count(requestIds, statuses);
      p.completed + p.failed + p.inProgress + p.pending
        == |statuses| - |WithStatus(statuses, G.Cancelled)|
  {
    var c, f := WithStatus(statuses, G.Completed), WithStatus(statuses, G.Failed);
    var a, q := WithStatus(statuses, G.InProgress), WithStatus(statuses, G.Queued);
    var x := WithStatus(statuses, G.Cancelled);
    DisjointCard(c, f);
    DisjointCard(c + f, a);
    DisjointCard(c + f + a, q);
    DisjointCard(c + f + a + q, x);
    StatusPartition(statuses);
  }

  /** Each request in the map has exactly one of the five statuses. */
  lemma {:induction false} StatusPartition(statuses: map<Id, G.Status>)
    ensures statuses.Keys == WithStatus(statuses, G.Completed) + WithStatus(statuses, G.Failed)
      + WithStatus(statuses, G.InProgress) + WithStatus(statuses, G.Queued) + WithStatus(statuses, G.Cancelled)
  {
    forall k | k in statuses
      ensures k in WithStatus(statuses, statuses[k])
    {
    }
  }

  lemma {:induction false} DisjointCard<T>(a: set<T>, b: set<T>)
    requires a !! b
    ensures |a + b| == |a| + |b|
  {
    assert a * b == {};
  }

  /** The status rule of `update_progress`: the first rule that applies, and the previous
      status when none does. */
  function Classify(p: BatchProgress, previous: BatchStatus): BatchStatus
  {
    if p.total == 0 then Pending
    else if p.failed == p.total then Failed
    else if p.completed == p.total then Completed
    else if p.completed + p.failed == p.total then PartiallyCompleted
    else if p.inProgress > 0 || p.pending > 0 then InProgress
    else previous
  }

  /** A batch whose requests all finished is failed, completed or partly completed, and
      which of the three depends on how many failed; one with requests left keeps the
      previous status only when nothing is running or waiting. */
  lemma {:induction false} ClassifyFinished(p: BatchProgress, previous: BatchStatus)
    ensures p.total > 0 && p.completed + p.failed == p.total ==>
      && (Classify(p, previous) == Failed <==> p.completed == 0)
      && (Classify(p, previous) == Completed <==> p.failed == 0)
      && (Classify(p, previous) == PartiallyCompleted <==> p.completed > 0 && p.failed > 0)
    ensures p.total > 0 && p.completed + p.failed != p.total && p.failed != p.total && p.completed != p.total ==>
      (Classify(p, previous) == previous <==> previous == InProgress || (p.inProgress == 0 && p.pending == 0))
  {
  }

  /** An empty batch is pending, and a batch never becomes cancelled by an update. */
  lemma {:induction false} ClassifyNeverCancels(p: BatchProgress, previous: BatchStatus)
    ensures p.total == 0 ==> Classify(p, previous) == Pending
    ensures Classify(p, previous) == Cancelled ==> previous == Cancelled
  {
  }

  class BatchOperation {
    var name: string
    var description: string
    var requestIds: set<Id>
    var status: BatchStatus
    var progress: BatchProgress
    var parentBatchId: Option<Id>

    constructor(name: string, description: string, requestIds: set<Id>, parentBatchId: Option<Id>)
      ensures this.name == name && this.description == description && this.requestIds == requestIds
      ensures this.parentBatchId == parentBatchId
      ensures status == Pending && progress == BatchProgress(0, 0, 0, 0, 0)
    {
      this.name, this.description, this.requestIds := name, description, requestIds;
      this.parentBatchId := parentBatchId;
      status, progress := Pending, BatchProgress(0, 0, 0, 0, 0);
    }

    /** `update_progress`: only the progress counts and the status change. */
    method UpdateProgress(statuses: map<Id, G.Status>)
      modifies this
      ensures progress == Count(requestIds, statuses)
      ensures status == Classify(progress, old(status))
      ensures name == old(name) && description == old(description) && requestIds == old(requestIds)
      ensures parentBatchId == old(parentBatchId)
    {
      progress := Count(requestIds, statuses);
      if progress.total == 0 {
        status := Pending;
      } else if progress.failed == progress.total {
        status := Failed;
      } else if progress.completed == progress.total {
        status := Completed;
      } else if progress.completed + progress.failed == progress.total {
        status := PartiallyCompleted;
      } else if progress.inProgress > 0 || progress.pending > 0 {
        status := InProgress;
      }
    }
  }
}
