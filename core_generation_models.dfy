/**
 * The generation records of the `core` package: the status of a request, the
 * request itself and the result recorded for it. Request ids (uuids) are
 * numbers handed out in increasing order, and a `datetime` is a reading of a
 * clock that never runs backwards.
 */
module CoreGeneration {
  import opened Wrappers

  type Id = nat

  /** A clock reading. */
  type Instant = nat

  /** `GenerationStatus`. */
  datatype Status = Queued | InProgress | Completed | Failed | Cancelled

  /** `GenerationRequest`; the input context and generation settings are not modelled. */
  datatype Request = Request(
    fieldName: string,
    basePromptName: string,
    basePromptVersion: string,
    priority: int,
    createdAt: Instant,
    retryCount: nat,
    maxRetries: int,
    id: Id)

  /** `GenerationResult`; the end time, duration and metrics are not modelled. */
  datatype Result = Result(
    requestId: Id,
    fieldName: string,
    content: string,
    status: Status,
    startTime: Instant,
    errorMessage: Option<string>,
    retryCount: nat)
}
