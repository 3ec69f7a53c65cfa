/**
 * The records kept in the in-memory job table (`jobs` in index.js), the
 * retention constant, and the one terminal record a settled upstream call
 * produces.
 */
module JobRecords {
  import opened Wrappers

  /** A job identifier (a uuid v4 string in the server). */
  type JobId = string

  /** The upstream response body, stored verbatim and never inspected. */
  type Payload = string

  /** JOB_CLEANUP_TIME: how long a terminal record stays queryable, in milliseconds. */
  const JobCleanupTime: int := 10 * 60 * 1000

  datatype Status = Processing | Completed | Failed {
    /** The value of the record's `status` property. */
    function Name(): string {
      match this
      case Processing => "processing"
      case Completed => "completed"
      case Failed => "failed"
    }
  }

  /** A stored job object `{ status, data?, error? }`; `None` is an absent property. */
  datatype JobRecord = JobRecord(status: Status, data: Option<Payload>, error: Option<string>)

  /** Shape of a record: `data` only when completed, `error` only when failed, neither while processing. */
  predicate WellFormed(r: JobRecord) {
    match r.status
    case Processing => r.data.None? && r.error.None?
    case Completed => r.data.Some? && r.error.None?
    case Failed => r.data.None? && r.error.Some?
  }

  predicate IsTerminal(r: JobRecord) {
    r.status != Processing
  }

  /** The record createJob stores: `{ status: "processing" }`. */
  const ProcessingRecord: JobRecord := JobRecord(Processing, None, None)

  /** How the awaited upstream call ended, as processChatRequest sees it. */
  datatype Outcome =
    | Success(body: Payload)
      /** `error.response?.data?.message` and `error.message` of the rejection. */
    | Failure(upstreamMessage: Option<string>, transportMessage: string)

  /** JavaScript truthiness of a possibly missing string: present and not empty. */
  predicate Truthy(s: Option<string>) {
    s.Some? && s.value != ""
  }

  /** The `error` text of a failed job: the upstream message, unless it is missing or empty. */
  function FailureMessage(upstreamMessage: Option<string>, transportMessage: string): (m: string)
    ensures Truthy(upstreamMessage) ==> m == upstreamMessage.value
    ensures !Truthy(upstreamMessage) ==> m == transportMessage
    ensures m == transportMessage || Some(m) == upstreamMessage
  {
    if Truthy(upstreamMessage) then upstreamMessage.value else transportMessage
  }

  /** The single record processChatRequest writes once the upstream call settles. */
  function TerminalRecord(outcome: Outcome): (r: JobRecord)
    ensures WellFormed(r) && IsTerminal(r)
    ensures r.status == Completed <==> outcome.Success?
    ensures r.status.Name() == if outcome.Success? then "completed" else "failed"
    ensures outcome.Success? ==> r.data == Some(outcome.body)
    ensures outcome.Failure? ==>
      r.error == Some(FailureMessage(outcome.upstreamMessage, outcome.transportMessage))
  {
    match outcome
    case Success(body) => JobRecord(Completed, Some(body), None)
    case Failure(upstream, transport) => JobRecord(Failed, None, Some(FailureMessage(upstream, transport)))
  }

  /** A well-formed record is processing exactly when it is `{ status: "processing" }`. */
  lemma ProcessingRecordIsTheOnlyProcessingShape(r: JobRecord)
    requires WellFormed(r)
    ensures r.status == Processing <==> r == ProcessingRecord
    ensures r.status == Processing <==> r.status.Name() == "processing"
  {
  }
}
