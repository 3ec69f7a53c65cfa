/**
 * The asynchronous job workflow as a state machine over values: the job
 * table, the processChatRequest calls still awaiting the upstream service,
 * the cleanup timers, and the clock. Each HTTP request, upstream settlement
 * and passage of time is one step; the lemmas speak about whole runs.
 */
module Lifecycle {
  import opened Wrappers
  import opened JobRecords
  import opened Handlers

  /** The arguments a suspended processChatRequest call forwards upstream. */
  datatype UpstreamRequest = UpstreamRequest(file: UploadedFile, userQuery: string, authorization: Option<string>)

  /**
   * jobs: the `jobs` object; pending: processChatRequest calls awaiting the
   * upstream reply; timers: the deadline of each scheduled cleanup; now: the
   * clock in milliseconds.
   */
  datatype ServerState = ServerState(
    jobs: map<JobId, JobRecord>,
    pending: map<JobId, UpstreamRequest>,
    timers: map<JobId, int>,
    now: int)

  /**
   * What the workflow keeps true: every record has the shape its status
   * demands; a job is processing exactly while its upstream call is pending;
   * it is terminal exactly while its cleanup is scheduled, and that cleanup
   * lies in the future but no more than the retention window away.
   */
  ghost predicate Inv(s: ServerState) {
    && (forall id :: id in s.jobs ==> WellFormed(s.jobs[id]))
    && (forall id :: id in s.pending ==> id in s.jobs && s.jobs[id].status == Processing)
    && (forall id :: id in s.jobs && s.jobs[id].status == Processing ==> id in s.pending)
    && (forall id :: id in s.timers ==> id in s.jobs && IsTerminal(s.jobs[id]))
    && (forall id :: id in s.jobs && IsTerminal(s.jobs[id]) ==> id in s.timers)
    && (forall id :: id in s.timers ==> s.now < s.timers[id] <= s.now + JobCleanupTime)
  }

  /**
   * The upload endpoint: validate, then createJob under the fresh id, start
   * processChatRequest without awaiting it, and reply with the id.
   */
  function Upload(s: ServerState, freshId: JobId, userQuery: Option<string>, file: Option<UploadedFile>,
                  authorization: Option<string>): (r: (ServerState, UploadReply))
    requires ValidateUpload(userQuery, file).None? ==> freshId !in s.jobs
    ensures ValidateUpload(userQuery, file).Some? ==>
      r.0 == s && r.1 == BadRequest(ValidateUpload(userQuery, file).value)
    ensures ValidateUpload(userQuery, file).None? ==>
      && r.1 == Accepted(freshId)
      && r.0.jobs.Keys == s.jobs.Keys + {freshId}
      && StatusOf(r.0.jobs, freshId) == Found(ProcessingRecord)
      && (forall id :: id in s.jobs ==> r.0.jobs[id] == s.jobs[id])
      && r.0.pending == s.pending[freshId := UpstreamRequest(file.value, userQuery.value, authorization)]
      && r.0.timers == s.timers && r.0.now == s.now
  {
    match ValidateUpload(userQuery, file)
    case Some(message) => (s, BadRequest(message))
    case None =>
      var request := UpstreamRequest(file.value, userQuery.value, authorization);
      (s.(jobs := s.jobs[freshId := ProcessingRecord], pending := s.pending[freshId := request]), Accepted(freshId))
  }

  /**
   * The rest of processChatRequest once its upstream call settles: one
   * terminal write, then cleanupJob schedules the deletion.
   */
  function Settle(s: ServerState, id: JobId, outcome: Outcome): (s': ServerState)
    requires id in s.pending
    ensures s'.jobs.Keys == s.jobs.Keys + {id}
    ensures StatusOf(s'.jobs, id) == Found(TerminalRecord(outcome))
    ensures forall other :: other in s.jobs && other != id ==> s'.jobs[other] == s.jobs[other]
    ensures s'.pending.Keys == s.pending.Keys - {id}
    ensures forall other :: other in s'.pending ==> s'.pending[other] == s.pending[other]
    ensures s'.timers.Keys == s.timers.Keys + {id}
    ensures s'.timers[id] == s.now + JobCleanupTime
    ensures forall other :: other in s.timers && other != id ==> s'.timers[other] == s.timers[other]
    ensures s'.now == s.now
  {
    ServerState(s.jobs[id := TerminalRecord(outcome)], s.pending - {id},
                s.timers[id := s.now + JobCleanupTime], s.now)
  }

  /** The clock reaches `t`: every cleanup timer whose deadline has come deletes its job. */
  function AdvanceClock(s: ServerState, t: int): (s': ServerState)
    requires s.now <= t
    ensures s'.now == t && s'.pending == s.pending
    ensures forall id :: id in s'.jobs <==> id in s.jobs && !(id in s.timers && s.timers[id] <= t)
    ensures forall id :: id in s'.jobs ==> s'.jobs[id] == s.jobs[id]
    ensures forall id :: id in s'.timers <==> id in s.timers && t < s.timers[id]
    ensures forall id :: id in s'.timers ==> s'.timers[id] == s.timers[id]
  {
    var due := set id | id in s.timers && s.timers[id] <= t;
    ServerState(s.jobs - due, s.pending, s.timers - due, t)
  }

  /** Everything that can happen to the job table. */
  datatype Event =
    | UploadRequest(id: JobId, userQuery: Option<string>, file: Option<UploadedFile>, authorization: Option<string>)
    | UpstreamSettled(id: JobId, outcome: Outcome)
    | ClockAdvanced(time: int)

  /**
   * An event can occur: an accepted upload draws a fresh uuid, a call settles
   * only while pending, time moves forward.
   */
  predicate Enabled(s: ServerState, e: Event) {
    match e
    case UploadRequest(id, userQuery, file, _) => ValidateUpload(userQuery, file).None? ==> id !in s.jobs
    case UpstreamSettled(id, _) => id in s.pending
    case ClockAdvanced(t) => s.now <= t
  }

  function Step(s: ServerState, e: Event): ServerState
    requires Enabled(s, e)
  {
    match e
    case UploadRequest(id, userQuery, file, authorization) => Upload(s, id, userQuery, file, authorization).0
    case UpstreamSettled(id, outcome) => Settle(s, id, outcome)
    case ClockAdvanced(t) => AdvanceClock(s, t)
  }

  /** Every event of `evs` can occur in turn, starting from `s`. */
  predicate Feasible(s: ServerState, evs: seq<Event>)
    decreases |evs|
  {
    |evs| == 0 || (Enabled(s, evs[0]) && Feasible(Step(s, evs[0]), evs[1..]))
  }

  function Run(s: ServerState, evs: seq<Event>): ServerState
    requires Feasible(s, evs)
    decreases |evs|
  {
    if |evs| == 0 then s else Run(Step(s, evs[0]), evs[1..])
  }

  /** `e` is an accepted upload that creates job `id`. */
  predicate Creates(e: Event, id: JobId) {
    e.UploadRequest? && e.id == id && ValidateUpload(e.userQuery, e.file).None?
  }

  predicate Settles(e: Event, id: JobId) {
    e.UpstreamSettled? && e.id == id
  }

  lemma StartupSatisfiesInv(t: int)
    ensures Inv(ServerState(map[], map[], map[], t))
  {
  }

  lemma StepPreservesInv(s: ServerState, e: Event)
    requires Inv(s) && Enabled(s, e)
    ensures Inv(Step(s, e))
  {
  }

  lemma {:induction false} RunPreservesInv(s: ServerState, evs: seq<Event>)
    requires Inv(s) && Feasible(s, evs)
    ensures Inv(Run(s, evs))
    decreases |evs|
  {
    if |evs| > 0 {
      StepPreservesInv(s, evs[0]);
      RunPreservesInv(Step(s, evs[0]), evs[1..]);
    }
  }

  /** Job `id` shows `rec` until the clock reaches `deadline`, and is gone from then on. */
  ghost predicate RetainedUntil(s: ServerState, id: JobId, rec: JobRecord, deadline: int) {
    && (id in s.jobs <==> s.now < deadline)
    && (id in s.jobs ==> s.jobs[id] == rec && id in s.timers && s.timers[id] == deadline)
  }

  lemma StepKeepsRetained(s: ServerState, e: Event, id: JobId, rec: JobRecord, deadline: int)
    requires Inv(s) && Enabled(s, e) && !Creates(e, id)
    requires RetainedUntil(s, id, rec, deadline)
    ensures RetainedUntil(Step(s, e), id, rec, deadline)
  {
  }

  lemma {:induction false} RunKeepsRetained(s: ServerState, evs: seq<Event>, id: JobId, rec: JobRecord, deadline: int)
    requires Inv(s) && Feasible(s, evs) && RetainedUntil(s, id, rec, deadline)
    requires forall e :: e in evs ==> !Creates(e, id)
    ensures RetainedUntil(Run(s, evs), id, rec, deadline)
    decreases |evs|
  {
    if |evs| > 0 {
      assert evs[0] in evs;
      StepKeepsRetained(s, evs[0], id, rec, deadline);
      StepPreservesInv(s, evs[0]);
      RunKeepsRetained(Step(s, evs[0]), evs[1..], id, rec, deadline);
    }
  }

  /**
   * A job whose cleanup is scheduled keeps its terminal record unchanged, and
   * is answered, until the clock reaches the deadline; from then on the status
   * endpoint answers 404 (uuids are never reissued).
   */
  lemma TerminalJobRetainedUntilDeadline(s: ServerState, evs: seq<Event>, id: JobId)
    requires Inv(s) && Feasible(s, evs) && id in s.timers
    requires forall e :: e in evs ==> !Creates(e, id)
    ensures id in s.jobs && IsTerminal(s.jobs[id])
    ensures Run(s, evs).now < s.timers[id] ==> StatusOf(Run(s, evs).jobs, id) == Found(s.jobs[id])
    ensures Run(s, evs).now >= s.timers[id] ==> StatusOf(Run(s, evs).jobs, id) == NotFound(JobNotFound)
  {
    RunKeepsRetained(s, evs, id, s.jobs[id], s.timers[id]);
  }

  /**
   * Once the upstream call of `id` settles with `outcome`, the status endpoint
   * returns that terminal record until JobCleanupTime has passed since the
   * write, and 404 from then on.
   */
  lemma SettledJobExpiresAfterCleanupTime(s: ServerState, id: JobId, outcome: Outcome, evs: seq<Event>)
    requires Inv(s) && id in s.pending
    requires Feasible(Settle(s, id, outcome), evs)
    requires forall e :: e in evs ==> !Creates(e, id)
    ensures var s' := Run(Settle(s, id, outcome), evs);
      && (s'.now < s.now + JobCleanupTime ==> StatusOf(s'.jobs, id) == Found(TerminalRecord(outcome)))
      && (s'.now >= s.now + JobCleanupTime ==> StatusOf(s'.jobs, id) == NotFound(JobNotFound))
  {
    StepPreservesInv(s, UpstreamSettled(id, outcome));
    TerminalJobRetainedUntilDeadline(Settle(s, id, outcome), evs, id);
  }

  lemma StepKeepsPending(s: ServerState, e: Event, id: JobId)
    requires Inv(s) && Enabled(s, e) && !Settles(e, id) && id in s.pending
    ensures id in Step(s, e).pending && Step(s, e).pending[id] == s.pending[id]
  {
  }

  lemma {:induction false} RunKeepsPending(s: ServerState, evs: seq<Event>, id: JobId)
    requires Inv(s) && Feasible(s, evs) && id in s.pending
    requires forall e :: e in evs ==> !Settles(e, id)
    ensures id in Run(s, evs).pending && Run(s, evs).pending[id] == s.pending[id]
    decreases |evs|
  {
    if |evs| > 0 {
      assert evs[0] in evs;
      StepKeepsPending(s, evs[0], id);
      StepPreservesInv(s, evs[0]);
      RunKeepsPending(Step(s, evs[0]), evs[1..], id);
    }
  }

  /**
   * A job whose upstream call has not settled stays `processing` however much
   * time passes: cleanup is only ever scheduled after the terminal write.
   */
  lemma UnsettledJobNeverExpires(s: ServerState, evs: seq<Event>, id: JobId)
    requires Inv(s) && Feasible(s, evs) && id in s.pending
    requires forall e :: e in evs ==> !Settles(e, id)
    ensures StatusOf(Run(s, evs).jobs, id) == Found(ProcessingRecord)
  {
    RunKeepsPending(s, evs, id);
    RunPreservesInv(s, evs);
    ProcessingRecordIsTheOnlyProcessingShape(Run(s, evs).jobs[id]);
  }

  lemma StepKeepsAbsent(s: ServerState, e: Event, id: JobId)
    requires Inv(s) && Enabled(s, e) && !Creates(e, id) && id !in s.jobs
    ensures id !in Step(s, e).jobs
  {
  }

  /**
   * An id no accepted upload created (never issued, or issued only for a
   * rejected request) is answered 404 whatever else happens.
   */
  lemma {:induction false} UncreatedJobNotFound(s: ServerState, evs: seq<Event>, id: JobId)
    requires Inv(s) && Feasible(s, evs) && id !in s.jobs
    requires forall e :: e in evs ==> !Creates(e, id)
    ensures StatusOf(Run(s, evs).jobs, id) == NotFound(JobNotFound)
    decreases |evs|
  {
    if |evs| > 0 {
      assert evs[0] in evs;
      StepKeepsAbsent(s, evs[0], id);
      StepPreservesInv(s, evs[0]);
      UncreatedJobNotFound(Step(s, evs[0]), evs[1..], id);
    }
  }
}
