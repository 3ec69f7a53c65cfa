/**
 * The server process's job table as an object whose methods update it in
 * place, each one specified by the matching step of the Lifecycle state
 * machine.
 */
module ChatServer {
  import opened Wrappers
  import opened JobRecords
  import opened Handlers
  import opened Lifecycle

  class JobServer {
    /** The `jobs` object. */
    var jobs: map<JobId, JobRecord>
    /** processChatRequest calls suspended on the upstream call. */
    var pending: map<JobId, UpstreamRequest>
    /** Deadline of every cleanup timer that has not fired yet. */
    var timers: map<JobId, int>
    /** The clock, in milliseconds. */
    var now: int

    function State(): ServerState
      reads this
    {
      ServerState(jobs, pending, timers, now)
    }

    ghost predicate Valid()
      reads this
    {
      Inv(State())
    }

    /** Process start: an empty table. */
    constructor (startTime: int)
      ensures Valid()
      ensures jobs == map[] && pending == map[] && timers == map[] && now == startTime
    {
      jobs, pending, timers, now := map[], map[], map[], startTime;
    }

    /** createJob: store `{ status: "processing" }` under a fresh id and return the id. */
    method CreateJob(freshId: JobId) returns (jobId: JobId)
      requires freshId !in jobs
      modifies this`jobs
      ensures jobId == freshId
      ensures jobs == old(jobs)[jobId := ProcessingRecord]
      ensures jobs.Keys == old(jobs).Keys + {jobId}
    {
      jobId := freshId;
      jobs := jobs[jobId := ProcessingRecord];
    }

    /** cleanupJob: start a timer that deletes the job JobCleanupTime from now. */
    method CleanupJob(jobId: JobId)
      modifies this`timers
      ensures timers == old(timers)[jobId := now + JobCleanupTime]
    {
      timers := timers[jobId := now + JobCleanupTime];
    }

    /** The upload endpoint; `freshId` is the uuid createJob draws once the request is accepted. */
    method HandleUpload(freshId: JobId, userQuery: Option<string>, file: Option<UploadedFile>,
                        authorization: Option<string>) returns (reply: UploadReply)
      requires Valid()
      requires ValidateUpload(userQuery, file).None? ==> freshId !in jobs
      modifies this
      ensures Valid()
      ensures (State(), reply) == Upload(old(State()), freshId, userQuery, file, authorization)
    {
      ghost var before := State();
      if !Truthy(userQuery) {
        return BadRequest(UserQueryRequired);
      }
      if file.None? {
        return BadRequest(FileRequired);
      }
      var jobId := CreateJob(freshId);
      // processChatRequest runs up to its await; the reply does not wait for it.
      pending := pending[jobId := UpstreamRequest(file.value, userQuery.value, authorization)];
      reply := Accepted(jobId);
      StepPreservesInv(before, UploadRequest(freshId, userQuery, file, authorization));
    }

    /** processChatRequest after its awaited upstream call settles with `outcome`. */
    method CompleteChatRequest(jobId: JobId, outcome: Outcome)
      requires Valid() && jobId in pending
      modifies this
      ensures Valid()
      ensures State() == Settle(old(State()), jobId, outcome)
    {
      ghost var before := State();
      match outcome {
        case Success(body) =>
          jobs := jobs[jobId := JobRecord(Completed, Some(body), None)];
        case Failure(upstream, transport) =>
          jobs := jobs[jobId := JobRecord(Failed, None, Some(FailureMessage(upstream, transport)))];
      }
      CleanupJob(jobId);
      pending := pending - {jobId};
      StepPreservesInv(before, UpstreamSettled(jobId, outcome));
    }

    /** Time passes up to `t`; every cleanup timer due by then runs `delete jobs[jobId]`. */
    method Tick(t: int)
      requires Valid() && now <= t
      modifies this
      ensures Valid()
      ensures State() == AdvanceClock(old(State()), t)
    {
      ghost var before := State();
      var due := set id | id in timers && timers[id] <= t;
      jobs := jobs - due;
      timers := timers - due;
      now := t;
      StepPreservesInv(before, ClockAdvanced(t));
    }

    /** The status endpoint; it reads the table and changes nothing. */
    method HandleStatus(jobId: JobId) returns (reply: StatusReply)
      ensures reply == StatusOf(jobs, jobId)
    {
      reply := StatusOf(jobs, jobId);
    }
  }

  /** Upload a report, poll it while processing, let the upstream answer, poll, then let ten minutes pass. */
  method ReportScenario(file: UploadedFile, startTime: int)
  {
    var server := new JobServer(startTime);
    var id := "9b1deb4d-3b7d-4bad-9bdd-2b0d7b3dcb6d";
    var upload := server.HandleUpload(id, Some("summarize"), Some(file), Some("Bearer token"));
    assert upload == Accepted(id) && upload.Code() == 200;
    var poll := server.HandleStatus(id);
    assert poll == Found(ProcessingRecord);
    server.CompleteChatRequest(id, Success("{\"answer\":\"ok\"}"));
    poll := server.HandleStatus(id);
    assert poll == Found(JobRecord(Completed, Some("{\"answer\":\"ok\"}"), None));
    server.Tick(startTime + JobCleanupTime - 1);
    poll := server.HandleStatus(id);
    assert poll.Found?;
    server.Tick(startTime + JobCleanupTime);
    poll := server.HandleStatus(id);
    assert poll == NotFound(JobNotFound) && poll.Code() == 404;
    var missing := server.HandleUpload("00000000-0000-4000-8000-000000000000", Some(""), Some(file), None);
    assert missing == BadRequest(UserQueryRequired);
  }
}
