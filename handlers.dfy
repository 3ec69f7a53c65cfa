/**
 * The two read-only HTTP decisions of the chat-upload workflow: validating an
 * upload request before any job exists, and answering a status poll from the
 * job table.
 */
module Handlers {
  import opened Wrappers
  import opened JobRecords

  /** The file multer leaves in `req.file`. */
  datatype UploadedFile = UploadedFile(originalName: string, mimeType: string, buffer: seq<bv8>)

  const UserQueryRequired: string := "userQuery is required"
  const FileRequired: string := "File is required"
  const JobNotFound: string := "Job not found"

  /** Reply of the upload endpoint: `200 { jobId }` or `400 { error }`. */
  datatype UploadReply = Accepted(jobId: JobId) | BadRequest(error: string) {
    function Code(): int {
      if Accepted? then 200 else 400
    }
  }

  /** Reply of the status endpoint: `200` with the stored record, or `404 { error }`. */
  datatype StatusReply = Found(record: JobRecord) | NotFound(error: string) {
    function Code(): int {
      if Found? then 200 else 404
    }
  }

  /**
   * The intake checks, in the handler's order: first the query, then the file.
   * `None` lets the request through; `Some(m)` is a 400 whose error is `m`.
   */
  function ValidateUpload(userQuery: Option<string>, file: Option<UploadedFile>): (rejection: Option<string>)
    ensures rejection == Some(UserQueryRequired) <==> !Truthy(userQuery)
    ensures rejection == Some(FileRequired) <==> Truthy(userQuery) && file.None?
    ensures rejection.None? <==> Truthy(userQuery) && file.Some?
  {
    if !Truthy(userQuery) then Some(UserQueryRequired)
    else if file.None? then Some(FileRequired)
    else None
  }

  /** The status endpoint: 404 exactly for an id the table does not hold, else the record unchanged. */
  function StatusOf(jobs: map<JobId, JobRecord>, id: JobId): (reply: StatusReply)
    ensures reply.Code() == 404 <==> id !in jobs
    ensures reply.NotFound? ==> reply.error == JobNotFound
    ensures id in jobs ==> reply.Found? && reply.record == jobs[id]
  {
    if id in jobs then Found(jobs[id]) else NotFound(JobNotFound)
  }

  // The status handler as written indexes a plain object literal, so a key
  // the table does not own still finds the members every object inherits.

  /** The property names a `{}` object inherits from `Object.prototype`. */
  const ObjectPrototypeKeys: set<string> := {
    "constructor", "__proto__", "hasOwnProperty", "isPrototypeOf",
    "propertyIsEnumerable", "toLocaleString", "toString", "valueOf",
    "__defineGetter__", "__defineSetter__", "__lookupGetter__", "__lookupSetter__"
  }

  /** What `jobs[key]` can evaluate to: an own job record or an inherited member. */
  datatype JsValue = Own(record: JobRecord) | Inherited(key: string)

  /** `jobs[key]` on an object whose own properties are `jobs`; `None` is `undefined`. */
  function PropertyLookup(jobs: map<JobId, JobRecord>, key: string): (v: Option<JsValue>)
    ensures key in jobs ==> v == Some(Own(jobs[key]))
    ensures key !in jobs ==> (v.Some? <==> key in ObjectPrototypeKeys)
    ensures v.Some? && v.value.Inherited? ==> v.value.key == key
  {
    if key in jobs then Some(Own(jobs[key]))
    else if key in ObjectPrototypeKeys then Some(Inherited(key))
    else None
  }

  /** Reply of the status handler as written: any truthy lookup result is sent back with 200. */
  datatype RawStatusReply = RawFound(value: JsValue) | RawNotFound(error: string)

  function StatusAsWritten(jobs: map<JobId, JobRecord>, id: JobId): (reply: RawStatusReply)
    ensures reply.RawNotFound? <==> id !in jobs && id !in ObjectPrototypeKeys
    ensures reply.RawNotFound? ==> reply.error == JobNotFound
  {
    match PropertyLookup(jobs, id)
    case None => RawNotFound(JobNotFound)
    case Some(v) => RawFound(v)
  }

  /** A poll for `constructor` answers 200 although no such job was ever created. */
  lemma StatusAsWrittenFindsUncreatedJob()
    ensures StatusAsWritten(map[], "constructor") == RawFound(Inherited("constructor"))
    ensures StatusOf(map[], "constructor") == NotFound(JobNotFound)
  {
  }

  /** Away from the inherited names, the handler as written and the corrected lookup agree. */
  lemma StatusAsWrittenAgreesOnOwnKeys(jobs: map<JobId, JobRecord>, id: JobId)
    requires id !in ObjectPrototypeKeys
    ensures StatusAsWritten(jobs, id).RawNotFound? <==> StatusOf(jobs, id).NotFound?
    ensures StatusOf(jobs, id).Found? ==> StatusAsWritten(jobs, id) == RawFound(Own(StatusOf(jobs, id).record))
  {
  }
}
