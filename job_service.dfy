/**
 * `JobService`: the job id every new hold request carries, kept in the class's
 * static `$jobId` between calls, and the status update sent to the Jobs API.
 * The job manager, the UUID generator and the job URL are inputs.
 */
module Jobs {
  import opened Wrappers
  import opened Php
  import opened ServiceController

  const JOB_ID_FAILURE_MESSAGE := "Jobs Service failed to generate an ID."

  /** The HTTP code of an `APIException` whose constructor is given none. */
  const DEFAULT_API_HTTP_CODE: PhpInt := 500

  /** A version-4 UUID in its 36-character text form, as `Uuid::uuid4()->toString()` renders it. */
  type UuidString = s: string | |s| == 36 witness "00000000-0000-4000-8000-000000000000"

  /** What `JobManager::createJob` does on one call: return an id, or throw. */
  datatype JobManagerReply = Created(id: string) | Threw

  /** One call of `generateJobId`: the static field afterwards, and what the call returns or throws. */
  datatype JobIdStep = JobIdStep(stored: Option<string>, result: Result<string, Exception>)

  /** The static field after the job-manager step of `generateJobId` (when that step does not throw). */
  function AfterManager(stored: Option<string>, useJobManager: bool, reply: JobManagerReply): Option<string>
    requires !(useJobManager && reply.Threw?)
  {
    if useJobManager then Some(reply.id) else stored
  }

  /**
   * `generateJobId` on the static field `stored`. With the manager on, its id
   * replaces the field, and its failure becomes an `APIException`; if the field
   * is then still falsy, a UUID is stored; the field is what is returned.
   */
  function NextJobId(stored: Option<string>, useJobManager: bool, reply: JobManagerReply,
                     uuid: UuidString): (step: JobIdStep)
    ensures step.result.Failure? <==> useJobManager && reply.Threw?
    ensures step.result.Failure? ==>
              step.result.error == ApiException(JOB_ID_FAILURE_MESSAGE, DEFAULT_API_HTTP_CODE)
              && step.stored == stored
    ensures step.result.Success? ==>
              TruthyString(Some(step.result.value)) && step.stored == Some(step.result.value)
    ensures step.result.Success? && TruthyString(AfterManager(stored, useJobManager, reply)) ==>
              step.stored == AfterManager(stored, useJobManager, reply)
    ensures step.result.Success? && !TruthyString(AfterManager(stored, useJobManager, reply)) ==>
              step == JobIdStep(Some(uuid), Success(uuid))
    ensures useJobManager && reply.Created? && TruthyString(Some(reply.id)) ==>
              step.result == Success(reply.id)
    ensures useJobManager && reply.Created? && !TruthyString(Some(reply.id)) ==>
              step.result == Success(uuid)
    ensures !useJobManager && TruthyString(stored) ==> step == JobIdStep(stored, Success(stored.value))
    ensures !useJobManager && !TruthyString(stored) ==> step == JobIdStep(Some(uuid), Success(uuid))
  {
    if useJobManager && reply.Threw? then
      JobIdStep(stored, Failure(ApiException(JOB_ID_FAILURE_MESSAGE, DEFAULT_API_HTTP_CODE)))
    else
      var field := AfterManager(stored, useJobManager, reply);
      if TruthyString(field) then JobIdStep(field, Success(field.value))
      else JobIdStep(Some(uuid), Success(uuid))
  }

  /**
   * The static field outlives the call: with the manager off, a second call
   * returns the id the first one produced and generates no new UUID.
   */
  lemma IdReusedWithoutManager(stored: Option<string>, useJobManager: bool, reply: JobManagerReply,
                               uuid: UuidString, laterReply: JobManagerReply, laterUuid: UuidString)
    requires NextJobId(stored, useJobManager, reply, uuid).result.Success?
    ensures var first := NextJobId(stored, useJobManager, reply, uuid);
            NextJobId(first.stored, false, laterReply, laterUuid) == first
  {
    var first := NextJobId(stored, useJobManager, reply, uuid);
    assert TruthyString(first.stored);
  }

  class JobService {
    /** `JobService::$jobId`. */
    var jobId: Option<string>

    /** The field before any call: `null`. */
    constructor()
      ensures jobId == None
    {
      jobId := None;
    }

    function GetJobId(): Option<string>
      reads this
    {
      jobId
    }

    method SetJobId(jobId: string)
      modifies this
      ensures GetJobId() == Some(jobId)
    {
      this.jobId := Some(jobId);
    }

    /** `generateRandomId`: stores a fresh UUID. */
    method GenerateRandomId(uuid: UuidString)
      modifies this
      ensures GetJobId() == Some(uuid)
    {
      SetJobId(uuid);
    }

    /** `generateJobId`: `reply` is what the job manager does if asked, `uuid` what the generator gives if asked. */
    method GenerateJobId(useJobManager: bool, reply: JobManagerReply, uuid: UuidString)
      returns (result: Result<string, Exception>)
      modifies this
      ensures JobIdStep(jobId, result) == NextJobId(old(jobId), useJobManager, reply, uuid)
    {
      if useJobManager {
        match reply {
          case Threw =>
            return Failure(ApiException(JOB_ID_FAILURE_MESSAGE, DEFAULT_API_HTTP_CODE));
          case Created(id) =>
            SetJobId(id);
        }
      }
      if !TruthyString(GetJobId()) {
        GenerateRandomId(uuid);
      }
      return Success(GetJobId().value);
    }
  }

  /** The options a Guzzle client is built with (`base_uri`, `timeout`). */
  datatype ClientOptions = ClientOptions(baseUri: string, timeout: int)

  /** The request a Guzzle client builds for `put($url)`. */
  datatype JobRequest = PutRequest(url: string)

  /**
   * The outcome of a PHP call: a value, or the `ArgumentCountError` PHP 7.1 and
   * later raise when a user function gets fewer arguments than it declares.
   * That is an `\Error`, which no `catch (\Exception ...)` intercepts.
   */
  datatype Call<+T> = Returned(value: T) | ArgumentCountError

  /** `jobClient(array $params)`: one declared parameter, with no default. */
  function JobClient(args: seq<ClientOptions>): (call: Call<ClientOptions>)
    ensures call.Returned? <==> |args| >= 1
    ensures call.Returned? ==> call.value == args[0]
  {
    if |args| < 1 then ArgumentCountError else Returned(args[0])
  }

  const SUCCESS_PATH := "/success"
  const FAILURE_PATH := "/failure"

  /**
   * `updateJobStatus` as written: `setJobAsFailure` and `setJobAsSuccess` call
   * `jobClient()` with no argument before building the PUT request.
   */
  function UpdateJobStatusAsWritten(status: bool, jobUrl: string): (call: Call<JobRequest>)
    ensures call.ArgumentCountError? <==> JobClient([]).ArgumentCountError?
    ensures call.Returned? ==> call.value.url == jobUrl + if status then SUCCESS_PATH else FAILURE_PATH
  {
    match JobClient([])
    case ArgumentCountError => ArgumentCountError
    case Returned(_) => Returned(PutRequest(jobUrl + if status then SUCCESS_PATH else FAILURE_PATH))
  }

  /** As written, no status update ever reaches the Jobs API, whatever the status. */
  lemma UpdateJobStatusAsWrittenAlwaysFails(status: bool, jobUrl: string)
    ensures UpdateJobStatusAsWritten(status, jobUrl) == ArgumentCountError
  {
    var noArguments: seq<ClientOptions> := [];
    assert JobClient(noArguments).ArgumentCountError?;
  }

  /**
   * `updateJobStatus` as evidently intended: the client is built with the job's
   * URL, as `getJob` does, and the PUT goes to that URL plus `/success` for a
   * true status and `/failure` for a false one.
   */
  function UpdateJobStatus(status: bool, jobUrl: string): (call: Call<JobRequest>)
    ensures call.Returned?
  {
    match JobClient([ClientOptions(jobUrl, 10)])
    case ArgumentCountError => ArgumentCountError
    case Returned(options) =>
      Returned(PutRequest(options.baseUri + if status then SUCCESS_PATH else FAILURE_PATH))
  }

  /** The status a PUT to the Jobs API reports, read back from its URL. */
  function ReportedStatus(request: JobRequest, jobUrl: string): Option<bool>
  {
    if request.url == jobUrl + SUCCESS_PATH then Some(true)
    else if request.url == jobUrl + FAILURE_PATH then Some(false)
    else None
  }

  /** The corrected update reports exactly the status it was given, under the job's URL. */
  lemma UpdateJobStatusReportsStatus(status: bool, jobUrl: string)
    ensures UpdateJobStatus(status, jobUrl).Returned?
    ensures jobUrl <= UpdateJobStatus(status, jobUrl).value.url
    ensures ReportedStatus(UpdateJobStatus(status, jobUrl).value, jobUrl) == Some(status)
  {
    var url := UpdateJobStatus(status, jobUrl).value.url;
    var last := |jobUrl| + 7;
    assert (jobUrl + SUCCESS_PATH)[last] == 's';
    assert (jobUrl + FAILURE_PATH)[last] == 'e';
    assert jobUrl + SUCCESS_PATH != jobUrl + FAILURE_PATH;
  }
}
