/**
 * `HoldRequestController`: the four handlers of the hold-request API and the
 * mapping of exceptions to error responses. Each handler checks the OAuth scope
 * first; create then obtains a job id, builds and validates the record, stores
 * it and starts a job; update validates the patch, reads the record, applies
 * the patch, stores it and finishes the job. The two read handlers hand a read
 * plan to the framework.
 */
module HoldRequestControllers {
  import opened Wrappers
  import opened Php
  import opened ServiceController
  import opened HoldRequests
  import opened DateQueryFilters
  import opened Jobs
  import opened Stores

  const CREATE_ERROR_TYPE := "create-hold-request-error"
  const CREATE_ERROR_MESSAGE := "Unable to create hold request due to a problem with dependent services."
  const UPDATE_ERROR_TYPE := "update-hold-request-error"
  const UPDATE_ERROR_MESSAGE := "Unable to update hold request."
  const AVRO_ERROR_MESSAGE := "Request could not be validated according to the Avro data model."

  const CREATE_FORBIDDEN_MESSAGE := "Client not authorized to create hold requests."
  const RETRIEVE_FORBIDDEN_MESSAGE := "Client not authorized to retrieve hold requests."
  const UPDATE_FORBIDDEN_MESSAGE := "Client not authorized to update hold requests."

  const JOB_STARTED_NOTE := "Job started for hold request."

  /** The query parameters the list endpoint turns into equality filters. */
  const LIST_QUERY_FIELDS: seq<string> := ["patron", "record", "processed"]

  /** The calls the handlers make to start and finish a job. */
  datatype JobEvent = BeginJob(jobId: Option<string>, note: string) | FinishJob(jobId: Option<string>)

  /** What a read handler hands to the framework's default read response. */
  datatype ReadPlan =
    | ReadList(dateFilter: Option<Filter>, queryFields: seq<string>)
    | ReadOne(filter: Filter)

  /** What a handler returns, or the exception it lets escape. */
  datatype Response =
    | Ok(record: HoldRequestData)
    | Read(plan: ReadPlan)
    | Error(error: ErrorResponse)
    | Thrown(exception: Exception)

  /**
   * `processException`: the status is the exception's own HTTP code for an
   * `APIException` and 500 for any other; the body carries the same status with
   * the handler's error type and message.
   */
  function ProcessException(errorType: string, errorMessage: string, exception: Exception): (response: ErrorResponse)
    ensures exception.ApiException? ==> response.status == exception.httpCode
    ensures !exception.ApiException? ==> response.status == 500
    ensures response.body.errorType == errorType && response.body.message == errorMessage
    ensures IntCast(response.body.statusCode) == response.status
  {
    var status: PhpInt := if exception.ApiException? then exception.httpCode else 500;
    ErrorResponse(status, ErrorBody(Int(status), errorType, errorMessage))
  }

  /**
   * The record `createHoldRequest` builds: the body with `jobId` set to the new
   * job id and `success` and `processed` forced to false, whatever the client
   * sent, run through the setters of a new `HoldRequest`. An `id` or a date
   * in the body is set like any other key; `create()` overrides the id and the
   * creation date afterwards (`StoredRow`).
   */
  function NewRecord(body: Payload, jobId: string): (record: HoldRequestData)
    ensures record.jobId == Some(jobId)
    ensures record.success == Some(false) && record.processed == Some(false)
    ensures body.id.None? ==> record.id == None
    ensures body.id.Some? ==> record.id == Some(IntCast(body.id.value))
    ensures record.createdDate == body.createdDate && record.updatedDate == body.updatedDate
    ensures record.patron == body.patron && record.record == body.record
    ensures record.pickupLocation == body.pickupLocation && record.deliveryLocation == body.deliveryLocation
    ensures record.docDeliveryData == body.docDeliveryData
    ensures body.requestType.Some? ==> record.requestType == Some(NormalizedRequestType(body.requestType.value))
  {
    Applied(EMPTY_REQUEST, body.(jobId := Some(jobId), success := Some(false), processed := Some(false)))
  }

  /** The row `create()` stores for a new record: the record under its new id, stamped with the time. */
  function StoredRow(record: HoldRequestData, id: PhpInt, now: string): HoldRequestData
  {
    record.(id := Some(id), createdDate := Some(now))
  }

  /**
   * `getHoldRequests`: a client without the read scope gets the 403 response;
   * otherwise the list is read with the `patron`, `record` and `processed`
   * equality filters, plus a `createdDate LIKE` filter when the parameter is
   * truthy.
   */
  function GetHoldRequests(scopes: seq<string>, createdDate: Option<string>): (response: Response)
    ensures response.Error? <==> !IsRequestAuthorized("GET", scopes)
    ensures response.Error? ==> response.error == InvalidScopeResponse(ApiException(RETRIEVE_FORBIDDEN_MESSAGE, 403))
    ensures !response.Error? ==> response.Read? && response.plan.ReadList?
    ensures response.Read? ==> response.plan.queryFields == LIST_QUERY_FIELDS
    ensures response.Read? ==> (response.plan.dateFilter.Some? <==> TruthyString(createdDate))
    ensures response.Read? && TruthyString(createdDate) ==>
              response.plan.dateFilter == Some(DateQueryFilter("createdDate", createdDate.value, false, "", "LIKE"))
  {
    if !IsRequestAuthorized("GET", scopes) then
      Error(InvalidScopeResponse(ApiException(RETRIEVE_FORBIDDEN_MESSAGE, 403)))
    else
      var dateFilter :=
        if TruthyString(createdDate) then Some(DateQueryFilter("createdDate", createdDate.value, false, "", "LIKE"))
        else None;
      Read(ReadList(dateFilter, LIST_QUERY_FIELDS))
  }

  /** `getHoldRequest`: 403 without the read scope, otherwise a read filtered by the id from the path. */
  function GetHoldRequest(scopes: seq<string>, id: string): (response: Response)
    ensures response.Error? <==> !IsRequestAuthorized("GET", scopes)
    ensures response.Error? ==> response.error == InvalidScopeResponse(ApiException(RETRIEVE_FORBIDDEN_MESSAGE, 403))
    ensures !response.Error? ==> response == Read(ReadOne(Filter(None, None, false, Some(id), None)))
  {
    if !IsRequestAuthorized("GET", scopes) then
      Error(InvalidScopeResponse(ApiException(RETRIEVE_FORBIDDEN_MESSAGE, 403)))
    else
      Read(ReadOne(Filter(None, None, false, Some(id), None)))
  }

  /**
   * A list request with a valid date selects exactly the rows whose creation
   * date starts with that date, whatever else the row holds.
   */
  lemma ListSelectsCreationDay(scopes: seq<string>, date: string, row: HoldRequestData)
    requires IsRequestAuthorized("GET", scopes)
    requires IsValidDate(date) && row.createdDate.Some?
    ensures GetHoldRequests(scopes, Some(date)).Read?
    ensures var filter := GetHoldRequests(scopes, Some(date)).plan.dateFilter;
            filter.Some? && (Like(row.createdDate.value, filter.value.value.value) <==> date <= row.createdDate.value)
  {
    assert TruthyString(Some(date));
    DateFilterMatchesPrefix(date, row.createdDate.value);
  }

  /** A new hold request (not `edd`) with no truthy location fails `validateData`. */
  lemma NewHoldWithoutLocationRejected(body: Payload, jobId: string)
    requires body.requestType.None? || body.requestType.value != EDD
    requires !TruthyString(body.pickupLocation) && !TruthyString(body.deliveryLocation)
    ensures Validation(NewRecord(body, jobId)) == Fail(MISSING_LOCATION_MESSAGE)
  {
    var record := NewRecord(body, jobId);
    assert record.requestType != Some(EDD) by {
      if body.requestType.Some? {
        assert NormalizedRequestType(body.requestType.value) != EDD;
      } else {
        assert record.requestType == EMPTY_REQUEST.requestType;
      }
    }
    assert !HasLocation(record);
  }

  /** A new `edd` request without EDD details fails `validateData`, locations or not. */
  lemma NewEddWithoutDetailsRejected(body: Payload, jobId: string)
    requires body.requestType == Some(EDD) && body.docDeliveryData.None?
    ensures Validation(NewRecord(body, jobId)) == Fail(MISSING_EDD_MESSAGE)
  {
    assert IsValidRequestType(EDD);
  }

  class HoldRequestController {
    /** `ServiceController::$useJobService`. */
    var useJobService: bool
    /** The static state of `JobService`. */
    const jobs: JobService
    /** The database behind the model. */
    const store: Store
    /** The `beginJob` and `finishJob` calls made so far, oldest first. */
    var jobEvents: seq<JobEvent>

    /** The constructor: `useJobService` comes from the configuration. */
    constructor(useJobService: bool, jobs: JobService, store: Store)
      ensures this.useJobService == useJobService && this.jobs == jobs && this.store == store
      ensures jobEvents == []
    {
      this.useJobService := useJobService;
      this.jobs := jobs;
      this.store := store;
      jobEvents := [];
    }

    function IsUseJobService(): bool
      reads this
    {
      useJobService
    }

    method SetUseJobService(useJobService: bool)
      modifies this`useJobService
      ensures IsUseJobService() == useJobService
    {
      this.useJobService := useJobService;
    }

    /**
     * `createHoldRequest` (POST). `reply` and `uuid` are what the job manager
     * and the UUID generator give if asked; `postCheck` is `validatePostData`,
     * giving the message of the `APIException` it throws; `createFailure` is the
     * exception `create()` throws, if any; `now` is the clock reading the new
     * row is stamped with.
     */
    method CreateHoldRequest(scopes: seq<string>, body: Payload, reply: JobManagerReply, uuid: UuidString,
                             postCheck: HoldRequestData -> Option<string>, createFailure: Option<Exception>,
                             now: string)
      returns (response: Response)
      requires store.Valid() && store.nextId <= INT_MAX
      modifies this`jobEvents, jobs, store
      ensures store.Valid()
      ensures !response.Ok? ==> store.rows == old(store.rows) && jobEvents == old(jobEvents)
      ensures response.Ok? ==> store.nextId == old(store.nextId) + 1
      ensures old(store.nextId) <= store.nextId <= old(store.nextId) + 1
      ensures !IsRequestAuthorized("POST", scopes) ==>
                response == Error(InvalidScopeResponse(ApiException(CREATE_FORBIDDEN_MESSAGE, 403)))
                && unchanged(jobs) && unchanged(store)
      ensures IsRequestAuthorized("POST", scopes) ==>
                jobs.jobId == NextJobId(old(jobs.jobId), useJobService, reply, uuid).stored
      ensures var step := NextJobId(old(jobs.jobId), useJobService, reply, uuid);
              IsRequestAuthorized("POST", scopes) && step.result.Failure? ==>
                response == Error(ProcessException(CREATE_ERROR_TYPE, CREATE_ERROR_MESSAGE, step.result.error))
                && unchanged(store)
      ensures var step := NextJobId(old(jobs.jobId), useJobService, reply, uuid);
              IsRequestAuthorized("POST", scopes) && step.result.Success? ==>
                var record := NewRecord(body, step.result.value);
                if postCheck(record).Some? then
                  response == Error(InvalidRequestResponse(ApiException(postCheck(record).value, DEFAULT_API_HTTP_CODE)))
                  && unchanged(store)
                else if createFailure.Some? then
                  (response == if createFailure.value.AvroIOTypeException? then Thrown(ApiException(AVRO_ERROR_MESSAGE, 400))
                               else Error(ProcessException(CREATE_ERROR_TYPE, CREATE_ERROR_MESSAGE, createFailure.value)))
                  && unchanged(store)
                else if old(store.nextId) in old(store.rows) then
                  response == Error(ProcessException(CREATE_ERROR_TYPE, CREATE_ERROR_MESSAGE, store.duplicate))
                  && store.nextId == old(store.nextId) + 1
                else
                  var row := StoredRow(record, old(store.nextId), now);
                  && response == Ok(row)
                  && store.rows == old(store.rows)[old(store.nextId) := row]
                  && store.nextId == old(store.nextId) + 1
                  && jobEvents == old(jobEvents) + (if useJobService then [BeginJob(row.jobId, JOB_STARTED_NOTE)] else [])
    {
      if !IsRequestAuthorized("POST", scopes) {
        return Error(InvalidScopeResponse(ApiException(CREATE_FORBIDDEN_MESSAGE, 403)));
      }
      var jobId := jobs.GenerateJobId(useJobService, reply, uuid);
      if jobId.Failure? {
        return Error(ProcessException(CREATE_ERROR_TYPE, CREATE_ERROR_MESSAGE, jobId.error));
      }
      var data := body.(jobId := Some(jobId.value), success := Some(false), processed := Some(false));
      var holdRequest := new HoldRequest.FromArray(data);
      var rejection := postCheck(holdRequest.Value());
      if rejection.Some? {
        return Error(InvalidRequestResponse(ApiException(rejection.value, DEFAULT_API_HTTP_CODE)));
      }
      if createFailure.Some? {
        if createFailure.value.AvroIOTypeException? {
          return Thrown(ApiException(AVRO_ERROR_MESSAGE, 400));
        }
        return Error(ProcessException(CREATE_ERROR_TYPE, CREATE_ERROR_MESSAGE, createFailure.value));
      }
      var inserted := store.Insert(holdRequest.Value(), now);
      if inserted.Failure? {
        return Error(ProcessException(CREATE_ERROR_TYPE, CREATE_ERROR_MESSAGE, inserted.error));
      }
      holdRequest.SetId(Int(inserted.value));
      holdRequest.SetCreatedDate(Some(now));
      if useJobService {
        jobEvents := jobEvents + [BeginJob(holdRequest.GetJobId(), JOB_STARTED_NOTE)];
      }
      return Ok(holdRequest.Value());
    }

    /**
     * `updateHoldRequest` (PATCH) of the record with id `id`. `patchCheck` is
     * `validatePatchData`, giving the message of the `APIException` it throws.
     * The patched record is written over the row that was read; an `id` key in
     * the body moves it to that id, or fails if another row has it.
     */
    method UpdateHoldRequest(scopes: seq<string>, id: int, body: Payload, patchCheck: Payload -> Option<string>)
      returns (response: Response)
      requires store.Valid()
      modifies this`jobEvents, store
      ensures store.Valid() && store.nextId == old(store.nextId)
      ensures !response.Ok? ==> unchanged(store) && jobEvents == old(jobEvents)
      ensures response.Ok? ==> jobEvents == old(jobEvents) + (if useJobService then [FinishJob(response.record.jobId)] else [])
      ensures !IsRequestAuthorized("PATCH", scopes) ==>
                response == Error(InvalidScopeResponse(ApiException(UPDATE_FORBIDDEN_MESSAGE, 403)))
      ensures IsRequestAuthorized("PATCH", scopes) && patchCheck(body).Some? ==>
                response == Error(InvalidRequestResponse(ApiException(patchCheck(body).value, DEFAULT_API_HTTP_CODE)))
      ensures IsRequestAuthorized("PATCH", scopes) && patchCheck(body).None? && id !in old(store.rows) ==>
                response == Error(ProcessException(UPDATE_ERROR_TYPE, UPDATE_ERROR_MESSAGE, store.missing))
      ensures IsRequestAuthorized("PATCH", scopes) && patchCheck(body).None? && id in old(store.rows) ==>
                var row := Applied(old(store.rows)[id], body);
                row.id.Some?
                && if row.id.value != id && row.id.value in old(store.rows) then
                     response == Error(ProcessException(UPDATE_ERROR_TYPE, UPDATE_ERROR_MESSAGE, store.duplicate))
                   else
                     response == Ok(row) && store.rows == (old(store.rows) - {id})[row.id.value := row]
      ensures IsRequestAuthorized("PATCH", scopes) && patchCheck(body).None? && id in old(store.rows) && body.id.None? ==>
                var row := Applied(old(store.rows)[id], body);
                response == Ok(row) && row.id == Some(id) && store.rows == old(store.rows)[id := row]
    {
      if !IsRequestAuthorized("PATCH", scopes) {
        return Error(InvalidScopeResponse(ApiException(UPDATE_FORBIDDEN_MESSAGE, 403)));
      }
      var rejection := patchCheck(body);
      if rejection.Some? {
        return Error(InvalidRequestResponse(ApiException(rejection.value, DEFAULT_API_HTTP_CODE)));
      }
      var found := store.Find(id);
      if found.Failure? {
        return Error(ProcessException(UPDATE_ERROR_TYPE, UPDATE_ERROR_MESSAGE, found.error));
      }
      var holdRequest := new HoldRequest.Load(found.value);
      holdRequest.Apply(body);
      var written := store.Put(id, holdRequest.Value());
      if written.Fail? {
        return Error(ProcessException(UPDATE_ERROR_TYPE, UPDATE_ERROR_MESSAGE, written.error));
      }
      if useJobService {
        jobEvents := jobEvents + [FinishJob(holdRequest.GetJobId())];
      }
      return Ok(holdRequest.Value());
    }
  }
}
