/**
 * The hold-request record: the fields declared by `HoldRequestModel`,
 * `NewHoldRequest` and `HoldRequest`, their setters and getters, the
 * request-type normalisation of `NewHoldRequest::setRequestType`, and the
 * create-time check `HoldRequest::validateData`.
 *
 * PHP's chain HoldRequestModel <- NewHoldRequest <- HoldRequest becomes one
 * class; every object the service builds is a `HoldRequest`.
 */
module HoldRequests {
  import opened Wrappers
  import opened Php
  import opened ElectronicDocuments

  const HOLD := "hold"
  const EDD := "edd"

  /** `NewHoldRequest::VALID_REQUEST_TYPES`. */
  const VALID_REQUEST_TYPES: seq<string> := [HOLD, EDD]

  const MISSING_LOCATION_MESSAGE := "Missing pickupLocation and deliveryLocation values. One or both must be set."
  const MISSING_EDD_MESSAGE := "EDD request is missing all details."

  /** The fields of a `HoldRequest` object, as a value: also a row of the store. */
  datatype HoldRequestData = HoldRequestData(
    id: Option<PhpInt>,
    jobId: Option<string>,
    createdDate: Option<string>,
    updatedDate: Option<string>,
    success: Option<bool>,
    processed: Option<bool>,
    patron: Option<string>,
    nyplSource: Option<string>,
    requestType: Option<string>,
    recordType: Option<string>,
    record: Option<string>,
    pickupLocation: Option<string>,
    deliveryLocation: Option<string>,
    neededBy: Option<string>,
    numberOfCopies: Option<PhpInt>,
    docDeliveryData: Option<EddData>)

  /** A `new HoldRequest()` before any setter ran: every field `null`. */
  const EMPTY_REQUEST := HoldRequestData(None, None, None, None, None, None, None, None,
                                         None, None, None, None, None, None, None, None)

  /**
   * A decoded request body. `None` stands for a key that is absent or `null`:
   * its setter is not called. Every settable field of the record is a key,
   * `id` and the two dates included.
   */
  datatype Payload = Payload(
    id: Option<Value>,
    jobId: Option<string>,
    createdDate: Option<string>,
    updatedDate: Option<string>,
    success: Option<bool>,
    processed: Option<bool>,
    patron: Option<string>,
    nyplSource: Option<string>,
    requestType: Option<string>,
    recordType: Option<string>,
    record: Option<string>,
    pickupLocation: Option<string>,
    deliveryLocation: Option<string>,
    neededBy: Option<string>,
    numberOfCopies: Option<Value>,
    docDeliveryData: Option<EddData>)

  const EMPTY_PAYLOAD := Payload(None, None, None, None, None, None, None, None, None, None, None, None, None,
                                 None, None, None)

  /** `NewHoldRequest::isValidRequestType`: exact membership in the two valid types. */
  predicate IsValidRequestType(requestType: string)
    ensures IsValidRequestType(requestType) <==> requestType == HOLD || requestType == EDD
  {
    requestType in VALID_REQUEST_TYPES
  }

  /** The value `NewHoldRequest::setRequestType` stores for its argument. */
  function NormalizedRequestType(requestType: string): (stored: string)
    ensures stored == HOLD || stored == EDD
    ensures IsValidRequestType(requestType) <==> stored == requestType
    ensures !IsValidRequestType(requestType) ==> stored == HOLD
  {
    if IsValidRequestType(requestType) then requestType else HOLD
  }

  /** Normalising is idempotent: storing the stored value again changes nothing. */
  lemma NormalizationIdempotent(requestType: string)
    ensures NormalizedRequestType(NormalizedRequestType(requestType)) == NormalizedRequestType(requestType)
  {
  }

  /** A nullable field after an optional assignment. */
  function Overwritten<T>(current: Option<T>, given: Option<T>): Option<T>
  {
    if given.Some? then given else current
  }

  /**
   * The record after the setter of every key present in `p` has run on `d`
   * (the framework's translation of a request body into a model).
   */
  function Applied(d: HoldRequestData, p: Payload): (r: HoldRequestData)
    ensures p.id.Some? ==> r.id == Some(IntCast(p.id.value))
    ensures p.id.None? ==> r.id == d.id
    ensures r.createdDate == (if p.createdDate.Some? then p.createdDate else d.createdDate)
    ensures r.updatedDate == (if p.updatedDate.Some? then p.updatedDate else d.updatedDate)
    ensures p.requestType.Some? ==> r.requestType == Some(NormalizedRequestType(p.requestType.value))
    ensures p.requestType.None? ==> r.requestType == d.requestType
    ensures p.numberOfCopies.Some? ==> r.numberOfCopies == Some(IntCast(p.numberOfCopies.value))
    ensures p.numberOfCopies.None? ==> r.numberOfCopies == d.numberOfCopies
    ensures r.success == (if p.success.Some? then p.success else d.success)
    ensures r.processed == (if p.processed.Some? then p.processed else d.processed)
    ensures r.jobId == (if p.jobId.Some? then p.jobId else d.jobId)
    ensures r.patron == (if p.patron.Some? then p.patron else d.patron)
    ensures r.nyplSource == (if p.nyplSource.Some? then p.nyplSource else d.nyplSource)
    ensures r.recordType == (if p.recordType.Some? then p.recordType else d.recordType)
    ensures r.record == (if p.record.Some? then p.record else d.record)
    ensures r.pickupLocation == (if p.pickupLocation.Some? then p.pickupLocation else d.pickupLocation)
    ensures r.deliveryLocation == (if p.deliveryLocation.Some? then p.deliveryLocation else d.deliveryLocation)
    ensures r.neededBy == (if p.neededBy.Some? then p.neededBy else d.neededBy)
    ensures r.docDeliveryData == (if p.docDeliveryData.Some? then p.docDeliveryData else d.docDeliveryData)
    ensures p == EMPTY_PAYLOAD ==> r == d
  {
    AppliedDelivery(AppliedItem(AppliedStatus(d, p), p), p)
  }

  /** Applying the same body twice leaves the record as applying it once: a repeated PATCH changes nothing more. */
  lemma PatchIdempotent(d: HoldRequestData, p: Payload)
    ensures Applied(Applied(d, p), p) == Applied(d, p)
  {
  }

  /** The steps of `Applied`: the identity, job and status fields, ... */
  function AppliedStatus(d: HoldRequestData, p: Payload): HoldRequestData
  {
    d.(id := if p.id.Some? then Some(IntCast(p.id.value)) else d.id,
       jobId := Overwritten(d.jobId, p.jobId),
       createdDate := Overwritten(d.createdDate, p.createdDate),
       updatedDate := Overwritten(d.updatedDate, p.updatedDate),
       success := Overwritten(d.success, p.success),
       processed := Overwritten(d.processed, p.processed))
  }

  /** ... the fields that name the patron and the item, ... */
  function AppliedItem(d: HoldRequestData, p: Payload): HoldRequestData
  {
    d.(patron := Overwritten(d.patron, p.patron),
       nyplSource := Overwritten(d.nyplSource, p.nyplSource),
       requestType := if p.requestType.Some? then Some(NormalizedRequestType(p.requestType.value))
                      else d.requestType,
       recordType := Overwritten(d.recordType, p.recordType),
       record := Overwritten(d.record, p.record))
  }

  /** ... and the fields that say how the item is delivered. */
  function AppliedDelivery(d: HoldRequestData, p: Payload): HoldRequestData
  {
    d.(pickupLocation := Overwritten(d.pickupLocation, p.pickupLocation),
       deliveryLocation := Overwritten(d.deliveryLocation, p.deliveryLocation),
       neededBy := Overwritten(d.neededBy, p.neededBy),
       numberOfCopies := if p.numberOfCopies.Some? then Some(IntCast(p.numberOfCopies.value))
                         else d.numberOfCopies,
       docDeliveryData := Overwritten(d.docDeliveryData, p.docDeliveryData))
  }

  /** At least one of the two locations is truthy in PHP's sense. */
  predicate HasLocation(r: HoldRequestData)
  {
    TruthyString(r.pickupLocation) || TruthyString(r.deliveryLocation)
  }

  /**
   * What `HoldRequest::validateData` decides about a record: a request that is
   * not `edd` needs a truthy pickup or delivery location and is never asked for
   * EDD details; an `edd` request needs its EDD object and is never asked for a
   * location.
   */
  function Validation(r: HoldRequestData): (outcome: Outcome<string>)
    ensures outcome.Fail? ==> outcome.error == MISSING_LOCATION_MESSAGE || outcome.error == MISSING_EDD_MESSAGE
    ensures r.requestType != Some(EDD) ==> (outcome.Fail? <==> !HasLocation(r))
    ensures r.requestType != Some(EDD) && outcome.Fail? ==> outcome.error == MISSING_LOCATION_MESSAGE
    ensures r.requestType == Some(EDD) ==> (outcome.Fail? <==> r.docDeliveryData.None?)
    ensures r.requestType == Some(EDD) && outcome.Fail? ==> outcome.error == MISSING_EDD_MESSAGE
  {
    if r.requestType != Some(EDD) && !HasLocation(r) then Fail(MISSING_LOCATION_MESSAGE)
    else if r.requestType == Some(EDD) && r.docDeliveryData.None? then Fail(MISSING_EDD_MESSAGE)
    else Pass
  }

  class HoldRequest {
    var id: Option<PhpInt>
    var jobId: Option<string>
    var createdDate: Option<string>
    var updatedDate: Option<string>
    var success: Option<bool>
    var processed: Option<bool>
    var patron: Option<string>
    var nyplSource: Option<string>
    var requestType: Option<string>
    var recordType: Option<string>
    var record: Option<string>
    var pickupLocation: Option<string>
    var deliveryLocation: Option<string>
    var neededBy: Option<string>
    var numberOfCopies: Option<PhpInt>
    var docDeliveryData: Option<EddData>

    /** The object's fields as one value. */
    function Value(): HoldRequestData
      reads this
    {
      HoldRequestData(id, jobId, createdDate, updatedDate, success, processed, patron, nyplSource, requestType,
                      recordType, record, pickupLocation, deliveryLocation, neededBy, numberOfCopies,
                      docDeliveryData)
    }

    /** `new HoldRequest($data)`: an empty object, then the setter of every key in `data`. */
    constructor FromArray(data: Payload)
      ensures Value() == Applied(EMPTY_REQUEST, data)
    {
      id, jobId, createdDate, updatedDate, success, processed := None, None, None, None, None, None;
      patron, nyplSource, requestType, recordType, record := None, None, None, None, None;
      pickupLocation, deliveryLocation, neededBy, numberOfCopies, docDeliveryData := None, None, None, None, None;
      new;
      Apply(data);
    }

    /** `new HoldRequest()` followed by a `read()` that found `row`. */
    constructor Load(row: HoldRequestData)
      ensures Value() == row
    {
      id, jobId, createdDate, updatedDate := row.id, row.jobId, row.createdDate, row.updatedDate;
      success, processed := row.success, row.processed;
      patron, nyplSource, requestType := row.patron, row.nyplSource, row.requestType;
      recordType, record, pickupLocation := row.recordType, row.record, row.pickupLocation;
      deliveryLocation, neededBy, numberOfCopies := row.deliveryLocation, row.neededBy, row.numberOfCopies;
      docDeliveryData := row.docDeliveryData;
    }

    /** Runs the setter of every key present in `data`, as the framework's translation does. */
    method Apply(data: Payload)
      modifies this
      ensures Value() == Applied(old(Value()), data)
    {
      ApplyStatus(data);
      ApplyItem(data);
      ApplyDelivery(data);
    }

    method ApplyStatus(data: Payload)
      modifies this
      ensures Value() == AppliedStatus(old(Value()), data)
    {
      if data.id.Some? { SetId(data.id.value); }
      if data.jobId.Some? { SetJobId(data.jobId); }
      if data.createdDate.Some? { SetCreatedDate(data.createdDate); }
      if data.updatedDate.Some? { SetUpdatedDate(data.updatedDate); }
      if data.success.Some? { SetSuccess(data.success.value); }
      if data.processed.Some? { SetProcessed(data.processed.value); }
    }

    method ApplyItem(data: Payload)
      modifies this
      ensures Value() == AppliedItem(old(Value()), data)
    {
      if data.patron.Some? { SetPatron(data.patron); }
      if data.nyplSource.Some? { SetNyplSource(data.nyplSource); }
      if data.requestType.Some? { SetRequestType(data.requestType.value); }
      if data.recordType.Some? { SetRecordType(data.recordType); }
      if data.record.Some? { SetRecord(data.record); }
    }

    method ApplyDelivery(data: Payload)
      modifies this
      ensures Value() == AppliedDelivery(old(Value()), data)
    {
      if data.pickupLocation.Some? { SetPickupLocation(data.pickupLocation); }
      if data.deliveryLocation.Some? { SetDeliveryLocation(data.deliveryLocation); }
      if data.neededBy.Some? { SetNeededBy(data.neededBy); }
      if data.numberOfCopies.Some? { SetNumberOfCopies(data.numberOfCopies.value); }
      if data.docDeliveryData.Some? {
        var edd := TranslateDocDeliveryData(data.docDeliveryData.value);
        SetDocDeliveryData(edd);
      }
    }

    function GetId(): Option<PhpInt> reads this { id }
    function GetJobId(): Option<string> reads this { jobId }
    function GetCreatedDate(): Option<string> reads this { createdDate }
    function GetUpdatedDate(): Option<string> reads this { updatedDate }
    function IsSuccess(): Option<bool> reads this { success }
    function IsProcessed(): Option<bool> reads this { processed }
    function GetPatron(): Option<string> reads this { patron }
    function GetNyplSource(): Option<string> reads this { nyplSource }
    function GetRequestType(): Option<string> reads this { requestType }
    function GetRecordType(): Option<string> reads this { recordType }
    function GetRecord(): Option<string> reads this { record }
    function GetPickupLocation(): Option<string> reads this { pickupLocation }
    function GetDeliveryLocation(): Option<string> reads this { deliveryLocation }
    function GetNeededBy(): Option<string> reads this { neededBy }
    function GetNumberOfCopies(): Option<PhpInt> reads this { numberOfCopies }
    function GetDocDeliveryData(): Option<EddData> reads this { docDeliveryData }

    /** `setId` stores the `(int)` cast of whatever it is given. */
    method SetId(id: Value)
      modifies this
      ensures GetId() == Some(IntCast(id))
      ensures id.Int? ==> GetId() == Some(id.n)
      ensures Value() == old(Value()).(id := Some(IntCast(id)))
    {
      this.id := Some(IntCast(id));
    }

    method SetJobId(jobId: Option<string>)
      modifies this
      ensures GetJobId() == jobId
      ensures Value() == old(Value()).(jobId := jobId)
    {
      this.jobId := jobId;
    }

    method SetCreatedDate(createdDate: Option<string>)
      modifies this
      ensures GetCreatedDate() == createdDate
      ensures Value() == old(Value()).(createdDate := createdDate)
    {
      this.createdDate := createdDate;
    }

    method SetUpdatedDate(updatedDate: Option<string>)
      modifies this
      ensures GetUpdatedDate() == updatedDate
      ensures Value() == old(Value()).(updatedDate := updatedDate)
    {
      this.updatedDate := updatedDate;
    }

    /** `setSuccess(bool $success)`: only a boolean can be stored. */
    method SetSuccess(success: bool)
      modifies this
      ensures IsSuccess() == Some(success)
      ensures Value() == old(Value()).(success := Some(success))
    {
      this.success := Some(success);
    }

    /** `setProcessed(bool $processed)`: only a boolean can be stored. */
    method SetProcessed(processed: bool)
      modifies this
      ensures IsProcessed() == Some(processed)
      ensures Value() == old(Value()).(processed := Some(processed))
    {
      this.processed := Some(processed);
    }

    method SetPatron(patron: Option<string>)
      modifies this
      ensures GetPatron() == patron
      ensures Value() == old(Value()).(patron := patron)
    {
      this.patron := patron;
    }

    method SetNyplSource(nyplSource: Option<string>)
      modifies this
      ensures GetNyplSource() == nyplSource
      ensures Value() == old(Value()).(nyplSource := nyplSource)
    {
      this.nyplSource := nyplSource;
    }

    /**
     * `NewHoldRequest::setRequestType`: a value in `VALID_REQUEST_TYPES` is
     * stored as given, anything else is stored as `hold`.
     */
    method SetRequestType(requestType: string)
      modifies this
      ensures GetRequestType() == Some(NormalizedRequestType(requestType))
      ensures Value() == old(Value()).(requestType := Some(NormalizedRequestType(requestType)))
    {
      if IsValidRequestType(requestType) {
        this.requestType := Some(requestType);
      } else {
        this.requestType := Some(HOLD);
      }
    }

    /**
     * `HoldRequestModel::setRequestType`, the parent's version that
     * `NewHoldRequest` overrides: it stores its argument without normalising it.
     */
    method BaseSetRequestType(requestType: Option<string>)
      modifies this
      ensures GetRequestType() == requestType
      ensures Value() == old(Value()).(requestType := requestType)
    {
      this.requestType := requestType;
    }

    method SetRecordType(recordType: Option<string>)
      modifies this
      ensures GetRecordType() == recordType
      ensures Value() == old(Value()).(recordType := recordType)
    {
      this.recordType := recordType;
    }

    method SetRecord(record: Option<string>)
      modifies this
      ensures GetRecord() == record
      ensures Value() == old(Value()).(record := record)
    {
      this.record := record;
    }

    method SetPickupLocation(pickupLocation: Option<string>)
      modifies this
      ensures GetPickupLocation() == pickupLocation
      ensures Value() == old(Value()).(pickupLocation := pickupLocation)
    {
      this.pickupLocation := pickupLocation;
    }

    /** The record's `deliveryLocation` field, which `validateData` reads through its getter. */
    method SetDeliveryLocation(deliveryLocation: Option<string>)
      modifies this
      ensures GetDeliveryLocation() == deliveryLocation
      ensures Value() == old(Value()).(deliveryLocation := deliveryLocation)
    {
      this.deliveryLocation := deliveryLocation;
    }

    method SetNeededBy(neededBy: Option<string>)
      modifies this
      ensures GetNeededBy() == neededBy
      ensures Value() == old(Value()).(neededBy := neededBy)
    {
      this.neededBy := neededBy;
    }

    /** `setNumberOfCopies` stores the `(int)` cast of its argument, whatever its type. */
    method SetNumberOfCopies(numberOfCopies: Value)
      modifies this
      ensures GetNumberOfCopies() == Some(IntCast(numberOfCopies))
      ensures !Truthy(numberOfCopies) ==> GetNumberOfCopies() == Some(0)
      ensures Value() == old(Value()).(numberOfCopies := Some(IntCast(numberOfCopies)))
    {
      this.numberOfCopies := Some(IntCast(numberOfCopies));
    }

    /**
     * `setDocDeliveryData(ElectronicDocumentData $docDeliveryData)`: only an
     * EDD object can be stored, so the field is never anything but an EDD
     * object or `null`. The record keeps the object's fields as they are now.
     */
    method SetDocDeliveryData(docDeliveryData: ElectronicDocumentData)
      modifies this
      ensures GetDocDeliveryData() == Some(docDeliveryData.Value())
      ensures Value() == old(Value()).(docDeliveryData := Some(docDeliveryData.Value()))
    {
      this.docDeliveryData := Some(docDeliveryData.Value());
    }

    /** `translateDocDeliveryData` always yields a new EDD object holding the given fields. */
    method TranslateDocDeliveryData(data: EddData) returns (edd: ElectronicDocumentData)
      ensures fresh(edd)
      ensures edd.Value() == data
    {
      edd := new ElectronicDocumentData.FromArray(data);
    }

    /**
     * `HoldRequest::validateData`: reads the record and either passes or
     * throws; it writes no field (it has no `modifies` clause).
     */
    method ValidateData() returns (outcome: Outcome<string>)
      ensures outcome == Validation(Value())
    {
      if GetRequestType() != Some(EDD) && !TruthyString(GetPickupLocation()) && !TruthyString(GetDeliveryLocation()) {
        return Fail(MISSING_LOCATION_MESSAGE);
      }
      if GetRequestType() == Some(EDD) && GetDocDeliveryData().None? {
        return Fail(MISSING_EDD_MESSAGE);
      }
      return Pass;
    }
  }

  /**
   * The unit test of the record: a request built with the unknown type
   * `retrieval` holds `hold`, and a later `setRequestType('edd')` holds `edd`.
   */
  method RequestTypeScenario() returns (initial: Option<string>, afterEdd: Option<string>)
    ensures initial == Some(HOLD) && afterEdd == Some(EDD)
  {
    var request := new HoldRequest.FromArray(EMPTY_PAYLOAD.(requestType := Some("retrieval")));
    initial := request.GetRequestType();
    request.SetRequestType(EDD);
    afterEdd := request.GetRequestType();
  }
}
