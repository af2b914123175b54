# Hold Request Service — a verified Dafny model

This project models the core of NYPL's Hold Request Service. The service is a
small PHP (Slim) API: clients use it to create, list, read and update library
hold requests. The model covers:

- **The hold-request record** (`HoldRequests`). Its fields and setters are
  modelled as a class, including the `(int)` casts in `setId` and
  `setNumberOfCopies` and the normalisation of the request type to `hold` or
  `edd`. `validateData` is modelled too: a non-EDD request needs a truthy pickup
  or delivery location, and an EDD request needs its EDD details.
- **The EDD sub-record** (`ElectronicDocuments`). It holds eight nullable
  strings, and each setter assigns one field.
- **The PHP rules the code relies on** (`Php`): truthiness, the `(int)` cast of
  a string as PHP 7.1 and later perform it on an integer prefix (leading white
  space, optional sign, digits; a number too long for an int capped at the
  64-bit bounds, and one beyond the double range cast to 0), and `strcmp`.
- **OAuth-scope authorisation and the two fixed error responses**
  (`ServiceController`).
- **The `createdDate` list filter** (`DateQueryFilters`): a strict `Y-m-d`
  check, the `date%` pattern, and SQL `LIKE` matching, so the filter can be
  shown to select exactly the rows created on that day.
- **Job ids and job status updates** (`Jobs`). `generateJobId` is a small state
  machine over the static `$jobId`. The job manager's reply and the UUID are
  inputs.
- **The controller** (`HoldRequestControllers`). It covers the order of checks
  in create and update, the plans the two read handlers hand to the framework,
  and `processException`. The database is an abstract map (`Stores`).

Calls into code that is not part of this model become parameters: the job
manager's reply, the UUID generator, the clock, the two request validators
(`validatePostData`, `validatePatchData`) and the exception `create()` may
throw.

## Model

| member | source | states |
|---|---|---|
| `Php.IntCast` | src/Model/HoldRequestModel.php:204-207 | `(int)` keeps an int, maps booleans to 1/0, and maps every falsy value (null, false, 0, `""`, `"0"`) to 0 |
| `Php.IntCastOfRendered` | src/Model/HoldRequest/HoldRequest.php:121-124 | `setId` given an id as its decimal string, possibly followed by text that starts with neither a digit, a decimal point nor an exponent, stores exactly that id: `(int)` undoes `(string)` on every 64-bit int |
| `Php.LongDigitsCast` | src/Model/HoldRequestModel.php:204-207 | a digit string too long for an int casts to `PHP_INT_MAX`, and one beyond the double range casts to 0 |
| `Php.Strcmp` | src/ServiceController.php:97 | `strcmp` is 0 exactly when the two strings are equal, the only use the service makes of it (`=== 0`) |
| `ElectronicDocuments.ElectronicDocumentData.FromArray` | src/Model/HoldRequestModel.php:230-233 | an EDD object built from a decoded object holds exactly the given fields |
| `ElectronicDocuments.ElectronicDocumentData.SetEmailAddress` | src/Model/ElectronicDocumentData.php:75-78 | stores a non-null string; its getter returns it; no other field changes |
| `ElectronicDocuments.ElectronicDocumentData.SetChapterTitle` | src/Model/ElectronicDocumentData.php:91-94 | stores a non-null string; its getter returns it; no other field changes |
| `ElectronicDocuments.ElectronicDocumentData.SetAuthor` | src/Model/ElectronicDocumentData.php:107-110 | stores its argument, null included; its getter returns it; no other field changes |
| `ElectronicDocuments.ElectronicDocumentData.SetStartPage` | src/Model/ElectronicDocumentData.php:123-126 | stores a non-null string; its getter returns it; no other field changes |
| `ElectronicDocuments.ElectronicDocumentData.SetEndPage` | src/Model/ElectronicDocumentData.php:139-142 | stores a non-null string; its getter returns it; no other field changes |
| `ElectronicDocuments.ElectronicDocumentData.SetIssue` | src/Model/ElectronicDocumentData.php:155-158 | stores its argument, null included; its getter returns it; no other field changes |
| `ElectronicDocuments.ElectronicDocumentData.SetVolume` | src/Model/ElectronicDocumentData.php:171-174 | stores its argument, null included; its getter returns it; no other field changes |
| `ElectronicDocuments.ElectronicDocumentData.SetRequestNotes` | src/Model/ElectronicDocumentData.php:187-190 | stores its argument, null included; its getter returns it; no other field changes |
| `HoldRequests.IsValidRequestType` | src/Model/HoldRequest/NewHoldRequest.php:57-60 | a request type is valid exactly when it is `hold` or `edd` |
| `HoldRequests.NormalizedRequestType` | src/Model/HoldRequest/NewHoldRequest.php:57-73 | the stored type is always `hold` or `edd`; it equals the argument exactly when the argument is in `VALID_REQUEST_TYPES`, and is `hold` otherwise (so `retrieval` becomes `hold`) |
| `HoldRequests.NormalizationIdempotent` | src/Model/HoldRequest/NewHoldRequest.php:65-73 | setting the normalised value again leaves the request type unchanged |
| `HoldRequests.Applied` | src/Model/HoldRequestModel.php:82-215 | running the setters of a body changes exactly the keys it carries: an `id` is stored as its `(int)` cast, the dates, flags and job id as given, the request type normalised, `numberOfCopies` cast; a key the body lacks leaves its field as it was, and an empty body changes nothing |
| `HoldRequests.PatchIdempotent` | src/Controller/HoldRequestController.php:380-382 | sending the same patch body twice leaves the record as sending it once |
| `HoldRequests.Validation` | src/Model/HoldRequest/HoldRequest.php:237-251 | a non-`edd` request fails exactly when neither location is truthy, with the location message; an `edd` request fails exactly when it has no EDD object, with the EDD message; so an `edd` request needs no location and a `hold` request never fails for missing EDD details |
| `HoldRequests.HoldRequest.FromArray` | src/Controller/HoldRequestController.php:90 | `new HoldRequest($data)` holds the empty record with the body's setters applied |
| `HoldRequests.HoldRequest.Load` | src/Controller/HoldRequestController.php:375-376 | a record that has been read holds exactly the stored row |
| `HoldRequests.HoldRequest.Apply` | src/Controller/HoldRequestController.php:380-382 | applying a patch body yields `Applied` of the old record and the body |
| `HoldRequests.HoldRequest.ApplyStatus` | src/Model/HoldRequest/HoldRequest.php:121-232 | the `id`, `jobId`, `createdDate`, `updatedDate`, `success` and `processed` setters run for the keys present |
| `HoldRequests.HoldRequest.ApplyItem` | src/Model/HoldRequestModel.php:82-149 | the patron, source, request-type, record-type and record setters run for the keys present |
| `HoldRequests.HoldRequest.ApplyDelivery` | src/Model/HoldRequestModel.php:162-233 | the location, needed-by, copies and EDD setters run for the keys present, with a fresh EDD object for `docDeliveryData` |
| `HoldRequests.HoldRequest.SetId` | src/Model/HoldRequest/HoldRequest.php:121-124 | stores the `(int)` cast of its argument, which `getId` returns; an int is kept as is |
| `HoldRequests.HoldRequest.SetJobId` | src/Model/HoldRequest/HoldRequest.php:145-148 | `getJobId` returns the last value set; no other field changes |
| `HoldRequests.HoldRequest.SetCreatedDate` | src/Model/HoldRequest/HoldRequest.php:161-164 | `getCreatedDate` returns the value set; no other field changes |
| `HoldRequests.HoldRequest.SetUpdatedDate` | src/Model/HoldRequest/HoldRequest.php:187-190 | `getUpdatedDate` returns the value set; no other field changes |
| `HoldRequests.HoldRequest.SetSuccess` | src/Model/HoldRequest/HoldRequest.php:213-216 | only a boolean can be stored, and `isSuccess` returns it |
| `HoldRequests.HoldRequest.SetProcessed` | src/Model/HoldRequest/HoldRequest.php:229-232 | only a boolean can be stored, and `isProcessed` returns it |
| `HoldRequests.HoldRequest.SetPatron` | src/Model/HoldRequestModel.php:82-85 | stores its argument exactly, which `getPatron` returns; no other field changes |
| `HoldRequests.HoldRequest.SetNyplSource` | src/Model/HoldRequestModel.php:98-101 | stores its argument exactly; no other field changes |
| `HoldRequests.HoldRequest.SetRequestType` | src/Model/HoldRequest/NewHoldRequest.php:65-73 | stores the normalised type (always `hold` or `edd`) and changes no other field |
| `HoldRequests.HoldRequest.BaseSetRequestType` | src/Model/HoldRequestModel.php:114-117 | the parent's setter stores its argument without normalising it |
| `HoldRequests.HoldRequest.SetRecordType` | src/Model/HoldRequestModel.php:130-133 | stores its argument exactly; no other field changes |
| `HoldRequests.HoldRequest.SetRecord` | src/Model/HoldRequestModel.php:146-149 | stores its argument exactly; no other field changes |
| `HoldRequests.HoldRequest.SetPickupLocation` | src/Model/HoldRequestModel.php:162-165 | stores its argument exactly; no other field changes |
| `HoldRequests.HoldRequest.SetDeliveryLocation` | src/Model/HoldRequest/HoldRequest.php:84 | the record's `deliveryLocation` field takes the value given; no other field changes |
| `HoldRequests.HoldRequest.SetNeededBy` | src/Model/HoldRequestModel.php:178-181 | stores its argument; no other field changes |
| `HoldRequests.HoldRequest.SetNumberOfCopies` | src/Model/HoldRequestModel.php:204-207 | always stores an integer, the `(int)` cast of its argument, and 0 for any falsy argument |
| `HoldRequests.HoldRequest.SetDocDeliveryData` | src/Model/HoldRequestModel.php:212-215 | only an EDD object can be stored, and the field then holds its fields |
| `HoldRequests.HoldRequest.TranslateDocDeliveryData` | src/Model/HoldRequestModel.php:230-233 | always yields a new EDD object holding the given fields |
| `HoldRequests.HoldRequest.ValidateData` | src/Model/HoldRequest/HoldRequest.php:237-251 | decides as `Validation` does and writes no field |
| `HoldRequests.RequestTypeScenario` | tests/Model/HoldRequestTest.php:13-30 | a record built from `requestType` `retrieval` holds `hold`, and after `setRequestType('edd')` it holds `edd` |
| `ServiceController.IsRequestAuthorized` | src/ServiceController.php:113-124 | a `GET` is authorised iff the scopes contain `read:hold_request` or `readwrite:hold_request`; any other method iff they contain `write:hold_request` or `readwrite:hold_request`; the global scope authorises every method |
| `ServiceController.HasGlobalRequestScope` | src/ServiceController.php:153-159 | true exactly when some element of the scope list is `readwrite:hold_request` itself |
| `ServiceController.HasReadRequestScope` | src/ServiceController.php:129-136 | true exactly when some element of the list is `read:hold_request` itself or the global scope holds |
| `ServiceController.HasWriteRequestScope` | src/ServiceController.php:141-148 | true exactly when some element of the list is `write:hold_request` itself or the global scope holds |
| `ServiceController.AuthorizationMonotone` | src/ServiceController.php:129-159 | adding scopes never takes access away |
| `ServiceController.ReadOnlyTokenCannotWrite` | tests/ServiceControllerTest.php:48-90 | the read-only scope list is refused for a POST and accepted for a GET; a scope that only contains `write:hold_request` as text does not count |
| `ServiceController.PatronIsAuthorized` | src/ServiceController.php:90-98 | true exactly when the request's patron equals the token's subject |
| `ServiceController.InvalidScopeResponse` | src/ServiceController.php:197-206 | status 403, type `invalid-scope`, the fixed prefix followed by the exception's message, and a body status that reads back as 403 |
| `ServiceController.InvalidRequestResponse` | src/ServiceController.php:212-221 | status 400, type `invalid-request`, the fixed prefix followed by the exception's message, and a body status that reads back as 400 |
| `ServiceController.StatusCodeLiteral` | src/ServiceController.php:201 | a three-digit status written as a string literal casts back to that status |
| `DateQueryFilters.IsValidDate` | src/Filter/DateQueryFilter.php:33-37 | a valid date is ten characters of digits and dashes naming a day that exists |
| `DateQueryFilters.DateTextValid` | src/Filter/DateQueryFilter.php:33-37 | for every year up to 9999 and every two-digit month and day, the padded `Y-m-d` text passes exactly when the month is 1 to 12 and the day exists in that month of that year, leap years included |
| `DateQueryFilters.DateQueryFilter` | src/Filter/DateQueryFilter.php:17-27 | a valid date becomes `date%`, anything else becomes `""`; so the value is empty or the input with one `%` appended; the column, JSON flag, id and operator pass through unchanged |
| `DateQueryFilters.LikePrefix` | src/Controller/HoldRequestController.php:203-209 | a wildcard-free prefix followed by `%` matches exactly the strings that start with that prefix |
| `DateQueryFilters.DateFilterMatchesPrefix` | src/Controller/HoldRequestController.php:203-209 | with a valid date, `createdDate LIKE 'date%'` holds exactly when the creation date starts with the date |
| `DateQueryFilters.InvalidDateFilterMatchesOnlyEmpty` | src/Filter/DateQueryFilter.php:22-23 | with an invalid date, the pattern matches only the empty string |
| `DateQueryFilters.ValidDateExample` | src/Filter/DateQueryFilter.php:33-37 | `2017-06-19` is accepted |
| `DateQueryFilters.LeapDayExamples` | src/Filter/DateQueryFilter.php:33-37 | February 29 is accepted in 2016 and rejected in 2017 |
| `DateQueryFilters.InvalidDateExamples` | src/Filter/DateQueryFilter.php:33-37 | February 30, month 13, and a date followed by a time are rejected |
| `Jobs.NextJobId` | src/JobService.php:43-63 | a manager failure gives the `APIException` "Jobs Service failed to generate an ID." and leaves the field alone; a truthy manager id is stored and returned; a falsy id leads to the UUID; with the manager off, a stored id is returned again; every returned id is truthy and equals the field |
| `Jobs.IdReusedWithoutManager` | src/JobService.php:57-62 | after a successful call, a call with the manager off returns the same id and generates no UUID |
| `Jobs.JobService.constructor` | src/JobService.php:20 | the static field starts out null |
| `Jobs.JobService.SetJobId` | src/JobService.php:25-36 | `getJobId` then returns the id given |
| `Jobs.JobService.GenerateRandomId` | src/JobService.php:93-96 | the field holds the new UUID |
| `Jobs.JobService.GenerateJobId` | src/JobService.php:43-63 | the new field and the returned id or exception are those of `NextJobId` |
| `Jobs.JobClient` | src/JobService.php:98-101 | the client is built only when its one parameter is passed, from that parameter |
| `Jobs.UpdateJobStatusAsWritten` | src/JobService.php:69-129 | as written, the update fails exactly when `jobClient()` without its argument fails, and would otherwise PUT to the job URL plus `/success` or `/failure` |
| `Jobs.UpdateJobStatusAsWrittenAlwaysFails` | src/JobService.php:114-129 | as written, every status update stops with `ArgumentCountError` before any request is built |
| `Jobs.UpdateJobStatus` | src/JobService.php:69-76 | the corrected update always builds its PUT request |
| `Jobs.UpdateJobStatusReportsStatus` | src/JobService.php:69-129 | the corrected update sends `false` to `/failure` and `true` to `/success` under the job's URL, so the status can be read back from the URL |
| `Stores.Store.Insert` | src/Controller/HoldRequestController.php:100 | `create()` takes the sequence's next id; when that id is free the row is stored under it, stamped with the time, and every other row is kept; when a row already has it, the duplicate-key exception is thrown and no row changes |
| `Stores.Store.Find` | src/Controller/HoldRequestController.php:375-376 | `read()` by id finds the row exactly when one is stored under that id, and throws the store's not-found exception otherwise |
| `Stores.Store.Put` | src/Controller/HoldRequestController.php:375-382 | `update()` writes the record over the row the read selected: in place when the id is kept, under the new id when the record carries a free one, and not at all (duplicate-key exception) when another row has that id |
| `HoldRequestControllers.ProcessException` | src/Controller/HoldRequestController.php:413-446 | status 500 unless the exception is an `APIException`, whose own code is used; the body carries the same status, the error type and the message |
| `HoldRequestControllers.NewRecord` | src/Controller/HoldRequestController.php:85-90 | a new record carries the new job id and `success` and `processed` false, whatever the client sent; its id is the `(int)` cast of the body's `id` if it has one and null otherwise, its dates are the body's, and its patron, record, locations and EDD details are the client's |
| `HoldRequestControllers.GetHoldRequests` | src/Controller/HoldRequestController.php:187-224 | without the read scope the answer is the 403 response; otherwise a list read with the equality filters `patron`, `record` and `processed`, plus the date filter exactly when `createdDate` is truthy |
| `HoldRequestControllers.GetHoldRequest` | src/Controller/HoldRequestController.php:271-296 | without the read scope the answer is the 403 response; otherwise a read filtered by the path id |
| `HoldRequestControllers.ListSelectsCreationDay` | src/Controller/HoldRequestController.php:201-216 | a list request with a valid date selects exactly the rows whose creation date starts with it |
| `HoldRequestControllers.NewHoldWithoutLocationRejected` | src/Model/HoldRequest/HoldRequest.php:241-244 | a new non-`edd` request with no truthy location fails `validateData` with the location message |
| `HoldRequestControllers.NewEddWithoutDetailsRejected` | src/Model/HoldRequest/HoldRequest.php:246-250 | a new `edd` request without EDD details fails `validateData` with the EDD message |
| `HoldRequestControllers.HoldRequestController.constructor` | src/ServiceController.php:40-52 | the controller takes `useJobService` from the configuration and has made no job calls |
| `HoldRequestControllers.HoldRequestController.SetUseJobService` | src/ServiceController.php:74-85 | `isUseJobService` then returns the flag set |
| `HoldRequestControllers.HoldRequestController.CreateHoldRequest` | src/Controller/HoldRequestController.php:69-125 | the scope is checked first, and a 403 touches neither the job id nor the database; a job-id failure goes to `processException`; a rejected record gives the 400 response; an Avro failure in `create()` escapes as a 400 `APIException`, and any other failure, a taken id included, goes to `processException`; otherwise the row is stored under the new id with the creation time, whatever `id` or `createdDate` the body carried, and `beginJob` is called when the job service is on; no response other than success changes a row or the job calls; the id sequence advances by one on a success and on a taken id, and stays as it was on every earlier failure |
| `HoldRequestControllers.HoldRequestController.UpdateHoldRequest` | src/Controller/HoldRequestController.php:348-404 | the scope is checked first (403), then the patch (400) before any read, then the id (a missing row goes to `processException`); then the patch is applied and written over the row that was read, moving it when the body carries a free `id` and failing through `processException` when another row has that id; a body without `id` replaces that row in place; `finishJob` is called after a success when the job service is on; every failure leaves the database and the job calls unchanged; the id sequence never changes |

## Left out

- Routing (`index.php`), the dependency container, logging, the Swagger annotations and the response envelope classes are left out. They are plumbing.
- The framework's database traits and `TranslateTrait` are not part of this model. Neither are `getDefaultReadResponse`, `ModelSet` and the `Filter` base class. The database is an abstract map. Translating a body means calling the setter of each key present, and a key that is absent or `null` calls no setter. The read handlers return the plan they hand to the framework, not the rows.
- `Stores.Store.Insert` requires the id sequence to stay within PHP's int range. It stamps `createdDate` with a clock reading passed in and takes its id from the sequence, whatever the body carried. Both stand for database behaviour that is not part of this model.
- `Stores.Store.Put`: the framework's `update()` is not part of this model. It is taken to write every field of the patched record over the row its read selected, keyed by the `id` column. A record whose id another row holds raises the store's duplicate-key exception, which is a parameter of the store. Unlike `Stores.Store.Insert`, which stamps `createdDate`, it is not taken to stamp `updatedDate`: the row keeps whatever `updatedDate` the record holds, since whether the framework sets it is not known.
- `Stores.Store`: the database is an abstract table, empty when built, and its constructor stands for no line of the service.
- `Stores.Store.Find`: the exception for a missing row is a parameter of the store, because the framework's `read()` is not part of this model.
- `HoldRequestControllers.HoldRequestController.CreateHoldRequest`: a failing `create()` is assumed to store nothing. Whether the framework writes part of a row before an Avro or database error is not captured.
- `validatePostData` and `validatePatchData` are not defined in the files modelled. Each is a function parameter that either passes or gives the message of the `APIException` it throws. `validateData` is a plausible post check, and the two `New…Rejected` lemmas tie it to the record create builds. No rule beyond that is assumed.
- `JobService::beginJob` and `finishJob` are called but not declared in `src/JobService.php`. They are recorded as events on the controller, as if some other part of the service declared them.
- JWT decoding and the public-key file read are left out. These are a foreign library and I/O, and only the `strcmp` comparison of the two identities is kept.
- The identity header's scope parsing and the Jobs API's HTTP calls (Guzzle, `getJob`) are left out. `JobManager::createJob` and `JobManager::getJobUrl` are left out too. The scope list, the manager's reply and the job URL are inputs.
- `Jobs.UuidString`: UUID generation (RFC 4122 section 4.4) is an input, a 36-character string. Its version and variant bits are not modelled.
- `Jobs.NextJobId`: a `createJob` that returns a non-string (such as `null`) is not modelled. The `string` type of `setJobId` would raise a `TypeError` there, which is not an `\Exception`.
- `fetchJobUrl` is declared without `static` but is called statically. PHP 7 only emits a deprecation notice for that, so it is not modelled.
- `Php.IntCast` models the cast of PHP 7.1 and later for a string whose number is an integer prefix. A decimal point (leading or after the digits) or an exponent is not modelled: PHP reads such a string as a double, so `"12e3"` casts to 12000, `".5e3"` to 500 and `"9007199254740993.5"` to 9007199254740994, where the model stops at the first non-digit (and gives 0 for `".5e3"`). Floats and the cast of arrays and objects are left out too. The model restricts the values given to the setters to null, booleans, ints and strings, although a JSON body can also carry floats (`"numberOfCopies": 1.5`), arrays and objects under any key.
- `Php.Strcmp` returns -1, 0 or 1, as PHP 8.2 and later do. Before PHP 8.2, `strcmp` returns the byte difference or the length difference instead. Only the sign is modelled, and the service only tests `=== 0`.
- `HoldRequests.Payload`: a body's keys carry one type each (strings, booleans, the EDD object, and PHP values for `id` and `numberOfCopies`). A key of another type is not modelled.
- `DateQueryFilters.IsValidDate` is stricter than `DateTime::createFromFormat`. It accepts exactly four-digit years and two-digit months and days. PHP also accepts one-digit months and days and years of fewer digits.
- `DateQueryFilters.Like`: escape characters in `LIKE` patterns are not modelled. A valid date contains none.
- Avro schemas and serialisation are left out. So are the `LocalDateTime` translation of `createdDate`, `updatedDate` and `neededBy`. Dates are strings.
- The record keeps a copy of its EDD object's fields. Later changes through another reference to the same object (aliasing) are not captured.
- `HoldRequests.HoldRequest.SetSuccess` and `SetProcessed`: PHP's coercive mode would also convert a scalar such as `1` or `"yes"` to a boolean. The model accepts booleans only.
- `in_array` in `isValidRequestType` is a loose comparison. Request types are modelled as strings, so its edge cases for non-string inputs (such as `0`) are not captured.
- `HoldRequests.HoldRequest.SetDeliveryLocation`: no `setDeliveryLocation` is declared in the files modelled. The field is in the record's schema and is read by `validateData`, so the model gives it a setter like the others.
- The path id of `updateHoldRequest` is taken as an integer. Its conversion from the URL string is left out.
- `APIException` and its default HTTP code of 500 belong to the framework, which is not part of this model. The model assumes that default for the exceptions this service throws without a code.
- `HoldRequestControllers.ProcessException` uses any `APIException` code as the status. Slim's `withStatus` throws an `InvalidArgumentException` for a code outside 100–599, and that exception is not modelled. The service's own files throw only 400, 403 and the default 500; the framework's exceptions, which are parameters here, may carry any code.
- `HoldRequestControllers.HoldRequestController`: the controller keeps one `JobService`, so the job id left by one request is seen by the next. Under PHP's usual process per request the static `$jobId` starts out null at every request, which corresponds to calling `CreateHoldRequest` with `jobs.jobId == None`.
- `HoldRequestErrorResponse` also receives the exception itself for debugging output. That debug information, and `processException`'s logging and `setDebugInfo`, are left out.

## Findings

| source | as written | input that shows it | evidently intended | confidence | as-written member | corrected member |
|---|---|---|---|---|---|---|
| src/JobService.php:114-129 | `setJobAsFailure` and `setJobAsSuccess` call `jobClient()` with no argument, but `jobClient(array $params)` declares one required parameter. From PHP 7.1 this raises `ArgumentCountError`, an `\Error` that no `catch (\Exception …)` intercepts, so `updateJobStatus` never reaches the Jobs API | `updateJobStatus(true)` or `updateJobStatus(false)` with any job URL; `Jobs.UpdateJobStatusAsWrittenAlwaysFails` proves the failure for every status | build the client with the job URL (`base_uri`) as `getJob` does, then PUT to the URL plus `/success` or `/failure` | high for PHP 7.1 and later; not executed | `Jobs.UpdateJobStatusAsWritten` | `Jobs.UpdateJobStatus` |
