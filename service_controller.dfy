/**
 * `ServiceController`: the OAuth-scope checks every handler runs first, the
 * patron-identity comparison, and the two fixed error responses (403
 * invalid-scope and 400 invalid-request).
 *
 * The scopes arrive as the list the identity header yields; the method is the
 * request's HTTP method as given.
 */
module ServiceController {
  import opened Php

  const READ_REQUEST_SCOPE := "read:hold_request"
  const WRITE_REQUEST_SCOPE := "write:hold_request"
  const GLOBAL_REQUEST_SCOPE := "readwrite:hold_request"

  const INSUFFICIENT_PRIVILEGES_PREFIX := "Client does not have sufficient privileges. "
  const INVALID_REQUEST_PREFIX := "An invalid request was sent to the API. "

  /**
   * The exceptions the handlers catch: `NYPL\Starter\APIException` with its
   * HTTP code, Avro's `AvroIOTypeException`, or any other `\Exception`.
   */
  datatype Exception =
    | ApiException(message: string, httpCode: PhpInt)
    | AvroIOTypeException(message: string)
    | OtherException(message: string)

  /** The body of `HoldRequestErrorResponse`; `statusCode` is whatever PHP value the caller passed. */
  datatype ErrorBody = ErrorBody(statusCode: Value, errorType: string, message: string)

  /** An error response: the HTTP status set with `withStatus` and the JSON body. */
  datatype ErrorResponse = ErrorResponse(status: int, body: ErrorBody)

  /** `hasGlobalRequestScope`: the read-write scope is one of the list's elements (a strict string match). */
  predicate HasGlobalRequestScope(scopes: seq<string>)
    ensures HasGlobalRequestScope(scopes) <==> exists i :: 0 <= i < |scopes| && scopes[i] == GLOBAL_REQUEST_SCOPE
  {
    GLOBAL_REQUEST_SCOPE in scopes
  }

  /** `hasReadRequestScope`: the read scope, or the global scope standing in for it. */
  predicate HasReadRequestScope(scopes: seq<string>)
    ensures HasGlobalRequestScope(scopes) ==> HasReadRequestScope(scopes)
    ensures HasReadRequestScope(scopes) <==>
              (exists i :: 0 <= i < |scopes| && scopes[i] == READ_REQUEST_SCOPE) || HasGlobalRequestScope(scopes)
  {
    READ_REQUEST_SCOPE in scopes || HasGlobalRequestScope(scopes)
  }

  /** `hasWriteRequestScope`: the write scope, or the global scope standing in for it. */
  predicate HasWriteRequestScope(scopes: seq<string>)
    ensures HasGlobalRequestScope(scopes) ==> HasWriteRequestScope(scopes)
    ensures HasWriteRequestScope(scopes) <==>
              (exists i :: 0 <= i < |scopes| && scopes[i] == WRITE_REQUEST_SCOPE) || HasGlobalRequestScope(scopes)
  {
    WRITE_REQUEST_SCOPE in scopes || HasGlobalRequestScope(scopes)
  }

  /**
   * `isRequestAuthorized`: a `GET` needs the read scope, every other method the
   * write scope, and the global scope stands in for both. Scopes are matched as
   * whole list elements.
   */
  function IsRequestAuthorized(httpMethod: string, scopes: seq<string>): (authorized: bool)
    ensures httpMethod == "GET" ==> (authorized <==> READ_REQUEST_SCOPE in scopes || GLOBAL_REQUEST_SCOPE in scopes)
    ensures httpMethod != "GET" ==> (authorized <==> WRITE_REQUEST_SCOPE in scopes || GLOBAL_REQUEST_SCOPE in scopes)
    ensures GLOBAL_REQUEST_SCOPE in scopes ==> authorized
  {
    if httpMethod == "GET" then HasReadRequestScope(scopes) else HasWriteRequestScope(scopes)
  }

  /** Granting more scopes never takes access away. */
  lemma AuthorizationMonotone(httpMethod: string, scopes: seq<string>, more: seq<string>)
    requires forall i :: 0 <= i < |scopes| ==> scopes[i] in more
    requires IsRequestAuthorized(httpMethod, scopes)
    ensures IsRequestAuthorized(httpMethod, more)
  {
    var needed := if httpMethod == "GET" then READ_REQUEST_SCOPE else WRITE_REQUEST_SCOPE;
    if needed in scopes {
      var i :| 0 <= i < |scopes| && scopes[i] == needed;
      assert scopes[i] in more;
    } else {
      var i :| 0 <= i < |scopes| && scopes[i] == GLOBAL_REQUEST_SCOPE;
      assert scopes[i] in more;
    }
  }

  /**
   * The token of the unit test: read-only scopes are refused for a POST, and a
   * scope that merely contains the write scope's text does not count as it.
   */
  lemma ReadOnlyTokenCannotWrite()
    ensures !IsRequestAuthorized("POST", ["openid", "offline_access", "api", "read:hold_request"])
    ensures IsRequestAuthorized("GET", ["openid", "offline_access", "api", "read:hold_request"])
    ensures !IsRequestAuthorized("PATCH", ["read:hold_request", "write:hold_request:extra"])
  {
  }

  /**
   * `patronIsAuthorized`: `strcmp` of the patron named in the request body and
   * the subject of the decoded token is 0, that is, the two strings are equal.
   * `isRequestAuthorized` never consults it.
   */
  function PatronIsAuthorized(requestPatron: string, tokenSubject: string): (authorized: bool)
    ensures authorized <==> requestPatron == tokenSubject
  {
    Strcmp(requestPatron, tokenSubject) == 0
  }

  /** `invalidScopeResponse`: HTTP 403, type `invalid-scope`, fixed prefix then the exception's message. */
  function InvalidScopeResponse(exception: Exception): (response: ErrorResponse)
    ensures response.status == 403 && response.body.errorType == "invalid-scope"
    ensures response.body.message == INSUFFICIENT_PRIVILEGES_PREFIX + exception.message
    ensures IntCast(response.body.statusCode) == response.status
  {
    StatusCodeLiteral(403, "403");
    ErrorResponse(403, ErrorBody(Str("403"), "invalid-scope",
                                 INSUFFICIENT_PRIVILEGES_PREFIX + exception.message))
  }

  /** `invalidRequestResponse`: HTTP 400, type `invalid-request`, fixed prefix then the exception's message. */
  function InvalidRequestResponse(exception: Exception): (response: ErrorResponse)
    ensures response.status == 400 && response.body.errorType == "invalid-request"
    ensures response.body.message == INVALID_REQUEST_PREFIX + exception.message
    ensures IntCast(response.body.statusCode) == response.status
  {
    StatusCodeLiteral(400, "400");
    ErrorResponse(400, ErrorBody(Str("400"), "invalid-request",
                                 INVALID_REQUEST_PREFIX + exception.message))
  }

  /**
   * The two responses above put the status in the body as a quoted literal
   * ('403', '400'); read back as a number it is the HTTP status.
   */
  lemma StatusCodeLiteral(code: PhpInt, literal: string)
    requires 100 <= code <= 999
    requires |literal| == 3
    requires literal[0] == DigitChar(code / 100)
    requires literal[1] == DigitChar(code / 10 % 10)
    requires literal[2] == DigitChar(code % 10)
    ensures IntCast(Str(literal)) == code
  {
    var tens := code / 10;
    assert DecimalString(tens / 10) == [literal[0]];
    assert DecimalString(tens) == [literal[0], literal[1]];
    assert DecimalString(code) == literal;
    IntCastOfRendered(code, "");
    assert IntToString(code) + "" == literal;
  }
}
