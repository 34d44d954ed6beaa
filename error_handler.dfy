/** backend/src/utils/errorHandler.js: the APIError class, the translation
    of store errors and validation errors into APIErrors, the error
    middleware and the catch-all 404. */
module ErrorHandler {
  import opened Text
  import opened Js
  import opened Http

  /** `new APIError(message, statusCode)`: `status` is "fail" when the
      decimal text of the code starts with 4 and "error" otherwise; an
      APIError is always operational. */
  function APIError(message: string, statusCode: int): (e: Error)
    ensures e.message == message && e.statusCode == Some(statusCode)
    ensures e.isOperational && e.errorCode == None
    ensures e.status == Some(if TextStartsWith(statusCode, '4') then "fail" else "error")
  {
    Error(message, None, Some(statusCode), Some(if TextStartsWith(statusCode, '4') then "fail" else "error"), true)
  }

  /** The "fail" status is decided by the leading decimal digit alone, so
      it holds for 4, 40 and 4000 as well as for every 4xx code, and never
      for a negative code. */
  lemma APIErrorFailIffLeadingFour(message: string, statusCode: int)
    ensures APIError(message, statusCode).status == Some("fail")
        <==> statusCode >= 0 && LeadingDigit(statusCode) == 4
  {
    DecimalTextStartsWithFour(statusCode);
  }

  /** Among three-digit HTTP codes, exactly the 4xx ones are "fail". */
  lemma APIErrorFailIffClientError(message: string, statusCode: int)
    requires 100 <= statusCode < 1000
    ensures APIError(message, statusCode).status == Some("fail") <==> 400 <= statusCode < 500
  {
    DecimalTextStartsWithFour(statusCode);
    LeadingDigitOfThreeDigits(statusCode);
  }

  /** `handleAirtableError(err)`: defined for every error. */
  function HandleAirtableError(err: Error): (e: Error)
    ensures e.isOperational
    ensures err.errorCode == Some(NOT_FOUND) ==> e == APIError("Resource not found", 404)
    ensures err.errorCode == Some(INVALID_PERMISSIONS) ==> e == APIError("Permission denied", 403)
    ensures err.errorCode != Some(NOT_FOUND) && err.errorCode != Some(INVALID_PERMISSIONS)
            ==> e == APIError("Database error", 500)
  {
    if err.errorCode == Some(NOT_FOUND) then APIError("Resource not found", 404)
    else if err.errorCode == Some(INVALID_PERMISSIONS) then APIError("Permission denied", 403)
    else APIError("Database error", 500)
  }

  /** The three outcomes of HandleAirtableError, with their statuses. */
  lemma HandleAirtableErrorCodes(err: Error)
    ensures var e := HandleAirtableError(err);
      && e.statusCode.Some?
      && (e.statusCode.value == 404 <==> err.errorCode == Some(NOT_FOUND))
      && (e.statusCode.value == 403 <==> err.errorCode == Some(INVALID_PERMISSIONS))
      && (e.statusCode.value == 500 <==> err.errorCode != Some(NOT_FOUND) && err.errorCode != Some(INVALID_PERMISSIONS))
      && (e.status == Some("fail") <==> e.statusCode.value != 500)
  {
    APIErrorFailIffClientError("Resource not found", 404);
    APIErrorFailIffClientError("Permission denied", 403);
    APIErrorFailIffClientError("Database error", 500);
  }

  const VALIDATION_PREFIX := "Invalid input data. "

  /** `handleValidationError(err)`, given the messages of `err.errors` in
      the order Object.values lists them. */
  function HandleValidationError(messages: seq<string>): (e: Error)
    ensures e.statusCode == Some(400) && e.isOperational
    ensures |e.message| >= |VALIDATION_PREFIX| && e.message[..|VALIDATION_PREFIX|] == VALIDATION_PREFIX
    ensures e.message[|VALIDATION_PREFIX|..] == Join(messages, ". ")
  {
    APIError(VALIDATION_PREFIX + Join(messages, ". "), 400)
  }

  /** Every field's message can be read in the validation error, which is
      a client error. */
  lemma ValidationErrorMentionsEveryField(messages: seq<string>, k: nat)
    requires k < |messages|
    ensures Contains(HandleValidationError(messages).message, messages[k])
    ensures HandleValidationError(messages).status == Some("fail")
  {
    var joined := Join(messages, ". ");
    JoinContainsPart(messages, ". ", k);
    var i :| 0 <= i <= |joined| - |messages[k]| && OccursAt(joined, messages[k], i);
    var m := HandleValidationError(messages).message;
    assert m == VALIDATION_PREFIX + joined;
    assert m[|VALIDATION_PREFIX| + i..|VALIDATION_PREFIX| + i + |messages[k]|] == joined[i..i + |messages[k]|];
    assert OccursAt(m, messages[k], |VALIDATION_PREFIX| + i);
    APIErrorFailIffClientError(m, 400);
  }

  /** The first two lines of `errorHandler`: a missing (or zero) status
      code becomes 500 and a missing (or empty) status becomes "error". */
  function Normalise(err: Error): (e: Error)
    ensures e.message == err.message && e.isOperational == err.isOperational && e.errorCode == err.errorCode
    ensures e.statusCode.Some? && e.status.Some?
    ensures err.statusCode.None? || err.statusCode == Some(0) ==> e.statusCode == Some(500)
    ensures err.statusCode.Some? && err.statusCode.value != 0 ==> e.statusCode == err.statusCode
    ensures err.status.None? || err.status == Some("") ==> e.status == Some("error")
    ensures err.status.Some? && err.status.value != "" ==> e.status == err.status
  {
    var code := if err.statusCode.Some? && err.statusCode.value != 0 then err.statusCode.value else 500;
    var status := if err.status.Some? && err.status.value != "" then err.status.value else "error";
    err.(statusCode := Some(code), status := Some(status))
  }

  /** Normalising twice changes nothing more. */
  lemma NormaliseIdempotent(err: Error)
    ensures Normalise(Normalise(err)) == Normalise(err)
  {
  }

  /** `errorHandler(err, req, res, next)` with NODE_ENV = nodeEnv: the
      error after its in-place normalisation, and the response. */
  function HandleError(err: Error, nodeEnv: string): (r: (Error, Reply))
    ensures r.0 == Normalise(err) && r.1.Reply?
    ensures nodeEnv == "development" ==>
      r.1 == Reply(r.0.statusCode.value, DebugBody(r.0.status.value, r.0, err.message))
    ensures nodeEnv != "development" && err.isOperational ==>
      r.1 == Reply(r.0.statusCode.value, StatusBody(r.0.status.value, err.message))
    ensures nodeEnv != "development" && !err.isOperational ==>
      r.1 == Reply(500, StatusBody("error", "Something went wrong"))
  {
    var e := Normalise(err);
    if nodeEnv == "development" then
      (e, Reply(e.statusCode.value, DebugBody(e.status.value, e, e.message)))
    else if e.isOperational then
      (e, Reply(e.statusCode.value, StatusBody(e.status.value, e.message)))
    else
      (e, Reply(500, StatusBody("error", "Something went wrong")))
  }

  /** In development the response code is always the error's own code
      (500 when it had none). */
  lemma DevelopmentKeepsCode(err: Error)
    ensures HandleError(err, "development").1.code
         == (if err.statusCode.Some? && err.statusCode.value != 0 then err.statusCode.value else 500)
  {
  }

  /** In production nothing but the operational errors' own messages
      reaches the client: every other error reads "Something went wrong". */
  lemma ProductionHidesDetails(err: Error, nodeEnv: string)
    requires nodeEnv != "development"
    ensures var reply := HandleError(err, nodeEnv).1;
      reply.body.StatusBody? && (reply.body.message == err.message || reply.body.message == "Something went wrong")
    ensures !err.isOperational ==> HandleError(err, nodeEnv).1.code == 500
  {
  }

  /** Every APIError keeps its own code and status in production. */
  lemma ProductionKeepsAPIErrors(message: string, statusCode: int, nodeEnv: string)
    requires nodeEnv != "development" && statusCode != 0
    ensures var e := APIError(message, statusCode);
      HandleError(e, nodeEnv).1 == Reply(statusCode, StatusBody(e.status.value, message))
  {
  }

  /** `notFound(req, res, next)`: forwards a 404 APIError naming the URL. */
  function NotFound(originalUrl: string): (r: Reply)
    ensures r.Next? && r.err.statusCode == Some(404) && r.err.status == Some("fail")
    ensures r.err.message == "Can't find " + originalUrl + " on this server!"
  {
    APIErrorFailIffClientError("", 404);
    Next(APIError("Can't find " + originalUrl + " on this server!", 404))
  }
}
