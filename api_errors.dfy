/** Turning a thrown value into an HTTP error response. The response is
    modelled as the status together with the JSON body; the logging and the
    `NextResponse` wrapper are left out. */
module ApiErrors {
  import opened Wrappers
  import opened Text
  import opened ErrorConstants
  import opened CustomErrors

  /** The JSON body of an error response (`ApiErrorResponse`). */
  datatype ErrorBody = ErrorBody(
    error: string,
    message: string,
    errors: Option<seq<ZodIssue>>,
    errorCode: ErrorCode,
    statusCode: int,
    details: Option<Detail>)

  datatype ErrorResponse = ErrorResponse(status: int, body: ErrorBody)

  /** A body for `code` whose HTTP status is the code's own status. */
  function CodeResponse(code: ErrorCode, error: string, message: string,
                        errors: Option<seq<ZodIssue>>, details: Option<Detail>): (r: ErrorResponse)
    ensures r.status == r.body.statusCode == GetErrorStatus(code) && r.body.errorCode == code
  {
    ErrorResponse(GetErrorStatus(code), ErrorBody(error, message, errors, code, GetErrorStatus(code), details))
  }

  /** A message Prisma produces when the database cannot be reached. */
  predicate MentionsConnectionFailure(message: string) {
    Contains(message, "Can't reach database server") || Contains(message, "P1001")
  }

  /** A message Prisma produces when a table is missing. */
  predicate MentionsMissingTable(message: string) {
    Contains(message, "does not exist") || Contains(message, "Table")
  }

  /** `handleApiError`: schema-validation errors first, then the API's own
      errors, then other `Error`s by their message (a connection failure
      before a missing table), and anything else as an unknown error.
      `development` stands for `NODE_ENV === "development"`. */
  function HandleApiError(error: Thrown, development: bool): (r: ErrorResponse)
    // every response's HTTP status is the status in its body
    ensures r.status == r.body.statusCode
    ensures error.ApiErr? ==> error.apiError.WellFormed() ==> r.status == GetErrorStatus(r.body.errorCode)
    ensures !error.ApiErr? ==> r.status == GetErrorStatus(r.body.errorCode)
    // details are disclosed in development only
    ensures !development ==> r.body.details.None?
    ensures error.ZodErr? ==>
      && r.body.errorCode == ValidationError && r.status == 400
      && r.body.message == "Invalid request data" && r.body.errors == Some(error.issues)
    ensures error.ApiErr? ==>
      && r.body.errorCode == error.apiError.code && r.status == error.apiError.statusCode
      && r.body.message == error.apiError.message
      && (development ==> r.body.details == error.apiError.details)
    ensures error.PlainErr? && MentionsConnectionFailure(error.message) ==>
      r.body.errorCode == DatabaseConnectionFailed && r.status == 503
    ensures error.PlainErr? && !MentionsConnectionFailure(error.message) && MentionsMissingTable(error.message) ==>
      r.body.errorCode == DatabaseSchemaMismatch && r.status == 500
    ensures error.PlainErr? && !MentionsConnectionFailure(error.message) && !MentionsMissingTable(error.message) ==>
      r.body.errorCode == InternalServerError && r.status == 500 && r.body.message == error.message
    ensures error.NonErr? ==> r.body.errorCode == UnknownError && r.status == 500
    ensures !error.ZodErr? ==> r.body.errors.None?
  {
    match error
    case ZodErr(issues) =>
      CodeResponse(ValidationError, GetErrorMessage(ValidationError), "Invalid request data", Some(issues), None)
    case ApiErr(e) =>
      ErrorResponse(e.statusCode, ErrorBody(e.message, e.message, None, e.code, e.statusCode,
                                            if development then e.details else None))
    case PlainErr(name, message, stack) =>
      if MentionsConnectionFailure(message) then
        CodeResponse(DatabaseConnectionFailed, GetErrorMessage(DatabaseConnectionFailed),
                     GetErrorMessage(DatabaseConnectionFailed), None,
                     if development then Some(Info(message)) else None)
      else if MentionsMissingTable(message) then
        CodeResponse(DatabaseSchemaMismatch, GetErrorMessage(DatabaseSchemaMismatch),
                     GetErrorMessage(DatabaseSchemaMismatch), None, None)
      else
        CodeResponse(InternalServerError, GetErrorMessage(InternalServerError), message, None,
                     if development then Some(NameAndStack(name, stack)) else None)
    case NonErr(_) =>
      CodeResponse(UnknownError, GetErrorMessage(UnknownError), GetErrorMessage(UnknownError), None, None)
  }

  /** The status of an `ApiError` built anywhere in the project survives the
      classification: an error raised with code `c` is answered with
      `getErrorStatus(c)`. */
  lemma ConstructedErrorKeepsCodeStatus(cls: ErrorClass, code: ErrorCode, message: Option<string>,
                                         details: Option<Detail>, development: bool)
    ensures HandleApiError(ApiErr(NewApiError(cls, code, message, details)), development).status == GetErrorStatus(code)
    ensures HandleApiError(ApiErr(NewApiError(cls, code, message, details)), development).body.errorCode == code
  {
  }

  /** `unauthorizedResponse`. */
  function UnauthorizedResponse(message: Option<string>): (r: ErrorResponse)
    ensures r.status == r.body.statusCode == 401 && r.body.errorCode == Unauthorized
    ensures r.body.error == r.body.message == MessageOrDefault(message, Unauthorized)
    ensures r.body.details.None? && r.body.errors.None?
  {
    var text := MessageOrDefault(message, Unauthorized);
    CodeResponse(Unauthorized, text, text, None, None)
  }

  /** `notFoundResponse`; the code defaults to NOT_FOUND. */
  function NotFoundResponse(message: Option<string>, code: Option<ErrorCode>): (r: ErrorResponse)
    ensures r.body.errorCode == code.GetOr(ErrorCode.NotFound)
    ensures r.status == r.body.statusCode == GetErrorStatus(r.body.errorCode)
    ensures code.None? ==> r.status == 404
    ensures r.body.error == r.body.message == MessageOrDefault(message, r.body.errorCode)
    ensures r.body.details.None? && r.body.errors.None?
  {
    var c := code.GetOr(ErrorCode.NotFound);
    var text := MessageOrDefault(message, c);
    CodeResponse(c, text, text, None, None)
  }
}
