/** The API's error objects. `ApiError` derives its status and category from
    its code and falls back to the code's default message; each subclass fixes
    or defaults the code. A thrown JavaScript value is one of the shapes of
    `Thrown`, which is what the type guards inspect. */
module CustomErrors {
  import opened Wrappers
  import opened Text
  import opened ErrorConstants

  /** The `details` an error may carry, in the shapes the modelled callers use. */
  datatype Detail =
    | Info(text: string)
    | MissingParams(params: map<string, string>, missingKeys: seq<string>)
    | MissingHeaders(missingHeaders: seq<string>)
    | NameAndStack(errorName: string, stack: Option<string>)

  /** The classes of the hierarchy; `name` is the class name (`this.constructor.name`). */
  datatype ErrorClass =
    | ApiErrorClass | ValidationErrorClass | AuthenticationErrorClass | AuthorizationErrorClass
    | NotFoundErrorClass | BusinessLogicErrorClass | DatabaseErrorClass | InternalServerErrorClass
  {
    function Name(): string {
      match this
      case ApiErrorClass => "ApiError"
      case ValidationErrorClass => "ValidationError"
      case AuthenticationErrorClass => "AuthenticationError"
      case AuthorizationErrorClass => "AuthorizationError"
      case NotFoundErrorClass => "NotFoundError"
      case BusinessLogicErrorClass => "BusinessLogicError"
      case DatabaseErrorClass => "DatabaseError"
      case InternalServerErrorClass => "InternalServerError"
    }
  }

  datatype ApiError = ApiError(
    name: string,
    code: ErrorCode,
    message: string,
    statusCode: int,
    category: ErrorCategory,
    details: Option<Detail>)
  {
    /** What the constructor guarantees of every instance. */
    predicate WellFormed() {
      statusCode == GetErrorStatus(code) && category == GetErrorCategory(code) && message != ""
    }
  }

  /** What `toJSON` produces. */
  datatype ApiErrorJson = ApiErrorJson(
    name: string,
    code: ErrorCode,
    message: string,
    statusCode: int,
    category: ErrorCategory,
    details: Option<Detail>)

  /** An issue reported by a schema validation. */
  datatype ZodIssue = ZodIssue(path: seq<string>, message: string)

  /** A thrown value, as `handleApiError` and the type guards see it. */
  datatype Thrown =
    | ApiErr(apiError: ApiError)
    | ZodErr(issues: seq<ZodIssue>)
    | PlainErr(errorName: string, message: string, stack: Option<string>)
    | NonErr(repr: string)

  /** `message || getErrorMessage(code)`: an absent or empty message is replaced
      by the code's default. */
  function MessageOrDefault(message: Option<string>, code: ErrorCode): (r: string)
    ensures r != ""
    ensures message.Some? && message.value != "" ==> r == message.value
    ensures message.None? || message.value == "" ==> r == GetErrorMessage(code)
  {
    if message.Some? && message.value != "" then message.value else GetErrorMessage(code)
  }

  /** Defaulting twice is defaulting once, so the subclasses that default the
      message themselves before calling the base constructor end up with the
      message the base constructor alone would pick. */
  lemma MessageOrDefaultIdempotent(message: Option<string>, code: ErrorCode)
    ensures MessageOrDefault(Some(MessageOrDefault(message, code)), code) == MessageOrDefault(message, code)
  {
  }

  /** The `ApiError` constructor, run on behalf of class `cls`. */
  function NewApiError(cls: ErrorClass, code: ErrorCode, message: Option<string>, details: Option<Detail>): (e: ApiError)
    ensures e.name == cls.Name() && e.code == code && e.details == details
    ensures e.statusCode == GetErrorStatus(code) && e.category == GetErrorCategory(code)
    ensures e.message == MessageOrDefault(message, code) && e.WellFormed()
  {
    ApiError(cls.Name(), code, MessageOrDefault(message, code), GetErrorStatus(code), GetErrorCategory(code), details)
  }

  /** `toJSON`: the six public fields, unchanged. */
  function ToJson(e: ApiError): (j: ApiErrorJson)
    ensures j.name == e.name && j.code == e.code && j.message == e.message
    ensures j.statusCode == e.statusCode && j.category == e.category && j.details == e.details
  {
    ApiErrorJson(e.name, e.code, e.message, e.statusCode, e.category, e.details)
  }

  function NewValidationError(message: Option<string>, details: Option<Detail>): (e: ApiError)
    ensures e.code == ValidationError && e.statusCode == 400 && e.category == Validation
    ensures e.message == MessageOrDefault(message, ValidationError)
  {
    NewApiError(ValidationErrorClass, ValidationError, message, details)
  }

  function NewAuthenticationError(message: Option<string>, details: Option<Detail>): (e: ApiError)
    ensures e.code == Unauthorized && e.statusCode == 401 && e.category == Authentication
    ensures e.message == MessageOrDefault(message, Unauthorized)
  {
    MessageOrDefaultIdempotent(message, Unauthorized);
    NewApiError(AuthenticationErrorClass, Unauthorized, Some(MessageOrDefault(message, Unauthorized)), details)
  }

  /** The code defaults to FORBIDDEN when none is given. */
  function NewAuthorizationError(code: Option<ErrorCode>, message: Option<string>, details: Option<Detail>): (e: ApiError)
    ensures e.code == code.GetOr(Forbidden) && e.statusCode == GetErrorStatus(e.code)
    ensures code.None? ==> e.statusCode == 403 && e.category == Authorization
    ensures e.message == MessageOrDefault(message, e.code)
  {
    var c := code.GetOr(Forbidden);
    MessageOrDefaultIdempotent(message, c);
    NewApiError(AuthorizationErrorClass, c, Some(MessageOrDefault(message, c)), details)
  }

  /** The code defaults to NOT_FOUND when none is given. */
  function NewNotFoundError(code: Option<ErrorCode>, message: Option<string>, details: Option<Detail>): (e: ApiError)
    ensures e.code == code.GetOr(ErrorCode.NotFound) && e.statusCode == GetErrorStatus(e.code)
    ensures code.None? ==> e.statusCode == 404 && e.category == ErrorCategory.NotFound
    ensures e.message == MessageOrDefault(message, e.code)
  {
    var c := code.GetOr(ErrorCode.NotFound);
    MessageOrDefaultIdempotent(message, c);
    NewApiError(NotFoundErrorClass, c, Some(MessageOrDefault(message, c)), details)
  }

  function NewBusinessLogicError(code: ErrorCode, message: Option<string>, details: Option<Detail>): (e: ApiError)
    ensures e.code == code && e.statusCode == GetErrorStatus(code) && e.category == GetErrorCategory(code)
    ensures e.message == MessageOrDefault(message, code)
  {
    MessageOrDefaultIdempotent(message, code);
    NewApiError(BusinessLogicErrorClass, code, Some(MessageOrDefault(message, code)), details)
  }

  /** The code defaults to DATABASE_ERROR when none is given. */
  function NewDatabaseError(code: Option<ErrorCode>, message: Option<string>, details: Option<Detail>): (e: ApiError)
    ensures e.code == code.GetOr(DatabaseError) && e.statusCode == GetErrorStatus(e.code)
    ensures code.None? ==> e.statusCode == 500 && e.category == Database
    ensures e.message == MessageOrDefault(message, e.code)
  {
    var c := code.GetOr(DatabaseError);
    MessageOrDefaultIdempotent(message, c);
    NewApiError(DatabaseErrorClass, c, Some(MessageOrDefault(message, c)), details)
  }

  function NewInternalServerError(message: Option<string>, details: Option<Detail>): (e: ApiError)
    ensures e.code == InternalServerError && e.statusCode == 500 && e.category == Internal
    ensures e.message == MessageOrDefault(message, InternalServerError)
  {
    MessageOrDefaultIdempotent(message, InternalServerError);
    NewApiError(InternalServerErrorClass, InternalServerError, Some(MessageOrDefault(message, InternalServerError)), details)
  }

  /** `isApiError`. */
  predicate IsApiError(error: Thrown) {
    error.ApiErr?
  }

  /** `isErrorCode`. */
  predicate IsErrorCode(error: Thrown, code: ErrorCode) {
    IsApiError(error) && error.apiError.code == code
  }

  /** An error matches a code exactly when it is an `ApiError` built with that
      code, whichever class built it. */
  lemma IsErrorCodeIffBuiltWithCode(cls: ErrorClass, built: ErrorCode, message: Option<string>,
                                    details: Option<Detail>, code: ErrorCode)
    ensures IsErrorCode(ApiErr(NewApiError(cls, built, message, details)), code) <==> built == code
    ensures forall e: Thrown :: IsErrorCode(e, code) ==> IsApiError(e)
  {
  }
}
