/** The API's error vocabulary: every error code, the category it belongs to,
    the HTTP status it is answered with and its default message, kept as three
    tables keyed by code, and the three lookups over them. */
module ErrorConstants {

  datatype ErrorCode =
    // validation
    | ValidationError | InvalidRequestBody | InvalidQueryParam | InvalidUrl | MissingRequiredField
    // authentication
    | Unauthorized | InvalidCredentials | SessionExpired
    // authorization
    | Forbidden | InsufficientPermissions | NotRoomMember | NotRoomCreator
    // lookups that found nothing
    | NotFound | UserNotFound | RoomNotFound | StreamNotFound | ResourceNotFound
    // business rules
    | AlreadyExists | UserAlreadyExists | AlreadyMember | InvalidOperation | YoutubeIdExtractionFailed
    // database
    | DatabaseError | DatabaseConnectionFailed | DatabaseSchemaMismatch
    // everything else
    | InternalServerError | UnknownError

  datatype ErrorCategory =
    Validation | Authentication | Authorization | NotFound | BusinessLogic | Database | Internal

  const ERROR_STATUS_MAP: map<ErrorCode, int> := map[
    ValidationError := 400, InvalidRequestBody := 400, InvalidQueryParam := 400,
    InvalidUrl := 400, MissingRequiredField := 400,
    Unauthorized := 401, InvalidCredentials := 401, SessionExpired := 401,
    Forbidden := 403, InsufficientPermissions := 403, NotRoomMember := 403, NotRoomCreator := 403,
    ErrorCode.NotFound := 404, UserNotFound := 404, RoomNotFound := 404,
    StreamNotFound := 404, ResourceNotFound := 404,
    AlreadyExists := 400, UserAlreadyExists := 400, AlreadyMember := 400,
    InvalidOperation := 400, YoutubeIdExtractionFailed := 400,
    DatabaseError := 500, DatabaseConnectionFailed := 503, DatabaseSchemaMismatch := 500,
    InternalServerError := 500, UnknownError := 500
  ]

  const ERROR_CATEGORY_MAP: map<ErrorCode, ErrorCategory> := map[
    ValidationError := Validation, InvalidRequestBody := Validation, InvalidQueryParam := Validation,
    InvalidUrl := Validation, MissingRequiredField := Validation,
    Unauthorized := Authentication, InvalidCredentials := Authentication, SessionExpired := Authentication,
    Forbidden := Authorization, InsufficientPermissions := Authorization,
    NotRoomMember := Authorization, NotRoomCreator := Authorization,
    ErrorCode.NotFound := ErrorCategory.NotFound, UserNotFound := ErrorCategory.NotFound,
    RoomNotFound := ErrorCategory.NotFound, StreamNotFound := ErrorCategory.NotFound,
    ResourceNotFound := ErrorCategory.NotFound,
    AlreadyExists := BusinessLogic, UserAlreadyExists := BusinessLogic, AlreadyMember := BusinessLogic,
    InvalidOperation := BusinessLogic, YoutubeIdExtractionFailed := BusinessLogic,
    DatabaseError := Database, DatabaseConnectionFailed := Database, DatabaseSchemaMismatch := Database,
    InternalServerError := Internal, UnknownError := Internal
  ]

  const ERROR_MESSAGES: map<ErrorCode, string> := map[
    ValidationError := "Validation error",
    InvalidRequestBody := "Invalid request body",
    InvalidQueryParam := "Invalid query parameter",
    InvalidUrl := "Invalid URL",
    MissingRequiredField := "Missing required field",
    Unauthorized := "Unauthorized",
    InvalidCredentials := "Invalid credentials",
    SessionExpired := "Session expired",
    Forbidden := "Forbidden",
    InsufficientPermissions := "Insufficient permissions",
    NotRoomMember := "You must be a member of the room",
    NotRoomCreator := "Only the room creator can perform this action",
    ErrorCode.NotFound := "Resource not found",
    UserNotFound := "User not found",
    RoomNotFound := "Room not found",
    StreamNotFound := "Stream not found",
    ResourceNotFound := "Resource not found",
    AlreadyExists := "Resource already exists",
    UserAlreadyExists := "User with this email already exists",
    AlreadyMember := "User is already a member of this room",
    InvalidOperation := "Invalid operation",
    YoutubeIdExtractionFailed := "Invalid YouTube URL or could not extract video ID",
    DatabaseError := "Database error",
    DatabaseConnectionFailed := "Unable to connect to the database. Please check if your database is active.",
    DatabaseSchemaMismatch := "Database tables not initialized. Please run migrations.",
    InternalServerError := "Internal server error",
    UnknownError := "An unexpected error occurred"
  ]

  /** The status every code of a category shares; DATABASE_CONNECTION_FAILED
      is the one code that departs from its category's status. */
  function CategoryStatus(category: ErrorCategory): int {
    match category
    case Validation => 400
    case BusinessLogic => 400
    case Authentication => 401
    case Authorization => 403
    case NotFound => 404
    case Database => 500
    case Internal => 500
  }

  /** Every code has an entry in each of the three tables. */
  lemma StatusTableIsTotal(code: ErrorCode)
    ensures code in ERROR_STATUS_MAP
  {
    match code
    case ValidationError =>
    case InvalidRequestBody =>
    case InvalidQueryParam =>
    case InvalidUrl =>
    case MissingRequiredField =>
    case Unauthorized =>
    case InvalidCredentials =>
    case SessionExpired =>
    case Forbidden =>
    case InsufficientPermissions =>
    case NotRoomMember =>
    case NotRoomCreator =>
    case NotFound =>
    case UserNotFound =>
    case RoomNotFound =>
    case StreamNotFound =>
    case ResourceNotFound =>
    case AlreadyExists =>
    case UserAlreadyExists =>
    case AlreadyMember =>
    case InvalidOperation =>
    case YoutubeIdExtractionFailed =>
    case DatabaseError =>
    case DatabaseConnectionFailed =>
    case DatabaseSchemaMismatch =>
    case InternalServerError =>
    case UnknownError =>
  }

  lemma CategoryTableIsTotal(code: ErrorCode)
    ensures code in ERROR_CATEGORY_MAP
  {
    match code
    case ValidationError =>
    case InvalidRequestBody =>
    case InvalidQueryParam =>
    case InvalidUrl =>
    case MissingRequiredField =>
    case Unauthorized =>
    case InvalidCredentials =>
    case SessionExpired =>
    case Forbidden =>
    case InsufficientPermissions =>
    case NotRoomMember =>
    case NotRoomCreator =>
    case NotFound =>
    case UserNotFound =>
    case RoomNotFound =>
    case StreamNotFound =>
    case ResourceNotFound =>
    case AlreadyExists =>
    case UserAlreadyExists =>
    case AlreadyMember =>
    case InvalidOperation =>
    case YoutubeIdExtractionFailed =>
    case DatabaseError =>
    case DatabaseConnectionFailed =>
    case DatabaseSchemaMismatch =>
    case InternalServerError =>
    case UnknownError =>
  }

  lemma MessageTableIsTotal(code: ErrorCode)
    ensures code in ERROR_MESSAGES
  {
    match code
    case ValidationError =>
    case InvalidRequestBody =>
    case InvalidQueryParam =>
    case InvalidUrl =>
    case MissingRequiredField =>
    case Unauthorized =>
    case InvalidCredentials =>
    case SessionExpired =>
    case Forbidden =>
    case InsufficientPermissions =>
    case NotRoomMember =>
    case NotRoomCreator =>
    case NotFound =>
    case UserNotFound =>
    case RoomNotFound =>
    case StreamNotFound =>
    case ResourceNotFound =>
    case AlreadyExists =>
    case UserAlreadyExists =>
    case AlreadyMember =>
    case InvalidOperation =>
    case YoutubeIdExtractionFailed =>
    case DatabaseError =>
    case DatabaseConnectionFailed =>
    case DatabaseSchemaMismatch =>
    case InternalServerError =>
    case UnknownError =>
  }

  /** `getErrorCategory`. */
  function GetErrorCategory(code: ErrorCode): (category: ErrorCategory)
    ensures code in ERROR_CATEGORY_MAP && category == ERROR_CATEGORY_MAP[code]
  {
    CategoryTableIsTotal(code);
    ERROR_CATEGORY_MAP[code]
  }

  /** `getErrorStatus`: the status is the one of the code's category, except
      for DATABASE_CONNECTION_FAILED, which is 503. */
  function GetErrorStatus(code: ErrorCode): (status: int)
    ensures status == if code == DatabaseConnectionFailed then 503 else CategoryStatus(GetErrorCategory(code))
  {
    StatusTableIsTotal(code);
    ERROR_STATUS_MAP[code]
  }

  /** `getErrorMessage`: a default message, never empty. */
  function GetErrorMessage(code: ErrorCode): (message: string)
    ensures code in ERROR_MESSAGES && message == ERROR_MESSAGES[code]
    ensures message != ""
  {
    MessageTableIsTotal(code);
    ERROR_MESSAGES[code]
  }

  /** The answer is 404 exactly for the codes of the NOT_FOUND category. */
  lemma StatusNotFoundIffCategoryNotFound(code: ErrorCode)
    ensures GetErrorStatus(code) == 404 <==> GetErrorCategory(code) == ErrorCategory.NotFound
  {
  }

  /** 503 belongs to DATABASE_CONNECTION_FAILED alone; the other database
      codes are answered with 500. */
  lemma ServiceUnavailableOnlyForConnectionFailure(code: ErrorCode)
    ensures GetErrorStatus(code) == 503 <==> code == DatabaseConnectionFailed
    ensures GetErrorCategory(code) == Database && code != DatabaseConnectionFailed ==> GetErrorStatus(code) == 500
  {
    var category := GetErrorCategory(code);
    assert CategoryStatus(category) <= 500 by {
      match category
      case Validation =>
      case BusinessLogic =>
      case Authentication =>
      case Authorization =>
      case NotFound =>
      case Database =>
      case Internal =>
    }
  }

  /** Every status in the table is a client or server error status. */
  lemma StatusIsAnErrorStatus(code: ErrorCode)
    ensures GetErrorStatus(code) in {400, 401, 403, 404, 500, 503}
  {
  }
}
