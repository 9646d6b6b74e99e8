/** `ErrorHandler`: turns a thrown value into an error result with a type,
    sorts untyped `Error`s into a type by keywords in their message, and
    decides whether a failed attempt may be retried. */
module ErrorHandler {
  import opened Values
  import opened JsString

  datatype ErrorType = ApiError | NetworkError | StorageError | ValidationError | UnknownError

  /** What can be thrown: an `Error` with its message, a bare string, or any
      other value. */
  datatype Thrown = ErrorObject(message: string) | StringValue(text: string) | OtherValue

  /** `ErrorResult`; `success` is always `false`. */
  datatype ErrorResult = ErrorResult(success: bool, error: string, errorType: ErrorType, retryable: bool)

  /** `MAX_RETRY_ATTEMPTS`. */
  const MaxRetryAttempts := 3
  const UnknownMessage := "Unknown error occurred"

  /** Membership in `RETRYABLE_ERRORS`. */
  predicate Retryable(t: ErrorType) {
    t == NetworkError || t == ApiError
  }

  /** `categorizeError`: the first keyword rule that the lower-cased message
      matches, in the order network, API, storage, validation. */
  function Categorize(message: string): (t: ErrorType)
    ensures var m := ToLower(message);
      var network := Includes(m, "network") || Includes(m, "fetch");
      var api := Includes(m, "api") || Includes(m, "server");
      var storage := Includes(m, "storage") || Includes(m, "quota");
      var validation := Includes(m, "validation") || Includes(m, "invalid");
      && (t == NetworkError <==> network)
      && (t == ApiError <==> !network && api)
      && (t == StorageError <==> !network && !api && storage)
      && (t == ValidationError <==> !network && !api && !storage && validation)
      && (t == UnknownError <==> !network && !api && !storage && !validation)
  {
    var m := ToLower(message);
    if Includes(m, "network") || Includes(m, "fetch") then NetworkError
    else if Includes(m, "api") || Includes(m, "server") then ApiError
    else if Includes(m, "storage") || Includes(m, "quota") then StorageError
    else if Includes(m, "validation") || Includes(m, "invalid") then ValidationError
    else UnknownError
  }

  /** Lower-casing twice changes nothing more. */
  lemma ToLowerIdempotent(s: string)
    ensures ToLower(ToLower(s)) == ToLower(s)
  {
    forall i | 0 <= i < |s| ensures ToLower(ToLower(s))[i] == ToLower(s)[i] {
      var c := s[i];
      assert 'A' <= ToLowerChar(c) <= 'Z' ==> false;
    }
  }

  /** Categorisation ignores the case of ASCII letters. */
  lemma CategorizeIgnoresCase(message: string)
    ensures Categorize(ToLower(message)) == Categorize(message)
  {
    ToLowerIdempotent(message);
  }

  /** `handleError`: an `Error` keeps its message and takes the given type,
      or else its category; a string keeps its text and takes the given type,
      or else the unknown type; anything else is the generic unknown error,
      whatever type is given. The result is retryable exactly when its type
      is. */
  function HandleError(error: Thrown, errorType: Option<ErrorType>): (r: ErrorResult)
    ensures !r.success
    ensures r.retryable <==> Retryable(r.errorType)
    ensures error.ErrorObject? ==>
      r.error == error.message && r.errorType == errorType.GetOr(Categorize(error.message))
    ensures error.StringValue? ==>
      r.error == error.text && r.errorType == errorType.GetOr(UnknownError)
    ensures error.OtherValue? ==> r.error == UnknownMessage && r.errorType == UnknownError
  {
    var (message, finalType) := match error
      case ErrorObject(m) => (m, if errorType.Some? then errorType.value else Categorize(m))
      case StringValue(s) => (s, errorType.GetOr(UnknownError))
      case OtherValue => (UnknownMessage, UnknownError);
    ErrorResult(false, message, finalType, Retryable(finalType))
  }

  /** `shouldRetry`: a retryable type while fewer than the maximum attempts
      have been made. */
  function ShouldRetry(errorType: ErrorType, currentAttempt: int): (b: bool)
    ensures b ==> Retryable(errorType) && currentAttempt < MaxRetryAttempts
  {
    Retryable(errorType) && currentAttempt < MaxRetryAttempts
  }

  /** A retryable type is retried on attempts 0, 1 and 2 and on no later
      attempt; any other type is never retried. */
  lemma RetryWindow(errorType: ErrorType, currentAttempt: nat)
    ensures ShouldRetry(errorType, currentAttempt) <==> Retryable(errorType) && currentAttempt <= 2
  {
  }

  /** A typed error is retried exactly when `handleError` marks it
      retryable and attempts remain. */
  lemma RetryAgreesWithHandleError(error: Thrown, errorType: ErrorType, currentAttempt: int)
    requires !error.OtherValue?
    ensures ShouldRetry(errorType, currentAttempt)
      <==> HandleError(error, Some(errorType)).retryable && currentAttempt < MaxRetryAttempts
  {
  }

  /** `getUserFriendlyMessage`: the Korean message shown for each type. */
  function UserFriendlyMessage(errorType: ErrorType): string {
    match errorType
    case ApiError => "서비스에 일시적인 문제가 발생했습니다. 잠시 후 다시 시도해주세요."
    case NetworkError => "네트워크 연결을 확인하고 다시 시도해주세요."
    case StorageError => "데이터 저장 중 문제가 발생했습니다."
    case ValidationError => "입력된 정보를 확인해주세요."
    case UnknownError => "알 수 없는 오류가 발생했습니다."
  }

  /** Each type has its own message. */
  lemma UserFriendlyMessageInjective(a: ErrorType, b: ErrorType)
    requires UserFriendlyMessage(a) == UserFriendlyMessage(b)
    ensures a == b
  {
  }
}
