/** Error handling: the application error record, classification of thrown
    errors, user-facing messages, recovery suggestions, and the wrapping done
    by `addError`, `handleAsync` and `retry`.  What the wrapped operation does
    is a parameter: the outcome of its k-th call. */
module Errors {
  import opened Common

  datatype ErrorType =
    | Network | Api | Validation | Authentication | Authorization | NotFound | Server | Unknown

  datatype Severity = Low | Medium | High | Critical

  /** A thrown value: either a plain error object, with its `name`,
      `message`, `status` and `response.status`, or an application error. */
  datatype Raised =
    | Plain(name: string, message: Option<string>, status: Option<int>, responseStatus: Option<int>)
    | App(error: AppError)

  datatype Details = Details(originalError: Option<Raised>, attempts: Option<int>)

  datatype AppError = AppError(text: string, errorType: ErrorType, severity: Severity, details: Details)

  const NoDetails: Details := Details(None, None)

  /** `new AppError(message, type, severity, details)` with the constructor's defaults. */
  function NewAppError(message: string, errorType: Option<ErrorType>, severity: Option<Severity>, details: Option<Details>)
    : (r: AppError)
    ensures r.text == message
    ensures r.errorType == (if errorType.Some? then errorType.value else Unknown)
    ensures r.severity == (if severity.Some? then severity.value else Medium)
    ensures r.details == (if details.Some? then details.value else NoDetails)
  {
    AppError(
      message,
      if errorType.Some? then errorType.value else Unknown,
      if severity.Some? then severity.value else Medium,
      if details.Some? then details.value else NoDetails)
  }

  // ---------------------------------------------------------------------------
  // Classification

  function NameOf(e: Raised): string {
    if e.Plain? then e.name else "AppError"
  }

  function MessageOf(e: Raised): Option<string> {
    if e.Plain? then e.message else Some(e.error.text)
  }

  /** `error.message?.includes(word)`. */
  predicate MessageMentions(e: Raised, word: string) {
    MessageOf(e).Some? && Includes(MessageOf(e).value, word)
  }

  predicate LooksLikeNetwork(e: Raised) {
    NameOf(e) == "NetworkError" || MessageMentions(e, "fetch")
  }

  predicate LooksLikeValidation(e: Raised) {
    NameOf(e) == "ValidationError" || MessageMentions(e, "validation")
  }

  /** `error.status || error.response?.status`: the first status that is present and not 0. */
  function StatusOf(e: Raised): (r: Option<int>)
    ensures r.Some? ==> r.value != 0
    ensures e.App? ==> r.None?
    ensures e.Plain? && e.status.Some? && e.status.value != 0 ==> r == e.status
    ensures e.Plain? && !(e.status.Some? && e.status.value != 0) ==>
              r == (if e.responseStatus.Some? && e.responseStatus.value != 0 then e.responseStatus else None)
  {
    if e.Plain? && e.status.Some? && e.status.value != 0 then e.status
    else if e.Plain? && e.responseStatus.Some? && e.responseStatus.value != 0 then e.responseStatus
    else None
  }

  /** The type a status code selects, if any; codes below 400 select none. */
  function StatusType(status: int): (r: Option<ErrorType>)
    ensures r.None? <==> status < 400
    ensures r.Some? ==> r.value in {Authentication, Authorization, NotFound, Server, Api}
    ensures status == 401 ==> r == Some(Authentication)
    ensures status == 403 ==> r == Some(Authorization)
    ensures status == 404 ==> r == Some(NotFound)
    ensures status >= 500 ==> r == Some(Server)
    ensures 400 <= status < 500 && status !in {401, 403, 404} ==> r == Some(Api)
  {
    if status == 401 then Some(Authentication)
    else if status == 403 then Some(Authorization)
    else if status == 404 then Some(NotFound)
    else if status >= 500 then Some(Server)
    else if status >= 400 then Some(Api)
    else None
  }

  /** `getErrorType`: network markers first, then the status code, then validation markers. */
  function GetErrorType(e: Option<Raised>): (r: ErrorType)
    ensures e.None? ==> r == Unknown
    ensures r == Network <==> e.Some? && LooksLikeNetwork(e.value)
    ensures e.Some? && !LooksLikeNetwork(e.value) && StatusOf(e.value).Some? ==>
              (StatusOf(e.value).value == 401 ==> r == Authentication)
              && (StatusOf(e.value).value == 403 ==> r == Authorization)
              && (StatusOf(e.value).value == 404 ==> r == NotFound)
              && (StatusOf(e.value).value >= 500 ==> r == Server)
              && (400 <= StatusOf(e.value).value < 500 && StatusOf(e.value).value !in {401, 403, 404} ==> r == Api)
    ensures r == Validation <==>
              e.Some? && !LooksLikeNetwork(e.value)
              && (StatusOf(e.value).None? || StatusOf(e.value).value < 400)
              && LooksLikeValidation(e.value)
    ensures r == Unknown <==>
              e.None? || (!LooksLikeNetwork(e.value)
                          && (StatusOf(e.value).None? || StatusOf(e.value).value < 400)
                          && !LooksLikeValidation(e.value))
  {
    match e
    case None => Unknown
    case Some(err) =>
      if LooksLikeNetwork(err) then Network
      else if StatusOf(err).Some? && StatusType(StatusOf(err).value).Some? then StatusType(StatusOf(err).value).value
      else if LooksLikeValidation(err) then Validation
      else Unknown
  }

  // ---------------------------------------------------------------------------
  // Messages and recovery actions

  function TypeOf(e: Raised): Option<ErrorType> {
    if e.App? then Some(e.error.errorType) else None
  }

  /** `error.message || fallback`. */
  function MessageOr(e: Raised, fallback: string): string
  {
    if Truthy(MessageOf(e)) then MessageOf(e).value else fallback
  }

  const UnknownErrorText := "An unknown error occurred"

  /** The types whose message is a fixed text, whatever the error says. */
  const FixedTextTypes: set<ErrorType> := {Network, Authentication, Authorization, NotFound, Server}

  const NetworkText := "Network connection error. Please check your internet connection and try again."
  const AuthenticationText := "Authentication failed. Please log in again."
  const AuthorizationText := "You do not have permission to perform this action."
  const NotFoundText := "The requested resource was not found."
  const ServerText := "Server error. Please try again later."
  const ValidationText := "Invalid input. Please check your data and try again."
  const ApiText := "API error. Please try again."
  const UnexpectedText := "An unexpected error occurred."

  /** The text for an error type: the fixed message of a type in
      `FixedTextTypes`, the fallback message of any other. */
  function TypeText(t: Option<ErrorType>): (r: string)
    ensures r != ""
    ensures t == Some(Network) ==> r == NetworkText
    ensures t == Some(Authentication) ==> r == AuthenticationText
    ensures t == Some(Authorization) ==> r == AuthorizationText
    ensures t == Some(NotFound) ==> r == NotFoundText
    ensures t == Some(Server) ==> r == ServerText
    ensures t == Some(Validation) ==> r == ValidationText
    ensures t == Some(Api) ==> r == ApiText
    ensures t.None? || t == Some(Unknown) ==> r == UnexpectedText
  {
    match t
    case Some(Network) => NetworkText
    case Some(Authentication) => AuthenticationText
    case Some(Authorization) => AuthorizationText
    case Some(NotFound) => NotFoundText
    case Some(Server) => ServerText
    case Some(Validation) => ValidationText
    case Some(Api) => ApiText
    case _ => UnexpectedText
  }

  /** `formatErrorMessage`. */
  function FormatErrorMessage(e: Option<Raised>): (r: string)
    ensures e.None? ==> r == UnknownErrorText
    ensures r != ""
    ensures e.Some? && TypeOf(e.value).Some? && TypeOf(e.value).value in FixedTextTypes ==>
              r == TypeText(TypeOf(e.value))
    ensures e.Some? && (TypeOf(e.value).None? || TypeOf(e.value).value !in FixedTextTypes) && Truthy(MessageOf(e.value)) ==>
              r == MessageOf(e.value).value
    ensures e.Some? && (TypeOf(e.value).None? || TypeOf(e.value).value !in FixedTextTypes) && !Truthy(MessageOf(e.value)) ==>
              r == TypeText(TypeOf(e.value))
  {
    match e
    case None => UnknownErrorText
    case Some(err) =>
      var t := TypeOf(err);
      if t.Some? && t.value in FixedTextTypes then TypeText(t) else MessageOr(err, TypeText(t))
  }

  /** The same error with its message replaced. */
  function Retext(e: Raised, m: string): Raised {
    if e.App? then App(e.error.(text := m)) else e.(message := Some(m))
  }

  /** For the fixed-text types the message shown does not depend on the error's own message. */
  lemma FixedTextsIgnoreMessage(e: Raised, m: string)
    requires TypeOf(e).Some? && TypeOf(e).value in FixedTextTypes
    ensures FormatErrorMessage(Some(Retext(e, m))) == FormatErrorMessage(Some(e))
    ensures FormatErrorMessage(Some(e)) == TypeText(TypeOf(e))
  {
  }

  datatype RecoveryAction = CheckConnection | Retry | RefreshPage | LogIn | GoBack | GoHome

  /** `getErrorRecoveryActions`, for the error's type (an error without one takes the default list). */
  function RecoveryActions(e: Raised): (r: seq<RecoveryAction>)
    ensures |r| >= 2
    ensures Retry in r <==> TypeOf(e) !in {Some(Authentication), Some(NotFound)}
    ensures RefreshPage in r <==> TypeOf(e) != Some(NotFound)
    ensures CheckConnection in r <==> TypeOf(e) == Some(Network)
    ensures LogIn in r <==> TypeOf(e) == Some(Authentication)
    ensures GoBack in r <==> TypeOf(e) == Some(NotFound)
    ensures GoHome in r <==> TypeOf(e) == Some(NotFound)
    ensures |r| == (if TypeOf(e) == Some(Network) then 3 else 2)
    ensures r[0] == (if TypeOf(e) == Some(Network) then CheckConnection
                     else if TypeOf(e) == Some(Authentication) then LogIn
                     else if TypeOf(e) == Some(NotFound) then GoBack
                     else Retry)
    ensures r[|r| - 1] == (if TypeOf(e) == Some(NotFound) then GoHome else RefreshPage)
  {
    match TypeOf(e)
    case Some(Network) => [CheckConnection, Retry, RefreshPage]
    case Some(Authentication) => [LogIn, RefreshPage]
    case Some(NotFound) => [GoBack, GoHome]
    case Some(Server) => [Retry, RefreshPage]
    case Some(Api) => [Retry, RefreshPage]
    case _ => [Retry, RefreshPage]
  }

  // ---------------------------------------------------------------------------
  // Wrapping

  /** `addError`: an application error is kept as it is; anything else is
      wrapped with medium severity, the classified type and the original error. */
  function WrapError(e: Raised): (r: AppError)
    ensures e.App? ==> r == e.error
    ensures e.Plain? ==>
              && r.severity == Medium
              && r.errorType == GetErrorType(Some(e))
              && r.details == Details(Some(e), None)
              && r.text == (if Truthy(e.message) then e.message.value else "An unexpected error occurred")
    ensures r.text != "" || (e.App? && e.error.text == "")
  {
    if e.App? then e.error
    else NewAppError(MessageOr(e, "An unexpected error occurred"), Some(GetErrorType(Some(e))), Some(Medium),
                     Some(Details(Some(e), None)))
  }

  /** The outcome of one call of the wrapped operation. */
  datatype Attempt<T> = Succeeded(value: T) | Failed(error: Raised)

  /** How an operation run under `handleAsync` or `retry` ends. */
  datatype Outcome<T> = Returned(value: T) | Threw(error: AppError) | Finished

  /** `handleAsync`: a failure is rethrown as a medium-severity application
      error carrying the given message (by default "Operation failed"). */
  function HandleAsync<T>(attempt: Attempt<T>, errorMessage: Option<string>): (r: Outcome<T>)
    ensures attempt.Succeeded? ==> r == Returned(attempt.value)
    ensures attempt.Failed? ==>
              && r.Threw?
              && r.error.severity == Medium
              && r.error.errorType == GetErrorType(Some(attempt.error))
              && r.error.details.originalError == Some(attempt.error)
              && r.error.details.attempts == None
              && r.error.text == (if errorMessage.Some? then errorMessage.value else "Operation failed")
  {
    match attempt
    case Succeeded(v) => Returned(v)
    case Failed(err) =>
      Threw(NewAppError(if errorMessage.Some? then errorMessage.value else "Operation failed",
                        Some(GetErrorType(Some(err))), Some(Medium), Some(Details(Some(err), None))))
  }

  const DefaultMaxRetries: int := 3
  const DefaultDelay: int := 1000

  /** The error `retry` throws once every attempt has failed. */
  function RetriesExhausted(maxRetries: nat, last: Raised): AppError {
    AppError("Operation failed after " + NatToString(maxRetries) + " attempts",
             GetErrorType(Some(last)), High, Details(Some(last), Some(maxRetries)))
  }

  /** `retry`: call the operation up to `maxRetries` times, waiting
      `delay * k` after the k-th failure when another attempt follows.
      `outcome(k)` is what the k-th call does; `waits` lists the waits in order. */
  method RetryOperation<T>(outcome: int -> Attempt<T>, maxRetriesArg: Option<int>, delayArg: Option<int>)
    returns (result: Outcome<T>, calls: nat, waits: seq<int>)
    ensures var maxRetries := if maxRetriesArg.Some? then maxRetriesArg.value else DefaultMaxRetries;
            && (maxRetries < 1 ==> result == Finished && calls == 0 && waits == [])
            && (maxRetries >= 1 ==> 1 <= calls <= maxRetries && !result.Finished?)
            && (forall k :: 1 <= k < calls ==> outcome(k).Failed?)
            && (maxRetries >= 1 ==> outcome(calls).Succeeded? || calls == maxRetries)
            && (result.Returned? <==> calls >= 1 && outcome(calls).Succeeded?)
            && (result.Returned? ==> result.value == outcome(calls).value)
            && (result.Threw? <==> maxRetries >= 1 && forall k :: 1 <= k <= maxRetries ==> outcome(k).Failed?)
            && (result.Threw? ==> calls == maxRetries
                                  && result.error == RetriesExhausted(maxRetries, outcome(maxRetries).error))
    ensures var delay := if delayArg.Some? then delayArg.value else DefaultDelay;
            && |waits| == (if calls == 0 then 0 else calls - 1)
            && forall k :: 0 <= k < |waits| ==> waits[k] == delay * (k + 1)
  {
    var maxRetries := if maxRetriesArg.Some? then maxRetriesArg.value else DefaultMaxRetries;
    var delay := if delayArg.Some? then delayArg.value else DefaultDelay;
    calls, waits := 0, [];
    var attempt := 1;
    while attempt <= maxRetries
      invariant 1 <= attempt
      invariant maxRetries >= 1 ==> attempt <= maxRetries
      invariant maxRetries < 1 ==> attempt == 1
      invariant calls == attempt - 1
      invariant forall k :: 1 <= k < attempt ==> outcome(k).Failed?
      invariant |waits| == calls
      invariant forall k :: 0 <= k < |waits| ==> waits[k] == delay * (k + 1)
      decreases maxRetries - attempt
    {
      calls := calls + 1;
      match outcome(attempt)
      case Succeeded(v) =>
        return Returned(v), calls, waits;
      case Failed(err) =>
        if attempt == maxRetries {
          return Threw(RetriesExhausted(maxRetries, err)), calls, waits;
        }
        waits := waits + [delay * attempt];
      attempt := attempt + 1;
    }
    return Finished, calls, waits;
  }
}
