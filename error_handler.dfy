/**
 * Client error classification. `handleError` maps a thrown value to a
 * user-facing message and a code along a fixed priority chain: API errors
 * by status (401, 422 with data, 5xx, any other), then `Error` objects
 * (network failures, any other), then any other value. Its two effects,
 * clearing the stored credentials and reporting to the error-tracking
 * service, are returned as an ordered effect log.
 */
module ErrorHandler {
  import opened Wrappers
  import Strings
  import N = NotificationsSlice

  /** The `data` of an API error; `detail` is `None` when missing. */
  datatype ApiErrorData = ApiErrorData(detail: Option<string>)

  /** A thrown value, by the shape `handleError` tests for. */
  datatype Thrown =
    | ApiError(status: int, data: Option<ApiErrorData>)   // any object with a `status` key, an `Error` included
    | ErrorObject(message: string)                        // an `instanceof Error` without a `status` key
    | OtherValue                                          // anything else

  datatype ErrorCode = AuthError | ValidationError | ServerError | Http(status: int) | NetworkError | UnknownError

  datatype ErrorResponse = ErrorResponse(message: string, code: ErrorCode)

  datatype Effect =
    | ClearCredentials       // `store.dispatch(clearCredentials())`
    | CaptureException(error: Thrown)  // `Sentry.captureException(error)`

  /** The outcome of `handleError`: the response and the effects, in the order they happen. */
  datatype Handled = Handled(response: ErrorResponse, effects: seq<Effect>)

  const SessionExpiredMessage := "Your session has expired. Please log in again."
  const ServerErrorMessage := "An unexpected error occurred. Our team has been notified."
  const NetworkErrorMessage := "Unable to connect to the server. Please check your internet connection."
  const UnexpectedMessage := "An unexpected error occurred"

  /** The code as the source spells it. */
  function CodeString(c: ErrorCode): string {
    match c
    case AuthError => "AUTH_ERROR"
    case ValidationError => "VALIDATION_ERROR"
    case ServerError => "SERVER_ERROR"
    case Http(s) => "HTTP_" + Strings.IntToString(s)
    case NetworkError => "NETWORK_ERROR"
    case UnknownError => "UNKNOWN_ERROR"
  }

  /** `detail || fallback`: an absent or empty detail gives the fallback. */
  function DetailOr(data: Option<ApiErrorData>, fallback: string): (m: string)
    ensures data.Some? && data.value.detail.Some? && data.value.detail.value != "" ==> m == data.value.detail.value
    ensures data.None? || data.value.detail.None? || data.value.detail.value == "" ==> m == fallback
  {
    if data.Some? && data.value.detail.Some? && data.value.detail.value != "" then data.value.detail.value
    else fallback
  }

  predicate IsNetworkMessage(message: string) {
    Strings.Contains(message, "Network") || Strings.Contains(message, "Failed to fetch")
  }

  function HandleError(e: Thrown): (h: Handled)
    // 401: the session is over; the only branch that clears credentials
    ensures e.ApiError? && e.status == 401 ==>
              h == Handled(ErrorResponse(SessionExpiredMessage, AuthError), [ClearCredentials])
    // 422 carrying data: the server's detail, else a generic validation message
    ensures e.ApiError? && e.status == 422 && e.data.Some? ==>
              h == Handled(ErrorResponse(DetailOr(e.data, "Validation error"), ValidationError), [])
    // any 5xx: reported once
    ensures e.ApiError? && e.status >= 500 ==>
              h == Handled(ErrorResponse(ServerErrorMessage, ServerError), [CaptureException(e)])
    // every other status, 422 without data included
    ensures e.ApiError? && e.status != 401 && !(e.status == 422 && e.data.Some?) && e.status < 500 ==>
              h == Handled(ErrorResponse(DetailOr(e.data, "An error occurred"), Http(e.status)), [])
    ensures e.ErrorObject? && IsNetworkMessage(e.message) ==>
              h == Handled(ErrorResponse(NetworkErrorMessage, NetworkError), [])
    ensures e.ErrorObject? && !IsNetworkMessage(e.message) ==>
              h == Handled(ErrorResponse(e.message, UnknownError), [CaptureException(e)])
    ensures e.OtherValue? ==>
              h == Handled(ErrorResponse(UnexpectedMessage, UnknownError), [CaptureException(e)])
  {
    match e
    case ApiError(status, data) =>
      if status == 401 then Handled(ErrorResponse(SessionExpiredMessage, AuthError), [ClearCredentials])
      else if status == 422 && data.Some? then
        Handled(ErrorResponse(DetailOr(data, "Validation error"), ValidationError), [])
      else if status >= 500 then Handled(ErrorResponse(ServerErrorMessage, ServerError), [CaptureException(e)])
      else Handled(ErrorResponse(DetailOr(data, "An error occurred"), Http(status)), [])
    case ErrorObject(message) =>
      if IsNetworkMessage(message) then Handled(ErrorResponse(NetworkErrorMessage, NetworkError), [])
      else Handled(ErrorResponse(message, UnknownError), [CaptureException(e)])
    case OtherValue =>
      Handled(ErrorResponse(UnexpectedMessage, UnknownError), [CaptureException(e)])
  }

  /**
   * Across all inputs: credentials are cleared iff the status is 401, at most
   * one report is sent, and a report is sent iff the value is a 5xx API error
   * or not an API error and not a network failure.
   */
  lemma HandleErrorEffects(e: Thrown)
    ensures (ClearCredentials in HandleError(e).effects) <==> (e.ApiError? && e.status == 401)
    ensures |HandleError(e).effects| <= 1
    ensures (CaptureException(e) in HandleError(e).effects) <==>
              ((e.ApiError? && e.status >= 500)
               || (e.ErrorObject? && !IsNetworkMessage(e.message))
               || e.OtherValue?)
    ensures forall x :: x in HandleError(e).effects ==> x == ClearCredentials || x == CaptureException(e)
  {
  }

  /** The code partitions the inputs along the chain; each code has exactly one kind of cause. */
  lemma HandleErrorCodes(e: Thrown)
    ensures HandleError(e).response.code == AuthError <==> e.ApiError? && e.status == 401
    ensures HandleError(e).response.code == ValidationError <==> e.ApiError? && e.status == 422 && e.data.Some?
    ensures HandleError(e).response.code == ServerError <==> e.ApiError? && e.status >= 500
    ensures HandleError(e).response.code.Http? <==>
              e.ApiError? && e.status != 401 && !(e.status == 422 && e.data.Some?) && e.status < 500
    ensures HandleError(e).response.code == NetworkError <==> e.ErrorObject? && IsNetworkMessage(e.message)
    ensures HandleError(e).response.code == UnknownError <==>
              (e.ErrorObject? && !IsNetworkMessage(e.message)) || e.OtherValue?
  {
  }

  /** Codes of the `HTTP_<status>` family read back as the status they came from. */
  lemma HttpCodeNamesStatus(e: Thrown)
    requires HandleError(e).response.code.Http?
    ensures e.ApiError? && HandleError(e).response.code.status == e.status
    ensures var c := CodeString(HandleError(e).response.code);
            Strings.StartsWith(c, "HTTP_") && Strings.ParseInt(c[5..]) == Some(e.status)
  {
    var c := CodeString(HandleError(e).response.code);
    assert c[5..] == Strings.IntToString(e.status);
    Strings.ParseIntOfIntToString(e.status);
  }

  /** A message mentioning "Failed to fetch" anywhere is a network failure. */
  lemma FailedToFetchIsNetwork(prefix: string, suffix: string)
    ensures IsNetworkMessage(prefix + "Failed to fetch" + suffix)
  {
    var s := prefix + "Failed to fetch" + suffix;
    assert s[|prefix|..|prefix| + |"Failed to fetch"|] == "Failed to fetch";
    assert Strings.OccursAt(s, "Failed to fetch", |prefix|);
    Strings.ContainsIff(s, "Failed to fetch");
  }

  /** The notification `showErrorNotification` dispatches for a handled error. */
  function ErrorNotificationPayload(r: ErrorResponse): (p: N.NotificationPayload)
    ensures p.kind == N.Error && p.message == r.message
    ensures p.title == Some("Error") && p.autoHideDuration == Some(5000)
  {
    N.NotificationPayload(N.Error, r.message, Some("Error"), Some(5000))
  }

  /**
   * `showErrorNotification`: classify the error (with its effects), add exactly
   * one error notification to the store, and return what `handleError` returned.
   * The new notification's id and creation time are parameters.
   */
  method ShowErrorNotification(e: Thrown, store: N.NotificationsState, id: string, createdAt: int)
    returns (r: ErrorResponse, effects: seq<Effect>)
    modifies store
    ensures r == HandleError(e).response && effects == HandleError(e).effects
    ensures store.items == old(store.items) + [N.FromPayload(ErrorNotificationPayload(r), id, createdAt)]
  {
    var h := HandleError(e);
    r, effects := h.response, h.effects;
    store.AddNotification(ErrorNotificationPayload(r), id, createdAt);
  }
}
