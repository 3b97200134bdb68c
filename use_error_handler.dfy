/** `src/hooks/useErrorHandler.ts`: `handleError` normalises whatever was thrown into an
    `AppError`, then picks the toast title and status through an if/else chain. The toast
    and the console log themselves are not modelled; the method returns what they show. */
module UseErrorHandler {
  import opened Common
  import opened ErrorHandler

  /** A thrown value as `handleError` inspects it. An empty `message` stands for a missing
      or empty one (both falsy); `isErrorInstance` is `error instanceof Error`. */
  datatype Thrown = Thrown(
    message: string,
    code: Option<string>,
    statusCode: Option<int>,
    details: Option<ResponseData>,
    isErrorInstance: bool)

  const GenericMessage := "An unexpected error occurred"

  /** An `AppError` object handed over as it is (a plain object, not an `Error`). */
  function OfAppError(e: AppError): Thrown {
    Thrown(e.message, e.code, e.statusCode, e.details, false)
  }

  /** `error.message && (error.code || error.statusCode)` */
  predicate LooksLikeAppError(error: Thrown) {
    error.message != "" && (Truthy(error.code) || (error.statusCode.Some? && error.statusCode.value != 0))
  }

  /** The conversion step of `handleError`. */
  function Normalize(error: Thrown): (a: AppError)
    ensures LooksLikeAppError(error) ==>
      a == AppError(error.message, error.code, error.statusCode, error.details)
    ensures !LooksLikeAppError(error) ==> a.code == Some("UNKNOWN_ERROR") && a.statusCode.None?
    ensures !LooksLikeAppError(error) && error.isErrorInstance ==> a.message == error.message
    ensures !LooksLikeAppError(error) && !error.isErrorInstance ==> a.message == GenericMessage
  {
    if LooksLikeAppError(error) then AppError(error.message, error.code, error.statusCode, error.details)
    else if error.isErrorInstance then AppError(error.message, Some("UNKNOWN_ERROR"), None, None)
    else AppError(GenericMessage, Some("UNKNOWN_ERROR"), None, None)
  }

  /** The title and status chosen for an `AppError`, first match wins: network, server,
      client, anything else. */
  function ToastFor(a: AppError): (t: (string, ToastStatus))
    ensures IsNetworkError(a) ==> t == ("Connection Error", WarningToast)
    ensures !IsNetworkError(a) && IsServerError(a) ==> t == ("Server Error", ErrorToast)
    ensures !IsNetworkError(a) && !IsServerError(a) && IsClientError(a) ==> t == ("Request Error", WarningToast)
    ensures !IsNetworkError(a) && !IsServerError(a) && !IsClientError(a) ==> t == ("Error", ErrorToast)
  {
    if IsNetworkError(a) then ("Connection Error", WarningToast)
    else if IsServerError(a) then ("Server Error", ErrorToast)
    else if IsClientError(a) then ("Request Error", WarningToast)
    else ("Error", ErrorToast)
  }

  /** `handleError`, returning the normalised error and what the toast shows. */
  method HandleError(error: Thrown) returns (appError: AppError, title: string, status: ToastStatus, description: string)
    ensures appError == Normalize(error)
    ensures (title, status) == ToastFor(appError)
    ensures description == appError.message
    ensures LooksLikeAppError(error) ==> appError.message == error.message && appError.code == error.code
                                         && appError.statusCode == error.statusCode
    ensures IsNetworkError(appError) ==> title == "Connection Error" && status == WarningToast
    ensures status == WarningToast <==> title == "Connection Error" || title == "Request Error"
  {
    if LooksLikeAppError(error) {
      appError := AppError(error.message, error.code, error.statusCode, error.details);
    } else if error.isErrorInstance {
      appError := AppError(error.message, Some("UNKNOWN_ERROR"), None, None);
    } else {
      appError := AppError(GenericMessage, Some("UNKNOWN_ERROR"), None, None);
    }

    status := ErrorToast;
    title := "Error";
    if IsNetworkError(appError) {
      title := "Connection Error";
      status := WarningToast;
    } else if IsServerError(appError) {
      title := "Server Error";
    } else if IsClientError(appError) {
      title := "Request Error";
      status := WarningToast;
    }
    description := appError.message;
  }

  /** Anything `handleApiError` produces passes through the conversion unchanged. */
  lemma ApiErrorsPassThrough(e: RequestFailure)
    ensures Normalize(OfAppError(HandleApiError(e))) == HandleApiError(e)
  {
  }

  /** End to end: a request without a response shows "Connection Error"; a response shows
      "Server Error" for 5xx and "Request Error" for 4xx unless the server sent the code
      `NETWORK_ERROR`; a failure before any request shows "Error". */
  lemma ToastForApiErrors(e: RequestFailure)
    ensures var t := ToastFor(Normalize(OfAppError(HandleApiError(e))));
      && (e.response.None? && e.requestSent ==> t == ("Connection Error", WarningToast))
      && (e.response.None? && !e.requestSent ==> t == ("Error", ErrorToast))
      && (e.response.Some? && CodeOf(e.response.value.data) != Some("NETWORK_ERROR") ==>
            var s := e.response.value.status;
            && (s >= 500 ==> t == ("Server Error", ErrorToast))
            && (400 <= s < 500 ==> t == ("Request Error", WarningToast))
            && ((s < 400 && s != 0) ==> t == ("Error", ErrorToast)))
  {
    ApiErrorsPassThrough(e);
    if e.response.Some? {
      ResponseClassification(e);
    } else {
      NoResponseClassification(e);
    }
  }
}
