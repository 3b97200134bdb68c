/** `src/lib/errorHandler.ts`: turning a failed HTTP call into an `AppError`, and the three
    classification predicates over `AppError`. */
module ErrorHandler {
  import opened Common

  /** The body of an error response, as far as the handler reads it. */
  datatype ResponseData = ResponseData(detail: Option<string>, message: Option<string>, code: Option<string>)

  datatype ApiResponse = ApiResponse(status: int, data: Option<ResponseData>)

  /** A failed request: the response if the server answered, whether a request went out,
      and the error's own message. */
  datatype RequestFailure = RequestFailure(
    response: Option<ApiResponse>,
    requestSent: bool,
    message: Option<string>)

  datatype AppError = AppError(
    message: string,
    code: Option<string>,
    statusCode: Option<int>,
    details: Option<ResponseData>)

  const NetworkMessage := "No response from server. Please check your network connection."
  const ServerFallback := "Server error occurred"
  const UnknownFallback := "An unexpected error occurred"

  function DetailOf(d: Option<ResponseData>): Option<string> { if d.Some? then d.value.detail else None }
  function MessageOf(d: Option<ResponseData>): Option<string> { if d.Some? then d.value.message else None }
  function CodeOf(d: Option<ResponseData>): Option<string> { if d.Some? then d.value.code else None }

  /** `handleApiError` */
  function HandleApiError(e: RequestFailure): (r: AppError)
    // every result carries a non-empty message and a non-empty code
    ensures r.message != "" && Truthy(r.code)
    ensures e.response.Some? ==>
      && r.statusCode == Some(e.response.value.status)
      && r.details == e.response.value.data
      && r.message == OrElse(DetailOf(e.response.value.data), OrElse(MessageOf(e.response.value.data), ServerFallback))
      && r.code == Some(OrElse(CodeOf(e.response.value.data), "SERVER_ERROR"))
    ensures e.response.None? && e.requestSent ==>
      r == AppError(NetworkMessage, Some("NETWORK_ERROR"), Some(0), None)
    ensures e.response.None? && !e.requestSent ==>
      r == AppError(OrElse(e.message, UnknownFallback), Some("UNKNOWN_ERROR"), None, None)
  {
    if e.response.Some? then
      var data := e.response.value.data;
      AppError(
        OrElse(DetailOf(data), OrElse(MessageOf(data), ServerFallback)),
        Some(OrElse(CodeOf(data), "SERVER_ERROR")),
        Some(e.response.value.status),
        data)
    else if e.requestSent then
      AppError(NetworkMessage, Some("NETWORK_ERROR"), Some(0), None)
    else
      AppError(OrElse(e.message, UnknownFallback), Some("UNKNOWN_ERROR"), None, None)
  }

  /** `isNetworkError` */
  predicate IsNetworkError(err: AppError) {
    err.code == Some("NETWORK_ERROR") || err.statusCode == Some(0)
  }

  /** A status code is truthy when it is present and not 0. */
  predicate HasStatus(err: AppError) {
    err.statusCode.Some? && err.statusCode.value != 0
  }

  /** `isServerError` */
  predicate IsServerError(err: AppError) {
    if HasStatus(err) then err.statusCode.value >= 500 else false
  }

  /** `isClientError` */
  predicate IsClientError(err: AppError) {
    if HasStatus(err) then 400 <= err.statusCode.value < 500 else false
  }

  /** The two status classes never overlap, and neither holds without a non-zero status. */
  lemma ServerAndClientExclusive(err: AppError)
    ensures !(IsServerError(err) && IsClientError(err))
    ensures (err.statusCode.None? || err.statusCode == Some(0)) ==> !IsServerError(err) && !IsClientError(err)
  {
  }

  /** With a response present, the classification is by the response status, and the
      network class is reached only by status 0 or a server-sent `NETWORK_ERROR` code. */
  lemma ResponseClassification(e: RequestFailure)
    requires e.response.Some?
    ensures var r := HandleApiError(e); var status := e.response.value.status;
      && (IsServerError(r) <==> status >= 500)
      && (IsClientError(r) <==> 400 <= status < 500)
      && (IsNetworkError(r) <==> status == 0 || OrElse(CodeOf(e.response.value.data), "SERVER_ERROR") == "NETWORK_ERROR")
  {
  }

  /** A request that got no response is a network error and neither a server nor a client
      error; a failure that never became a request is none of the three. */
  lemma NoResponseClassification(e: RequestFailure)
    requires e.response.None?
    ensures var r := HandleApiError(e);
      && (IsNetworkError(r) <==> e.requestSent)
      && !IsServerError(r) && !IsClientError(r)
  {
  }

  /** The code `NETWORK_ERROR` alone does not rule out the server class: a server may send
      that code itself with a 5xx status. */
  lemma NetworkCodeWithServerStatus()
    ensures var r := HandleApiError(RequestFailure(
              Some(ApiResponse(503, Some(ResponseData(None, None, Some("NETWORK_ERROR"))))), true, None));
      r.code == Some("NETWORK_ERROR") && IsNetworkError(r) && IsServerError(r)
  {
  }
}
