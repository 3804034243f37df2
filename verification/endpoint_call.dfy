/**
  Calling an endpoint (Jetway/Endpoint+Call.swift): building and configuring the request,
  and resolving the call's promise from the transport's completion.

  The transport is not part of this model. `Call` returns the request it would hand to the
  URL session; `Complete` takes the completion's three inputs (the HTTP status, if there was
  an HTTP response; the body; the transport error). JSON parsing of an error body is a
  function supplied by the caller, giving the body's `"reason"` string if it has one.
*/
module EndpointCalls {
  import opened Wrappers
  import opened Promises
  import opened DataCoding
  import opened Endpoints
  import opened Credentials

  /** The `HTTP.StatusCode` cases the pipeline tells apart, by their numeric codes. */
  const StatusOk: int := 200
  const StatusNoContent: int := 204
  const StatusUnauthorized: int := 401
  const StatusNotFound: int := 404
  const StatusNotAcceptable: int := 406
  const StatusConflict: int := 409

  /** `ServerError`. */
  datatype ServerError =
    | CannotConnect
    | NotFound(resource: string)
    | Unauthorized
    | NotAcceptable(reason: string)
    | Conflict(reason: string)
    | NoContent(reason: string)
    | Unknown(statusCode: int, reason: string)
  {
    predicate HasReason()
    {
      NotAcceptable? || Conflict? || NoContent? || Unknown?
    }
  }

  const NoReasonProvided: string := "No reason provided."

  /** The reason of an error response: the body's `"reason"` string, else "No reason
      provided.". */
  function ErrorReason(body: Option<Data>, reasonIn: Data -> Option<string>): (reason: string)
    ensures body.Some? && reasonIn(body.value).Some? ==> reason == reasonIn(body.value).value
    ensures body.None? || reasonIn(body.value).None? ==> reason == NoReasonProvided
  {
    if body.Some? && reasonIn(body.value).Some? then reasonIn(body.value).value else NoReasonProvided
  }

  /** The status code an error stands for; `cannotConnect` stands for none. */
  function StatusCodeOf(e: ServerError): (code: Option<int>)
    ensures code.None? <==> e.CannotConnect?
    ensures e.Unknown? ==> code == Some(e.statusCode)
  {
    match e
    case CannotConnect => None
    case NotFound(_) => Some(StatusNotFound)
    case Unauthorized => Some(StatusUnauthorized)
    case NotAcceptable(_) => Some(StatusNotAcceptable)
    case Conflict(_) => Some(StatusConflict)
    case NoContent(_) => Some(StatusNoContent)
    case Unknown(code, _) => Some(code)
  }

  /** `ServerError.from(_:body:path:)`: the error names the status it came from, `notFound`
      names the resource, and the other statuses but 401 carry the reason. */
  function From(statusCode: int, body: Option<Data>, path: string, reasonIn: Data -> Option<string>): (e: ServerError)
    ensures StatusCodeOf(e) == Some(statusCode)
    ensures e.Unknown? <==> statusCode !in {StatusNoContent, StatusUnauthorized, StatusNotFound, StatusNotAcceptable, StatusConflict}
    ensures e.NotFound? ==> e.resource == path
    ensures e.HasReason() ==> e.reason == ErrorReason(body, reasonIn)
  {
    var reason := ErrorReason(body, reasonIn);
    if statusCode == StatusNoContent then NoContent(reason)
    else if statusCode == StatusUnauthorized then Unauthorized
    else if statusCode == StatusNotFound then NotFound(path)
    else if statusCode == StatusNotAcceptable then NotAcceptable(reason)
    else if statusCode == StatusConflict then Conflict(reason)
    else Unknown(statusCode, reason)
  }

  predicate EndsWith(text: string, suffix: string)
  {
    |suffix| <= |text| && text[|text| - |suffix|..] == suffix
  }

  /** A description closed by a reason in parentheses. */
  function Closing(front: string, reason: string): (text: string)
    ensures EndsWith(text, reason + ")")
  {
    var text := front + reason + ")";
    assert text[|text| - |reason| - 1..] == text[|front|..];
    text
  }

  const CannotConnectText: string := "We can't connect to the server. Are you connected to the internet?"
  const NotFoundText: string := "The requested resource was not found on the server."
  const UnauthorizedText: string := "You are not authorized to perform this action."
  const NotAcceptableText: string := "The web request was not acceptable. ("
  const ConflictText: string := "The request conflicted with existing data on the server. ("
  const NoContentText: string := "There was no content available on the server. ("
  const UnknownText: string := "An unknown error occured. ("

  /** `errorDescription`; `describe` stands for the interpolation of a status code. Every
      error has a description, and a reason, when there is one, closes it. */
  function ErrorDescription(e: ServerError, describe: int -> string): (text: Option<string>)
    ensures text.Some?
    ensures e.HasReason() ==> EndsWith(text.value, e.reason + ")")
  {
    match e
    case CannotConnect => Some(CannotConnectText)
    case NotFound(_) => Some(NotFoundText)
    case Unauthorized => Some(UnauthorizedText)
    case NotAcceptable(reason) => Some(Closing(NotAcceptableText, reason))
    case Conflict(reason) => Some(Closing(ConflictText, reason))
    case NoContent(reason) => Some(Closing(NoContentText, reason))
    case Unknown(code, reason) => Some(Closing(UnknownText + describe(code) + ": ", reason))
  }

  /** The error a call's promise is rejected with. */
  datatype CallError =
    | Server(server: ServerError)
    | UrlFailure(endpointError: EndpointError)
    | Store(storeError: StoreError)
    | ValueNotFound(debugDescription: string)
    | Thrown(error: ClientError)  // thrown by client code, a provider block or the transport, unchanged

  /** A store error as it reaches the promise: a provider block's own error passes through. */
  function StoreRejection(e: StoreError): (r: CallError)
    ensures e.ProviderThrew? ==> r == Thrown(e.error)
    ensures !e.ProviderThrew? ==> r == Store(e)
  {
    if e.ProviderThrew? then Thrown(e.error) else Store(e)
  }

  // ----------------------------------------------------------------- Setup

  const MalformedUrlText: string := "Malformed URL"

  /** The URL string of the call: the endpoint's URL, or "Malformed URL". */
  function UrlString(endpoint: Endpoint, parses: string -> bool): (s: string)
    ensures Url(endpoint, parses).Ok? ==> s == FullUrlPath(endpoint.api.baseUrl, endpoint.path)
    ensures Url(endpoint, parses).Err? ==> s == MalformedUrlText
  {
    match Url(endpoint, parses)
    case Ok(url) => url
    case Err(_) => MalformedUrlText
  }

  /** The purpose of a call's promise: the method's raw value, a space, the URL string. */
  function Purpose(endpoint: Endpoint, parses: string -> bool): (purpose: string)
    ensures |purpose| == |endpoint.httpMethod.RawValue()| + 1 + |UrlString(endpoint, parses)|
    ensures purpose[..|endpoint.httpMethod.RawValue()| + 1] == endpoint.httpMethod.RawValue() + " "
    ensures purpose[|endpoint.httpMethod.RawValue()| + 1..] == UrlString(endpoint, parses)
  {
    endpoint.httpMethod.RawValue() + " " + UrlString(endpoint, parses)
  }

  /** The request as first built: the URL, a 10-second timeout and the endpoint's method. */
  function BaseRequest(url: string, endpoint: Endpoint): URLRequest
  {
    URLRequest(url, 10, endpoint.httpMethod, map[], None)
  }

  /** The request a call sends, or the error that stops it before anything is sent: a URL
      that does not parse, then the request-value configuration, then the credentials
      provider, then the credentials' configuration. */
  function Setup(endpoint: Endpoint, parses: string -> bool,
                 configureRequest: URLRequest -> Result<URLRequest, ClientError>,
                 provider: CredentialsProvider, global: RequestCredentialsStore,
                 configureTyped: (CredentialsValue, URLRequest) -> Result<URLRequest, ClientError>): (r: Result<URLRequest, CallError>)
    reads global
    ensures Url(endpoint, parses).Err? ==> r == Err(UrlFailure(MalformedUrl(FullUrlPath(endpoint.api.baseUrl, endpoint.path))))
    ensures Url(endpoint, parses).Ok? && configureRequest(BaseRequest(Url(endpoint, parses).value, endpoint)).Err? ==>
      r == Err(Thrown(configureRequest(BaseRequest(Url(endpoint, parses).value, endpoint)).error))
    ensures provider.NoAuthenticationRequired? && Url(endpoint, parses).Ok? ==>
      r == match configureRequest(BaseRequest(Url(endpoint, parses).value, endpoint))
           case Ok(request) => Ok(request)
           case Err(e) => Err(Thrown(e))
    ensures (provider.Requires? && Url(endpoint, parses).Ok? && configureRequest(BaseRequest(Url(endpoint, parses).value, endpoint)).Ok?
      && provider.credentialsType.name !in global.credentialsProviders) ==>
      r == Err(Store(NotCongfigured(provider.credentialsType.name)))
    ensures var url := Url(endpoint, parses);
      (url.Ok? && configureRequest(BaseRequest(url.value, endpoint)).Ok? && ProvidedCredentials(provider, global).Err?) ==>
      r == Err(StoreRejection(ProvidedCredentials(provider, global).error))
    ensures var url := Url(endpoint, parses);
      (url.Ok? && configureRequest(BaseRequest(url.value, endpoint)).Ok? && ProvidedCredentials(provider, global).Ok?) ==>
      r == match Configure(ProvidedCredentials(provider, global).value, configureRequest(BaseRequest(url.value, endpoint)).value, configureTyped)
           case Ok(configured) => Ok(configured)
           case Err(e) => Err(Thrown(e))
  {
    match Url(endpoint, parses)
    case Err(e) => Err(UrlFailure(e))
    case Ok(url) =>
      match configureRequest(BaseRequest(url, endpoint))
      case Err(e) => Err(Thrown(e))
      case Ok(request) =>
        match ProvidedCredentials(provider, global)
        case Err(e) => Err(StoreRejection(e))
        case Ok(credentials) =>
          match Configure(credentials, request, configureTyped)
          case Err(e) => Err(Thrown(e))
          case Ok(configured) => Ok(configured)
  }

  /** `EndpointNetworking.call`: a promise with the call's purpose. When the setup fails the
      promise is rejected at once, before any callback can be attached, so the fallback hook
      reports it; nothing is sent. Otherwise the promise is pending and the request is sent. */
  method Call<R>(endpoint: Endpoint, parses: string -> bool,
                 configureRequest: URLRequest -> Result<URLRequest, ClientError>,
                 provider: CredentialsProvider, global: RequestCredentialsStore,
                 configureTyped: (CredentialsValue, URLRequest) -> Result<URLRequest, ClientError>,
                 hook: FallbackCatchBlock<CallError>)
    returns (promise: Promise<R, CallError>, sent: Option<URLRequest>)
    modifies hook
    ensures fresh(promise) && promise.Valid() && promise.callbacks == []
    ensures promise.purpose == Purpose(endpoint, parses)
    ensures Setup(endpoint, parses, configureRequest, provider, global, configureTyped).Ok? ==>
      promise.state == Pending && hook.calls == old(hook.calls)
      && sent == Some(Setup(endpoint, parses, configureRequest, provider, global, configureTyped).value)
    ensures Setup(endpoint, parses, configureRequest, provider, global, configureTyped).Err? ==>
      promise.state == Rejected(Setup(endpoint, parses, configureRequest, provider, global, configureTyped).error)
      && sent == None
      && hook.calls == old(hook.calls)
        + HookCalls(hook.installed, Some(Report(promise.purpose, promise.state.error)))
  {
    var urlString := UrlString(endpoint, parses);
    promise := new Promise<R, CallError>(endpoint.httpMethod.RawValue() + " " + urlString);
    sent := None;
    var url := Url(endpoint, parses);
    if url.Err? {
      promise.Reject(UrlFailure(url.error), hook);
      return;
    }
    var request := BaseRequest(url.value, endpoint);
    var configured := configureRequest(request);
    if configured.Err? {
      promise.Reject(Thrown(configured.error), hook);
      return;
    }
    request := configured.value;
    var credentials := ProvidedCredentials(provider, global);
    if credentials.Err? {
      promise.Reject(StoreRejection(credentials.error), hook);
      return;
    }
    var applied := Configure(credentials.value, request, configureTyped);
    if applied.Err? {
      promise.Reject(Thrown(applied.error), hook);
      return;
    }
    sent := Some(applied.value);
  }

  // ------------------------------------------------------------ Completion

  /** What the transport's completion handler receives: the status code when the response is
      an HTTP response, the body, and the transport error. */
  datatype Completion = Completion(statusCode: Option<int>, data: Option<Data>, error: Option<ClientError>)

  const NoDataDescription: string := "The response payload didn't include any data."

  /** How the completion handler resolves the promise: no HTTP response gives
      `cannotConnect`; a status other than 200 gives the matching server error, even when
      there is also a transport error; then the transport error; then missing data gives
      `valueNotFound`; otherwise the response handler's value or its error. */
  function Decide<R>(c: Completion, urlString: string, reasonIn: Data -> Option<string>,
                     handler: Data -> Result<R, ClientError>): (r: Result<R, CallError>)
    ensures c.statusCode.None? ==> r == Err(Server(CannotConnect))
    ensures c.statusCode.Some? && c.statusCode.value != StatusOk ==>
      r == Err(Server(From(c.statusCode.value, c.data, urlString, reasonIn)))
    ensures c.statusCode == Some(StatusOk) && c.error.Some? ==> r == Err(Thrown(c.error.value))
    ensures c.statusCode == Some(StatusOk) && c.error.None? && c.data.None? ==> r == Err(ValueNotFound(NoDataDescription))
    ensures r.Ok? <==> c.statusCode == Some(StatusOk) && c.error.None? && c.data.Some? && handler(c.data.value).Ok?
    ensures r.Ok? ==> handler(c.data.value) == Ok(r.value)
    ensures c.statusCode == Some(StatusOk) && c.error.None? && c.data.Some? && handler(c.data.value).Err? ==>
      r == Err(Thrown(handler(c.data.value).error))
  {
    if c.statusCode.None? then Err(Server(CannotConnect))
    else if c.statusCode.value != StatusOk then Err(Server(From(c.statusCode.value, c.data, urlString, reasonIn)))
    else if c.error.Some? then Err(Thrown(c.error.value))
    else if c.data.None? then Err(ValueNotFound(NoDataDescription))
    else match handler(c.data.value)
      case Ok(value) => Ok(value)
      case Err(e) => Err(Thrown(e))
  }

  /** The state a decided outcome moves the promise to. */
  function Resolution<R>(r: Result<R, CallError>): (s: State<R, CallError>)
    ensures !s.Pending?
    ensures r.Ok? <==> s.Fulfilled?
  {
    match r
    case Ok(value) => Fulfilled(value)
    case Err(e) => Rejected(e)
  }

  /** The completion handler: exactly one `fulfill` or `reject` on the call's promise, with
      the outcome Decide gives for the call's own URL string. A promise that was still pending
      drains its records to their queues, and the hook gets the fallback report of the new
      state; a promise that was already resolved keeps its state, records and hook calls. */
  method Complete<R(!new)>(promise: Promise<R, CallError>, c: Completion, endpoint: Endpoint, parses: string -> bool,
                           reasonIn: Data -> Option<string>, handler: Data -> Result<R, ClientError>,
                           hook: FallbackCatchBlock<CallError>)
    requires promise.Valid()
    modifies promise`state, promise`callbacks, TargetsOf(promise.callbacks), hook
    ensures promise.Valid()
    ensures promise.state == Settle(old(promise.state), Resolution(Decide(c, UrlString(endpoint, parses), reasonIn, handler)))
    ensures !promise.state.Pending?
    ensures !old(promise.state).Pending? ==> promise.callbacks == old(promise.callbacks) && hook.calls == old(hook.calls)
    ensures old(promise.state).Pending? ==> promise.callbacks == []
    ensures old(promise.state).Pending? ==>
      forall q :: q in TargetsOf(old(promise.callbacks)) ==>
        q.log == old(q.log) + old(Deliveries(promise.callbacks, Resolution(Decide(c, UrlString(endpoint, parses), reasonIn, handler)), q))
    ensures old(promise.state).Pending? ==>
      hook.calls == old(hook.calls)
        + HookCalls(hook.installed,
                    FallbackReport(Resolution(Decide(c, UrlString(endpoint, parses), reasonIn, handler)),
                                   old(promise.callbacks), promise.purpose))
  {
    var outcome := Decide(c, UrlString(endpoint, parses), reasonIn, handler);
    match outcome
    case Ok(value) => promise.Fulfill(value, hook);
    case Err(e) => promise.Reject(e, hook);
  }
}
