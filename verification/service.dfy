/** The three class methods of `CouponInfo` with threads and Deferreds taken
    out: each runs to a `Trace` recording the requests it sent, whether it
    started a new authorization, and the value or failure its Deferred ends with.
    The HTTP client is a parameter, `transport`, answering a request with a
    response (with its body already decoded) or nil. */
module Service {
  import opened Wrappers
  import opened Json
  import opened CouponModel
  import opened Parser
  import opened Requests

  datatype HttpResponse = HttpResponse(status: int, body: Json)

  datatype Error =
    | DeveloperIdMissing                       // lines 31, 72, 122
    | Rejected(response: Option<HttpResponse>) // `Delayer::Deferred.fail(response)`, lines 83 and 133
    | Malformed(cause: ParseError)             // an exception raised while parsing, lines 85-112

  /** What the response handlers do with a response (lines 81-83, 131-134). */
  datatype StatusDecision = Accept | Reject | ReauthThenReject

  function Decide(response: Option<HttpResponse>): (d: StatusDecision)
    ensures d == Accept <==> response.Some? && response.value.status == 200
    ensures d == ReauthThenReject <==> response.Some? && response.value.status == 403
  {
    match response
    case None => Reject                 // `nil&.status_code` is nil: neither 403 nor 200
    case Some(r) =>
      if r.status == 403 then ReauthThenReject
      else if r.status != 200 then Reject
      else Accept
  }

  datatype Trace<T> = Trace(sent: seq<Request>, reauth: bool, result: Result<T, Error>)

  type Transport = Request -> Option<HttpResponse>

  function InfoRequest(config: Config): (req: Request) {
    Request(Get, CouponUrl, Headers(config), None)
  }

  function SwitchRequest(config: Config, hdo: string, isValid: bool): (req: Request) {
    Request(Put, CouponUrl, Headers(config), Some(SwitchBody(hdo, isValid)))
  }

  /** Lines 81-83 and 131-133, followed by what the accepted branch computes. */
  function Respond<T>(request: Request, response: Option<HttpResponse>,
                      accepted: HttpResponse -> Result<T, Error>): (t: Trace<T>)
    ensures t.sent == [request]
    ensures t.reauth <==> response.Some? && response.value.status == 403
    ensures response.Some? && response.value.status == 200 ==> t.result == accepted(response.value)
    ensures !(response.Some? && response.value.status == 200) ==> t.result == Failure(Rejected(response))
  {
    match Decide(response)
    case Accept => Trace([request], false, accepted(response.value))
    case Reject => Trace([request], false, Failure(Rejected(response)))
    case ReauthThenReject => Trace([request], true, Failure(Rejected(response)))
  }

  function ParseBody(response: HttpResponse): (r: Result<seq<CouponInfo>, Error>) {
    match ParseCouponInfo(response.body)
    case Success(infos) => Success(infos)
    case Failure(e) => Failure(Malformed(e))
  }

  function ReturnResponse(response: HttpResponse): (r: Result<HttpResponse, Error>) {
    Success(response)
  }

  /** `get_info` (lines 71-114). */
  function GetInfo(config: Config, transport: Transport): (t: Trace<seq<CouponInfo>>)
    ensures config.developerId.None? ==> t == Trace([], false, Failure(DeveloperIdMissing))
    ensures config.developerId.Some? ==>
      var response := transport(InfoRequest(config));
      && t.sent == [InfoRequest(config)]
      && (t.reauth <==> response.Some? && response.value.status == 403)
      && (t.result.Success? ==>
            && response.Some? && response.value.status == 200
            && ParseCouponInfo(response.value.body) == Success(t.result.value))
      && (response.Some? && response.value.status == 200 ==>
            t.result == ParseBody(response.value))
      && (!(response.Some? && response.value.status == 200) ==>
            t.result == Failure(Rejected(response)))
  {
    if config.developerId.None? then Trace([], false, Failure(DeveloperIdMissing))
    else
      var request := InfoRequest(config);
      Respond(request, transport(request), ParseBody)
  }

  /** `switch(hdo, is_valid)` (lines 120-136). */
  function Switch(config: Config, hdo: string, isValid: bool, transport: Transport): (t: Trace<HttpResponse>)
    ensures config.developerId.None? ==> t == Trace([], false, Failure(DeveloperIdMissing))
    ensures config.developerId.Some? ==>
      var response := transport(SwitchRequest(config, hdo, isValid));
      && t.sent == [SwitchRequest(config, hdo, isValid)]
      && (t.reauth <==> response.Some? && response.value.status == 403)
      && (t.result.Success? <==> response.Some? && response.value.status == 200)
      && (t.result.Success? ==> Some(t.result.value) == response)
      && (t.result.Failure? ==> t.result.error == Rejected(response))
  {
    if config.developerId.None? then Trace([], false, Failure(DeveloperIdMissing))
    else
      var request := SwitchRequest(config, hdo, isValid);
      Respond(request, transport(request), ReturnResponse)
  }

  /** `auth` up to the browser launch (lines 29-38): the URL handed to `Plugin.call(:open, ...)`. */
  function Authorize(config: Config): (r: Result<string, Error>)
    ensures config.developerId.None? <==> r == Failure(DeveloperIdMissing)
    ensures r.Failure? <==> config.developerId.None?
    ensures config.developerId.Some? ==> r == Success(AuthorizationUrl(config.developerId.value))
  {
    if config.developerId.None? then Failure(DeveloperIdMissing)
    else Success(AuthorizationUrl(config.developerId.value))
  }
}
