/** The REST side of the client (src/client.rs): where a request goes, how a
    reply is turned into a result or a `VyperError`, the query list of
    `search_tokens`, and the extraction step of `get_token_holders`. Sending
    the request is not modelled; what came back is an input. */
module Client {
  import opened Primitives
  import opened Json
  import opened QueryLists
  import opened Types
  import opened Errors

  /** `format!("{}{}", base_url, endpoint)`. */
  function RequestUrl(base: string, endpoint: string): (url: string)
    ensures |url| == |base| + |endpoint|
    ensures url[..|base|] == base && url[|base|..] == endpoint
  {
    base + endpoint
  }

  /** An HTTP status code as reqwest represents it. */
  type StatusCode = x: int | 100 <= x <= 999 witness 200

  /** `StatusCode::is_success`. */
  predicate IsSuccess(status: StatusCode) {
    200 <= status <= 299
  }

  /** What came back for one request: either sending it or reading the body
      failed with a transport error (both become `HttpError` through `?`), or
      a status, the raw `Retry-After` header if present, and the body text. */
  datatype Exchange =
    | TransportFailed(cause: string)
    | Received(status: StatusCode, retryAfter: Option<string>, body: string)

  /** `HeaderValue::to_str` succeeds only on visible ASCII and tab. */
  predicate VisibleAscii(h: string) {
    forall i :: 0 <= i < |h| ==> h[i] == '\t' || (' ' <= h[i] <= '~')
  }

  /** The `Retry-After` value: present, readable as text and parsed as a
      float by `parseFloat` (Rust's `str::parse::<f64>`), or `None`. */
  function RetryAfter(header: Option<string>, parseFloat: string -> Option<Float>): (r: Option<Float>)
    ensures r.Some? <==> header.Some? && VisibleAscii(header.value) && parseFloat(header.value).Some?
    ensures r.Some? ==> r == parseFloat(header.value)
  {
    match header
    case None => None
    case Some(h) => if VisibleAscii(h) then parseFloat(h) else None
  }

  /** The error for a non-success status whose body decoded to an envelope
      carrying `message`. */
  function StatusError(status: StatusCode, message: string, retryAfter: Option<Float>): (e: VyperError)
    requires !IsSuccess(status)
    ensures e.AuthenticationError? <==> status == 401
    ensures e.RateLimitError? <==> status == 429
    ensures e.ServerError? <==> 500 <= status <= 599
    ensures e.ApiError? <==> status != 401 && status != 429 && !(500 <= status <= 599)
    ensures e.message == message
    ensures e.RateLimitError? ==> e.retryAfter == retryAfter
    ensures e.ApiError? ==> e.status == status
  {
    match status
    case 401 => AuthenticationError(message)
    case 429 => RateLimitError(message, retryAfter)
    case _ =>
      if 500 <= status <= 599 then ServerError(message) else ApiError(message, status)
  }

  /** The outcome of `VyperClient::request` for what came back. `decodeOk`
      and `decodeErr` stand for `serde_json::from_str` into
      `APIResponse<T>` and `APIResponse<Value>`. */
  function Respond<T>(ex: Exchange,
                      decodeOk: string -> Decoded<Envelope<T>>,
                      decodeErr: string -> Decoded<Envelope<Value>>,
                      parseFloat: string -> Option<Float>): (r: Result<T>)
    ensures r.Ok? <==> ex.Received? && IsSuccess(ex.status) && decodeOk(ex.body).Decoded?
    ensures r.Ok? ==> r.value == decodeOk(ex.body).value.data
  {
    match ex
    case TransportFailed(cause) => Err(HttpError(cause))
    case Received(status, header, body) =>
      if IsSuccess(status) then
        match decodeOk(body)
        case Decoded(envelope) => Ok(envelope.data)
        case Malformed(detail) => Err(DeserializeError(detail))
      else
        match decodeErr(body)
        case Decoded(envelope) => Err(StatusError(status, envelope.message, RetryAfter(header, parseFloat)))
        case Malformed(detail) => Err(DeserializeError(detail))
  }

  /** A success status yields the envelope's `data` when the body decodes and
      a `DeserializeError` otherwise; the envelope's own `status` text is not
      consulted. */
  lemma RespondSuccess<T>(status: StatusCode, header: Option<string>, body: string,
                          decodeOk: string -> Decoded<Envelope<T>>,
                          decodeErr: string -> Decoded<Envelope<Value>>,
                          parseFloat: string -> Option<Float>)
    requires IsSuccess(status)
    ensures var r := Respond(Received(status, header, body), decodeOk, decodeErr, parseFloat);
      && (r.Ok? <==> decodeOk(body).Decoded?)
      && (r.Ok? ==> r.value == decodeOk(body).value.data)
      && (r.Err? ==> r.error == DeserializeError(decodeOk(body).detail))
  {
  }

  /** A failure status whose body decodes always yields an error carrying the
      envelope's message, and the variant is exactly the one the status
      names: 401 authentication, 429 rate limit (with the parsed
      `Retry-After`), 5xx server, anything else an API error that keeps the
      status. */
  lemma RespondFailureStatus<T>(status: StatusCode, header: Option<string>, body: string,
                                decodeOk: string -> Decoded<Envelope<T>>,
                                decodeErr: string -> Decoded<Envelope<Value>>,
                                parseFloat: string -> Option<Float>)
    requires !IsSuccess(status) && decodeErr(body).Decoded?
    ensures var r := Respond(Received(status, header, body), decodeOk, decodeErr, parseFloat);
      var m := decodeErr(body).value.message;
      && r.Err?
      && (r.error.AuthenticationError? <==> status == 401)
      && (r.error.RateLimitError? <==> status == 429)
      && (r.error.ServerError? <==> 500 <= status <= 599)
      && (r.error.ApiError? <==> status != 401 && status != 429 && !(500 <= status <= 599))
      && !r.error.HttpError? && !r.error.DeserializeError? && !r.error.WebsocketError?
      && r.error.message == m
      && (r.error.RateLimitError? ==> r.error.retryAfter == RetryAfter(header, parseFloat))
      && (r.error.ApiError? ==> r.error.status == status)
  {
  }

  /** A body that does not decode yields a `DeserializeError` whatever the
      status, and a transport failure an `HttpError`: the status mapping is
      only reached with a decoded envelope. */
  lemma RespondUndecodable<T>(ex: Exchange,
                              decodeOk: string -> Decoded<Envelope<T>>,
                              decodeErr: string -> Decoded<Envelope<Value>>,
                              parseFloat: string -> Option<Float>)
    ensures var r := Respond(ex, decodeOk, decodeErr, parseFloat);
      && (ex.TransportFailed? ==> r == Err(HttpError(ex.cause)))
      && (ex.Received? && IsSuccess(ex.status) && decodeOk(ex.body).Malformed? ==>
            r == Err(DeserializeError(decodeOk(ex.body).detail)))
      && (ex.Received? && !IsSuccess(ex.status) && decodeErr(ex.body).Malformed? ==>
            r == Err(DeserializeError(decodeErr(ex.body).detail)))
  {
  }

  /** `request` never produces a websocket error, and produces an
      `HttpError` only for a transport failure. */
  lemma RespondErrorKinds<T>(ex: Exchange,
                             decodeOk: string -> Decoded<Envelope<T>>,
                             decodeErr: string -> Decoded<Envelope<Value>>,
                             parseFloat: string -> Option<Float>)
    ensures var r := Respond(ex, decodeOk, decodeErr, parseFloat);
      && (r.Err? ==> !r.error.WebsocketError?)
      && (r.Err? && r.error.HttpError? <==> ex.TransportFailed?)
  {
  }

  /** `search_tokens`' query list: `criteria`, then `chainID` only when a
      chain id is given. */
  method SearchTokensParams(criteria: string, chainId: Option<Int32>) returns (params: seq<QueryPair>)
    ensures |params| == if chainId.Some? then 2 else 1
    ensures params[0] == ("criteria", criteria)
    ensures Lookup(params, "criteria") == Some(criteria)
    ensures Lookup(params, "chainID") == if chainId.Some? then Some(IntString(chainId.value)) else None
  {
    params := [("criteria", criteria)];
    if chainId.Some? {
      params := params + [("chainID", IntString(chainId.value))];
    }
  }

  /** The extraction step of `get_token_holders` on the decoded `data` map:
      the `holders` entry is decoded first (`decodeHolders` stands for
      `serde_json::from_value`), and only then is `total_holders` read as an
      `i64` and cut to `i32` with `as`. The map index and the `unwrap` panic
      when their entry is missing or not an integer; the precondition rules
      those panics out. */
  function HoldersOf<H>(data: map<string, Value>, decodeHolders: Value -> Decoded<seq<H>>): (r: Result<(seq<H>, Int32)>)
    requires "holders" in data
    requires decodeHolders(data["holders"]).Decoded? ==>
               "total_holders" in data && AsInt64(data["total_holders"]).Some?
    ensures r.Ok? <==> decodeHolders(data["holders"]).Decoded?
    ensures r.Ok? ==> r.value.0 == decodeHolders(data["holders"]).value
    ensures r.Ok? ==> (r.value.1 - data["total_holders"].i) % 0x1_0000_0000 == 0
    ensures r.Ok? && -0x8000_0000 <= data["total_holders"].i < 0x8000_0000 ==>
              r.value.1 == data["total_holders"].i
    ensures r.Err? ==> r.error == DeserializeError(decodeHolders(data["holders"]).detail)
  {
    match decodeHolders(data["holders"])
    case Malformed(detail) => Err(DeserializeError(detail))
    case Decoded(holders) => Ok((holders, WrapInt32(AsInt64(data["total_holders"]).value)))
  }

  /** The client test's reply: one holder and a total of 1000. */
  lemma HoldersOfTestReply<H>(holder: H, holdersJson: Value, decodeHolders: Value -> Decoded<seq<H>>)
    requires decodeHolders(holdersJson) == Decoded([holder])
    ensures HoldersOf(map["holders" := holdersJson, "total_holders" := Int(1000)], decodeHolders)
            == Ok(([holder], 1000))
  {
  }
}
