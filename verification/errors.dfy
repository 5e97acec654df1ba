/** `VyperError` (src/errors.rs): the one error type every operation of the
    client returns, its constructors, and the message each variant displays
    as. The payloads of `HttpError` and `DeserializeError` are foreign error
    values (`reqwest::Error`, `serde_json::Error`); they are kept as the text
    those values display. */
module Errors {
  import opened Primitives

  datatype VyperError =
    | HttpError(cause: string)
    | DeserializeError(cause: string)
    | AuthenticationError(message: string)
    | RateLimitError(message: string, retryAfter: Option<Float>)
    | ServerError(message: string)
    | ApiError(message: string, status: UInt16)
    | WebsocketError(message: string, statusCode: Option<UInt16>, connectionInfo: Option<string>)

  /** `Result<T, VyperError>`. */
  datatype Result<+T> = Ok(value: T) | Err(error: VyperError)

  /** The variant of an error, without its payload. */
  datatype Kind = Http | Deserialize | Authentication | RateLimit | Server | Api | Websocket

  function KindOf(e: VyperError): Kind {
    match e
    case HttpError(_) => Http
    case DeserializeError(_) => Deserialize
    case AuthenticationError(_) => Authentication
    case RateLimitError(_, _) => RateLimit
    case ServerError(_) => Server
    case ApiError(_, _) => Api
    case WebsocketError(_, _, _) => Websocket
  }

  /** The fixed text every display of a variant starts with. */
  function Prefix(k: Kind): string {
    match k
    case Http => "HTTP error: "
    case Deserialize => "Deserialization error: "
    case Authentication => "Authentication error: "
    case RateLimit => "Rate limit error: "
    case Server => "Server error: "
    case Api => "API error: "
    case Websocket => "Websocket error: "
  }

  /** What each `#[error(...)]` format prints after its fixed prefix.
      `RateLimitError` and `WebsocketError` print their message only. */
  function Detail(e: VyperError): string {
    match e
    case HttpError(c) => c
    case DeserializeError(c) => c
    case AuthenticationError(m) => m
    case RateLimitError(m, _) => m
    case ServerError(m) => m
    case ApiError(m, c) => m + StatusTag + NatString(c) + ")"
    case WebsocketError(m, _, _) => m
  }

  /** `Display` for `VyperError`, e.g. "API error: m (Status: 404)". */
  function Display(e: VyperError): string {
    Prefix(KindOf(e)) + Detail(e)
  }

  /** What separates an API error's message from its status code. */
  const StatusTag: string := " (Status: "

  /** `VyperError::websocket_error`. */
  function WebsocketErrorOf(message: string, statusCode: Option<UInt16>, connectionInfo: Option<string>): (e: VyperError)
    ensures e.WebsocketError?
    ensures e.message == message && e.statusCode == statusCode && e.connectionInfo == connectionInfo
  {
    WebsocketError(message, statusCode, connectionInfo)
  }

  /** `impl From<&str> for VyperError`: a bare websocket error. */
  function FromStr(s: string): (e: VyperError)
    ensures e == WebsocketErrorOf(s, None, None)
    ensures Display(e) == "Websocket error: " + s
    ensures Detail(e) == s
  {
    WebsocketError(s, None, None)
  }

  // ---------------------------------------------------------------------
  // Reading a displayed error back
  // ---------------------------------------------------------------------

  /** The variant a displayed message names, judged by its prefix. */
  function KindOfDisplay(s: string): Option<Kind> {
    if Prefix(Http) <= s then Some(Http)
    else if Prefix(Deserialize) <= s then Some(Deserialize)
    else if Prefix(Authentication) <= s then Some(Authentication)
    else if Prefix(RateLimit) <= s then Some(RateLimit)
    else if Prefix(Server) <= s then Some(Server)
    else if Prefix(Api) <= s then Some(Api)
    else if Prefix(Websocket) <= s then Some(Websocket)
    else None
  }

  /** The digits at the end of `s`, and what precedes them. */
  function SplitTrailingDigits(s: string): (r: (string, string))
    ensures r.0 + r.1 == s && AllDigits(r.1)
    decreases |s|
  {
    if s != [] && IsDigit(s[|s| - 1]) then
      var (rest, digits) := SplitTrailingDigits(s[..|s| - 1]);
      (rest, digits + [s[|s| - 1]])
    else (s, [])
  }

  /** Recovers the message and status from the text after "API error: ". */
  function ParseApiBody(body: string): Option<(string, nat)> {
    if |body| > 0 && body[|body| - 1] == ')' then
      var (front, digits) := SplitTrailingDigits(body[..|body| - 1]);
      if digits != [] && |front| >= |StatusTag| && front[|front| - |StatusTag|..] == StatusTag then
        Some((front[..|front| - |StatusTag|], DigitsValue(digits)))
      else None
    else None
  }

  lemma {:induction false} SplitTrailingDigitsAppend(x: string, d: string)
    requires x == [] || !IsDigit(x[|x| - 1])
    requires AllDigits(d)
    ensures SplitTrailingDigits(x + d) == (x, d)
    decreases |d|
  {
    if d == [] {
      assert x + d == x;
    } else {
      assert (x + d)[..|x + d| - 1] == x + d[..|d| - 1];
      SplitTrailingDigitsAppend(x, d[..|d| - 1]);
      assert d[..|d| - 1] + [d[|d| - 1]] == d;
    }
  }

  lemma ParseApiBodyOf(m: string, d: string)
    requires d != [] && AllDigits(d)
    ensures ParseApiBody(m + StatusTag + d + ")") == Some((m, DigitsValue(d)))
  {
    var front := m + StatusTag;
    var body := front + d + ")";
    assert body[..|body| - 1] == front + d;
    assert front[|front| - 1] == ' ';
    SplitTrailingDigitsAppend(front, d);
    assert front[|front| - |StatusTag|..] == StatusTag;
    assert front[..|front| - |StatusTag|] == m;
  }

  /** The API error's text determines its message and status: reading the
      text after the prefix back gives both. */
  lemma ApiDisplayRoundTrip(m: string, c: UInt16)
    ensures Display(ApiError(m, c)) == "API error: " + m + StatusTag + NatString(c) + ")"
    ensures ParseApiBody(Detail(ApiError(m, c))) == Some((m, c as nat))
  {
    ParseApiBodyOf(m, NatString(c));
    DigitsValueOfNatString(c);
    Regroup(Prefix(Api), m, StatusTag, NatString(c), ")");
  }

  /** Every display starts with its variant's prefix, and the prefix names
      the variant back. */
  lemma DisplayKind(e: VyperError)
    ensures Prefix(KindOf(e)) <= Display(e)
    ensures KindOfDisplay(Display(e)) == Some(KindOf(e))
  {
    PrefixNamesKind(KindOf(e), Detail(e));
  }

  lemma PrefixNamesKind(k: Kind, d: string)
    ensures KindOfDisplay(Prefix(k) + d) == Some(k)
  {
    var s := Prefix(k) + d;
    assert s[0] == Prefix(k)[0] && s[1] == Prefix(k)[1];
    assert Prefix(k) <= s;
  }

  lemma Regroup(a: string, b: string, c: string, d: string, e: string)
    ensures a + (b + c + d + e) == a + b + c + d + e
  {
  }

  lemma PrefixCancel(p: string, a: string, b: string)
    requires p + a == p + b
    ensures a == b
  {
    assert a == (p + a)[|p|..];
    assert b == (p + b)[|p|..];
  }

  /** Two errors display alike exactly when they are of the same variant and
      carry the same message (and, for `ApiError`, the same status): the
      display drops `retry_after`, `status_code` and `connection_info` and
      nothing else. */
  lemma DisplayDetermines(e1: VyperError, e2: VyperError)
    ensures Display(e1) == Display(e2) <==>
      && KindOf(e1) == KindOf(e2)
      && (if e1.HttpError? || e1.DeserializeError? then e1.cause == e2.cause else e1.message == e2.message)
      && (e1.ApiError? ==> e1.status == e2.status)
  {
    if Display(e1) == Display(e2) {
      DisplayKind(e1);
      DisplayKind(e2);
      PrefixCancel(Prefix(KindOf(e1)), Detail(e1), Detail(e2));
      if e1.ApiError? {
        ApiDisplayRoundTrip(e1.message, e1.status);
        ApiDisplayRoundTrip(e2.message, e2.status);
      }
    }
  }
}
