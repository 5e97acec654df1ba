/** `VyperWebsocketClient` (src/websocket.rs): a session that holds at most
    one connection, the feed it was opened on and a message handler, and the
    loop that feeds incoming frames to the handler. The transport behind the
    `WebSocketConnection` trait is abstract: its handshakes, sends and closes
    succeed or fail nondeterministically, and the frames it will deliver are
    part of its state. */
module WebSocket {
  import opened Primitives
  import opened Json
  import opened Errors
  import opened Subscriptions

  datatype FeedType = TokenEvents | MigrationEvents | WalletEvents

  /** `FeedType::to_string`: the feed's path segment. */
  function FeedPath(f: FeedType): (p: string)
    ensures FeedOfPath(p) == Some(f)
  {
    match f
    case TokenEvents => "token-events"
    case MigrationEvents => "migration-events"
    case WalletEvents => "wallet-events"
  }

  /** The feed a path segment names, if any. */
  function FeedOfPath(s: string): Option<FeedType> {
    if s == "token-events" then Some(TokenEvents)
    else if s == "migration-events" then Some(MigrationEvents)
    else if s == "wallet-events" then Some(WalletEvents)
    else None
  }

  /** The path names the feed back, and only the three paths name a feed;
      hence the paths are pairwise distinct. */
  lemma FeedPathRoundTrip(f: FeedType, g: FeedType, s: string)
    ensures FeedOfPath(FeedPath(f)) == Some(f)
    ensures FeedOfPath(s).Some? ==> FeedPath(FeedOfPath(s).value) == s
    ensures FeedPath(f) == FeedPath(g) ==> f == g
  {
    if FeedPath(f) == FeedPath(g) {
      assert FeedOfPath(FeedPath(f)) == FeedOfPath(FeedPath(g));
    }
  }

  /** The base URL `VyperWebsocketClient::new` installs. */
  const DefaultBaseUrl: string := "wss://api.vyper.trade/api/v1/ws"

  const KeyTag: string := "?apiKey="

  /** `format!("{}/{}?apiKey={}", base_url, feed_type.to_string(), api_key)`. */
  function ConnectUrl(base: string, f: FeedType, key: string): (url: string)
    ensures |url| == |base| + 1 + |FeedPath(f)| + |KeyTag| + |key|
    ensures url[..|base|] == base
  {
    base + "/" + FeedPath(f) + KeyTag + key
  }

  /** What follows "base/" in a connect URL: a feed path, the key tag and
      the key. */
  function FeedAndKey(rest: string): Option<(FeedType, string)> {
    var t := FeedPath(TokenEvents) + KeyTag;
    var m := FeedPath(MigrationEvents) + KeyTag;
    var w := FeedPath(WalletEvents) + KeyTag;
    if t <= rest then Some((TokenEvents, rest[|t|..]))
    else if m <= rest then Some((MigrationEvents, rest[|m|..]))
    else if w <= rest then Some((WalletEvents, rest[|w|..]))
    else None
  }

  /** Reads the feed and the key back out of a URL under `base`. */
  function ParseConnectUrl(base: string, url: string): Option<(FeedType, string)> {
    if |url| > |base| && url[..|base|] == base && url[|base|] == '/' then
      FeedAndKey(url[|base| + 1..])
    else None
  }

  lemma FeedAndKeyOf(f: FeedType, key: string)
    ensures FeedAndKey(FeedPath(f) + KeyTag + key) == Some((f, key))
  {
    var rest := FeedPath(f) + KeyTag + key;
    var p := FeedPath(f) + KeyTag;
    assert rest == p + key;
    assert p <= rest;
    assert rest[|p|..] == key;
    // the three paths already differ in their first character
    assert rest[0] == FeedPath(f)[0];
  }

  lemma UrlShape(base: string, path: string, tag: string, key: string)
    ensures var url := base + "/" + path + tag + key;
      && |url| > |base| && url[..|base|] == base && url[|base|] == '/'
      && url[|base| + 1..] == path + tag + key
  {
    var url := base + "/" + path + tag + key;
    assert url == base + ("/" + (path + tag + key));
  }

  /** The URL determines the feed and the key it was built from. */
  lemma ConnectUrlRoundTrip(base: string, f: FeedType, key: string)
    ensures ParseConnectUrl(base, ConnectUrl(base, f, key)) == Some((f, key))
  {
    var rest := FeedPath(f) + KeyTag + key;
    UrlShape(base, FeedPath(f), KeyTag, key);
    FeedAndKeyOf(f, key);
  }

  /** Different feeds or keys give different URLs. */
  lemma ConnectUrlInjective(base: string, f: FeedType, k: string, g: FeedType, j: string)
    requires ConnectUrl(base, f, k) == ConnectUrl(base, g, j)
    ensures f == g && k == j
  {
    ConnectUrlRoundTrip(base, f, k);
    ConnectUrlRoundTrip(base, g, j);
  }

  // ---------------------------------------------------------------------
  // Converting frames
  // ---------------------------------------------------------------------

  /** The serde steps `listen` depends on: parsing frame text as a JSON
      value, and decoding a value as a `ChainAction` or a `TokenPair` and
      writing that record back as a value (a failure of either step is
      reported as its message). */
  datatype Codec = Codec(
    parseJson: string -> Decoded<Value>,
    chainAction: Value -> Decoded<Value>,
    tokenPair: Value -> Decoded<Value>)

  function Lift(d: Decoded<Value>): (r: Result<Value>)
    ensures r.Ok? <==> d.Decoded?
  {
    match d
    case Decoded(v) => Ok(v)
    case Malformed(m) => Err(DeserializeError(m))
  }

  /** `convert_message`: the decoder is chosen by the session's feed, not by
      the payload. */
  function Convert(data: Value, feed: Option<FeedType>, codec: Codec): (r: Result<Value>)
    ensures feed.None? ==> r == Err(FromStr("Feed type is not set"))
    ensures feed == Some(WalletEvents) ==> r == Lift(codec.chainAction(data))
    ensures feed == Some(TokenEvents) || feed == Some(MigrationEvents) ==> r == Lift(codec.tokenPair(data))
    ensures r.Err? ==> r.error.DeserializeError? || r.error == FromStr("Feed type is not set")
  {
    match feed
    case None => Err(WebsocketErrorOf("Feed type is not set", None, None))
    case Some(WalletEvents) => Lift(codec.chainAction(data))
    case Some(_) => Lift(codec.tokenPair(data))
  }

  /** The token and migration feeds convert alike; the wallet feed ignores
      the token decoder and the others ignore the wallet decoder. */
  lemma ConvertByFeed(data: Value, codec: Codec, other: Value -> Decoded<Value>)
    ensures Convert(data, Some(TokenEvents), codec) == Convert(data, Some(MigrationEvents), codec)
    ensures Convert(data, Some(WalletEvents), codec) == Convert(data, Some(WalletEvents), codec.(tokenPair := other))
    ensures Convert(data, Some(TokenEvents), codec) == Convert(data, Some(TokenEvents), codec.(chainAction := other))
  {
  }

  // ---------------------------------------------------------------------
  // The listen loop, as a function of the frames the connection delivers
  // ---------------------------------------------------------------------

  /** How a run of `listen` ends, the frames it left unread, and the
      converted values it handed on, in order. */
  datatype ListenOutcome = ListenOutcome(result: Result<()>, remaining: seq<Result<string>>, converted: seq<Value>)

  /** `listen` on a connection that will deliver `frames` and then report
      the end of the stream: it stops with `Ok` at the first receive error,
      stops with a `DeserializeError` at the first frame that is not JSON,
      skips frames that fail conversion and passes on every other frame. */
  function ListenRun(frames: seq<Result<string>>, feed: Option<FeedType>, codec: Codec): (o: ListenOutcome)
    ensures |o.converted| + |o.remaining| <= |frames|
    decreases |frames|
  {
    if frames == [] then ListenOutcome(Ok(()), [], [])
    else match frames[0]
      case Err(_) => ListenOutcome(Ok(()), frames[1..], [])
      case Ok(text) =>
        match codec.parseJson(text)
        case Malformed(d) => ListenOutcome(Err(DeserializeError(d)), frames[1..], [])
        case Decoded(v) =>
          var rest := ListenRun(frames[1..], feed, codec);
          var c := Convert(v, feed, codec);
          ListenOutcome(rest.result, rest.remaining, if c.Ok? then [c.value] + rest.converted else rest.converted)
  }

  /** The number of frames before the first receive error. */
  function Stop(frames: seq<Result<string>>): (n: nat)
    ensures n <= |frames|
    ensures forall i :: 0 <= i < n ==> frames[i].Ok?
    ensures n < |frames| ==> frames[n].Err?
  {
    if frames == [] || frames[0].Err? then 0 else 1 + Stop(frames[1..])
  }

  /** Every frame before the first receive error is JSON. */
  predicate AllParse(frames: seq<Result<string>>, codec: Codec) {
    forall i :: 0 <= i < Stop(frames) ==> codec.parseJson(frames[i].value).Decoded?
  }

  /** `listen` ends with an error exactly when a frame before the first
      receive error is not JSON, and the error is then a
      `DeserializeError`. */
  lemma {:induction false} ListenResult(frames: seq<Result<string>>, feed: Option<FeedType>, codec: Codec)
    ensures var o := ListenRun(frames, feed, codec);
      && (o.result.Ok? <==> AllParse(frames, codec))
      && (o.result.Err? ==> o.result.error.DeserializeError?)
    decreases |frames|
  {
    if frames != [] && frames[0].Ok? {
      ListenResult(frames[1..], feed, codec);
      assert forall i :: 0 <= i < Stop(frames[1..]) ==> frames[1..][i] == frames[i + 1];
      if !AllParse(frames, codec) && codec.parseJson(frames[0].value).Decoded? {
        var i :| 0 <= i < Stop(frames) && !codec.parseJson(frames[i].value).Decoded?;
        assert !codec.parseJson(frames[1..][i - 1].value).Decoded?;
      }
    }
  }

  /** A run that ends with `Ok` has read every frame up to and including
      the first receive error, and nothing after it. */
  lemma {:induction false} ListenReadsToError(frames: seq<Result<string>>, feed: Option<FeedType>, codec: Codec)
    ensures var o := ListenRun(frames, feed, codec);
      o.result.Ok? ==> o.remaining == if Stop(frames) < |frames| then frames[Stop(frames) + 1..] else []
    decreases |frames|
  {
    if frames != [] && frames[0].Ok? {
      ListenReadsToError(frames[1..], feed, codec);
      if Stop(frames) < |frames| {
        assert frames[1..][Stop(frames[1..]) + 1..] == frames[Stop(frames) + 1..];
      }
    }
  }

  /** `listen` over `frames` stops at frame `k`, the first that is not
      JSON, before any receive error: the error carries that frame's parse
      detail, the frames after it stay unread, and what was handed on is
      what the run over the frames before it hands on, that run ending
      with `Ok`. */
  predicate AbortsAt(frames: seq<Result<string>>, feed: Option<FeedType>, codec: Codec, k: int) {
    && 0 <= k < Stop(frames)
    && codec.parseJson(frames[k].value).Malformed?
    && var o := ListenRun(frames, feed, codec);
    && o.result == Err(DeserializeError(codec.parseJson(frames[k].value).detail))
    && o.remaining == frames[k + 1..]
    && o.converted == ListenRun(frames[..k], feed, codec).converted
    && ListenRun(frames[..k], feed, codec).result.Ok?
  }

  /** A run that ends with an error stopped at a frame that is not JSON. */
  lemma {:induction false} ListenAborts(frames: seq<Result<string>>, feed: Option<FeedType>, codec: Codec)
    ensures ListenRun(frames, feed, codec).result.Err? ==> exists k :: AbortsAt(frames, feed, codec, k)
    decreases |frames|
  {
    if frames != [] && frames[0].Ok? && ListenRun(frames, feed, codec).result.Err? {
      match codec.parseJson(frames[0].value)
      case Malformed(d) =>
        assert frames[..0] == [];
        assert AbortsAt(frames, feed, codec, 0);
      case Decoded(v) =>
        var tail := frames[1..];
        ListenAborts(tail, feed, codec);
        var j :| AbortsAt(tail, feed, codec, j);
        AbortsStep(frames, feed, codec, j);
    }
  }

  /** One frame of `ListenAborts`: a stop at frame `j` of the tail is a stop
      at frame `j + 1` of the whole, when the first frame is JSON. */
  lemma AbortsStep(frames: seq<Result<string>>, feed: Option<FeedType>, codec: Codec, j: int)
    requires frames != [] && frames[0].Ok? && codec.parseJson(frames[0].value).Decoded?
    requires AbortsAt(frames[1..], feed, codec, j)
    ensures AbortsAt(frames, feed, codec, j + 1)
  {
    var tail := frames[1..];
    var k := j + 1;
    var head := frames[..k];
    assert Stop(frames) == 1 + Stop(tail);
    assert frames[k] == tail[j];
    assert tail[j + 1..] == frames[k + 1..];
    assert head[0] == frames[0] && head[1..] == tail[..j];
    var v := codec.parseJson(frames[0].value).value;
    var c := Convert(v, feed, codec);
    var pre: seq<Value> := if c.Ok? then [c.value] else [];
    var whole, rest := ListenRun(frames, feed, codec), ListenRun(tail, feed, codec);
    assert whole == ListenOutcome(rest.result, rest.remaining, pre + rest.converted);
    var before, restBefore := ListenRun(head, feed, codec), ListenRun(tail[..j], feed, codec);
    assert before == ListenOutcome(restBefore.result, restBefore.remaining, pre + restBefore.converted);
  }

  /** With no feed set every frame is skipped: nothing is ever handed on. */
  lemma {:induction false} ListenWithoutFeed(frames: seq<Result<string>>, codec: Codec)
    ensures ListenRun(frames, None, codec).converted == []
    decreases |frames|
  {
    if frames != [] {
      ListenWithoutFeed(frames[1..], codec);
    }
  }

  /** Every frame that parses and converts. */
  predicate AllConvert(frames: seq<Result<string>>, feed: Option<FeedType>, codec: Codec) {
    forall i :: 0 <= i < Stop(frames) ==>
      codec.parseJson(frames[i].value).Decoded?
      && Convert(codec.parseJson(frames[i].value).value, feed, codec).Ok?
  }

  /** When every frame before the first receive error parses and converts,
      each of them is handed on once, in order, as its converted value. */
  lemma {:induction false} ListenHandsOnEach(frames: seq<Result<string>>, feed: Option<FeedType>, codec: Codec)
    requires AllConvert(frames, feed, codec)
    ensures var o := ListenRun(frames, feed, codec);
      && |o.converted| == Stop(frames)
      && forall i :: 0 <= i < Stop(frames) ==>
           o.converted[i] == Convert(codec.parseJson(frames[i].value).value, feed, codec).value
    decreases |frames|
  {
    if frames != [] && frames[0].Ok? {
      assert forall i :: 0 <= i < Stop(frames[1..]) ==> frames[1..][i] == frames[i + 1];
      ListenHandsOnEach(frames[1..], feed, codec);
    }
  }

  /** A frame that is JSON but does not convert is skipped: the run goes on
      as if it had not arrived, one `receive` later. */
  lemma ListenSkipsUnconvertible(text: string, rest: seq<Result<string>>, feed: Option<FeedType>, codec: Codec)
    requires codec.parseJson(text).Decoded?
    requires Convert(codec.parseJson(text).value, feed, codec).Err?
    ensures var o := ListenRun([Ok(text)] + rest, feed, codec);
      var p := ListenRun(rest, feed, codec);
      o.result == p.result && o.remaining == p.remaining && o.converted == p.converted
  {
    assert ([Ok(text)] + rest)[1..] == rest;
  }

  /** `all` is the outcome of a run that has so far passed on `passed`, and
      `now` is the outcome of the rest of the run. */
  ghost predicate Resumes(all: ListenOutcome, passed: seq<Value>, now: ListenOutcome) {
    all.result == now.result && all.remaining == now.remaining && all.converted == passed + now.converted
  }

  /** One turn of the loop, seen from the outcome of the rest of the run. */
  lemma ListenAdvance(all: ListenOutcome, passed: seq<Value>, pending: seq<Result<string>>,
                      feed: Option<FeedType>, codec: Codec)
    requires Resumes(all, passed, ListenRun(pending, feed, codec))
    ensures pending == [] ==> all.result == Ok(()) && all.remaining == [] && all.converted == passed
    ensures pending != [] && pending[0].Err? ==>
      all.result == Ok(()) && all.remaining == pending[1..] && all.converted == passed
    ensures pending != [] && pending[0].Ok? && codec.parseJson(pending[0].value).Malformed? ==>
      all.result == Err(DeserializeError(codec.parseJson(pending[0].value).detail))
      && all.remaining == pending[1..] && all.converted == passed
    ensures pending != [] && pending[0].Ok? && codec.parseJson(pending[0].value).Decoded? ==>
      var c := Convert(codec.parseJson(pending[0].value).value, feed, codec);
      Resumes(all, if c.Ok? then passed + [c.value] else passed, ListenRun(pending[1..], feed, codec))
  {
    if pending != [] && pending[0].Ok? && codec.parseJson(pending[0].value).Decoded? {
      var c := Convert(codec.parseJson(pending[0].value).value, feed, codec);
      var rest := ListenRun(pending[1..], feed, codec);
      if c.Ok? {
        assert passed + ([c.value] + rest.converted) == (passed + [c.value]) + rest.converted;
      }
    } else if pending == [] || pending[0].Err? {
      assert passed + [] == passed;
    } else {
      assert passed + [] == passed;
    }
  }

  // ---------------------------------------------------------------------
  // The transport
  // ---------------------------------------------------------------------

  /** The error the client reports for a transport error `cause`: a
      websocket error whose message is the cause's display text. */
  function TransportFailure(cause: VyperError, info: Option<string>): (e: VyperError)
    ensures e.WebsocketError? && e.statusCode == None && e.connectionInfo == info
    ensures Display(e) == "Websocket error: " + Display(cause)
  {
    WebsocketErrorOf(Display(cause), None, info)
  }

  /** One `WebSocketConnection`. `incoming` is what `receive` will yield, in
      order; once it is exhausted `receive` reports the end of the stream.
      The ghost fields record the URLs of successful handshakes, the frames
      sent, and the number of successful closes. */
  class Connection {
    var incoming: seq<Result<string>>
    ghost var handshakes: seq<string>
    ghost var sent: seq<string>
    ghost var closes: nat

    constructor ()
      ensures handshakes == [] && sent == [] && closes == 0
    {
      var frames: seq<Result<string>> := *;
      incoming := frames;
      handshakes := [];
      sent := [];
      closes := 0;
    }

    method Connect(url: string) returns (r: Result<()>)
      modifies this
      ensures sent == old(sent) && closes == old(closes)
      ensures r.Ok? ==> handshakes == old(handshakes) + [url]
      ensures r.Err? ==> handshakes == old(handshakes) && incoming == old(incoming)
    {
      var ok: bool := *;
      if ok {
        var frames: seq<Result<string>> := *;
        incoming := frames;
        handshakes := handshakes + [url];
        r := Ok(());
      } else {
        var e: VyperError := *;
        r := Err(e);
      }
    }

    method Send(data: string) returns (r: Result<()>)
      modifies this
      ensures incoming == old(incoming) && handshakes == old(handshakes) && closes == old(closes)
      ensures sent == if r.Ok? then old(sent) + [data] else old(sent)
    {
      var ok: bool := *;
      if ok {
        sent := sent + [data];
        r := Ok(());
      } else {
        var e: VyperError := *;
        r := Err(e);
      }
    }

    method Receive() returns (r: Result<string>)
      modifies this
      ensures handshakes == old(handshakes) && sent == old(sent) && closes == old(closes)
      ensures old(incoming) == [] ==> r == Err(FromStr("WebSocket stream ended")) && incoming == []
      ensures old(incoming) != [] ==> r == old(incoming)[0] && incoming == old(incoming)[1..]
    {
      if incoming == [] {
        r := Err(FromStr("WebSocket stream ended"));
      } else {
        r := incoming[0];
        incoming := incoming[1..];
      }
    }

    method Close() returns (r: Result<()>)
      modifies this
      ensures incoming == old(incoming) && handshakes == old(handshakes) && sent == old(sent)
      ensures closes == if r.Ok? then old(closes) + 1 else old(closes)
    {
      var ok: bool := *;
      if ok {
        closes := closes + 1;
        r := Ok(());
      } else {
        var e: VyperError := *;
        r := Err(e);
      }
    }
  }

  // ---------------------------------------------------------------------
  // The client
  // ---------------------------------------------------------------------

  /** Which handler closure is installed; calls to it are recorded as
      deliveries. */
  datatype Handler = Handler(id: nat)

  /** The calls a handler (if any) receives for `values`. */
  function Deliveries(h: Option<Handler>, values: seq<Value>): (d: seq<(Handler, Value)>)
    ensures |d| == if h.Some? then |values| else 0
  {
    if h.None? || values == [] then []
    else [(h.value, values[0])] + Deliveries(h, values[1..])
  }

  /** The handler, if any, is called once per value, in order. */
  lemma {:induction false} DeliveriesEach(h: Option<Handler>, values: seq<Value>)
    requires h.Some?
    ensures forall i :: 0 <= i < |values| ==> Deliveries(h, values)[i] == (h.value, values[i])
    decreases |values|
  {
    if values != [] {
      DeliveriesEach(h, values[1..]);
    }
  }

  lemma {:induction false} DeliveriesAppend(h: Option<Handler>, a: seq<Value>, b: seq<Value>)
    ensures Deliveries(h, a + b) == Deliveries(h, a) + Deliveries(h, b)
    decreases |a|
  {
    if h.Some? && a != [] {
      assert (a + b)[1..] == a[1..] + b;
      DeliveriesAppend(h, a[1..], b);
    } else if a == [] {
      assert a + b == b;
    }
  }

  /** What one `subscribe` call does with a connection present: on a feed
      mismatch it fails and sends nothing; otherwise it sends `frame` once
      and succeeds, or the send fails, sends nothing and the transport error
      is reported. */
  ghost predicate SubscribeOutcome(matches: bool, frame: string, before: seq<string>, after: seq<string>, r: Result<()>) {
    if !matches then r == Err(FromStr("Feed type mismatch")) && after == before
    else
      || (r.Ok? && after == before + [frame])
      || (r.Err? && after == before && exists c :: r.error == TransportFailure(c, None))
  }

  class VyperWebsocketClient {
    const baseUrl: string
    const apiKey: string
    var conn: Connection?
    var feed: Option<FeedType>
    var handler: Option<Handler>
    ghost var deliveries: seq<(Handler, Value)>

    /** A connection is held exactly when a feed is set. */
    ghost predicate Valid()
      reads this
    {
      conn != null <==> feed.Some?
    }

    /** `VyperWebsocketClient::new`. */
    constructor (apiKey: string)
      ensures baseUrl == DefaultBaseUrl && this.apiKey == apiKey
      ensures conn == null && feed == None && handler == None && deliveries == []
      ensures Valid()
    {
      baseUrl := DefaultBaseUrl;
      this.apiKey := apiKey;
      conn := null;
      feed := None;
      handler := None;
      deliveries := [];
    }

    /** `connect`: a fresh connection when none is held, the held one
        otherwise; the feed is recorded only after a successful handshake. */
    method Connect(f: FeedType) returns (r: Result<()>)
      modifies this, conn
      ensures handler == old(handler) && deliveries == old(deliveries)
      ensures old(conn) != null ==> conn == old(conn) && conn.sent == old(conn.sent) && conn.closes == old(conn.closes)
      ensures r.Ok? ==> conn != null && feed == Some(f) && Valid()
      ensures r.Ok? && old(conn) == null ==> fresh(conn) && conn.handshakes == [ConnectUrl(baseUrl, f, apiKey)]
      ensures r.Ok? && old(conn) != null ==> conn.handshakes == old(conn.handshakes) + [ConnectUrl(baseUrl, f, apiKey)]
      ensures r.Ok? && old(conn) == null ==> conn.sent == [] && conn.closes == 0
      ensures r.Err? ==> conn == old(conn) && feed == old(feed)
      ensures r.Err? && old(conn) != null ==>
        conn.incoming == old(conn.incoming) && conn.handshakes == old(conn.handshakes)
      ensures r.Err? ==> exists c :: r.error == TransportFailure(c, Some(ConnectUrl(baseUrl, f, apiKey)))
      ensures old(Valid()) ==> Valid()
    {
      var url := ConnectUrl(baseUrl, f, apiKey);
      if conn == null {
        var created := new Connection();
        var res := created.Connect(url);
        if res.Err? {
          r := Err(TransportFailure(res.error, Some(url)));
          return;
        }
        conn := created;
      } else {
        var res := conn.Connect(url);
        if res.Err? {
          r := Err(TransportFailure(res.error, Some(url)));
          return;
        }
      }
      feed := Some(f);
      r := Ok(());
    }

    /** `subscribe`. The precondition is the `unwrap` on the feed, which
        `Valid` guarantees. */
    method Subscribe(f: FeedType, m: SubscriptionMessage) returns (r: Result<()>)
      requires conn != null ==> feed.Some?
      modifies conn
      ensures conn == null ==> r == Err(FromStr("Not connected"))
      ensures conn != null ==>
        && conn.incoming == old(conn.incoming)
        && conn.handshakes == old(conn.handshakes)
        && conn.closes == old(conn.closes)
      ensures conn != null ==> SubscribeOutcome(feed.value == f, Encode(m), old(conn.sent), conn.sent, r)
    {
      if conn == null {
        return Err(FromStr("Not connected"));
      }
      if f != feed.value {
        return Err(FromStr("Feed type mismatch"));
      }
      var data := Encode(m);
      var res := conn.Send(data);
      if res.Err? {
        r := Err(TransportFailure(res.error, None));
        return;
      }
      r := Ok(());
    }

    /** `unsubscribe` is `subscribe`. */
    method Unsubscribe(f: FeedType, m: SubscriptionMessage) returns (r: Result<()>)
      requires conn != null ==> feed.Some?
      modifies conn
      ensures conn == null ==> r == Err(FromStr("Not connected"))
      ensures conn != null ==>
        && conn.incoming == old(conn.incoming)
        && conn.handshakes == old(conn.handshakes)
        && conn.closes == old(conn.closes)
      ensures conn != null ==> SubscribeOutcome(feed.value == f, Encode(m), old(conn.sent), conn.sent, r)
    {
      r := Subscribe(f, m);
    }

    /** `listen`: receives until the transport reports an error, handing
        each converted frame to the handler; its outcome is `ListenRun` of
        the frames the connection had pending. */
    method Listen(codec: Codec) returns (r: Result<()>)
      modifies this, conn
      ensures conn == old(conn) && feed == old(feed) && handler == old(handler)
      ensures conn == null ==> r == Err(FromStr("Not connected")) && deliveries == old(deliveries)
      ensures conn != null ==>
        && conn.handshakes == old(conn.handshakes)
        && conn.sent == old(conn.sent)
        && conn.closes == old(conn.closes)
      ensures conn != null ==>
        var run := ListenRun(old(conn.incoming), feed, codec);
        && r == run.result
        && conn.incoming == run.remaining
        && deliveries == old(deliveries) + Deliveries(handler, run.converted)
    {
      if conn == null {
        return Err(FromStr("Not connected"));
      }
      var c, f, h := conn, feed, handler;
      ghost var all := ListenRun(c.incoming, f, codec);
      ghost var passed: seq<Value> := [];
      while true
        invariant conn == c && feed == f && handler == h
        invariant c.handshakes == old(c.handshakes) && c.sent == old(c.sent) && c.closes == old(c.closes)
        invariant deliveries == old(deliveries) + Deliveries(h, passed)
        invariant Resumes(all, passed, ListenRun(c.incoming, f, codec))
        decreases |c.incoming|
      {
        ListenAdvance(all, passed, c.incoming, f, codec);
        var msg := c.Receive();
        if msg.Err? {
          return Ok(());
        }
        var parsed := codec.parseJson(msg.value);
        if parsed.Malformed? {
          return Err(DeserializeError(parsed.detail));
        }
        var converted := Convert(parsed.value, f, codec);
        if converted.Ok? {
          DeliveriesAppend(h, passed, [converted.value]);
          passed := passed + [converted.value];
          if h.Some? {
            deliveries := deliveries + [(h.value, converted.value)];
          }
        }
      }
    }

    /** `disconnect`: closes the held connection, if any, and forgets it and
        the feed; a failed close is reported and changes nothing. */
    method Disconnect() returns (r: Result<()>)
      modifies this, conn
      ensures handler == old(handler) && deliveries == old(deliveries)
      ensures old(conn) == null ==> r == Ok(()) && conn == null && feed == None
      ensures old(conn) != null ==>
        && old(conn).incoming == old(conn.incoming)
        && old(conn).handshakes == old(conn.handshakes)
        && old(conn).sent == old(conn.sent)
      ensures old(conn) != null && r.Ok? ==> conn == null && feed == None && old(conn).closes == old(conn.closes) + 1
      ensures old(conn) != null && r.Err? ==> conn == old(conn) && feed == old(feed) && conn.closes == old(conn.closes)
      ensures r.Err? ==> exists c :: r.error == TransportFailure(c, None)
      ensures r.Ok? ==> Valid()
      ensures old(Valid()) ==> Valid()
    {
      if conn != null {
        var res := conn.Close();
        if res.Err? {
          r := Err(TransportFailure(res.error, None));
          return;
        }
      }
      conn := null;
      feed := None;
      r := Ok(());
    }

    /** `ping`: sends the text "ping" on the held connection, if any. */
    method Ping() returns (r: Result<()>)
      modifies conn
      ensures conn == null ==> r == Ok(())
      ensures conn != null ==>
        && conn.incoming == old(conn.incoming)
        && conn.handshakes == old(conn.handshakes)
        && conn.closes == old(conn.closes)
      ensures conn != null && r.Ok? ==> conn.sent == old(conn.sent) + ["ping"]
      ensures conn != null && r.Err? ==> conn.sent == old(conn.sent) && exists c :: r.error == TransportFailure(c, None)
    {
      if conn != null {
        var res := conn.Send("ping");
        if res.Err? {
          r := Err(TransportFailure(res.error, None));
          return;
        }
      }
      r := Ok(());
    }

    /** `set_message_handler`: the new handler replaces any earlier one. */
    method SetMessageHandler(h: Handler)
      modifies this
      ensures handler == Some(h)
      ensures conn == old(conn) && feed == old(feed) && deliveries == old(deliveries)
    {
      handler := Some(h);
    }
  }
}
