/** The subscription frames of the websocket protocol (src/websocket.rs,
    `SubscriptionMessageType`, `SubscriptionType`, `TokenSubscriptionMessage`,
    `WalletSubscriptionMessage`) and the compact JSON text `serde_json::to_string`
    writes for them: fields in declaration order, the action in lower case,
    the subscription types in PascalCase, strings escaped as serde_json does. */
module Subscriptions {
  import opened Primitives

  datatype Action = Subscribe | Unsubscribe

  datatype SubscriptionType = PumpfunTokens | RaydiumAmmTokens | RaydiumCpmmTokens | RaydiumClmmTokens

  datatype SubscriptionMessage =
    | TokenSubscription(action: Action, types: seq<SubscriptionType>)
    | WalletSubscription(action: Action, wallets: seq<string>)

  /** `#[serde(rename_all = "lowercase")]`. */
  function ActionName(a: Action): string {
    match a
    case Subscribe => "subscribe"
    case Unsubscribe => "unsubscribe"
  }

  /** `#[serde(rename_all = "PascalCase")]`: the variant names as written. */
  function TypeName(t: SubscriptionType): string {
    match t
    case PumpfunTokens => "PumpfunTokens"
    case RaydiumAmmTokens => "RaydiumAmmTokens"
    case RaydiumCpmmTokens => "RaydiumCpmmTokens"
    case RaydiumClmmTokens => "RaydiumClmmTokens"
  }

  /** Different actions and different subscription types are written
      differently, so the server can tell them apart. */
  lemma NamesDistinct(a: Action, b: Action, t: SubscriptionType, u: SubscriptionType)
    ensures ActionName(a) == ActionName(b) ==> a == b
    ensures TypeName(t) == TypeName(u) ==> t == u
  {
    if TypeName(t) == TypeName(u) {
      assert TypeName(t)[7] == TypeName(u)[7];
    }
  }

  // ---------------------------------------------------------------------
  // JSON strings
  // ---------------------------------------------------------------------

  function HexDigit(d: nat): (c: char)
    requires d < 16
  {
    "0123456789abcdef"[d]
  }

  function HexValue(c: char): Option<nat> {
    if '0' <= c <= '9' then Some(c as int - '0' as int)
    else if 'a' <= c <= 'f' then Some(c as int - 'a' as int + 10)
    else if 'A' <= c <= 'F' then Some(c as int - 'A' as int + 10)
    else None
  }

  /** How serde_json writes one character inside a string literal: the quote
      and the backslash escaped, the five control characters with a short
      escape written short, every other control character as `\u00XX` with
      lower-case hex, everything else as itself. */
  function EscapeChar(c: char): string {
    if c == '"' then "\\\""
    else if c == '\\' then "\\\\"
    else if c == '\U{8}' then "\\b"
    else if c == '\t' then "\\t"
    else if c == '\n' then "\\n"
    else if c == '\U{C}' then "\\f"
    else if c == '\r' then "\\r"
    else if c < ' ' then "\\u00" + [HexDigit(c as int / 16), HexDigit(c as int % 16)]
    else [c]
  }

  function Escape(s: string): string {
    if s == [] then [] else EscapeChar(s[0]) + Escape(s[1..])
  }

  /** A string as a JSON string literal. */
  function JsonString(s: string): string {
    "\"" + Escape(s) + "\""
  }

  function Prepend(c: char, r: Option<(string, string)>): Option<(string, string)> {
    match r case Some((t, after)) => Some(([c] + t, after)) case None => None
  }

  /** Reads a JSON string literal from just after its opening quote, as a
      JSON parser reads it: the characters up to the closing quote, and the
      text after that quote. `None` when the quote never comes, on a raw
      control character or on an escape JSON does not have. */
  function ReadString(e: string): (r: Option<(string, string)>)
    ensures r.Some? ==> |r.value.1| < |e|
    decreases |e|
  {
    if e == [] then None
    else if e[0] == '"' then Some(([], e[1..]))
    else if e[0] == '\\' then
      if |e| < 2 then None
      else if e[1] == '"' then Prepend('"', ReadString(e[2..]))
      else if e[1] == '\\' then Prepend('\\', ReadString(e[2..]))
      else if e[1] == '/' then Prepend('/', ReadString(e[2..]))
      else if e[1] == 'b' then Prepend('\U{8}', ReadString(e[2..]))
      else if e[1] == 't' then Prepend('\t', ReadString(e[2..]))
      else if e[1] == 'n' then Prepend('\n', ReadString(e[2..]))
      else if e[1] == 'f' then Prepend('\U{C}', ReadString(e[2..]))
      else if e[1] == 'r' then Prepend('\r', ReadString(e[2..]))
      else if e[1] == 'u' && |e| >= 6
              && HexValue(e[2]).Some? && HexValue(e[3]).Some?
              && HexValue(e[4]).Some? && HexValue(e[5]).Some? then
        var v := ((HexValue(e[2]).value * 16 + HexValue(e[3]).value) * 16
                  + HexValue(e[4]).value) * 16 + HexValue(e[5]).value;
        if 0xD800 <= v < 0xE000 then None
        else Prepend(v as char, ReadString(e[6..]))
      else None
    else if e[0] < ' ' then None
    else Prepend(e[0], ReadString(e[1..]))
  }

  lemma ReadControl(c: char, rest: string)
    requires c < ' ' && c != '\U{8}' && c != '\t' && c != '\n' && c != '\U{C}' && c != '\r'
    ensures ReadString(EscapeChar(c) + rest) == Prepend(c, ReadString(rest))
  {
    var hi, lo := c as int / 16, c as int % 16;
    var e := "\\u00" + [HexDigit(hi), HexDigit(lo)] + rest;
    assert EscapeChar(c) + rest == e;
    assert e[0] == '\\' && e[1] == 'u';
    assert e[2] == '0' && e[3] == '0' && e[4] == HexDigit(hi) && e[5] == HexDigit(lo);
    assert HexValue(HexDigit(hi)) == Some(hi);
    assert HexValue(HexDigit(lo)) == Some(lo);
    assert e[6..] == rest;
  }

  lemma ReadShort(c: char, rest: string)
    requires c == '"' || c == '\\' || c == '\U{8}' || c == '\t' || c == '\n' || c == '\U{C}' || c == '\r'
    ensures ReadString(EscapeChar(c) + rest) == Prepend(c, ReadString(rest))
  {
    var e := EscapeChar(c) + rest;
    assert |EscapeChar(c)| == 2 && EscapeChar(c)[0] == '\\';
    assert e[0] == '\\' && e[1] == EscapeChar(c)[1];
    assert e[2..] == rest;
  }

  lemma ReadEscapeChar(c: char, rest: string)
    ensures ReadString(EscapeChar(c) + rest) == Prepend(c, ReadString(rest))
  {
    if c == '"' || c == '\\' || c == '\U{8}' || c == '\t' || c == '\n' || c == '\U{C}' || c == '\r' {
      ReadShort(c, rest);
    } else if c < ' ' {
      ReadControl(c, rest);
    } else {
      assert (EscapeChar(c) + rest)[1..] == rest;
    }
  }

  /** Reading an escaped string back gives the string and stops at the quote
      that closes it, whatever follows: a string literal carries every
      character exactly and never runs into the text after it. */
  lemma {:induction false} EscapeRoundTrip(s: string, rest: string)
    ensures ReadString(Escape(s) + "\"" + rest) == Some((s, rest))
  {
    if s == [] {
      assert Escape(s) + "\"" + rest == "\"" + rest;
      assert ("\"" + rest)[1..] == rest;
    } else {
      var tail := Escape(s[1..]) + "\"" + rest;
      EscapeRoundTrip(s[1..], rest);
      assert Escape(s) + "\"" + rest == EscapeChar(s[0]) + tail;
      ReadEscapeChar(s[0], tail);
      assert [s[0]] + s[1..] == s;
    }
  }

  predicate Plain(c: char) {
    c != '"' && c != '\\' && c >= ' '
  }

  /** Text without quotes, backslashes or control characters, such as a
      base58 wallet address, is written as it is. */
  lemma {:induction false} EscapePlain(s: string)
    requires forall i :: 0 <= i < |s| ==> Plain(s[i])
    ensures Escape(s) == s
  {
    if s != [] {
      EscapePlain(s[1..]);
      assert [s[0]] + s[1..] == s;
    }
  }

  // ---------------------------------------------------------------------
  // Frames
  // ---------------------------------------------------------------------

  /** The subscription types as the strings serde writes for them. */
  function TypeNames(ts: seq<SubscriptionType>): (r: seq<string>)
    ensures |r| == |ts|
    ensures forall i :: 0 <= i < |ts| ==> r[i] == TypeName(ts[i])
  {
    if ts == [] then [] else [TypeName(ts[0])] + TypeNames(ts[1..])
  }

  function QuotedStrings(ws: seq<string>): (r: seq<string>)
    ensures |r| == |ws|
    ensures forall i :: 0 <= i < |ws| ==> r[i] == JsonString(ws[i])
  {
    if ws == [] then [] else [JsonString(ws[0])] + QuotedStrings(ws[1..])
  }

  function JsonArray(items: seq<string>): string {
    "[" + Join(items, ',') + "]"
  }

  /** `serde_json::to_string(&message)`, compact form. */
  function Encode(m: SubscriptionMessage): string {
    match m
    case TokenSubscription(a, ts) =>
      "{\"action\":" + JsonString(ActionName(a)) + ",\"types\":" + JsonArray(QuotedStrings(TypeNames(ts))) + "}"
    case WalletSubscription(a, ws) =>
      "{\"action\":" + JsonString(ActionName(a)) + ",\"wallets\":" + JsonArray(QuotedStrings(ws)) + "}"
  }

  lemma JsonStringPlain(s: string)
    requires forall i :: 0 <= i < |s| ==> Plain(s[i])
    ensures JsonString(s) == "\"" + s + "\""
  {
    EscapePlain(s);
  }

  lemma ActionNamePlain(a: Action)
    ensures JsonString(ActionName(a)) == "\"" + ActionName(a) + "\""
  {
    var n := ActionName(a);
    assert forall i :: 0 <= i < |n| ==> 'a' <= n[i] <= 'z';
    JsonStringPlain(n);
  }

  lemma RegroupFrame(open: string, q: string, name: string, key: string, lb: string, items: string, rb: string, close: string)
    ensures open + (q + name + q) + key + (lb + items + rb) + close
            == (open + q) + name + (q + key + lb) + items + (rb + close)
  {
  }

  lemma TypeNamePlain(t: SubscriptionType)
    ensures JsonString(TypeName(t)) == "\"" + TypeName(t) + "\""
  {
    var n := TypeName(t);
    assert forall i :: 0 <= i < |n| ==> ('a' <= n[i] <= 'z' || 'A' <= n[i] <= 'Z');
    JsonStringPlain(n);
  }

  lemma SingleTypeFrame(n: string, t: string)
    ensures "{\"action\":" + ("\"" + n + "\"") + ",\"types\":" + ("[" + ("\"" + t + "\"") + "]") + "}"
            == "{\"action\":\"" + n + "\",\"types\":[\"" + t + "\"]}"
  {
    RegroupFrame("{\"action\":", "\"", n, ",\"types\":", "[", "\"" + t + "\"", "]", "}");
    assert "{\"action\":" + "\"" == "{\"action\":\"";
    assert "\"" + ",\"types\":" + "[" == "\",\"types\":[";
    assert "]" + "}" == "]}";
  }

  /** A one-type frame, such as the one the websocket unit tests subscribe
      with: `{"action":"subscribe","types":["PumpfunTokens"]}`. */
  lemma EncodeSingleType(a: Action, t: SubscriptionType)
    ensures Encode(TokenSubscription(a, [t]))
            == "{\"action\":\"" + ActionName(a) + "\",\"types\":[\"" + TypeName(t) + "\"]}"
  {
    ActionNamePlain(a);
    TypeNamePlain(t);
    assert QuotedStrings(TypeNames([t])) == ["\"" + TypeName(t) + "\""];
    SingleTypeFrame(ActionName(a), TypeName(t));
  }

  lemma WalletFrame(n: string, items: string)
    ensures "{\"action\":" + ("\"" + n + "\"") + ",\"wallets\":" + ("[" + items + "]") + "}"
            == "{\"action\":\"" + n + "\",\"wallets\":[" + items + "]}"
  {
    RegroupFrame("{\"action\":", "\"", n, ",\"wallets\":", "[", items, "]", "}");
    assert "{\"action\":" + "\"" == "{\"action\":\"";
    assert "\"" + ",\"wallets\":" + "[" == "\",\"wallets\":[";
    assert "]" + "}" == "]}";
  }

  /** A wallet frame lists the addresses, each quoted and, when it has no
      quote, backslash or control character, verbatim, in the order given. */
  lemma EncodeWallets(a: Action, ws: seq<string>)
    ensures Encode(WalletSubscription(a, ws))
            == "{\"action\":\"" + ActionName(a) + "\",\"wallets\":[" + Join(QuotedStrings(ws), ',') + "]}"
    ensures forall i :: 0 <= i < |ws| && (forall j :: 0 <= j < |ws[i]| ==> Plain(ws[i][j]))
                        ==> QuotedStrings(ws)[i] == "\"" + ws[i] + "\""
  {
    ActionNamePlain(a);
    forall i | 0 <= i < |ws| && (forall j :: 0 <= j < |ws[i]| ==> Plain(ws[i][j]))
      ensures QuotedStrings(ws)[i] == "\"" + ws[i] + "\""
    {
      JsonStringPlain(ws[i]);
    }
    WalletFrame(ActionName(a), Join(QuotedStrings(ws), ','));
  }

  // ---------------------------------------------------------------------
  // Reading a frame back
  // ---------------------------------------------------------------------

  function ActionOfName(s: string): Option<Action> {
    if s == "subscribe" then Some(Subscribe)
    else if s == "unsubscribe" then Some(Unsubscribe)
    else None
  }

  function TypeOfName(s: string): Option<SubscriptionType> {
    if s == "PumpfunTokens" then Some(PumpfunTokens)
    else if s == "RaydiumAmmTokens" then Some(RaydiumAmmTokens)
    else if s == "RaydiumCpmmTokens" then Some(RaydiumCpmmTokens)
    else if s == "RaydiumClmmTokens" then Some(RaydiumClmmTokens)
    else None
  }

  function TypesOfNames(names: seq<string>): Option<seq<SubscriptionType>> {
    if names == [] then Some([])
    else
      match (TypeOfName(names[0]), TypesOfNames(names[1..]))
      case (Some(t), Some(ts)) => Some([t] + ts)
      case _ => None
  }

  /** Reads the string literals of a non-empty array from just after its
      `[`: each literal, then `,` and more or `]` and the end; also returns
      the text after the `]`. */
  function ReadItems(t: string): Option<(seq<string>, string)>
    decreases |t|
  {
    if t != [] && t[0] == '"' then
      match ReadString(t[1..])
      case None => None
      case Some((s, r)) =>
        if r != [] && r[0] == ']' then Some(([s], r[1..]))
        else if r != [] && r[0] == ',' then
          match ReadItems(r[1..])
          case None => None
          case Some((ss, after)) => Some(([s] + ss, after))
        else None
    else None
  }

  /** Reads an array of string literals, and the text after it. */
  function ReadArray(t: string): Option<(seq<string>, string)> {
    if |t| >= 2 && t[0] == '[' && t[1] == ']' then Some(([], t[2..]))
    else if t != [] && t[0] == '[' then ReadItems(t[1..])
    else None
  }

  const ActionKey: string := "{\"action\":\""
  const TypesKey: string := ",\"types\":"
  const WalletsKey: string := ",\"wallets\":"

  /** Reads a subscription frame: the action, then either the subscription
      types or the wallets, and nothing after the closing brace. */
  function DecodeFrame(s: string): Option<SubscriptionMessage> {
    if !(ActionKey <= s) then None
    else
      match ReadString(s[|ActionKey|..])
      case None => None
      case Some((name, r)) =>
        match ActionOfName(name)
        case None => None
        case Some(a) => DecodeTargets(a, r)
  }

  /** What follows the action: the types or the wallets, and the brace. */
  function DecodeTargets(a: Action, r: string): Option<SubscriptionMessage> {
    if TypesKey <= r then
      match ReadArray(r[|TypesKey|..])
      case None => None
      case Some((names, after)) =>
        if after != "}" then None
        else
          match TypesOfNames(names)
          case None => None
          case Some(ts) => Some(TokenSubscription(a, ts))
    else if WalletsKey <= r then
      match ReadArray(r[|WalletsKey|..])
      case None => None
      case Some((ws, after)) => if after == "}" then Some(WalletSubscription(a, ws)) else None
    else None
  }

  lemma {:induction false} TypesOfNamesRoundTrip(ts: seq<SubscriptionType>)
    ensures TypesOfNames(TypeNames(ts)) == Some(ts)
    decreases |ts|
  {
    if ts != [] {
      TypesOfNamesRoundTrip(ts[1..]);
      assert TypeNames(ts)[1..] == TypeNames(ts[1..]);
      assert TypeOfName(TypeName(ts[0])) == Some(ts[0]);
      assert [ts[0]] + ts[1..] == ts;
    }
  }

  /** A string literal reads back as its string, whatever follows it. */
  lemma ReadLiteral(w: string, x: string)
    ensures ReadString((JsonString(w) + x)[1..]) == Some((w, x))
    ensures (JsonString(w) + x)[0] == '"'
  {
    var t := JsonString(w) + x;
    EscapeRoundTrip(w, x);
    assert t == "\"" + (Escape(w) + "\"" + x);
    assert t[1..] == Escape(w) + "\"" + x;
  }

  /** The last item, then the `]`. */
  lemma ReadItemsLast(w: string, rest: string)
    ensures ReadItems(Join([JsonString(w)], ',') + "]" + rest) == Some(([w], rest))
  {
    var x := [']'] + rest;
    assert Join([JsonString(w)], ',') + "]" + rest == JsonString(w) + x;
    ReadLiteral(w, x);
    assert x[1..] == rest;
  }

  lemma JoinFirst(q: seq<string>, rest: string)
    requires |q| >= 2
    ensures Join(q, ',') + rest == q[0] + ([','] + (Join(q[1..], ',') + rest))
  {
    var j := Join(q[1..], ',');
    assert Join(q, ',') == q[0] + [','] + j;
  }

  /** An item, then `,` and the rest of the items. */
  lemma ReadItemsCons(w: string, q: seq<string>, ws: seq<string>, rest: string)
    requires q != []
    requires ReadItems(Join(q, ',') + "]" + rest) == Some((ws, rest))
    ensures ReadItems(Join([JsonString(w)] + q, ',') + "]" + rest) == Some(([w] + ws, rest))
  {
    var p := [JsonString(w)] + q;
    assert p[0] == JsonString(w) && p[1..] == q;
    var after := Join(q, ',') + "]" + rest;
    var x := [','] + after;
    JoinFirst(p, "]" + rest);
    assert Join(p, ',') + "]" + rest == Join(p, ',') + ("]" + rest);
    assert after == Join(q, ',') + ("]" + rest);
    assert Join(p, ',') + "]" + rest == JsonString(w) + x;
    ReadLiteral(w, x);
    assert x[1..] == after;
  }

  /** The items of an encoded non-empty array read back, whatever follows
      the `]`. */
  lemma {:induction false} ReadItemsOf(ws: seq<string>, rest: string)
    requires ws != []
    ensures ReadItems(Join(QuotedStrings(ws), ',') + "]" + rest) == Some((ws, rest))
    decreases |ws|
  {
    assert QuotedStrings(ws) == [JsonString(ws[0])] + QuotedStrings(ws[1..]);
    if |ws| == 1 {
      ReadItemsLast(ws[0], rest);
      assert [ws[0]] == ws;
    } else {
      ReadItemsOf(ws[1..], rest);
      ReadItemsCons(ws[0], QuotedStrings(ws[1..]), ws[1..], rest);
      assert [ws[0]] + ws[1..] == ws;
    }
  }

  /** An encoded array of strings reads back, whatever follows it. */
  lemma ReadArrayOf(ws: seq<string>, rest: string)
    ensures ReadArray(JsonArray(QuotedStrings(ws)) + rest) == Some((ws, rest))
  {
    var t := JsonArray(QuotedStrings(ws)) + rest;
    if ws == [] {
      assert t == "[]" + rest;
      assert t[2..] == rest;
    } else {
      var q := QuotedStrings(ws);
      assert t == "[" + (Join(q, ',') + "]" + rest);
      assert Join(q, ',')[0] == q[0][0] == '"';
      assert t[1..] == Join(q, ',') + "]" + rest;
      ReadItemsOf(ws, rest);
    }
  }

  lemma FrameShape(open: string, q: string, e: string, key: string, arr: string, close: string)
    ensures open + (q + e + q) + key + arr + close == (open + q) + (e + q + (key + (arr + close)))
  {
  }

  lemma DecodeTypes(a: Action, ts: seq<SubscriptionType>)
    ensures DecodeTargets(a, TypesKey + (JsonArray(QuotedStrings(TypeNames(ts))) + "}"))
            == Some(TokenSubscription(a, ts))
  {
    var arr := JsonArray(QuotedStrings(TypeNames(ts)));
    var r := TypesKey + (arr + "}");
    assert r[..|TypesKey|] == TypesKey;
    assert r[|TypesKey|..] == arr + "}";
    ReadArrayOf(TypeNames(ts), "}");
    TypesOfNamesRoundTrip(ts);
  }

  lemma DecodeWallets(a: Action, ws: seq<string>)
    ensures DecodeTargets(a, WalletsKey + (JsonArray(QuotedStrings(ws)) + "}"))
            == Some(WalletSubscription(a, ws))
  {
    var arr := JsonArray(QuotedStrings(ws));
    var r := WalletsKey + (arr + "}");
    assert r[2] == 'w' != TypesKey[2];
    assert r[..|WalletsKey|] == WalletsKey;
    assert r[|WalletsKey|..] == arr + "}";
    ReadArrayOf(ws, "}");
  }

  lemma DecodeAction(a: Action, tail: string)
    ensures DecodeFrame(ActionKey + (Escape(ActionName(a)) + "\"" + tail)) == DecodeTargets(a, tail)
  {
    var s := ActionKey + (Escape(ActionName(a)) + "\"" + tail);
    assert s[..|ActionKey|] == ActionKey;
    assert s[|ActionKey|..] == Escape(ActionName(a)) + "\"" + tail;
    EscapeRoundTrip(ActionName(a), tail);
    assert ActionOfName(ActionName(a)) == Some(a);
  }

  /** Reading an encoded frame gives the message back, for every action and
      every list of types or wallets. */
  lemma DecodeEncode(m: SubscriptionMessage)
    ensures DecodeFrame(Encode(m)) == Some(m)
  {
    var n := ActionName(m.action);
    assert "{\"action\":" + "\"" == ActionKey;
    if m.TokenSubscription? {
      var arr := JsonArray(QuotedStrings(TypeNames(m.types)));
      FrameShape("{\"action\":", "\"", Escape(n), TypesKey, arr, "}");
      DecodeAction(m.action, TypesKey + (arr + "}"));
      DecodeTypes(m.action, m.types);
    } else {
      var arr := JsonArray(QuotedStrings(m.wallets));
      FrameShape("{\"action\":", "\"", Escape(n), WalletsKey, arr, "}");
      DecodeAction(m.action, WalletsKey + (arr + "}"));
      DecodeWallets(m.action, m.wallets);
    }
  }

  /** Different messages are different frames. */
  lemma EncodeInjective(m1: SubscriptionMessage, m2: SubscriptionMessage)
    requires Encode(m1) == Encode(m2)
    ensures m1 == m2
  {
    DecodeEncode(m1);
    DecodeEncode(m2);
  }
}
