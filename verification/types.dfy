/** The query parameters of the token-pairs screener (src/types.rs) and the
    `{status, message, data}` envelope of every REST reply. The response
    records (`TokenPair`, `ChainAction`, ...) are only decode targets and are
    not modelled field by field. */
module Types {
  import opened Primitives
  import opened QueryLists

  /** `APIResponse<T>`: the wrapper of every REST reply. */
  datatype Envelope<+T> = Envelope(status: string, message: string, data: T)

  /** `TokenPairsParams`: every filter of the token-pairs screener is optional. */
  datatype TokenPairsParams = TokenPairsParams(
    atLeastOneSocial: Option<bool>,
    buysMax: Option<Int32>,
    buysMin: Option<Int32>,
    chainIds: Option<seq<Int32>>,
    freezeAuthDisabled: Option<bool>,
    initialLiquidityMax: Option<Float>,
    initialLiquidityMin: Option<Float>,
    interval: Option<string>,
    liquidityMax: Option<Float>,
    liquidityMin: Option<Float>,
    lpBurned: Option<bool>,
    marketCapMax: Option<Float>,
    marketCapMin: Option<Float>,
    mintAuthDisabled: Option<bool>,
    page: Option<Int32>,
    sellsMax: Option<Int32>,
    sellsMin: Option<Int32>,
    sorting: Option<string>,
    swapsMax: Option<Int32>,
    swapsMin: Option<Int32>,
    tokenTypes: Option<seq<string>>,
    top10Holders: Option<bool>,
    volumeMax: Option<Float>,
    volumeMin: Option<Float>)

  /** `TokenPairsParams::default()`: no filter set. */
  function Default(): TokenPairsParams {
    TokenPairsParams(None, None, None, None, None, None, None, None,
                     None, None, None, None, None, None, None, None,
                     None, None, None, None, None, None, None, None)
  }

  // ---------------------------------------------------------------------
  // Rendering one field
  // ---------------------------------------------------------------------

  /** `bool::to_string`. */
  function RenderBool(o: Option<bool>): Option<string> {
    match o case Some(b) => Some(BoolString(b)) case None => None
  }

  /** `i32::to_string`. */
  function RenderInt(o: Option<Int32>): Option<string> {
    match o case Some(i) => Some(IntString(i)) case None => None
  }

  /** `f64::to_string`, kept as the float's own display text. */
  function RenderFloat(o: Option<Float>): Option<string> {
    match o case Some(f) => Some(f.display) case None => None
  }

  /** A `Vec<i32>`: the decimal ids joined with ",". */
  function RenderIds(o: Option<seq<Int32>>): Option<string> {
    match o case Some(ids) => Some(Join(IntStrings(ids), ',')) case None => None
  }

  /** A `Vec<String>`: the strings joined with ",". */
  function RenderList(o: Option<seq<string>>): Option<string> {
    match o case Some(xs) => Some(Join(xs, ',')) case None => None
  }

  // ---------------------------------------------------------------------
  // Serialisation
  // ---------------------------------------------------------------------

  /** The query list the parameters serialise to. */
  function QueryPairs(p: TokenPairsParams): seq<QueryPair> {
    Pairs(p, FieldCount)
  }

  /** The pieces of the first `n` fields, in declaration order; each piece is
      empty when its field is unset. */
  function Pairs(p: TokenPairsParams, n: nat): seq<QueryPair> {
    if n == 0 then [] else Pairs(p, n - 1) + Piece(FieldKey(n - 1), Rendered(p, n - 1))
  }

  /** `if let Some(v) = field { params.push((key, v)) }`. */
  method PushIfSet(params: seq<QueryPair>, key: string, value: Option<string>)
    returns (r: seq<QueryPair>)
    ensures r == params + Piece(key, value)
  {
    r := params;
    if value.Some? {
      r := r + [(key, value.value)];
    }
  }

  /** `TokenPairsParams::into_iter`: starts from an empty list and appends one
      pair per set field, field by field. */
  method IntoIter(p: TokenPairsParams) returns (params: seq<QueryPair>)
    ensures params == QueryPairs(p)
  {
    params := [];
    params := PushIfSet(params, "atLeastOneSocial", RenderBool(p.atLeastOneSocial));
    assert params == Piece("atLeastOneSocial", RenderBool(p.atLeastOneSocial));
    params := PushIfSet(params, "buysMax", RenderInt(p.buysMax));
    params := PushIfSet(params, "buysMin", RenderInt(p.buysMin));
    params := PushIfSet(params, "chainIds", RenderIds(p.chainIds));
    params := PushIfSet(params, "freezeAuthDisabled", RenderBool(p.freezeAuthDisabled));
    params := PushIfSet(params, "initialLiquidityMax", RenderFloat(p.initialLiquidityMax));
    params := PushIfSet(params, "initialLiquidityMin", RenderFloat(p.initialLiquidityMin));
    params := PushIfSet(params, "interval", p.interval);
    params := PushIfSet(params, "liquidityMax", RenderFloat(p.liquidityMax));
    params := PushIfSet(params, "liquidityMin", RenderFloat(p.liquidityMin));
    params := PushIfSet(params, "lpBurned", RenderBool(p.lpBurned));
    params := PushIfSet(params, "marketCapMax", RenderFloat(p.marketCapMax));
    params := PushIfSet(params, "marketCapMin", RenderFloat(p.marketCapMin));
    params := PushIfSet(params, "mintAuthDisabled", RenderBool(p.mintAuthDisabled));
    params := PushIfSet(params, "page", RenderInt(p.page));
    params := PushIfSet(params, "sellsMax", RenderInt(p.sellsMax));
    params := PushIfSet(params, "sellsMin", RenderInt(p.sellsMin));
    params := PushIfSet(params, "sorting", p.sorting);
    params := PushIfSet(params, "swapsMax", RenderInt(p.swapsMax));
    params := PushIfSet(params, "swapsMin", RenderInt(p.swapsMin));
    params := PushIfSet(params, "tokenTypes", RenderList(p.tokenTypes));
    params := PushIfSet(params, "top10Holders", RenderBool(p.top10Holders));
    params := PushIfSet(params, "volumeMax", RenderFloat(p.volumeMax));
    params := PushIfSet(params, "volumeMin", RenderFloat(p.volumeMin));
    QueryPairsFlat(p);
  }

  // ---------------------------------------------------------------------
  // The same list, field by field
  // ---------------------------------------------------------------------

  const FieldCount: nat := 24

  /** The query key of field `i`, fields numbered in declaration order. */
  function FieldKey(i: nat): string {
    match i
    case 0 => "atLeastOneSocial"
    case 1 => "buysMax"
    case 2 => "buysMin"
    case 3 => "chainIds"
    case 4 => "freezeAuthDisabled"
    case 5 => "initialLiquidityMax"
    case 6 => "initialLiquidityMin"
    case 7 => "interval"
    case 8 => "liquidityMax"
    case 9 => "liquidityMin"
    case 10 => "lpBurned"
    case 11 => "marketCapMax"
    case 12 => "marketCapMin"
    case 13 => "mintAuthDisabled"
    case 14 => "page"
    case 15 => "sellsMax"
    case 16 => "sellsMin"
    case 17 => "sorting"
    case 18 => "swapsMax"
    case 19 => "swapsMin"
    case 20 => "tokenTypes"
    case 21 => "top10Holders"
    case 22 => "volumeMax"
    case 23 => "volumeMin"
    case _ => ""
  }

  /** The value field `i` contributes, `None` when it is unset. */
  function Rendered(p: TokenPairsParams, i: nat): Option<string> {
    match i
    case 0 => RenderBool(p.atLeastOneSocial)
    case 1 => RenderInt(p.buysMax)
    case 2 => RenderInt(p.buysMin)
    case 3 => RenderIds(p.chainIds)
    case 4 => RenderBool(p.freezeAuthDisabled)
    case 5 => RenderFloat(p.initialLiquidityMax)
    case 6 => RenderFloat(p.initialLiquidityMin)
    case 7 => p.interval
    case 8 => RenderFloat(p.liquidityMax)
    case 9 => RenderFloat(p.liquidityMin)
    case 10 => RenderBool(p.lpBurned)
    case 11 => RenderFloat(p.marketCapMax)
    case 12 => RenderFloat(p.marketCapMin)
    case 13 => RenderBool(p.mintAuthDisabled)
    case 14 => RenderInt(p.page)
    case 15 => RenderInt(p.sellsMax)
    case 16 => RenderInt(p.sellsMin)
    case 17 => p.sorting
    case 18 => RenderInt(p.swapsMax)
    case 19 => RenderInt(p.swapsMin)
    case 20 => RenderList(p.tokenTypes)
    case 21 => RenderBool(p.top10Holders)
    case 22 => RenderFloat(p.volumeMax)
    case 23 => RenderFloat(p.volumeMin)
    case _ => None
  }

  /** No two fields share a query key. */
  lemma FieldKeysDistinct()
    ensures Distinct(FieldKey, FieldCount)
  {
  }

  lemma PairsThrough2(p: TokenPairsParams)
    ensures Pairs(p, 2) ==
            Piece("atLeastOneSocial", RenderBool(p.atLeastOneSocial)) +
            Piece("buysMax", RenderInt(p.buysMax))
  {
    assert Pairs(p, 1) == Pairs(p, 0) + Piece("atLeastOneSocial", RenderBool(p.atLeastOneSocial));
  }

  lemma PairsThrough4(p: TokenPairsParams)
    ensures Pairs(p, 4) ==
            Pairs(p, 2) +
            Piece("buysMin", RenderInt(p.buysMin)) +
            Piece("chainIds", RenderIds(p.chainIds))
  {
    assert Pairs(p, 3) == Pairs(p, 2) + Piece("buysMin", RenderInt(p.buysMin));
  }

  lemma PairsThrough6(p: TokenPairsParams)
    ensures Pairs(p, 6) ==
            Pairs(p, 4) +
            Piece("freezeAuthDisabled", RenderBool(p.freezeAuthDisabled)) +
            Piece("initialLiquidityMax", RenderFloat(p.initialLiquidityMax))
  {
    assert Pairs(p, 5) == Pairs(p, 4) + Piece("freezeAuthDisabled", RenderBool(p.freezeAuthDisabled));
  }

  lemma PairsThrough8(p: TokenPairsParams)
    ensures Pairs(p, 8) ==
            Pairs(p, 6) +
            Piece("initialLiquidityMin", RenderFloat(p.initialLiquidityMin)) +
            Piece("interval", p.interval)
  {
    assert Pairs(p, 7) == Pairs(p, 6) + Piece("initialLiquidityMin", RenderFloat(p.initialLiquidityMin));
  }

  lemma PairsThrough10(p: TokenPairsParams)
    ensures Pairs(p, 10) ==
            Pairs(p, 8) +
            Piece("liquidityMax", RenderFloat(p.liquidityMax)) +
            Piece("liquidityMin", RenderFloat(p.liquidityMin))
  {
    assert Pairs(p, 9) == Pairs(p, 8) + Piece("liquidityMax", RenderFloat(p.liquidityMax));
  }

  lemma PairsThrough12(p: TokenPairsParams)
    ensures Pairs(p, 12) ==
            Pairs(p, 10) +
            Piece("lpBurned", RenderBool(p.lpBurned)) +
            Piece("marketCapMax", RenderFloat(p.marketCapMax))
  {
    assert Pairs(p, 11) == Pairs(p, 10) + Piece("lpBurned", RenderBool(p.lpBurned));
  }

  lemma PairsThrough14(p: TokenPairsParams)
    ensures Pairs(p, 14) ==
            Pairs(p, 12) +
            Piece("marketCapMin", RenderFloat(p.marketCapMin)) +
            Piece("mintAuthDisabled", RenderBool(p.mintAuthDisabled))
  {
    assert Pairs(p, 13) == Pairs(p, 12) + Piece("marketCapMin", RenderFloat(p.marketCapMin));
  }

  lemma PairsThrough16(p: TokenPairsParams)
    ensures Pairs(p, 16) ==
            Pairs(p, 14) +
            Piece("page", RenderInt(p.page)) +
            Piece("sellsMax", RenderInt(p.sellsMax))
  {
    assert Pairs(p, 15) == Pairs(p, 14) + Piece("page", RenderInt(p.page));
  }

  lemma PairsThrough18(p: TokenPairsParams)
    ensures Pairs(p, 18) ==
            Pairs(p, 16) +
            Piece("sellsMin", RenderInt(p.sellsMin)) +
            Piece("sorting", p.sorting)
  {
    assert Pairs(p, 17) == Pairs(p, 16) + Piece("sellsMin", RenderInt(p.sellsMin));
  }

  lemma PairsThrough20(p: TokenPairsParams)
    ensures Pairs(p, 20) ==
            Pairs(p, 18) +
            Piece("swapsMax", RenderInt(p.swapsMax)) +
            Piece("swapsMin", RenderInt(p.swapsMin))
  {
    assert Pairs(p, 19) == Pairs(p, 18) + Piece("swapsMax", RenderInt(p.swapsMax));
  }

  lemma PairsThrough22(p: TokenPairsParams)
    ensures Pairs(p, 22) ==
            Pairs(p, 20) +
            Piece("tokenTypes", RenderList(p.tokenTypes)) +
            Piece("top10Holders", RenderBool(p.top10Holders))
  {
    assert Pairs(p, 21) == Pairs(p, 20) + Piece("tokenTypes", RenderList(p.tokenTypes));
  }

  lemma PairsThrough24(p: TokenPairsParams)
    ensures Pairs(p, 24) ==
            Pairs(p, 22) +
            Piece("volumeMax", RenderFloat(p.volumeMax)) +
            Piece("volumeMin", RenderFloat(p.volumeMin))
  {
    assert Pairs(p, 23) == Pairs(p, 22) + Piece("volumeMax", RenderFloat(p.volumeMax));
  }

  /** `QueryPairs` written out: the pieces of all fields, in order. */
  lemma QueryPairsFlat(p: TokenPairsParams)
    ensures QueryPairs(p) ==
            Piece("atLeastOneSocial", RenderBool(p.atLeastOneSocial)) +
            Piece("buysMax", RenderInt(p.buysMax)) +
            Piece("buysMin", RenderInt(p.buysMin)) +
            Piece("chainIds", RenderIds(p.chainIds)) +
            Piece("freezeAuthDisabled", RenderBool(p.freezeAuthDisabled)) +
            Piece("initialLiquidityMax", RenderFloat(p.initialLiquidityMax)) +
            Piece("initialLiquidityMin", RenderFloat(p.initialLiquidityMin)) +
            Piece("interval", p.interval) +
            Piece("liquidityMax", RenderFloat(p.liquidityMax)) +
            Piece("liquidityMin", RenderFloat(p.liquidityMin)) +
            Piece("lpBurned", RenderBool(p.lpBurned)) +
            Piece("marketCapMax", RenderFloat(p.marketCapMax)) +
            Piece("marketCapMin", RenderFloat(p.marketCapMin)) +
            Piece("mintAuthDisabled", RenderBool(p.mintAuthDisabled)) +
            Piece("page", RenderInt(p.page)) +
            Piece("sellsMax", RenderInt(p.sellsMax)) +
            Piece("sellsMin", RenderInt(p.sellsMin)) +
            Piece("sorting", p.sorting) +
            Piece("swapsMax", RenderInt(p.swapsMax)) +
            Piece("swapsMin", RenderInt(p.swapsMin)) +
            Piece("tokenTypes", RenderList(p.tokenTypes)) +
            Piece("top10Holders", RenderBool(p.top10Holders)) +
            Piece("volumeMax", RenderFloat(p.volumeMax)) +
            Piece("volumeMin", RenderFloat(p.volumeMin))
  {
    PairsThrough2(p);
    PairsThrough4(p);
    PairsThrough6(p);
    PairsThrough8(p);
    PairsThrough10(p);
    PairsThrough12(p);
    PairsThrough14(p);
    PairsThrough16(p);
    PairsThrough18(p);
    PairsThrough20(p);
    PairsThrough22(p);
    PairsThrough24(p);
  }

  /** `Pairs` is the generic field-by-field collection over this record's
      keys and rendered values. */
  lemma {:induction false} PairsCollect(p: TokenPairsParams, n: nat)
    ensures Pairs(p, n) == Collect(FieldKey, Rendered, p, n)
  {
    if n > 0 {
      PairsCollect(p, n - 1);
    }
  }

  /** Each set field contributes exactly its own rendered value under its own
      key, and an unset field's key does not occur. */
  lemma QueryPairsLookup(p: TokenPairsParams, i: nat)
    requires i < FieldCount
    ensures Lookup(QueryPairs(p), FieldKey(i)) == Rendered(p, i)
  {
    FieldKeysDistinct();
    PairsCollect(p, FieldCount);
    CollectLookup(FieldKey, Rendered, p, FieldCount, FieldCount, i);
  }

  /** The list has exactly as many pairs as there are set fields. */
  lemma QueryPairsCount(p: TokenPairsParams)
    ensures |QueryPairs(p)| == SetCount(Rendered, p, FieldCount)
  {
    PairsCollect(p, FieldCount);
    CollectCount(FieldKey, Rendered, p, FieldCount);
  }

  /** Every pair is a set field's key and rendered value; keys come out in
      field order, so none repeats. */
  lemma QueryPairsOrdered(p: TokenPairsParams)
    ensures forall a :: 0 <= a < |QueryPairs(p)| ==>
      var (k, v) := QueryPairs(p)[a];
      IndexOf(FieldKey, FieldCount, k) < FieldCount && Rendered(p, IndexOf(FieldKey, FieldCount, k)) == Some(v)
    ensures forall a, b :: 0 <= a < b < |QueryPairs(p)| ==>
      IndexOf(FieldKey, FieldCount, QueryPairs(p)[a].0) < IndexOf(FieldKey, FieldCount, QueryPairs(p)[b].0)
    ensures forall a, b :: 0 <= a < b < |QueryPairs(p)| ==> QueryPairs(p)[a].0 != QueryPairs(p)[b].0
  {
    FieldKeysDistinct();
    PairsCollect(p, FieldCount);
    CollectOrdered(FieldKey, Rendered, p, FieldCount, FieldCount);
  }

  // ---------------------------------------------------------------------
  // Value formats
  // ---------------------------------------------------------------------

  /** `chainIds` is the decimal ids joined with ",", so splitting at the
      commas and parsing gives the ids back. */
  lemma ChainIdsReadBack(p: TokenPairsParams)
    requires p.chainIds.Some? && p.chainIds.value != []
    ensures Lookup(QueryPairs(p), "chainIds").Some?
    ensures ParseInts(Split(Lookup(QueryPairs(p), "chainIds").value, ',')) == Some(p.chainIds.value)
  {
    QueryPairsLookup(p, 3);
    assert Lookup(QueryPairs(p), "chainIds") == RenderIds(p.chainIds);
    IntListRoundTrip(p.chainIds.value);
  }

  /** `tokenTypes` is the strings joined with ",", which split back
      whenever none of them contains a comma. */
  lemma TokenTypesReadBack(p: TokenPairsParams)
    requires p.tokenTypes.Some? && p.tokenTypes.value != []
    requires forall i :: 0 <= i < |p.tokenTypes.value| ==> ',' !in p.tokenTypes.value[i]
    ensures Lookup(QueryPairs(p), "tokenTypes").Some?
    ensures Split(Lookup(QueryPairs(p), "tokenTypes").value, ',') == p.tokenTypes.value
  {
    QueryPairsLookup(p, 20);
    assert Lookup(QueryPairs(p), "tokenTypes") == RenderList(p.tokenTypes);
    SplitJoin(p.tokenTypes.value, ',');
  }

  /** `interval` and `sorting` are passed through verbatim. */
  lemma TextFieldsVerbatim(p: TokenPairsParams)
    ensures Lookup(QueryPairs(p), "interval") == p.interval
    ensures Lookup(QueryPairs(p), "sorting") == p.sorting
  {
    QueryPairsLookup(p, 7);
    QueryPairsLookup(p, 17);
  }

  /** An integer field is written in decimal and reads back as the same
      number. */
  lemma IntFieldReadBack(p: TokenPairsParams, i: nat, o: Option<Int32>)
    requires i < FieldCount && Rendered(p, i) == RenderInt(o)
    ensures ReadsBackInt(Lookup(QueryPairs(p), FieldKey(i)), o)
  {
    QueryPairsLookup(p, i);
    ReadsBackIntRendered(o);
  }

  /** A boolean field is written as `true`/`false` and reads back as the same
      value. */
  lemma BoolFieldReadBack(p: TokenPairsParams, i: nat, o: Option<bool>)
    requires i < FieldCount && Rendered(p, i) == RenderBool(o)
    ensures ReadsBackBool(Lookup(QueryPairs(p), FieldKey(i)), o)
  {
    QueryPairsLookup(p, i);
    ReadsBackBoolRendered(o);
  }

  /** The text found for an integer field parses back to the field. */
  predicate ReadsBackInt(found: Option<string>, field: Option<Int32>) {
    match field
    case None => found == None
    case Some(i) => found.Some? && ParseInt(found.value) == Some(i as int)
  }

  /** The text found for a boolean field parses back to the field. */
  predicate ReadsBackBool(found: Option<string>, field: Option<bool>) {
    match field
    case None => found == None
    case Some(b) => found.Some? && ParseBool(found.value) == Some(b)
  }

  lemma ReadsBackIntRendered(o: Option<Int32>)
    ensures ReadsBackInt(RenderInt(o), o)
  {
    if o.Some? { IntStringRoundTrip(o.value); }
  }

  lemma ReadsBackBoolRendered(o: Option<bool>)
    ensures ReadsBackBool(RenderBool(o), o)
  {
  }

  /** The screener call in the client's own tests, `{chain_ids: [1], page: 1}`,
      serialises to `chainIds=1&page=1`. */
  lemma ChainAndPageQuery()
    ensures QueryPairs(Default().(chainIds := Some([1]), page := Some(1))) ==
            [("chainIds", "1"), ("page", "1")]
  {
    var p := Default().(chainIds := Some([1]), page := Some(1));
    QueryPairsFlat(p);
    assert IntStrings([1]) == ["1"];
  }

  /** `TokenPairsParams::default()` sets no field and serialises to the empty
      list. */
  lemma DefaultEmpty()
    ensures forall i :: 0 <= i < FieldCount ==> Rendered(Default(), i) == None
    ensures QueryPairs(Default()) == []
  {
    PairsCollect(Default(), FieldCount);
    NoValuesNoPairs(FieldKey, Rendered, Default(), FieldCount);
  }
}
