/**
 * `getCommodityPrices` and `getMockCommodityPrices`: gold, silver and oil
 * in USD from an ordered chain of request styles against one pricing API
 * (API key as query parameter, then as header, then the older v1
 * endpoint), ending in synthetic prices. Each HTTP call is an input
 * outcome and each `Math.random()` an input number in [0, 1).
 */
module Commodity {
  import opened Wrappers
  import opened Rounding

  /** Grams in one troy ounce, as the live tiers use it. */
  const TroyOunceGrams: real := 31.1034768
  /** The rounder constant the mock generator divides by instead. */
  const MockOunceGrams: real := 31.1035

  /** A `rates` object: symbol (XAU, XAG, WTI) to USD per ounce or per barrel. */
  type Rates = map<string, real>

  /**
   * What one request produced: it failed (network error, timeout,
   * non-2xx status), or it answered with a body carrying, each possibly
   * missing, a `success` flag, a top-level `rates` object and a nested
   * `data.rates` object.
   */
  datatype HttpOutcome =
    | Failed
    | Ok(successFlag: Option<bool>, rates: Option<Rates>, nestedRates: Option<Rates>)

  /** The live request styles, in the order they are tried. */
  datatype Tier = QueryParameter | Header | V1Endpoint {
    /** The `apiMethod` tag a quote from this tier carries. */
    function Name(): (s: string)
      ensures this == QueryParameter <==> s == "query-parameter"
      ensures this == Header <==> s == "header"
      ensures this == V1Endpoint <==> s == "v1-endpoint"
      ensures s != "" && s != "unknown"
    {
      match this
      case QueryParameter => "query-parameter"
      case Header => "header"
      case V1Endpoint => "v1-endpoint"
    }
  }

  const TierOrder: seq<Tier> := [QueryParameter, Header, V1Endpoint]

  /** The random draws of one mock generation, one per commodity. */
  datatype Jitter = Jitter(gold: real, silver: real, oil: real) {
    /** Each draw is what `Math.random()` can return. */
    predicate Valid()
    {
      0.0 <= gold < 1.0 && 0.0 <= silver < 1.0 && 0.0 <= oil < 1.0
    }
  }

  /**
   * A commodity result as the refresh cycle consumes it. `isMock` is
   * absent (falsy) on live results and `apiMethod` is absent on mock ones.
   */
  datatype CommodityQuote = CommodityQuote(
    success: bool,
    goldGramUsd: real,
    goldOunceUsd: real,
    silverGramUsd: real,
    silverOunceUsd: real,
    oilUsd: real,
    isMock: bool,
    apiMethod: Option<string>)

  /** The result of the whole chain and the live tiers it tried, in order. */
  datatype Fetched = Fetched(quote: CommodityQuote, attempted: seq<Tier>)

  /** The unrounded synthetic prices: fixed references plus symmetric jitter. */
  function MockGoldOunce(j: Jitter): real { 1950.75 + (j.gold - 0.5) * 20.0 }
  function MockSilverOunce(j: Jitter): real { 23.42 + (j.silver - 0.5) * 0.5 }
  function MockOil(j: Jitter): real { 78.30 + (j.oil - 0.5) * 2.0 }

  /**
   * `getMockCommodityPrices()`: never a success, always marked as mock;
   * gram prices come from the unrounded ounce price (3 decimals) and the
   * ounce and oil prices are rounded to 2 decimals.
   */
  function MockCommodityPrices(j: Jitter): (q: CommodityQuote)
    ensures !q.success && q.isMock && q.apiMethod.None?
    ensures -0.0005 <= q.goldGramUsd - MockGoldOunce(j) / MockOunceGrams <= 0.0005
    ensures -0.0005 <= q.silverGramUsd - MockSilverOunce(j) / MockOunceGrams <= 0.0005
    ensures -0.005 <= q.goldOunceUsd - MockGoldOunce(j) <= 0.005
    ensures -0.005 <= q.silverOunceUsd - MockSilverOunce(j) <= 0.005
    ensures -0.005 <= q.oilUsd - MockOil(j) <= 0.005
    ensures HasDecimals(q.goldGramUsd, 1000.0) && HasDecimals(q.silverGramUsd, 1000.0)
    ensures HasDecimals(q.goldOunceUsd, 100.0) && HasDecimals(q.silverOunceUsd, 100.0) && HasDecimals(q.oilUsd, 100.0)
  {
    var goldOunce := MockGoldOunce(j);
    var silverOunce := MockSilverOunce(j);
    var oilPrice := MockOil(j);
    CommodityQuote(
      false,
      ToFixed3(goldOunce / MockOunceGrams),
      ToFixed2(goldOunce),
      ToFixed3(silverOunce / MockOunceGrams),
      ToFixed2(silverOunce),
      ToFixed2(oilPrice),
      true,
      None)
  }

  /**
   * For every valid draw the synthetic prices stay in their bands, after
   * rounding: gold ounce in [1940.75, 1960.75], silver ounce in
   * [23.17, 23.67], oil in [77.30, 79.30], and the gram prices in the
   * bands these imply.
   */
  lemma MockWithinBands(j: Jitter)
    requires j.Valid()
    ensures var q := MockCommodityPrices(j);
      && 1940.75 <= q.goldOunceUsd <= 1960.75
      && 23.17 <= q.silverOunceUsd <= 23.67
      && 77.30 <= q.oilUsd <= 79.30
      && 62.397 <= q.goldGramUsd <= 63.040
      && 0.745 <= q.silverGramUsd <= 0.761
  {
    ToFixed2Between(MockGoldOunce(j), 194075, 196075);
    ToFixed2Between(MockSilverOunce(j), 2317, 2367);
    ToFixed2Between(MockOil(j), 7730, 7930);
    ToFixed3Between(MockGoldOunce(j) / MockOunceGrams, 62397, 63040);
    ToFixed3Between(MockSilverOunce(j) / MockOunceGrams, 745, 761);
  }

  /** `rates.SYM || 0`: a missing price reads as 0. */
  function OunceOf(rates: Rates, symbol: string): (p: real)
    ensures symbol !in rates ==> p == 0.0
    ensures symbol in rates ==> p == rates[symbol]
  {
    if symbol in rates then rates[symbol] else 0.0
  }

  /**
   * The gram price a live tier derives: 0 for a missing or zero ounce
   * price, otherwise ounce / 31.1034768 rounded to 3 decimals.
   */
  function GramFromOunce(ounce: real): (gram: real)
    ensures ounce == 0.0 ==> gram == 0.0
    ensures ounce != 0.0 ==> -0.0005 <= gram - ounce / TroyOunceGrams <= 0.0005
    ensures ounce >= 0.0 ==> gram >= 0.0
    ensures HasDecimals(gram, 1000.0)
  {
    if ounce != 0.0 then ToFixed3(ounce / TroyOunceGrams) else 0.0
  }

  /** The successful result of a live tier that read `rates`. */
  function LiveQuote(rates: Rates, tier: Tier): (q: CommodityQuote)
    ensures q.success && !q.isMock && q.apiMethod == Some(tier.Name())
    ensures q.goldOunceUsd == OunceOf(rates, "XAU") && q.goldGramUsd == GramFromOunce(q.goldOunceUsd)
    ensures q.silverOunceUsd == OunceOf(rates, "XAG") && q.silverGramUsd == GramFromOunce(q.silverOunceUsd)
    ensures q.oilUsd == OunceOf(rates, "WTI")
  {
    var goldOunce := OunceOf(rates, "XAU");
    var silverOunce := OunceOf(rates, "XAG");
    CommodityQuote(
      true,
      GramFromOunce(goldOunce),
      goldOunce,
      GramFromOunce(silverOunce),
      silverOunce,
      OunceOf(rates, "WTI"),
      false,
      Some(tier.Name()))
  }

  /**
   * The rates a tier accepts from its outcome, or None when the tier fails.
   * The v2 tiers need a truthy `success` flag and a `rates` object (reading
   * a price off a missing one throws); the v1 tier takes any answer and
   * reads `rates`, else `data.rates`, else an empty object.
   */
  function AcceptedRates(tier: Tier, outcome: HttpOutcome): (accepted: Option<Rates>)
    ensures outcome.Failed? ==> accepted.None?
    ensures tier != V1Endpoint ==>
      (accepted.Some? <==> outcome.Ok? && outcome.successFlag == Some(true) && outcome.rates.Some?)
    ensures tier != V1Endpoint && accepted.Some? ==> accepted.value == outcome.rates.value
    ensures tier == V1Endpoint ==> (accepted.Some? <==> outcome.Ok?)
    ensures tier == V1Endpoint && outcome.Ok? && outcome.rates.Some? ==> accepted == outcome.rates
    ensures tier == V1Endpoint && outcome.Ok? && outcome.rates.None? ==>
      accepted == Some(outcome.nestedRates.GetOr(map[]))
  {
    match outcome
    case Failed => None
    case Ok(successFlag, rates, nestedRates) =>
      if tier == V1Endpoint then
        Some(if rates.Some? then rates.value else if nestedRates.Some? then nestedRates.value else map[])
      else if successFlag == Some(true) && rates.Some? then rates
      else None
  }

  /** The outcome the chain sees when it tries `tier`. */
  function OutcomeFor(tier: Tier, byQuery: HttpOutcome, byHeader: HttpOutcome, byV1: HttpOutcome): HttpOutcome
  {
    match tier
    case QueryParameter => byQuery
    case Header => byHeader
    case V1Endpoint => byV1
  }

  /** `!API_KEY`: an absent or empty key is not configured. */
  predicate KeyConfigured(apiKey: Option<string>)
  {
    apiKey.Some? && apiKey.value != ""
  }

  /**
   * `getCommodityPrices()`. Without a key it goes straight to the mock.
   * With one, the tiers are tried in order, each only after every earlier
   * one failed, and never again after; the first tier that accepts its
   * outcome provides the quote, and if none does the mock does.
   */
  function GetCommodityPrices(apiKey: Option<string>, byQuery: HttpOutcome, byHeader: HttpOutcome,
                              byV1: HttpOutcome, jitter: Jitter): (f: Fetched)
    ensures !KeyConfigured(apiKey) ==> f.attempted == [] && f.quote == MockCommodityPrices(jitter)
    ensures KeyConfigured(apiKey) ==> 1 <= |f.attempted| <= 3 && f.attempted == TierOrder[..|f.attempted|]
    ensures forall i :: 0 <= i < |f.attempted| - 1 ==>
      AcceptedRates(f.attempted[i], OutcomeFor(f.attempted[i], byQuery, byHeader, byV1)).None?
    ensures KeyConfigured(apiKey) && |f.attempted| < 3 ==> f.quote.success
    ensures f.quote.success <==>
      |f.attempted| > 0 && AcceptedRates(f.attempted[|f.attempted| - 1],
        OutcomeFor(f.attempted[|f.attempted| - 1], byQuery, byHeader, byV1)).Some?
    ensures f.quote.success ==>
      var last := f.attempted[|f.attempted| - 1];
      f.quote == LiveQuote(AcceptedRates(last, OutcomeFor(last, byQuery, byHeader, byV1)).value, last)
    ensures !f.quote.success ==> f.quote == MockCommodityPrices(jitter)
  {
    if !KeyConfigured(apiKey) then Fetched(MockCommodityPrices(jitter), [])
    else
      match AcceptedRates(QueryParameter, byQuery)
      case Some(rates) => Fetched(LiveQuote(rates, QueryParameter), [QueryParameter])
      case None =>
        match AcceptedRates(Header, byHeader)
        case Some(rates) => Fetched(LiveQuote(rates, Header), [QueryParameter, Header])
        case None =>
          match AcceptedRates(V1Endpoint, byV1)
          case Some(rates) => Fetched(LiveQuote(rates, V1Endpoint), TierOrder)
          case None => Fetched(MockCommodityPrices(jitter), TierOrder)
  }

  /** No tier is ever tried twice. */
  lemma TiersNeverRepeat(apiKey: Option<string>, byQuery: HttpOutcome, byHeader: HttpOutcome,
                         byV1: HttpOutcome, jitter: Jitter)
    ensures var t := GetCommodityPrices(apiKey, byQuery, byHeader, byV1, jitter).attempted;
      forall i, k :: 0 <= i < k < |t| ==> t[i] != t[k]
  {
  }

  /**
   * A query-parameter answer that arrives with a falsy `success` flag is a
   * failure: the header tier is tried next.
   */
  lemma FalsySuccessAdvances(apiKey: Option<string>, byQuery: HttpOutcome, byHeader: HttpOutcome,
                             byV1: HttpOutcome, jitter: Jitter)
    requires KeyConfigured(apiKey)
    requires byQuery.Ok? && byQuery.successFlag != Some(true)
    ensures var f := GetCommodityPrices(apiKey, byQuery, byHeader, byV1, jitter);
      |f.attempted| >= 2 && f.attempted[1] == Header
  {
  }

  /**
   * A v1 answer with neither `rates` nor `data.rates` still counts as a
   * success, with every price 0.
   */
  lemma EmptyV1AnswerIsZeroSuccess(apiKey: Option<string>, jitter: Jitter, flag: Option<bool>)
    requires KeyConfigured(apiKey)
    ensures var q := GetCommodityPrices(apiKey, Failed, Failed, Ok(flag, None, None), jitter).quote;
      q.success && q.apiMethod == Some("v1-endpoint")
      && q.goldGramUsd == 0.0 && q.goldOunceUsd == 0.0
      && q.silverGramUsd == 0.0 && q.silverOunceUsd == 0.0 && q.oilUsd == 0.0
  {
  }

  /** The v1 tier reads the nested `data.rates` when there is no top-level `rates`. */
  lemma V1ReadsNestedRates(apiKey: Option<string>, byQuery: HttpOutcome, byHeader: HttpOutcome,
                           flag: Option<bool>, nested: Rates, jitter: Jitter)
    requires KeyConfigured(apiKey)
    requires AcceptedRates(QueryParameter, byQuery).None? && AcceptedRates(Header, byHeader).None?
    ensures GetCommodityPrices(apiKey, byQuery, byHeader, Ok(flag, None, Some(nested)), jitter).quote
      == LiveQuote(nested, V1Endpoint)
  {
  }
}
