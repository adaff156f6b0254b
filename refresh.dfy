/**
 * `updateAllData` over the module state `cachedData` (the snapshot served
 * to readers) and `previousPrices` (the baseline for the next change
 * computation). The two fetches arrive as settled outcomes; an exception
 * inside the cycle is an input that says where it was raised.
 */
module Refresh {
  import opened Wrappers
  import opened Rounding
  import opened Change
  import opened ExchangeRate
  import opened Commodity

  /** A metal's prices in the snapshot; the seed snapshot has no ounce price. */
  datatype MetalPrice = MetalPrice(gramUsd: real, gramIdr: int, ounceUsd: Option<real>, change: real)

  datatype OilPrice = OilPrice(usd: real, idr: int, change: real)

  /** `cachedData`. The seed lacks `source`, `success` and `apiMethod`. */
  datatype Snapshot = Snapshot(
    gold: MetalPrice,
    silver: MetalPrice,
    oil: OilPrice,
    usdToIdr: real,
    source: Option<string>,
    success: Option<bool>,
    apiMethod: Option<string>)

  /** `previousPrices`: the raw USD values of the previous cycle. */
  datatype Baseline = Baseline(goldGramUsd: real, silverGramUsd: real, oilUsd: real)

  /** One entry of `Promise.allSettled`. */
  datatype Settled<T> = Fulfilled(value: T) | Rejected

  /**
   * Where an exception escaped inside the cycle's `try`, if anywhere:
   * before `previousPrices` is reassigned, or after `cachedData` is (while
   * logging). Nothing between the two assignments can throw.
   */
  datatype Fault = NoFault | FaultBeforeUpdate | FaultAfterUpdate

  const MockSource := "Mock Data"
  const LiveSource := "CommodityPriceAPI"
  const UnknownMethod := "unknown"

  /** The seed `cachedData`. */
  function SeedSnapshot(): Snapshot
  {
    Snapshot(
      MetalPrice(62.71, 972000, None, 0.25),
      MetalPrice(0.753, 11680, None, -0.12),
      OilPrice(78.30, 1213000, 0.87),
      15500.0,
      None, None, None)
  }

  /** The seed `previousPrices`. */
  function SeedBaseline(): Baseline
  {
    Baseline(62.71, 0.753, 78.30)
  }

  /** Every IDR amount is the USD amount times the rate, rounded by `Math.round`. */
  predicate Consistent(s: Snapshot)
  {
    && s.gold.gramIdr == RoundHalfUp(s.gold.gramUsd * s.usdToIdr)
    && s.silver.gramIdr == RoundHalfUp(s.silver.gramUsd * s.usdToIdr)
    && s.oil.idr == RoundHalfUp(s.oil.usd * s.usdToIdr)
  }

  /** No field of the snapshot is left undefined. */
  predicate Complete(s: Snapshot)
  {
    s.gold.ounceUsd.Some? && s.silver.ounceUsd.Some?
    && s.source.Some? && s.success.Some? && s.apiMethod.Some?
  }

  /** The rate the cycle uses: the fetched one, or 15500 if that fetch rejected. */
  function SettledRate(rate: Settled<real>): (r: real)
    ensures rate.Rejected? ==> r == DefaultRate
    ensures rate.Fulfilled? ==> r == rate.value
  {
    match rate
    case Fulfilled(v) => v
    case Rejected => DefaultRate
  }

  /** The commodity data the cycle uses: the fetched quote, or fresh mock data if that fetch rejected. */
  function SettledQuote(commodity: Settled<CommodityQuote>, jitter: Jitter): (q: CommodityQuote)
    ensures commodity.Rejected? ==> q == MockCommodityPrices(jitter) && q.isMock && !q.success
    ensures commodity.Fulfilled? ==> q == commodity.value
  {
    match commodity
    case Fulfilled(v) => v
    case Rejected => MockCommodityPrices(jitter)
  }

  /** The baseline a cycle leaves behind: exactly the raw USD values it used, mock or not. */
  function NextBaseline(q: CommodityQuote): (b: Baseline)
    ensures b.goldGramUsd == q.goldGramUsd && b.silverGramUsd == q.silverGramUsd && b.oilUsd == q.oilUsd
  {
    Baseline(q.goldGramUsd, q.silverGramUsd, q.oilUsd)
  }

  /** `commodityDataValue.apiMethod || 'unknown'`. */
  function MethodTag(q: CommodityQuote): (tag: string)
    ensures q.apiMethod.Some? && q.apiMethod.value != "" ==> tag == q.apiMethod.value
    ensures q.apiMethod.None? || q.apiMethod.value == "" ==> tag == UnknownMethod
    ensures tag != ""
  {
    if q.apiMethod.Some? && q.apiMethod.value != "" then q.apiMethod.value else UnknownMethod
  }

  /**
   * The `cachedData` object literal for quote `q` at rate `rate`, with the
   * three changes already computed.
   */
  function Assemble(q: CommodityQuote, rate: real, goldChange: real, silverChange: real, oilChange: real): (s: Snapshot)
    ensures Consistent(s) && Complete(s)
    ensures s.usdToIdr == rate
    ensures s.gold.gramUsd == q.goldGramUsd && s.gold.ounceUsd == Some(q.goldOunceUsd)
    ensures s.silver.gramUsd == q.silverGramUsd && s.silver.ounceUsd == Some(q.silverOunceUsd)
    ensures s.oil.usd == q.oilUsd
    ensures s.gold.change == goldChange && s.silver.change == silverChange && s.oil.change == oilChange
    ensures s.source == Some(MockSource) <==> q.isMock
    ensures s.source == Some(LiveSource) <==> !q.isMock
    ensures s.success == Some(q.success)
    ensures s.apiMethod == Some(MethodTag(q))
  {
    Snapshot(
      MetalPrice(q.goldGramUsd, RoundHalfUp(q.goldGramUsd * rate), Some(q.goldOunceUsd), goldChange),
      MetalPrice(q.silverGramUsd, RoundHalfUp(q.silverGramUsd * rate), Some(q.silverOunceUsd), silverChange),
      OilPrice(q.oilUsd, RoundHalfUp(q.oilUsd * rate), oilChange),
      rate,
      Some(if q.isMock then MockSource else LiveSource),
      Some(q.success),
      Some(MethodTag(q)))
  }

  /**
   * The snapshot a cycle publishes for quote `q` at rate `rate`, with its
   * changes taken against the baseline `previous` held before the cycle.
   */
  function BuildSnapshot(q: CommodityQuote, rate: real, previous: Baseline): (s: Snapshot)
    ensures Consistent(s) && Complete(s)
    ensures s.usdToIdr == rate
    ensures s.gold.gramUsd == q.goldGramUsd && s.gold.ounceUsd == Some(q.goldOunceUsd)
    ensures s.silver.gramUsd == q.silverGramUsd && s.silver.ounceUsd == Some(q.silverOunceUsd)
    ensures s.oil.usd == q.oilUsd
    ensures s.gold.change == CalculateChange(q.goldGramUsd, Some(previous.goldGramUsd))
    ensures s.silver.change == CalculateChange(q.silverGramUsd, Some(previous.silverGramUsd))
    ensures s.oil.change == CalculateChange(q.oilUsd, Some(previous.oilUsd))
    ensures s.source == Some(MockSource) <==> q.isMock
    ensures s.source == Some(LiveSource) <==> !q.isMock
    ensures s.success == Some(q.success)
    ensures s.apiMethod == Some(MethodTag(q))
  {
    Assemble(q, rate,
             CalculateChange(q.goldGramUsd, Some(previous.goldGramUsd)),
             CalculateChange(q.silverGramUsd, Some(previous.silverGramUsd)),
             CalculateChange(q.oilUsd, Some(previous.oilUsd)))
  }

  /** The module state: `cachedData` and `previousPrices`. */
  datatype State = State(cache: Snapshot, baseline: Baseline)

  /** What one call of `updateAllData` receives from outside. */
  datatype CycleInput = CycleInput(rate: Settled<real>, commodity: Settled<CommodityQuote>, jitter: Jitter, fault: Fault)

  /** A cycle that got past the point where an exception would leave the state untouched. */
  predicate Completes(input: CycleInput)
  {
    input.fault != FaultBeforeUpdate
  }

  /** The baseline holds exactly the USD prices the cached snapshot shows. */
  predicate BaselineTracksCache(s: State)
  {
    s.baseline == Baseline(s.cache.gold.gramUsd, s.cache.silver.gramUsd, s.cache.oil.usd)
  }

  /**
   * The state after one cycle. A completed cycle publishes a consistent,
   * complete snapshot whose changes compare its prices with those the
   * previous snapshot showed, and keeps the baseline in step with it.
   */
  function Cycle(s: State, input: CycleInput): (t: State)
    ensures !Completes(input) ==> t == s
    ensures Completes(input) ==>
      var q := SettledQuote(input.commodity, input.jitter);
      t == State(BuildSnapshot(q, SettledRate(input.rate), s.baseline), NextBaseline(q))
    ensures Completes(input) ==> Consistent(t.cache) && Complete(t.cache) && BaselineTracksCache(t)
    ensures Completes(input) ==> t.cache.usdToIdr == SettledRate(input.rate)
    ensures Completes(input) && BaselineTracksCache(s) ==>
      && t.cache.gold.change == CalculateChange(t.cache.gold.gramUsd, Some(s.cache.gold.gramUsd))
      && t.cache.silver.change == CalculateChange(t.cache.silver.gramUsd, Some(s.cache.silver.gramUsd))
      && t.cache.oil.change == CalculateChange(t.cache.oil.usd, Some(s.cache.oil.usd))
    ensures Consistent(s.cache) ==> Consistent(t.cache)
    ensures BaselineTracksCache(s) ==> BaselineTracksCache(t)
  {
    if !Completes(input) then s
    else
      var q := SettledQuote(input.commodity, input.jitter);
      State(BuildSnapshot(q, SettledRate(input.rate), s.baseline), NextBaseline(q))
  }

  /** The state after the cycles of `inputs`, run one after another. */
  function Run(s: State, inputs: seq<CycleInput>): State
    decreases |inputs|
  {
    if inputs == [] then s else Run(Cycle(s, inputs[0]), inputs[1..])
  }

  /** The module state of the price engine. */
  class PriceCache {
    var cache: Snapshot
    var baseline: Baseline

    ghost function Current(): State
      reads this
    {
      State(cache, baseline)
    }

    ghost predicate Valid()
      reads this
    {
      BaselineTracksCache(Current())
    }

    /** The state at process start: the seed snapshot and the seed baseline. */
    constructor ()
      ensures Valid()
      ensures cache == SeedSnapshot() && baseline == SeedBaseline()
    {
      cache := SeedSnapshot();
      baseline := SeedBaseline();
    }

    /**
     * `updateAllData()`: substitute defaults for rejected fetches, compute
     * the changes against the current baseline, replace the baseline by
     * the new raw values, replace the snapshot, and return it. On an
     * exception the snapshot held at that moment is returned.
     */
    method RunCycle(rate: Settled<real>, commodity: Settled<CommodityQuote>, jitter: Jitter, fault: Fault)
      returns (result: Snapshot)
      requires Valid()
      modifies this
      ensures Valid()
      ensures result == cache
      ensures Current() == Cycle(old(Current()), CycleInput(rate, commodity, jitter, fault))
    {
      var exchangeRateValue := SettledRate(rate);
      var data := SettledQuote(commodity, jitter);

      var goldChange := CalculateChange(data.goldGramUsd, Some(baseline.goldGramUsd));
      var silverChange := CalculateChange(data.silverGramUsd, Some(baseline.silverGramUsd));
      var oilChange := CalculateChange(data.oilUsd, Some(baseline.oilUsd));

      if fault == FaultBeforeUpdate {
        result := cache;
        return;
      }

      baseline := Baseline(data.goldGramUsd, data.silverGramUsd, data.oilUsd);

      cache := Assemble(data, exchangeRateValue, goldChange, silverChange, oilChange);

      // An exception while logging (FaultAfterUpdate) leaves both
      // assignments in place, and the handler returns the new snapshot.
      result := cache;
    }
  }

  /** A state that starts with the baseline in step with the cache stays so through any cycles. */
  lemma {:induction false} RunKeepsBaselineTracking(s: State, inputs: seq<CycleInput>)
    requires BaselineTracksCache(s)
    ensures BaselineTracksCache(Run(s, inputs))
    decreases |inputs|
  {
    if inputs != [] {
      RunKeepsBaselineTracking(Cycle(s, inputs[0]), inputs[1..]);
    }
  }

  /**
   * Once one cycle has completed, every snapshot served afterwards has its
   * IDR amounts rounded from its USD amounts, whatever later cycles do.
   */
  lemma {:induction false} RunConsistentOnceCompleted(s: State, inputs: seq<CycleInput>, i: nat)
    requires i < |inputs| && Completes(inputs[i])
    ensures Consistent(Run(s, inputs).cache)
    decreases |inputs|
  {
    if i == 0 {
      RunKeepsConsistency(Cycle(s, inputs[0]), inputs[1..]);
    } else {
      RunConsistentOnceCompleted(Cycle(s, inputs[0]), inputs[1..], i - 1);
    }
  }

  /** A consistent snapshot stays consistent through any cycles. */
  lemma {:induction false} RunKeepsConsistency(s: State, inputs: seq<CycleInput>)
    requires Consistent(s.cache)
    ensures Consistent(Run(s, inputs).cache)
    decreases |inputs|
  {
    if inputs != [] {
      RunKeepsConsistency(Cycle(s, inputs[0]), inputs[1..]);
    }
  }

  /** Cycles that all fail before the updates leave the state exactly as it was. */
  lemma {:induction false} RunOfFailedCyclesKeepsState(s: State, inputs: seq<CycleInput>)
    requires forall i :: 0 <= i < |inputs| ==> !Completes(inputs[i])
    ensures Run(s, inputs) == s
    decreases |inputs|
  {
    if inputs != [] {
      RunOfFailedCyclesKeepsState(s, inputs[1..]);
    }
  }

  /** The seed state already has the baseline in step with the cache. */
  lemma SeedBaselineTracksCache()
    ensures BaselineTracksCache(State(SeedSnapshot(), SeedBaseline()))
  {
  }

  /**
   * The seed snapshot does not satisfy the rounding relation that every
   * snapshot a cycle builds satisfies: 62.71 * 15500 is 972005, not 972000.
   */
  lemma SeedSnapshotNotConsistent()
    ensures !Consistent(SeedSnapshot())
  {
    assert 62.71 * 15500.0 == 972005.0;
    assert RoundHalfUp(972005.0) == 972005;
  }

  /** Monetary fields stay non-negative when the quote's prices and the rate are. */
  lemma SnapshotNonNegative(q: CommodityQuote, rate: real, previous: Baseline)
    requires rate >= 0.0
    requires q.goldGramUsd >= 0.0 && q.silverGramUsd >= 0.0 && q.oilUsd >= 0.0
    ensures var s := BuildSnapshot(q, rate, previous);
      s.gold.gramIdr >= 0 && s.silver.gramIdr >= 0 && s.oil.idr >= 0
  {
    assert q.goldGramUsd * rate >= 0.0;
    assert q.silverGramUsd * rate >= 0.0;
    assert q.oilUsd * rate >= 0.0;
  }

  /**
   * A cycle whose commodity fetch rejected still publishes a complete,
   * consistent snapshot of mock data in its bands, marked 'Mock Data', not
   * a success, method 'unknown', at the fetched rate, and the mock prices
   * become the baseline.
   */
  lemma RejectedCommodityStillPublishes(s: State, rate: real, jitter: Jitter, fault: Fault)
    requires jitter.Valid() && rate >= 0.0 && fault != FaultBeforeUpdate
    ensures var t := Cycle(s, CycleInput(Fulfilled(rate), Rejected, jitter, fault));
      var q := MockCommodityPrices(jitter);
      && Consistent(t.cache) && Complete(t.cache)
      && t.cache.usdToIdr == rate
      && t.cache.source == Some(MockSource) && t.cache.success == Some(false)
      && t.cache.apiMethod == Some(UnknownMethod)
      && 1940.75 <= t.cache.gold.ounceUsd.value <= 1960.75
      && t.cache.gold.gramIdr >= 0 && t.cache.silver.gramIdr >= 0 && t.cache.oil.idr >= 0
      && t.baseline == Baseline(q.goldGramUsd, q.silverGramUsd, q.oilUsd)
  {
    var q := MockCommodityPrices(jitter);
    MockWithinBands(jitter);
    SnapshotNonNegative(q, rate, s.baseline);
  }

  /** With both rate sources down the snapshot's rate is 15500. */
  lemma RateSourcesDownGiveDefault(q: CommodityQuote, previous: Baseline)
    ensures BuildSnapshot(q, SettledRate(Fulfilled(GetExchangeRate(RateFailed, RateFailed))), previous).usdToIdr
      == 15500.0
  {
    BothSourcesDown();
  }

  /** From the seed baseline, a gold gram price of 63.96 is published as a change of 1.99. */
  lemma SeedBaselineGoldChange(q: CommodityQuote, rate: real)
    requires q.goldGramUsd == 63.96
    ensures BuildSnapshot(q, rate, SeedBaseline()).gold.change == 1.99
  {
    GoldExampleChange();
  }

  /**
   * A zero price (a tier that found no rate) becomes the next baseline,
   * so the next cycle reports no change for that commodity whatever it
   * fetches.
   */
  lemma ZeroPriceSilencesNextChange(q1: CommodityQuote, q2: CommodityQuote, rate: real)
    requires q1.goldGramUsd == 0.0
    ensures BuildSnapshot(q2, rate, NextBaseline(q1)).gold.change == 0.0
  {
  }
}
