# Price aggregation engine of trade-web, in Dafny

This project models the price engine inside `app.js` of trade-web. The engine
publishes one snapshot of gold, silver and oil prices in USD and IDR. To do
that it combines an exchange-rate lookup with two fallbacks and a commodity
lookup that tries three request styles before falling back to synthetic prices.
It then computes percentage changes against the previous cycle's prices and
keeps the last snapshot as a module-level cache.

Every network answer is an input value. `RateResponse` stands for an
exchange-rate answer. `HttpOutcome` stands for a commodity answer: the request
failed, or it answered with an optional `success` flag, an optional `rates`
object and an optional `data.rates` object. Each `Math.random()` draw is a field
of `Jitter`. `Promise.allSettled` gives two `Settled` values. The API key is an
`Option<string>`.

Modules:
- `Rounding`: `Math.round` (`RoundHalfUp`) and `parseFloat(x.toFixed(d))` for d = 2 and d = 3 (`ToFixed2`, `ToFixed3`). They work on exact reals, and `toFixed` rounds ties away from zero.
- `Change`: `calculateChange` and the view helpers `getChangeColor` and `getChangeIcon`.
- `ExchangeRate`: `getExchangeRate`.
- `Commodity`: the tier chain of `getCommodityPrices`, the ounce-to-gram conversion and `getMockCommodityPrices`.
- `Refresh`: the snapshot and baseline values and the class `PriceCache`. Its fields `cache` and `baseline` are `cachedData` and `previousPrices`, and its method `RunCycle` is `updateAllData`.

JavaScript truthiness is written out. A rate or price of 0 counts as missing.
A `success` flag counts only when it is `true`. An empty API key counts as no
key. An empty `rates` object is truthy, so the v1 tier uses it rather than
`data.rates`.

The model follows the code, also where it departs from the engine's intended design:
- The seed `cachedData` (app.js:10-18) does not satisfy the rule `idr = round(usd * rate)`: 62.71 * 15500 is 972005, but the seed holds 972000. The rule holds for every snapshot a cycle builds (`BuildSnapshot`), and `RunCycle` preserves it. It does not hold before the first cycle (`SeedSnapshotNotConsistent`).
- The exchange rate is not always positive. The code returns any truthy `rates.IDR`, so the model promises only a non-zero rate.
- The v1 tier accepts any answer that arrives, even one with no rates at all. Such an answer is a success with every price 0 (`EmptyV1AnswerIsZeroSuccess`). A zero price then becomes the baseline, so the next change for that commodity is 0 (`ZeroPriceSilencesNextChange`).
- The v2 tiers also fail when `success` is truthy but `rates` is missing, because reading `rates.XAU` throws.
- `previousPrices` is reassigned before `cachedData`, but nothing between the two assignments can throw. An exception in `updateAllData` is an input `Fault`. A fault before the updates leaves both fields unchanged and returns the old snapshot. A fault after them, while logging, returns the new snapshot: the `catch` returns whatever `cachedData` holds at that moment.
- Monetary fields are non-negative when the provider's prices and rate are (`SnapshotNonNegative`); the code does not check this.

## Model

| member | source | states |
|---|---|---|
| `Rounding.RoundHalfUp` | app.js:272 | `Math.round`: the result is within one half of its argument, and a tie goes up |
| `Rounding.ToFixed2` | app.js:227 | `toFixed(2)`: within 0.005 of the input, has at most 2 decimals, and keeps the input's sign |
| `Rounding.ToFixed3` | app.js:93 | `toFixed(3)`: within 0.0005 of the input, has at most 3 decimals, and keeps the input's sign |
| `Rounding.ToFixed2Between` | app.js:214 | rounding to 2 decimals keeps a non-negative value between two 2-decimal bounds |
| `Rounding.ToFixed3Between` | app.js:213 | rounding to 3 decimals keeps a non-negative value between two 3-decimal bounds |
| `Change.CalculateChange` | app.js:224-228 | 0 for an absent or zero baseline whatever the current value; otherwise within 0.005 of `(c - p) / p * 100` with at most 2 decimals |
| `Change.ChangeSignAgrees` | app.js:226-227 | with a positive baseline, a rise gives a change of at least 0 and a fall a change of at most 0 |
| `Change.GoldExampleChange` | app.js:226-227 | from 62.71 to 63.96 the change is exactly 1.99 |
| `Change.NegativeBaselineNotGuarded` | app.js:225 | the guard stops only falsy baselines: a baseline of -1 with current -2 gives 100, not 0 |
| `Change.ChangeColor` | app.js:321-322 | green exactly when change > 0, red exactly when change < 0, grey exactly when change = 0 |
| `Change.ChangeIcon` | app.js:323-324 | up arrow exactly when change > 0, down arrow exactly when change < 0, side arrow exactly when change = 0 |
| `ExchangeRate.GetExchangeRate` | app.js:28-51 | returns the primary `rates.IDR` when truthy, else the secondary one when truthy, else 15500; never fails and never returns 0 |
| `ExchangeRate.PrimaryDecides` | app.js:35-37 | once the primary answer is usable, the secondary answer has no effect |
| `ExchangeRate.ZeroPrimaryFallsThrough` | app.js:35 | a primary rate of 0 is treated like a failed primary request |
| `ExchangeRate.BothSourcesDown` | app.js:47-49 | both sources failing gives 15500 |
| `Commodity.Tier.Name` | app.js:107-192 | each tier's `apiMethod` tag is exactly 'query-parameter', 'header' or 'v1-endpoint' respectively (so the three differ), and none is empty or 'unknown' |
| `Commodity.MockCommodityPrices` | app.js:204-221 | mock output has `success` false, is marked mock and has no method; gram prices are within 0.0005 of the unrounded ounce price / 31.1035; ounce and oil prices are within 0.005 of their unrounded values; gram prices have at most 3 decimals and ounce and oil prices at most 2 |
| `Commodity.MockWithinBands` | app.js:207-219 | for draws in [0, 1): gold ounce in [1940.75, 1960.75], silver ounce in [23.17, 23.67], oil in [77.30, 79.30], gold gram in [62.397, 63.040], silver gram in [0.745, 0.761] |
| `Commodity.OunceOf` | app.js:88-90 | a missing price reads as 0; a present one is used as is |
| `Commodity.GramFromOunce` | app.js:93-94 | a zero ounce price gives 0; otherwise the result is within 0.0005 of ounce / 31.1034768 with at most 3 decimals, and non-negative for a non-negative price |
| `Commodity.LiveQuote` | app.js:98-108 | a live result is a success, not mock, tagged with its tier, and its gram prices are converted from its ounce prices |
| `Commodity.AcceptedRates` | app.js:79-83 | the v2 tiers accept exactly an answer with `success` true and a `rates` object; the v1 tier (app.js:174) accepts any answer, reading `rates`, else `data.rates`, else `{}`; a failed request is never accepted |
| `Commodity.GetCommodityPrices` | app.js:54-201 | without a key: mock data and no tier tried; with one: tiers tried as a prefix of query-parameter, header, v1-endpoint; every tier before the last failed; the result is a success exactly when the last tier accepted, in which case the quote is that tier's live quote, and otherwise it is mock data |
| `Commodity.TiersNeverRepeat` | app.js:63-200 | no tier is tried twice |
| `Commodity.FalsySuccessAdvances` | app.js:79-81 | a query-parameter answer with a falsy `success` flag leads to the header tier being tried |
| `Commodity.EmptyV1AnswerIsZeroSuccess` | app.js:174-192 | a v1 answer without rates still counts as a success tagged 'v1-endpoint', with every price 0 |
| `Commodity.V1ReadsNestedRates` | app.js:174 | without a top-level `rates`, the v1 tier's quote is built from `data.rates` |
| `Refresh.SettledRate` | app.js:241 | a rejected rate fetch becomes 15500; a fulfilled one is used as is |
| `Refresh.SettledQuote` | app.js:242 | a rejected commodity fetch becomes mock data, which is not a success; a fulfilled one is used as is |
| `Refresh.NextBaseline` | app.js:261-265 | the new baseline holds exactly the quote's gold gram, silver gram and oil USD values |
| `Refresh.MethodTag` | app.js:293 | the snapshot's method is the quote's `apiMethod` when that is non-empty, and 'unknown' when it is absent or empty |
| `Refresh.Assemble` | app.js:268-294 | the snapshot object is consistent (every IDR amount is `Math.round(usd * rate)`) and complete; `usd_to_idr` is the rate; USD and ounce prices come from the quote; the changes are the ones given; source is 'Mock Data' exactly when the quote is mock, else 'CommodityPriceAPI'; `success` is the quote's; the method is `apiMethod || 'unknown'` |
| `Refresh.BuildSnapshot` | app.js:268-294 | every IDR amount is `Math.round(usd * rate)`; no field is undefined; `usd_to_idr` is the rate; changes are computed against the baseline given; source is 'Mock Data' exactly when the quote is mock and 'CommodityPriceAPI' exactly when it is not |
| `Refresh.Cycle` | app.js:231-317 | a cycle that fails before the updates leaves the state as it was; a completed one publishes the snapshot built from the settled quote (mock data if the commodity fetch rejected) at the settled rate against the old baseline, and sets the baseline to that quote's raw USD values; the snapshot is consistent and complete and compares each price with the one the previous snapshot showed; consistency and baseline tracking are preserved by every cycle |
| `Refresh.PriceCache.constructor` | app.js:10-25 | the state starts with the seed snapshot and the seed baseline, which agree on the USD prices |
| `Refresh.PriceCache.RunCycle` | app.js:231-317 | the returned snapshot is the cache held afterwards, and the new cache and baseline are exactly `Cycle` of the old ones; the baseline keeps tracking the cache |
| `Refresh.RunKeepsBaselineTracking` | app.js:382-385 | over any sequence of repeated refreshes, the baseline stays equal to the USD prices of the served snapshot |
| `Refresh.RunConsistentOnceCompleted` | app.js:382-385 | once any refresh has completed, every later served snapshot has IDR amounts rounded from its USD amounts |
| `Refresh.RunKeepsConsistency` | app.js:382-385 | a consistent served snapshot stays consistent through any later refreshes |
| `Refresh.RunOfFailedCyclesKeepsState` | app.js:313-316 | refreshes that all throw before the updates leave the cache and the baseline exactly as they were |
| `Refresh.SeedBaselineTracksCache` | app.js:10-25 | the seed baseline holds exactly the seed snapshot's USD prices |
| `Refresh.SeedSnapshotNotConsistent` | app.js:10-18 | the seed snapshot's IDR amounts are not the rounded USD amounts times the rate |
| `Refresh.SnapshotNonNegative` | app.js:272-284 | non-negative prices and rate give non-negative IDR amounts |
| `Refresh.RejectedCommodityStillPublishes` | app.js:242 | a completed cycle whose commodity fetch rejected publishes a complete, consistent snapshot marked 'Mock Data', with `success` false, method 'unknown', the fetched rate, gold ounce price in band and non-negative IDR amounts, and the mock prices become the baseline |
| `Refresh.RateSourcesDownGiveDefault` | app.js:288 | with both rate sources down, `usd_to_idr` in the snapshot is 15500 |
| `Refresh.SeedBaselineGoldChange` | app.js:245-248 | against the seed baseline, a gold gram price of 63.96 is published with a change of 1.99 |
| `Refresh.ZeroPriceSilencesNextChange` | app.js:261-265 | a zero price becomes the baseline, so the next cycle reports a change of 0 for it |

## Left out

- HTTP transport is not modelled: URLs, query parameters, headers, timeouts and status codes. Each request is reduced to its outcome.
- The Express routes, view rendering, static files, `formatNumber` and `formatTime` are not modelled. They are I/O and locale formatting.
- Environment loading is not modelled. The API key is a parameter.
- The `setInterval` timer, the initial run before `app.listen`, and startup logging are not modelled. They are process lifecycle.
- The concurrency of `Promise.allSettled` is not modelled. Its two results are independent inputs.
- All console logging is left out, except that a fault while logging is one of the fault positions of `RunCycle`.
- `timestamp`, `lastUpdate` and `rawRates` are left out. They are clock values or data that is never consumed.
- The error `message` of the v2 tiers is left out. It only reaches the log.
- Binary floating point is not modelled. Prices are exact reals, and `toFixed` rounds exact values, so ties that IEEE-754 would break differently are not captured.
- Non-numeric JSON values are not modelled: a string or NaN in `rates`, a non-boolean `success`, a `null` response body. Each field is either absent or a number, and `success` is either absent or a boolean.
- ExchangeRate.GetExchangeRate: does not promise a positive rate, because the code accepts any truthy `rates.IDR`, including a negative one.
