/**
 * `getExchangeRate`: USD to IDR from a primary source, then a secondary
 * one, then the constant 15500. Each HTTP call is an input outcome.
 */
module ExchangeRate {
  import opened Wrappers

  /** The rate used when neither source gives a usable one. */
  const DefaultRate: real := 15500.0

  /**
   * What one rate request produced: the request failed (network error,
   * timeout, non-2xx status), or it answered with a body whose
   * `rates.IDR` may be missing.
   */
  datatype RateResponse = RateFailed | RateOk(idr: Option<real>)

  /** JavaScript truthiness of the answered `rates.IDR`: present and not 0. */
  predicate Usable(response: RateResponse)
  {
    response.RateOk? && response.idr.Some? && response.idr.value != 0.0
  }

  /**
   * The fallback chain. A secondary answer without a `rates` object throws
   * inside the second `try` and so also ends at the default.
   */
  function GetExchangeRate(primary: RateResponse, secondary: RateResponse): (rate: real)
    ensures Usable(primary) ==> rate == primary.idr.value
    ensures !Usable(primary) && Usable(secondary) ==> rate == secondary.idr.value
    ensures !Usable(primary) && !Usable(secondary) ==> rate == DefaultRate
    ensures rate != 0.0
  {
    if Usable(primary) then primary.idr.value
    else
      match secondary
      case RateFailed => DefaultRate
      case RateOk(idr) => if idr.Some? && idr.value != 0.0 then idr.value else DefaultRate
  }

  /** Once the primary source answers with a usable rate, the secondary one does not matter. */
  lemma PrimaryDecides(primary: RateResponse, s1: RateResponse, s2: RateResponse)
    requires Usable(primary)
    ensures GetExchangeRate(primary, s1) == GetExchangeRate(primary, s2)
  {
  }

  /** A primary rate of 0 counts as missing: the secondary source is used instead. */
  lemma ZeroPrimaryFallsThrough(secondary: RateResponse)
    ensures GetExchangeRate(RateOk(Some(0.0)), secondary) == GetExchangeRate(RateFailed, secondary)
  {
  }

  /** Both sources down: the rate is the default 15500. */
  lemma BothSourcesDown()
    ensures GetExchangeRate(RateFailed, RateFailed) == 15500.0
  {
  }
}
