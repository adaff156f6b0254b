/**
 * Percentage change between a fresh price and the previous one
 * (`calculateChange`), and the two view helpers that classify a change
 * by its sign (`getChangeColor`, `getChangeIcon`).
 */
module Change {
  import opened Wrappers
  import opened Rounding

  /**
   * A baseline the guard `!previous` lets through: present and not zero.
   * A negative baseline is truthy, so it is used.
   */
  predicate UsableBaseline(previous: Option<real>)
  {
    previous.Some? && previous.value != 0.0
  }

  /** The unrounded percentage `(current - previous) / previous * 100`. */
  function ExactChange(current: real, previous: real): real
    requires previous != 0.0
  {
    (current - previous) / previous * 100.0
  }

  /**
   * `calculateChange(current, previous)`: 0 when the baseline is absent or
   * zero, otherwise the percentage change rounded to 2 decimals.
   */
  function CalculateChange(current: real, previous: Option<real>): (r: real)
    ensures !UsableBaseline(previous) ==> r == 0.0
    ensures UsableBaseline(previous) ==>
      -0.005 <= r - ExactChange(current, previous.value) <= 0.005
    ensures HasDecimals(r, 100.0)
  {
    if !UsableBaseline(previous) then 0.0
    else ToFixed2(ExactChange(current, previous.value))
  }

  /**
   * With a positive baseline the rounded change never has the wrong sign:
   * a rise gives a change of at least 0 and a fall one of at most 0.
   */
  lemma ChangeSignAgrees(current: real, previous: real)
    requires previous > 0.0
    ensures current >= previous ==> CalculateChange(current, Some(previous)) >= 0.0
    ensures current <= previous ==> CalculateChange(current, Some(previous)) <= 0.0
  {
    var d := current - previous;
    if d >= 0.0 {
      assert d / previous >= 0.0;
    }
    if d <= 0.0 {
      assert d / previous <= 0.0;
    }
  }

  /** A gram price moving from 62.71 to 63.96 is a change of 1.99 percent. */
  lemma GoldExampleChange()
    ensures CalculateChange(63.96, Some(62.71)) == 1.99
  {
    var x := ExactChange(63.96, 62.71);
    assert x == 125.0 / 62.71;
    assert 199.0 <= x * 100.0 < 199.5;
    assert HalfAwayFromZero(x * 100.0) == 199;
  }

  /**
   * The guard tests only for a falsy baseline: a negative baseline still
   * yields a (sign-flipped) change instead of 0.
   */
  lemma NegativeBaselineNotGuarded()
    ensures CalculateChange(-2.0, Some(-1.0)) == 100.0
  {
    assert ExactChange(-2.0, -1.0) == 100.0;
    assert HalfAwayFromZero(10000.0) == 10000;
  }

  /** The colours `getChangeColor` returns. */
  const RiseColor := "#10b981"
  const FallColor := "#ef4444"
  const FlatColor := "#8b949e"

  /** `getChangeColor(change)`: green for a rise, red for a fall, grey otherwise. */
  function ChangeColor(change: real): (c: string)
    ensures c == RiseColor <==> change > 0.0
    ensures c == FallColor <==> change < 0.0
    ensures c == FlatColor <==> change == 0.0
  {
    if change > 0.0 then RiseColor else if change < 0.0 then FallColor else FlatColor
  }

  /** The arrows `getChangeIcon` returns. */
  const RiseIcon := "\U{2197}"
  const FallIcon := "\U{2198}"
  const FlatIcon := "\U{2192}"

  /** `getChangeIcon(change)`: an arrow up, down or sideways, by the sign of `change`. */
  function ChangeIcon(change: real): (i: string)
    ensures i == RiseIcon <==> change > 0.0
    ensures i == FallIcon <==> change < 0.0
    ensures i == FlatIcon <==> change == 0.0
  {
    if change > 0.0 then RiseIcon else if change < 0.0 then FallIcon else FlatIcon
  }
}
