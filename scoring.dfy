/**
  Derived scores and flags of one record: the liquidity ("lwowski") score,
  the distance to the 52-week high, and the four technical flags, each
  computed with Python's truthiness rules.
 */
module Scoring {
  import opened Values

  const MinScore: int := 1000
  const MaxScore: int := 99999
  const DefaultScore: int := 5000

  /** `max(1000, min(99999, n))`. */
  function ClampScore(n: int): (r: int)
    ensures MinScore <= r <= MaxScore
    ensures MinScore <= n <= MaxScore ==> r == n
  {
    if n > MaxScore then MaxScore else if n < MinScore then MinScore else n
  }

  /** The liquidity score: 5000 unless both AUM and volume are nonzero, then
      `int((aum / 1e6) * (volume / 1e6) / 100)` clamped to [1000, 99999]. */
  function Lwowski(aum: real, volume: real): (score: int)
    ensures MinScore <= score <= MaxScore
    ensures aum == 0.0 || volume == 0.0 ==> score == DefaultScore
    ensures aum != 0.0 && volume != 0.0 ==> score == ClampScore((aum * volume / 100000000000000.0).Floor)
  {
    if aum != 0.0 && volume != 0.0 then
      var raw := (aum / 1000000.0) * (volume / 1000000.0) / 100.0;
      TruncFloorAgreeClamped(raw);
      ClampScore(TruncToInt(raw))
    else DefaultScore
  }

  /** After clamping to [1000, 99999], truncation toward zero and flooring
      give the same score: they differ only on negative non-integers, which
      both clamp to 1000. */
  lemma TruncFloorAgreeClamped(x: real)
    ensures ClampScore(TruncToInt(x)) == ClampScore(x.Floor)
  {
    if x < 0.0 {
      assert TruncToInt(x) <= 0;
      assert x.Floor < 0;
    }
  }

  /** 5000 is not reserved for missing data: a fund with 1,000 million of
      assets trading 500 million shares scores 5000 too. */
  lemma DefaultScoreAlsoComputed()
    ensures Lwowski(1000000000.0, 500000000.0) == DefaultScore
  {
    assert 1000000000.0 * 500000000.0 / 100000000000000.0 == 5000.0;
  }

  /** For positive inputs the score does not decrease when AUM grows. */
  lemma LwowskiMonotoneInAum(aum1: real, aum2: real, volume: real)
    requires 0.0 < aum1 <= aum2 && volume > 0.0
    ensures Lwowski(aum1, volume) <= Lwowski(aum2, volume)
  {
    assert aum1 * volume <= aum2 * volume;
    FloorMonotone(aum1 * volume / 100000000000000.0, aum2 * volume / 100000000000000.0);
  }

  lemma FloorMonotone(x: real, y: real)
    requires x <= y
    ensures x.Floor <= y.Floor
  {
    assert x.Floor as real <= x;
    assert y < y.Floor as real + 1.0;
  }

  /** `price / week52_high * 100` when the high is positive, else 100. */
  function Near52wPct(price: real, week52High: real): (pct: real)
    ensures week52High <= 0.0 ==> pct == 100.0
    ensures week52High > 0.0 ==> pct * week52High == price * 100.0
  {
    if week52High != 0.0 && week52High > 0.0 then price / week52High * 100.0 else 100.0
  }

  /** `safe_bool(price >= week52_high * 0.98)`. */
  function CloseAbove52w(price: real, week52High: real): (b: bool)
    ensures b <==> price >= 0.98 * week52High
  {
    SafeBool(Bool(price >= week52High * 0.98))
  }

  /** With a positive high, closing above 98% of it is the same as a
      near-52-week percentage of at least 98. */
  lemma CloseAboveMeansNear98(price: real, week52High: real)
    requires week52High > 0.0
    ensures CloseAbove52w(price, week52High) <==> Near52wPct(price, week52High) >= 98.0
  {
    var pct := Near52wPct(price, week52High);
    assert pct * week52High == price * 100.0;
    if pct >= 98.0 {
      assert pct * week52High >= 98.0 * week52High;
    } else {
      assert pct * week52High < 98.0 * week52High;
    }
  }

  /** The value of Python's `a and b and a > b` when `a` and `b` are
      optional floats: the first falsy operand, else the comparison. */
  function AndGreater(a: Option<real>, b: Option<real>): FieldValue
  {
    if !Truthy(Lift(a)) then Lift(a)
    else if !Truthy(Lift(b)) then Lift(b)
    else Bool(a.value > b.value)
  }

  /** `safe_bool(a and b and a > b)`: the sma50gt150 and sma150gt200 flags. */
  function SmaAbove(a: Option<real>, b: Option<real>): (flag: bool)
    ensures flag <==> a.Some? && b.Some? && a.value != 0.0 && b.value != 0.0 && a.value > b.value
  {
    SafeBool(AndGreater(a, b))
  }

  /** `safe_bool(sma200 and price > sma200)`: the sma200Slope flag. It
      compares the price with the average; it does not measure a slope. */
  function PriceAboveSma(sma: Option<real>, price: real): (flag: bool)
    ensures flag <==> sma.Some? && sma.value != 0.0 && price > sma.value
  {
    SafeBool(if !Truthy(Lift(sma)) then Lift(sma) else Bool(price > sma.value))
  }
}
