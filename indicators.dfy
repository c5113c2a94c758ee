/**
  Indicator engine: the price history, simple moving averages over the
  trailing window, and the 14-bar relative strength index, with the pandas
  operations they use (`diff`, `where`, `rolling(n).mean().iloc[-1]`)
  written as functions over sequences.
 */
module Indicators {
  import opened Values

  /** One daily bar of the price history; only the columns the core reads. */
  datatype Bar = Bar(close: real, high: real)

  function Closes(hist: seq<Bar>): (c: seq<real>)
    ensures |c| == |hist|
    ensures forall i :: 0 <= i < |hist| ==> c[i] == hist[i].close
  {
    seq(|hist|, i requires 0 <= i < |hist| => hist[i].close)
  }

  /** `hist['High'].max()` for a non-empty history. */
  function MaxHigh(hist: seq<Bar>): (m: real)
    requires |hist| > 0
    ensures forall i :: 0 <= i < |hist| ==> hist[i].high <= m
    ensures exists i :: 0 <= i < |hist| && hist[i].high == m
    decreases |hist|
  {
    if |hist| == 1 then hist[0].high
    else
      var rest := MaxHigh(hist[1..]);
      assert forall i :: 1 <= i < |hist| ==> hist[i] == hist[1..][i - 1];
      if hist[0].high >= rest then hist[0].high else rest
  }

  function Sum(xs: seq<real>): real
    decreases |xs|
  {
    if xs == [] then 0.0 else Sum(xs[..|xs| - 1]) + xs[|xs| - 1]
  }

  function Mean(xs: seq<real>): real
    requires |xs| > 0
  {
    Sum(xs) / (|xs| as real)
  }

  lemma {:induction false} SumAtLeast(xs: seq<real>, lo: real)
    requires forall i :: 0 <= i < |xs| ==> lo <= xs[i]
    ensures (|xs| as real) * lo <= Sum(xs)
    decreases |xs|
  {
    if xs != [] {
      SumAtLeast(xs[..|xs| - 1], lo);
    }
  }

  lemma {:induction false} SumAtMost(xs: seq<real>, hi: real)
    requires forall i :: 0 <= i < |xs| ==> xs[i] <= hi
    ensures Sum(xs) <= (|xs| as real) * hi
    decreases |xs|
  {
    if xs != [] {
      SumAtMost(xs[..|xs| - 1], hi);
    }
  }

  /** A mean lies between any lower and upper bound of its elements. */
  lemma MeanWithin(xs: seq<real>, lo: real, hi: real)
    requires |xs| > 0
    requires forall i :: 0 <= i < |xs| ==> lo <= xs[i] <= hi
    ensures lo <= Mean(xs) <= hi
  {
    SumAtLeast(xs, lo);
    SumAtMost(xs, hi);
    var n := |xs| as real;
    assert Mean(xs) * n == Sum(xs);
  }

  /** `series.rolling(n).mean().iloc[-1]`: NaN until the window fills, then
      the mean of the last `n` values. */
  function RollingMeanLast(xs: seq<real>, n: nat): (v: FieldValue)
    requires n > 0
    ensures |xs| < n <==> v == NaN
  {
    if |xs| < n then NaN else Num(Mean(xs[|xs| - n..]))
  }

  /** The `n`-bar simple moving average of the closes: absent (None) when the
      history is shorter than `n` bars. */
  function Sma(closes: seq<real>, n: nat): (r: Option<real>)
    requires n > 0
    ensures r.None? <==> |closes| < n
    ensures r.Some? ==> r.value * (n as real) == Sum(closes[|closes| - n..])
  {
    if closes == [] then None
    else if |closes| >= n then Some(SafeFloat(RollingMeanLast(closes, n), 0.0))
    else None
  }

  /** A moving average lies within the range of the closes in its window. */
  lemma SmaWithinWindow(closes: seq<real>, n: nat, lo: real, hi: real)
    requires 0 < n <= |closes|
    requires forall i :: |closes| - n <= i < |closes| ==> lo <= closes[i] <= hi
    ensures Sma(closes, n).Some?
    ensures lo <= Sma(closes, n).value <= hi
  {
    var w := closes[|closes| - n..];
    assert forall i :: 0 <= i < |w| ==> w[i] == closes[|closes| - n + i];
    MeanWithin(w, lo, hi);
  }

  // ---------------------------------------------------------------------
  // RSI over 14 bars.

  const RsiWindow: nat := 14
  const RsiDefault: int := 50

  /** `closes.diff()`: NaN at the first bar, then each bar's change. */
  function Diff(closes: seq<real>): (d: seq<FieldValue>)
    ensures |d| == |closes|
    ensures |d| > 0 ==> d[0] == NaN
    ensures forall i :: 0 < i < |d| ==> d[i] == Num(closes[i] - closes[i - 1])
  {
    seq(|closes|, i requires 0 <= i < |closes| => if i == 0 then NaN else Num(closes[i] - closes[i - 1]))
  }

  /** `delta.where(delta > 0, 0)`: rises kept, everything else (NaN included) 0. */
  function Gains(delta: seq<FieldValue>): (g: seq<real>)
    ensures |g| == |delta|
    ensures forall i :: 0 <= i < |g| ==> g[i] >= 0.0
    ensures forall i :: 0 <= i < |g| && !delta[i].Num? ==> g[i] == 0.0
  {
    seq(|delta|, i requires 0 <= i < |delta| =>
      match delta[i]
      case Num(x) => if x > 0.0 then x else 0.0
      case _ => 0.0)
  }

  /** `-delta.where(delta < 0, 0)`: falls as positive amounts, everything else 0. */
  function Losses(delta: seq<FieldValue>): (l: seq<real>)
    ensures |l| == |delta|
    ensures forall i :: 0 <= i < |l| ==> l[i] >= 0.0
    ensures forall i :: 0 <= i < |l| && !delta[i].Num? ==> l[i] == 0.0
  {
    seq(|delta|, i requires 0 <= i < |delta| =>
      match delta[i]
      case Num(x) => if x < 0.0 then -x else 0.0
      case _ => 0.0)
  }

  /** Each bar's gain minus its loss is its change, and at most one of the
      two is nonzero; both are 0 at the first bar, whose change is NaN. */
  lemma GainMinusLoss(closes: seq<real>, i: nat)
    requires i < |closes|
    ensures Gains(Diff(closes))[i] - Losses(Diff(closes))[i]
         == if i == 0 then 0.0 else closes[i] - closes[i - 1]
    ensures Gains(Diff(closes))[i] == 0.0 || Losses(Diff(closes))[i] == 0.0
    ensures i == 0 ==> Gains(Diff(closes))[i] == 0.0 && Losses(Diff(closes))[i] == 0.0
  {
  }

  /** `100 - 100 / (1 + g / l)` under IEEE arithmetic, or None when it is NaN
      or infinite: 0/0 gives NaN; g/0 with g != 0 gives an infinite RS and
      so 100; an infinite result makes `int()` raise, which leaves the
      default in place as NaN does. */
  function RsiFromMeans(g: FieldValue, l: FieldValue): Option<real>
  {
    match (g, l)
    case (Num(a), Num(b)) =>
      if b == 0.0 then (if a == 0.0 then None else Some(100.0))
      else if 1.0 + a / b == 0.0 then None
      else Some(100.0 - 100.0 / (1.0 + a / b))
    case _ => None
  }

  /** The 14-bar RSI as `get_etf_data` computes it: 50 for fewer than 14 bars or
      an underivable value, otherwise the truncated value. */
  function Rsi14(closes: seq<real>): (rsi: int)
  {
    if closes == [] || |closes| < RsiWindow then RsiDefault
    else
      var delta := Diff(closes);
      var v := RsiFromMeans(RollingMeanLast(Gains(delta), RsiWindow), RollingMeanLast(Losses(delta), RsiWindow));
      match v
      case Some(x) => TruncToInt(x)
      case None => RsiDefault
  }

  /** Mean gain and mean loss over the last 14 bars. */
  function MeanGain(closes: seq<real>): real
    requires |closes| >= RsiWindow
  {
    Mean(Gains(Diff(closes))[|closes| - RsiWindow..])
  }

  function MeanLoss(closes: seq<real>): real
    requires |closes| >= RsiWindow
  {
    Mean(Losses(Diff(closes))[|closes| - RsiWindow..])
  }

  /** The textbook form of RSI from its two means: 100·g/(g+l), or the
      default 50 when there was no movement at all. */
  function RsiReference(g: real, l: real): int
  {
    if g + l == 0.0 then RsiDefault else (100.0 * g / (g + l)).Floor
  }

  lemma MeansNonNegative(closes: seq<real>)
    requires |closes| >= RsiWindow
    ensures MeanGain(closes) >= 0.0 && MeanLoss(closes) >= 0.0
  {
    var gs, ls := Gains(Diff(closes)), Losses(Diff(closes));
    var lo := |closes| - RsiWindow;
    var gw, lw := gs[lo..], ls[lo..];
    assert forall i :: 0 <= i < |gw| ==> gw[i] == gs[lo + i];
    assert forall i :: 0 <= i < |lw| ==> lw[i] == ls[lo + i];
    SumAtLeast(gw, 0.0);
    SumAtLeast(lw, 0.0);
    assert Sum(gw) >= 0.0 && Sum(lw) >= 0.0;
  }

  lemma RsiAlgebra(g: real, l: real)
    requires g >= 0.0 && l > 0.0
    ensures 1.0 + g / l != 0.0
    ensures 100.0 - 100.0 / (1.0 + g / l) == 100.0 * g / (g + l)
  {
    var q, s := g / l, g + l;
    assert q * l == g;
    assert (1.0 + q) * l == s;
    var r := 100.0 / (1.0 + q);
    assert r * (1.0 + q) == 100.0;
    assert r * s == 100.0 * l by {
      calc {
        r * s;
      ==  r * ((1.0 + q) * l);
      ==  (r * (1.0 + q)) * l;
      }
    }
    assert (100.0 - r) * s == 100.0 * g;
    var x, y := 100.0 - r, 100.0 * g / s;
    assert y * s == 100.0 * g;
    assert (x - y) * s == 0.0;
    assert x - y == 0.0;
  }

  /** RSI as computed equals the textbook form on the mean gain and mean loss
      of the last 14 bars, and is 50 for shorter histories. A window with
      losses but no gains gives 0, a window with gains but no losses gives
      100, a window without movement gives 50. */
  lemma Rsi14MatchesReference(closes: seq<real>)
    ensures |closes| < RsiWindow ==> Rsi14(closes) == RsiDefault
    ensures |closes| >= RsiWindow ==>
      Rsi14(closes) == RsiReference(MeanGain(closes), MeanLoss(closes))
  {
    if |closes| >= RsiWindow {
      MeansNonNegative(closes);
      var g, l := MeanGain(closes), MeanLoss(closes);
      var delta := Diff(closes);
      assert RollingMeanLast(Gains(delta), RsiWindow) == Num(g);
      assert RollingMeanLast(Losses(delta), RsiWindow) == Num(l);
      if l > 0.0 {
        RsiAlgebra(g, l);
        var x := 100.0 * g / (g + l);
        assert RsiFromMeans(Num(g), Num(l)) == Some(x);
        assert x >= 0.0;
        assert TruncToInt(x) == x.Floor;
      } else if g == 0.0 {
        assert RsiFromMeans(Num(g), Num(l)) == None;
      } else {
        assert RsiFromMeans(Num(g), Num(l)) == Some(100.0);
        assert 100.0 * g / (g + l) == 100.0;
        assert TruncToInt(100.0) == 100;
      }
    }
  }

  /** The RSI is always an integer in [0, 100]. */
  lemma Rsi14InRange(closes: seq<real>)
    ensures 0 <= Rsi14(closes) <= 100
  {
    Rsi14MatchesReference(closes);
    if |closes| >= RsiWindow {
      MeansNonNegative(closes);
      var g, l := MeanGain(closes), MeanLoss(closes);
      if g + l != 0.0 {
        assert 0.0 <= 100.0 * g / (g + l) <= 100.0 by {
          assert 100.0 * g <= 100.0 * (g + l);
        }
      }
    }
  }
}
