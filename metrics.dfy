/**
 * Portfolio metrics shared by both engines: the running peak and drawdown of
 * a value series, the accumulator loop that finds the worst drawdown, and the
 * population-deviation Sharpe loop.
 */
module Metrics {
  import opened Common

  function Max(a: real, b: real): (r: real)
    ensures r >= a && r >= b && (r == a || r == b)
  {
    if b > a then b else a
  }

  // ---------------------------------------------------------------------------
  // Running peak and drawdown

  /** `cummax` at position `k`: the largest of the first `k + 1` values. */
  function RunningPeak(values: seq<real>, k: nat): (r: real)
    requires k < |values|
    ensures forall i :: 0 <= i <= k ==> values[i] <= r
  {
    if k == 0 then values[0] else Max(RunningPeak(values, k - 1), values[k])
  }

  /** The running peak never decreases. */
  lemma {:induction false} PeakMonotone(values: seq<real>, j: nat, k: nat)
    requires j <= k < |values|
    ensures RunningPeak(values, j) <= RunningPeak(values, k)
  {
    if j < k {
      PeakMonotone(values, j, k - 1);
    }
  }

  /**
   * `(peak - value) / peak` at position `k`, divided as float64: a number
   * below a non-zero peak, NaN (None) for 0/0 and an infinity below a zero
   * peak.
   */
  function DrawdownAt(values: seq<real>, k: nat): Option<Ext>
    requires k < |values|
  {
    FloatDiv(RunningPeak(values, k) - values[k], RunningPeak(values, k))
  }

  /**
   * A value never exceeds its running peak, so a drawdown is never -inf:
   * it is NaN exactly at a zero value under a zero peak, +inf exactly at a
   * negative value under a zero peak, and otherwise a number, non-negative
   * under a positive peak.
   */
  lemma DrawdownAtCases(values: seq<real>, k: nat)
    requires k < |values|
    ensures DrawdownAt(values, k) != Some(NegInf)
    ensures DrawdownAt(values, k).None? <==> RunningPeak(values, k) == 0.0 && values[k] == 0.0
    ensures DrawdownAt(values, k) == Some(PosInf) <==> RunningPeak(values, k) == 0.0 && values[k] < 0.0
    ensures RunningPeak(values, k) > 0.0 ==>
      DrawdownAt(values, k).Some? && DrawdownAt(values, k).value.Fin? && DrawdownAt(values, k).value.v >= 0.0
  {
    var peak := RunningPeak(values, k);
    assert values[k] <= peak;
    if peak > 0.0 {
      assert (peak - values[k]) / peak >= 0.0;
    }
  }

  /** The first value is its own peak: its drawdown is 0 unless it is 0 itself. */
  lemma FirstDrawdown(values: seq<real>)
    requires |values| > 0 && values[0] != 0.0
    ensures DrawdownAt(values, 0) == Some(Fin(0.0))
  {
    var v := values[0];
    assert RunningPeak(values, 0) == v;
    assert (v - v) / v == 0.0;
  }

  /**
   * What the `_max_drawdown` accumulator holds after the first `n` values:
   * it starts at 0.0 and takes each drawdown that compares greater, so a
   * NaN drawdown is never taken.
   */
  function WorstDrawdown(values: seq<real>, n: nat): Ext
    requires n <= |values|
  {
    if n == 0 then Fin(0.0)
    else
      var worst := WorstDrawdown(values, n - 1);
      var dd := DrawdownAt(values, n - 1);
      if dd.Some? && Less(worst, dd.value) then dd.value else worst
  }

  /** The drawdown column `(cummax - value) / cummax` of the first `n` values. */
  function Drawdowns(values: seq<real>, n: nat): (r: seq<Option<Ext>>)
    requires n <= |values|
    ensures |r| == n
  {
    if n == 0 then [] else Drawdowns(values, n - 1) + [DrawdownAt(values, n - 1)]
  }

  /** Entry `k` of the drawdown column is the drawdown at position `k`. */
  lemma {:induction false} DrawdownsAt(values: seq<real>, n: nat, k: nat)
    requires k < n <= |values|
    ensures Drawdowns(values, n)[k] == DrawdownAt(values, k)
  {
    if k < n - 1 {
      DrawdownsAt(values, n - 1, k);
    }
  }

  /**
   * `Series.max()`, which skips NaN: None (NaN) when every entry is NaN,
   * otherwise an entry that no other entry exceeds.
   */
  function NanMax(s: seq<Option<Ext>>): (r: Option<Ext>)
    ensures r.None? <==> forall i :: 0 <= i < |s| ==> s[i].None?
    ensures r.Some? ==> forall i :: 0 <= i < |s| && s[i].Some? ==> LessEq(s[i].value, r.value)
    ensures r.Some? ==> exists i :: 0 <= i < |s| && s[i] == r
  {
    if s == [] then None
    else
      var m := NanMax(s[..|s| - 1]);
      var last := s[|s| - 1];
      if last.None? then m
      else if m.None? then last
      else
        assert forall i :: 0 <= i < |s| - 1 ==> s[i] == s[..|s| - 1][i];
        Some(ExtMax(m.value, last.value))
  }

  /** Appending an entry: NaN leaves the maximum alone, a value competes with it. */
  lemma NanMaxAppend(t: seq<Option<Ext>>, x: Option<Ext>)
    ensures NanMax(t + [x]) ==
      if x.None? then NanMax(t)
      else if NanMax(t).None? then x
      else Some(ExtMax(NanMax(t).value, x.value))
  {
    assert (t + [x])[..|t|] == t;
  }

  /** A maximum over entries that are all at least `lo` is at least `lo`. */
  lemma NanMaxAtLeast(s: seq<Option<Ext>>, i: nat, lo: Ext)
    requires i < |s| && s[i] == Some(lo)
    ensures NanMax(s).Some? && LessEq(lo, NanMax(s).value)
  {
  }

  /** The vectorised maximum drawdown of `_calculate_performance`: `cummax`, divide, `max`. */
  function CumMaxDrawdown(values: seq<real>): Option<Ext> {
    NanMax(Drawdowns(values, |values|))
  }

  /**
   * The accumulator loop ends at the larger of 0.0 and the vectorised
   * maximum, and at 0.0 when every drawdown is NaN.
   */
  lemma {:induction false} DrawdownMatchesLoop(values: seq<real>, n: nat)
    requires n <= |values|
    ensures var m := NanMax(Drawdowns(values, n));
      WorstDrawdown(values, n) == if m.None? then Fin(0.0) else ExtMax(Fin(0.0), m.value)
  {
    if n > 0 {
      var t := Drawdowns(values, n - 1);
      var dd := DrawdownAt(values, n - 1);
      var w := WorstDrawdown(values, n - 1);
      var m := NanMax(t);
      assert w == if m.None? then Fin(0.0) else ExtMax(Fin(0.0), m.value) by {
        DrawdownMatchesLoop(values, n - 1);
      }
      assert WorstDrawdown(values, n) == if dd.Some? && Less(w, dd.value) then dd.value else w;
      assert NanMax(Drawdowns(values, n)) == if dd.None? then m else if m.None? then dd else Some(ExtMax(m.value, dd.value)) by {
        assert Drawdowns(values, n) == t + [dd];
        NanMaxAppend(t, dd);
      }
      LoopStepMatches(m, dd);
    }
  }

  /** One more entry keeps the loop at the larger of 0.0 and the running maximum. */
  lemma LoopStepMatches(m: Option<Ext>, dd: Option<Ext>)
    ensures var w := if m.None? then Fin(0.0) else ExtMax(Fin(0.0), m.value);
      var next := if dd.None? then m else if m.None? then dd else Some(ExtMax(m.value, dd.value));
      (if dd.Some? && Less(w, dd.value) then dd.value else w)
        == if next.None? then Fin(0.0) else ExtMax(Fin(0.0), next.value)
  {
    if m.Some? && dd.Some? {
      ExtMaxAssociative(Fin(0.0), m.value, dd.value);
    }
  }

  /** From a non-zero first value the loop and the vectorised maximum agree. */
  lemma LoopMatchesVectorised(values: seq<real>)
    requires |values| > 0 && values[0] != 0.0
    ensures CumMaxDrawdown(values) == Some(WorstDrawdown(values, |values|))
  {
    DrawdownMatchesLoop(values, |values|);
    var s := Drawdowns(values, |values|);
    FirstDrawdown(values);
    DrawdownsAt(values, |values|, 0);
    NanMaxAtLeast(s, 0, Fin(0.0));
  }

  /** The vectorised maximum drawdown, when it is not NaN, is never below 0. */
  lemma VectorisedDrawdownNonNegative(values: seq<real>)
    ensures CumMaxDrawdown(values).Some? ==> LessEq(Fin(0.0), CumMaxDrawdown(values).value)
  {
    var s := Drawdowns(values, |values|);
    var m := NanMax(s);
    if m.Some? {
      if values[0] != 0.0 {
        FirstDrawdown(values);
    DrawdownsAt(values, |values|, 0);
        NanMaxAtLeast(s, 0, Fin(0.0));
      } else {
        var i :| 0 <= i < |s| && s[i] == m;
        DrawdownsAt(values, |values|, i);
        DrawdownAtCases(values, i);
        assert RunningPeak(values, i) >= values[0];
      }
    }
  }

  /** The accumulator bounds every drawdown that is not NaN and is either 0.0 or one of them. */
  lemma {:induction false} WorstIsLargest(values: seq<real>, n: nat)
    requires n <= |values|
    ensures forall k :: 0 <= k < n && DrawdownAt(values, k).Some? ==> LessEq(DrawdownAt(values, k).value, WorstDrawdown(values, n))
    ensures LessEq(Fin(0.0), WorstDrawdown(values, n))
    ensures WorstDrawdown(values, n) == Fin(0.0) || exists k :: 0 <= k < n && DrawdownAt(values, k) == Some(WorstDrawdown(values, n))
  {
    if n > 0 {
      WorstIsLargest(values, n - 1);
      var w := WorstDrawdown(values, n - 1);
      var dd := DrawdownAt(values, n - 1);
      if dd.Some? {
        LessTotal(w, dd.value);
        if Less(w, dd.value) {
          forall k | 0 <= k < n - 1 && DrawdownAt(values, k).Some?
            ensures LessEq(DrawdownAt(values, k).value, dd.value)
          {
            if DrawdownAt(values, k).value != w {
              LessTransitive(DrawdownAt(values, k).value, w, dd.value);
            }
          }
          if w != Fin(0.0) {
            LessTransitive(Fin(0.0), w, dd.value);
          }
        }
      }
    }
  }

  /**
   * For positive values every running peak is positive and the worst
   * drawdown is a number in [0, 1): a fall from a positive peak to a
   * positive value loses less than everything.
   */
  lemma {:induction false} PositiveDrawdownBounds(values: seq<real>, n: nat)
    requires n <= |values| && forall i :: 0 <= i < |values| ==> values[i] > 0.0
    ensures WorstDrawdown(values, n).Fin? && 0.0 <= WorstDrawdown(values, n).v < 1.0
  {
    if n > 0 {
      PositiveDrawdownBounds(values, n - 1);
      var peak := RunningPeak(values, n - 1);
      assert peak >= values[0] > 0.0;
      FallFromPeak(peak, values[n - 1]);
      assert DrawdownAt(values, n - 1) == Some(Fin((peak - values[n - 1]) / peak));
    }
  }

  lemma FallFromPeak(peak: real, value: real)
    requires peak >= value > 0.0
    ensures 0.0 <= (peak - value) / peak < 1.0
  {
    assert 0.0 <= peak - value < peak;
  }

  /** `[100, 120, 90, 130]` falls from the peak 120 to 90: a drawdown of 0.25 by either computation. */
  lemma DrawdownExample()
    ensures WorstDrawdown([100.0, 120.0, 90.0, 130.0], 4) == Fin(0.25)
    ensures CumMaxDrawdown([100.0, 120.0, 90.0, 130.0]) == Some(Fin(0.25))
  {
    var v := [100.0, 120.0, 90.0, 130.0];
    assert RunningPeak(v, 0) == 100.0;
    assert RunningPeak(v, 1) == 120.0;
    assert RunningPeak(v, 2) == 120.0;
    assert RunningPeak(v, 3) == 130.0;
    assert DrawdownAt(v, 2) == Some(Fin(0.25));
    LoopMatchesVectorised(v);
  }

  /**
   * Zero peaks: `[0, 100]` gives NaN then 0, so the maximum is 0;
   * `[0, -5]` gives NaN then +inf; `[0, 0]` gives only NaN, which the
   * vectorised maximum reports and the loop skips, ending at 0.0.
   */
  lemma ZeroPeakDrawdowns()
    ensures CumMaxDrawdown([0.0, 100.0]) == Some(Fin(0.0))
    ensures CumMaxDrawdown([0.0, -5.0]) == Some(PosInf)
    ensures CumMaxDrawdown([0.0, 0.0]).None? && WorstDrawdown([0.0, 0.0], 2) == Fin(0.0)
  {
    var a := [0.0, 100.0];
    assert RunningPeak(a, 1) == 100.0;
    assert Drawdowns(a, 2) == [None, Some(Fin(0.0))];
    var b := [0.0, -5.0];
    assert RunningPeak(b, 1) == 0.0;
    assert Drawdowns(b, 2) == [None, Some(PosInf)];
    var c := [0.0, 0.0];
    assert Drawdowns(c, 2) == [None, None];
  }

  /**
   * `_max_drawdown` on float64 values: start the peak at the first value
   * and the maximum at 0.0, then for each value raise the peak, divide, and
   * keep the drawdown when it compares greater.
   */
  method MaxDrawdownLoop(values: seq<real>) returns (r: Ext)
    requires |values| > 0
    ensures r == WorstDrawdown(values, |values|)
    ensures LessEq(Fin(0.0), r)
  {
    var peak := values[0];
    var maxDd := Fin(0.0);
    var i := 0;
    while i < |values|
      invariant 0 <= i <= |values|
      invariant i == 0 ==> peak == values[0]
      invariant i > 0 ==> peak == RunningPeak(values, i - 1)
      invariant maxDd == WorstDrawdown(values, i)
    {
      var v := values[i];
      if v > peak {
        peak := v;
      }
      assert peak == RunningPeak(values, i);
      var dd := FloatDiv(peak - v, peak);
      if dd.Some? && Less(maxDd, dd.value) {
        maxDd := dd.value;
      }
      i := i + 1;
    }
    WorstIsLargest(values, |values|);
    return maxDd;
  }

  /**
   * The annualized return `(1 + total) ** (365 / days) - 1`, kept symbolic
   * (the total may be NaN or infinite where a summary divides unguarded):
   * `NoSpan` is the 0.0 reported when the dates span no day.
   */
  datatype Growth = NoSpan | Compounded(totalReturn: Option<Ext>, days: int)

  // ---------------------------------------------------------------------------
  // Sharpe ratio with population deviation

  /**
   * The value of a Sharpe ratio: 0.0, NaN, or `mean / sqrt(variance)` for a
   * positive variance (the square root itself is not computed).
   */
  datatype Sharpe = SharpeZero | NotANumber | MeanOverDeviation(mean: real, variance: real)

  predicate NoZeroBefore(values: seq<real>, n: nat)
    requires n <= |values|
  {
    forall i :: 0 <= i < n ==> values[i] != 0.0
  }

  /** The growth from one value to the next, relative to the first. */
  function SimpleReturn(prev: real, cur: real): real
    requires prev != 0.0
  {
    (cur - prev) / prev
  }

  /** The simple returns `(v[i] - v[i-1]) / v[i-1]` of the first `n` values. */
  function Returns(values: seq<real>, n: nat): (r: seq<real>)
    requires 0 < n <= |values| && NoZeroBefore(values, n - 1)
    ensures |r| == n - 1
    ensures forall i :: 1 <= i < n ==> r[i - 1] == SimpleReturn(values[i - 1], values[i])
  {
    if n == 1 then [] else Returns(values, n - 1) + [SimpleReturn(values[n - 2], values[n - 1])]
  }

  function Sum(s: seq<real>): real {
    if s == [] then 0.0 else Sum(s[..|s| - 1]) + s[|s| - 1]
  }

  function SquaredDeviations(s: seq<real>, mean: real): real {
    if s == [] then 0.0 else SquaredDeviations(s[..|s| - 1], mean) + (s[|s| - 1] - mean) * (s[|s| - 1] - mean)
  }

  lemma {:induction false} SquaredDeviationsNonNegative(s: seq<real>, mean: real)
    ensures SquaredDeviations(s, mean) >= 0.0
  {
    if s != [] {
      SquaredDeviationsNonNegative(s[..|s| - 1], mean);
      SquareNonNegative(s[|s| - 1] - mean);
    }
  }

  lemma SquareNonNegative(x: real)
    ensures x * x >= 0.0
  {
    if x < 0.0 {
      assert x * x == (-x) * (-x);
    }
  }

  /** No returns, or a zero deviation, give 0.0; otherwise mean over deviation. */
  function SharpeOf(rets: seq<real>): (r: Sharpe)
    ensures r.MeanOverDeviation? ==> r.variance > 0.0
  {
    if rets == [] then SharpeZero
    else
      var mean := Sum(rets) / |rets| as real;
      var variance := SquaredDeviations(rets, mean) / |rets| as real;
      SquaredDeviationsNonNegative(rets, mean);
      if variance == 0.0 then SharpeZero else MeanOverDeviation(mean, variance)
  }

  /**
   * What `_sharpe_ratio` returns on float64 values: 0.0 without returns;
   * NaN once a return divides by a zero value, because an infinite or NaN
   * return makes the mean infinite or NaN and every squared deviation from
   * it NaN; otherwise the ratio of the finite returns.
   */
  function SimpleSharpe(values: seq<real>): Sharpe {
    if |values| < 2 then SharpeZero
    else if !NoZeroBefore(values, |values| - 1) then NotANumber
    else SharpeOf(Returns(values, |values|))
  }

  /**
   * `_sharpe_ratio`: build the list of simple returns, then average them and
   * take their population deviation. The model keeps the finite returns
   * and notes whether a division by a zero value produced another one.
   */
  method SharpeRatio(values: seq<real>) returns (r: Sharpe)
    ensures r == SimpleSharpe(values)
    ensures r == NotANumber <==> |values| >= 2 && exists i :: 0 <= i < |values| - 1 && values[i] == 0.0
  {
    var rets: seq<real> := [];
    var finite := true;
    var i := 1;
    while i < |values|
      invariant 1 <= i <= |values| || (|values| == 0 && i == 1)
      invariant |values| > 0 ==> (finite <==> NoZeroBefore(values, i - 1))
      invariant |values| > 0 && finite ==> rets == Returns(values, i)
    {
      var ret := FloatDiv(values[i] - values[i - 1], values[i - 1]);
      if ret.Some? && ret.value.Fin? {
        rets := rets + [ret.value.v];
      } else {
        finite := false;
      }
      i := i + 1;
    }
    if |values| < 2 {
      return SharpeZero;
    }
    if !finite {
      return NotANumber;
    }
    var mean := Sum(rets) / |rets| as real;
    var variance := SquaredDeviations(rets, mean) / |rets| as real;
    if variance == 0.0 {
      return SharpeZero;
    }
    return MeanOverDeviation(mean, variance);
  }

  lemma {:induction false} SumOfConstant(s: seq<real>, c: real)
    requires forall i :: 0 <= i < |s| ==> s[i] == c
    ensures Sum(s) == |s| as real * c
  {
    if s != [] {
      var init := s[..|s| - 1];
      assert forall i :: 0 <= i < |init| ==> init[i] == s[i];
      SumOfConstant(init, c);
      assert Sum(s) == |init| as real * c + c;
      OneMore(|init|, c);
    }
  }

  lemma OneMore(n: nat, c: real)
    ensures (n + 1) as real * c == n as real * c + c
  {
  }

  lemma {:induction false} NoDeviationFromConstant(s: seq<real>, c: real)
    requires forall i :: 0 <= i < |s| ==> s[i] == c
    ensures SquaredDeviations(s, c) == 0.0
  {
    if s != [] {
      var init := s[..|s| - 1];
      assert forall i :: 0 <= i < |init| ==> init[i] == s[i];
      NoDeviationFromConstant(init, c);
    }
  }

  /** A series that grows by the same rate every bar has no deviation, so its Sharpe ratio is 0. */
  lemma ConstantReturnsGiveZero(rets: seq<real>, c: real)
    requires forall i :: 0 <= i < |rets| ==> rets[i] == c
    ensures SharpeOf(rets) == SharpeZero
  {
    if rets != [] {
      SumOfConstant(rets, c);
      NoDeviationFromConstant(rets, c);
      assert Sum(rets) / |rets| as real == c;
    }
  }
}
