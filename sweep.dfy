/**
 * The parameter sweeps of the optimisation scripts: enumerate the Cartesian
 * product of a grid in `itertools.product` order, evaluate each
 * combination (a failure becomes a sentinel record), and pick the best
 * record.
 *
 * The indicator computation and the backtest itself are outside the model:
 * they are passed in as functions that either produce a result or fail.
 */
module Sweep {
  import opened Common
  import opened IndicatorCache

  // ---------------------------------------------------------------------------
  // The grid and its product

  /** A parameter grid: names in dictionary order, each with its candidate values. */
  type Grid = seq<(string, seq<Value>)>

  function Names(grid: Grid): (r: seq<string>)
    ensures |r| == |grid| && forall i :: 0 <= i < |grid| ==> r[i] == grid[i].0
  {
    seq(|grid|, i requires 0 <= i < |grid| => grid[i].0)
  }

  function Candidates(grid: Grid): (r: seq<seq<Value>>)
    ensures |r| == |grid| && forall i :: 0 <= i < |grid| ==> r[i] == grid[i].1
  {
    seq(|grid|, i requires 0 <= i < |grid| => grid[i].1)
  }

  /** Every tail, with `x` in front. */
  function Prepend(x: Value, tails: seq<seq<Value>>): (r: seq<seq<Value>>)
    ensures |r| == |tails| && forall j :: 0 <= j < |tails| ==> r[j] == [x] + tails[j]
  {
    seq(|tails|, j requires 0 <= j < |tails| => [x] + tails[j])
  }

  /** For each head in order, every tail in order: the first position varies slowest. */
  function Spread(heads: seq<Value>, tails: seq<seq<Value>>): seq<seq<Value>>
  {
    if heads == [] then [] else Prepend(heads[0], tails) + Spread(heads[1..], tails)
  }

  /** `itertools.product(*lists)`. */
  function Product(lists: seq<seq<Value>>): seq<seq<Value>>
  {
    if lists == [] then [[]] else Spread(lists[0], Product(lists[1..]))
  }

  /** `math.prod(len(v) for v in lists)`. */
  function CountOf(lists: seq<seq<Value>>): nat
  {
    if lists == [] then 1 else |lists[0]| * CountOf(lists[1..])
  }

  /** Block `i` of width `t` ends before block `h` starts. */
  lemma BlockBound(i: nat, j: nat, h: nat, t: nat)
    requires i < h && j < t
    ensures i * t + j < h * t
  {
    var d := h - i;
    assert h * t == i * t + d * t;
    assert d * t >= t by {
      assert d >= 1;
    }
  }

  lemma {:induction false} SpreadLength(heads: seq<Value>, tails: seq<seq<Value>>)
    ensures |Spread(heads, tails)| == |heads| * |tails|
  {
    if heads != [] {
      SpreadLength(heads[1..], tails);
      assert |heads| * |tails| == |tails| + (|heads| - 1) * |tails|;
    }
  }

  lemma {:induction false} SpreadIndex(heads: seq<Value>, tails: seq<seq<Value>>, i: nat, j: nat)
    requires i < |heads| && j < |tails|
    ensures i * |tails| + j < |Spread(heads, tails)|
    ensures Spread(heads, tails)[i * |tails| + j] == [heads[i]] + tails[j]
  {
    SpreadLength(heads, tails);
    BlockBound(i, j, |heads|, |tails|);
    if i > 0 {
      SpreadIndex(heads[1..], tails, i - 1, j);
      assert i * |tails| + j == |tails| + ((i - 1) * |tails| + j);
      assert heads[1..][i - 1] == heads[i];
    }
  }

  /** The product has as many combinations as the product of the list lengths. */
  lemma {:induction false} ProductCount(lists: seq<seq<Value>>)
    ensures |Product(lists)| == CountOf(lists)
  {
    if lists != [] {
      ProductCount(lists[1..]);
      SpreadLength(lists[0], Product(lists[1..]));
    }
  }

  /** Position `j` of block `i` when the blocks are `width` long. */
  function Offset(i: nat, width: nat, j: nat): nat {
    i * width + j
  }

  /**
   * The combinations come in `itertools.product` order: the one at
   * `i * |rest| + j` is the `i`-th first value in front of the `j`-th
   * combination of the remaining lists.
   */
  lemma ProductOrder(lists: seq<seq<Value>>, i: nat, j: nat)
    requires lists != [] && i < |lists[0]| && j < |Product(lists[1..])|
    ensures var k := Offset(i, |Product(lists[1..])|, j);
      k < |Product(lists)| && Product(lists)[k] == [lists[0][i]] + Product(lists[1..])[j]
  {
    SpreadIndex(lists[0], Product(lists[1..]), i, j);
  }

  lemma {:induction false} SpreadMembers(heads: seq<Value>, tails: seq<seq<Value>>, c: seq<Value>)
    ensures c in Spread(heads, tails) <==> |c| > 0 && c[0] in heads && c[1..] in tails
  {
    if heads != [] {
      SpreadMembers(heads[1..], tails, c);
      if c in Prepend(heads[0], tails) {
        var j :| 0 <= j < |tails| && c == [heads[0]] + tails[j];
        assert c[1..] == tails[j];
      }
      if |c| > 0 && c[0] == heads[0] && c[1..] in tails {
        var j :| 0 <= j < |tails| && c[1..] == tails[j];
        assert c == [heads[0]] + tails[j];
        assert Prepend(heads[0], tails)[j] == c;
      }
    }
  }

  /** A sequence is a combination of the product exactly when it picks one candidate from each list. */
  lemma {:induction false} ProductMembers(lists: seq<seq<Value>>, c: seq<Value>)
    ensures c in Product(lists) <==> |c| == |lists| && forall k :: 0 <= k < |lists| ==> c[k] in lists[k]
  {
    if lists == [] {
    } else {
      SpreadMembers(lists[0], Product(lists[1..]), c);
      if |c| > 0 {
        ProductMembers(lists[1..], c[1..]);
        if |c| == |lists| && forall k :: 0 <= k < |lists| ==> c[k] in lists[k] {
          forall k | 0 <= k < |lists[1..]|
            ensures c[1..][k] in lists[1..][k]
          {
            assert c[k + 1] in lists[k + 1];
          }
        }
        if c in Product(lists) {
          forall k | 0 <= k < |lists|
            ensures c[k] in lists[k]
          {
            if k > 0 {
              assert c[1..][k - 1] in lists[1..][k - 1];
            }
          }
        }
      }
    }
  }

  /** No value twice in a list. */
  predicate Distinct<T(==)>(s: seq<T>) {
    forall i, j :: 0 <= i < j < |s| ==> s[i] != s[j]
  }

  lemma {:induction false} SpreadDistinct(heads: seq<Value>, tails: seq<seq<Value>>)
    requires Distinct(heads) && Distinct(tails)
    ensures Distinct(Spread(heads, tails))
  {
    if heads != [] {
      SpreadDistinct(heads[1..], tails);
      var front := Prepend(heads[0], tails);
      var rest := Spread(heads[1..], tails);
      forall i, j | 0 <= i < j < |front + rest|
        ensures (front + rest)[i] != (front + rest)[j]
      {
        if j < |front| {
          assert front[i][1..] == tails[i] && front[j][1..] == tails[j];
        } else if i < |front| {
          var c := (front + rest)[j];
          assert c in rest;
          SpreadMembers(heads[1..], tails, c);
          var k :| 0 <= k < |heads[1..]| && heads[1..][k] == c[0];
          assert heads[k + 1] == c[0];
        }
      }
    }
  }

  /** When no candidate list repeats a value, every combination is enumerated exactly once. */
  lemma {:induction false} ProductDistinct(lists: seq<seq<Value>>)
    requires forall k :: 0 <= k < |lists| ==> Distinct(lists[k])
    ensures Distinct(Product(lists))
  {
    if lists != [] {
      ProductDistinct(lists[1..]);
      SpreadDistinct(lists[0], Product(lists[1..]));
    }
  }

  /** `dict(zip(keys, combination))`: pairs up to the shorter length, a later key overriding an earlier one. */
  function Zip(keys: seq<string>, values: seq<Value>): Params
  {
    if keys == [] || values == [] then map[]
    else
      var n := if |keys| < |values| then |keys| else |values|;
      Zip(keys[..n - 1], values[..n - 1])[keys[n - 1] := values[n - 1]]
  }

  /** One value per name: the dictionary has exactly the names as keys. */
  lemma {:induction false} ZipKeys(keys: seq<string>, values: seq<Value>)
    requires |keys| == |values|
    ensures Zip(keys, values).Keys == set k | k in keys
  {
    if keys != [] {
      var n := |keys|;
      var front := keys[..n - 1];
      ZipKeys(front, values[..n - 1]);
      assert keys == front + [keys[n - 1]];
    }
  }

  /** The front of a sequence without repeats has none either. */
  lemma DistinctFront<T>(s: seq<T>, n: nat)
    requires n <= |s| && Distinct(s)
    ensures Distinct(s[..n])
  {
    forall i, j | 0 <= i < j < n ensures s[..n][i] != s[..n][j] {
      assert s[..n][i] == s[i] && s[..n][j] == s[j];
    }
  }

  /** With distinct names, each name maps to the value in its own position. */
  lemma {:induction false} ZipValues(keys: seq<string>, values: seq<Value>)
    requires |keys| == |values| && Distinct(keys)
    ensures forall i :: 0 <= i < |keys| ==> keys[i] in Zip(keys, values) && Zip(keys, values)[keys[i]] == values[i]
  {
    if keys != [] {
      var n := |keys|;
      var front := keys[..n - 1];
      DistinctFront(keys, n - 1);
      ZipValues(front, values[..n - 1]);
      var m := Zip(front, values[..n - 1]);
      assert Zip(keys, values) == m[keys[n - 1] := values[n - 1]];
      forall i | 0 <= i < n - 1
        ensures keys[i] in Zip(keys, values) && Zip(keys, values)[keys[i]] == values[i]
      {
        assert front[i] == keys[i] && values[..n - 1][i] == values[i];
        assert keys[i] != keys[n - 1];
      }
    }
  }

  /** With distinct names and one value per name, each name maps to its own value. */
  lemma ZipLookup(keys: seq<string>, values: seq<Value>)
    requires |keys| == |values| && Distinct(keys)
    ensures Zip(keys, values).Keys == set k | k in keys
    ensures forall i :: 0 <= i < |keys| ==> Zip(keys, values)[keys[i]] == values[i]
  {
    ZipKeys(keys, values);
    ZipValues(keys, values);
  }

  /** The parameter dictionaries of the sweep, in enumeration order. */
  function Combinations(grid: Grid): (r: seq<Params>)
    ensures |r| == |Product(Candidates(grid))|
  {
    var combos := Product(Candidates(grid));
    seq(|combos|, i requires 0 <= i < |combos| => Zip(Names(grid), combos[i]))
  }

  // ---------------------------------------------------------------------------
  // Evaluating one combination

  /** What the backtest reports for one combination. */
  datatype RunMetrics = RunMetrics(
    sharpe: real, totalReturn: real, maxDrawdown: real, annualized: real, strategyScore: real, nTrades: nat)

  /** Where an evaluation raised. */
  datatype Failure = IndicatorFailure | CacheFailure(cause: UpdateError) | BacktestFailure

  /** A result row of the sweep. */
  datatype Record = Record(
    params: Params, sharpe: Ext, totalReturn: Ext, maxDrawdown: Ext, annualized: Ext,
    nTrades: nat, strategyScore: Ext, error: Option<Failure>)

  /** The row of an evaluation that raised: score 0, no trades, the worst value for every metric. */
  function Sentinel(p: Params, f: Failure): (r: Record)
    ensures r.strategyScore == Fin(0.0) && r.nTrades == 0 && r.error == Some(f) && r.params == p
    ensures r.sharpe == NegInf && r.totalReturn == NegInf && r.annualized == NegInf && r.maxDrawdown == PosInf
  {
    Record(p, NegInf, NegInf, PosInf, NegInf, 0, Fin(0.0), Some(f))
  }

  function Evaluated(p: Params, m: RunMetrics): Record {
    Record(p, Fin(m.sharpe), Fin(m.totalReturn), Fin(m.maxDrawdown), Fin(m.annualized), m.nTrades, Fin(m.strategyScore), None)
  }

  /** The starting best record of the profiling sweep: empty params and a score of minus infinity. */
  function Initial(): Record {
    Record(map[], NegInf, NegInf, PosInf, NegInf, 0, NegInf, None)
  }

  /** The indicator computation, given the cache: the enriched data, or None when it raises. */
  type Indicators = (Params, Entries) -> Option<Data>

  /** The strategy and the backtest on enriched data: the metrics, or None when they raise. */
  type Backtest = (Params, Data) -> Option<RunMetrics>

  /**
   * `backtest_wrapper` with a cache: compute the indicators, update the
   * cache, run the backtest; any exception gives the sentinel, and the
   * cache keeps whatever the update wrote.
   */
  function CachedEval(p: Params, c: Entries, indicators: Indicators, backtest: Backtest, v: CacheVariant): (Record, Entries)
  {
    match indicators(p, c)
    case None => (Sentinel(p, IndicatorFailure), c)
    case Some(data) =>
      var o := Exec(c, data, Plan(p, v));
      if o.error.Some? then (Sentinel(p, CacheFailure(o.error.value)), o.cache)
      else match backtest(p, data)
        case None => (Sentinel(p, BacktestFailure), o.cache)
        case Some(m) => (Evaluated(p, m), o.cache)
  }

  /** Every row carries its own params, and a row has an error exactly when it is the sentinel. */
  lemma CachedEvalRow(p: Params, c: Entries, indicators: Indicators, backtest: Backtest, v: CacheVariant)
    ensures var r := CachedEval(p, c, indicators, backtest, v).0;
      && r.params == p
      && r.strategyScore.Fin?
      && (r.error.Some? ==> r == Sentinel(p, r.error.value))
      && (r.error.None? ==> exists m :: r == Evaluated(p, m))
  {
    match indicators(p, c) {
      case None =>
      case Some(data) =>
        var o := Exec(c, data, Plan(p, v));
        if o.error.None? && backtest(p, data).Some? {
          assert CachedEval(p, c, indicators, backtest, v).0 == Evaluated(p, backtest(p, data).value);
        }
    }
  }

  /** The cache threaded through an evaluation only grows. */
  lemma CachedEvalGrowsCache(p: Params, c: Entries, indicators: Indicators, backtest: Backtest, v: CacheVariant)
    ensures c.Keys <= CachedEval(p, c, indicators, backtest, v).1.Keys
  {
    if indicators(p, c).Some? {
      KeysOnlyGrow(c, indicators(p, c).value, Plan(p, v));
    }
  }

  method CachedWrapper(p: Params, indicators: Indicators, backtest: Backtest, v: CacheVariant, cache: Cache)
    returns (r: Record)
    modifies cache
    ensures (r, cache.entries) == CachedEval(p, old(cache.entries), indicators, backtest, v)
  {
    var data := indicators(p, cache.entries);
    if data.None? {
      return Sentinel(p, IndicatorFailure);
    }
    var error := cache.Update(data.value, p, v);
    if error.Some? {
      return Sentinel(p, CacheFailure(error.value));
    }
    var metrics := backtest(p, data.value);
    if metrics.None? {
      return Sentinel(p, BacktestFailure);
    }
    return Evaluated(p, metrics.value);
  }

  /** The rows of a sequential sweep, with the cache threaded from each call to the next. */
  function Rows(ps: seq<Params>, c: Entries, indicators: Indicators, backtest: Backtest, v: CacheVariant): (seq<Record>, Entries)
  {
    if ps == [] then ([], c)
    else
      var before := Rows(ps[..|ps| - 1], c, indicators, backtest, v);
      var last := CachedEval(ps[|ps| - 1], before.1, indicators, backtest, v);
      (before.0 + [last.0], last.1)
  }

  /** One more combination appends its row and hands on its cache. */
  lemma RowsNext(ps: seq<Params>, i: nat, c: Entries, indicators: Indicators, backtest: Backtest, v: CacheVariant)
    requires i < |ps|
    ensures var before := Rows(ps[..i], c, indicators, backtest, v);
      var last := CachedEval(ps[i], before.1, indicators, backtest, v);
      Rows(ps[..i + 1], c, indicators, backtest, v) == (before.0 + [last.0], last.1)
  {
    assert ps[..i + 1][..i] == ps[..i];
    assert ps[..i + 1][i] == ps[i];
  }

  /** One more combination replaces the best row only when its score is strictly higher. */
  lemma BestOfNext(ps: seq<Params>, i: nat, c: Entries, indicators: Indicators, backtest: Backtest, v: CacheVariant)
    requires i < |ps|
    ensures var before := Rows(ps[..i], c, indicators, backtest, v);
      var last := CachedEval(ps[i], before.1, indicators, backtest, v).0;
      var best := BestOf(before.0);
      BestOf(Rows(ps[..i + 1], c, indicators, backtest, v).0) ==
        if Less(best.strategyScore, last.strategyScore) then last else best
  {
    RowsNext(ps, i, c, indicators, backtest, v);
    var before := Rows(ps[..i], c, indicators, backtest, v).0;
    var rows := Rows(ps[..i + 1], c, indicators, backtest, v).0;
    assert rows[..|rows| - 1] == before;
  }

  /** One row per combination, in order, each carrying its combination's params. */
  lemma {:induction false} RowsFollowCombinations(ps: seq<Params>, c: Entries, indicators: Indicators, backtest: Backtest, v: CacheVariant)
    ensures |Rows(ps, c, indicators, backtest, v).0| == |ps|
    ensures forall i :: 0 <= i < |ps| ==> Rows(ps, c, indicators, backtest, v).0[i].params == ps[i]
    ensures forall i :: 0 <= i < |ps| ==> Rows(ps, c, indicators, backtest, v).0[i].strategyScore.Fin?
  {
    if ps != [] {
      var n := |ps|;
      RowsFollowCombinations(ps[..n - 1], c, indicators, backtest, v);
      var before := Rows(ps[..n - 1], c, indicators, backtest, v);
      CachedEvalRow(ps[n - 1], before.1, indicators, backtest, v);
      var rows := Rows(ps, c, indicators, backtest, v).0;
      assert rows == before.0 + [CachedEval(ps[n - 1], before.1, indicators, backtest, v).0];
      forall i | 0 <= i < n
        ensures rows[i].params == ps[i] && rows[i].strategyScore.Fin?
      {
        if i < n - 1 {
          assert rows[i] == before.0[i] && ps[..n - 1][i] == ps[i];
        }
      }
    }
  }

  // ---------------------------------------------------------------------------
  // The best-score reduction of the profiling sweep

  /** Row `k` has a maximal score and every earlier row a strictly smaller one. */
  predicate FirstMaximumAt(rows: seq<Record>, k: int) {
    && 0 <= k < |rows|
    && (forall j :: 0 <= j < |rows| ==> LessEq(rows[j].strategyScore, rows[k].strategyScore))
    && (forall j :: 0 <= j < k ==> Less(rows[j].strategyScore, rows[k].strategyScore))
  }

  /** The loop `if result['strategy_score'] > best['strategy_score']: best = result` over the rows. */
  function BestOf(rows: seq<Record>): Record
  {
    if rows == [] then Initial()
    else
      var best := BestOf(rows[..|rows| - 1]);
      if Less(best.strategyScore, rows[|rows| - 1].strategyScore) then rows[|rows| - 1] else best
  }

  /**
   * On rows with finite scores the reduction returns a row whose score is
   * maximal and which comes before every other row with that score; it
   * returns the initial record exactly when there are no rows.
   */
  lemma {:induction false} BestIsFirstMaximum(rows: seq<Record>)
    requires forall i :: 0 <= i < |rows| ==> rows[i].strategyScore.Fin?
    ensures rows == [] <==> BestOf(rows) == Initial()
    ensures rows != [] ==> exists k :: FirstMaximumAt(rows, k) && rows[k] == BestOf(rows)
  {
    if rows != [] {
      var n := |rows|;
      var front := rows[..n - 1];
      assert rows == front + [rows[n - 1]];
      BestIsFirstMaximum(front);
      if front == [] {
        assert Less(NegInf, rows[0].strategyScore);
        assert FirstMaximumAt(rows, 0);
      } else {
        var k :| FirstMaximumAt(front, k) && front[k] == BestOf(front);
        ExtendFirstMaximum(front, rows[n - 1], k);
      }
    }
  }

  /** Appending a row keeps the first maximum, unless the new row scores strictly higher. */
  lemma ExtendFirstMaximum(front: seq<Record>, last: Record, k: int)
    requires FirstMaximumAt(front, k)
    ensures Less(front[k].strategyScore, last.strategyScore) ==> FirstMaximumAt(front + [last], |front|)
    ensures !Less(front[k].strategyScore, last.strategyScore) ==> FirstMaximumAt(front + [last], k)
  {
    var rows := front + [last];
    var top := front[k].strategyScore;
    LessTotal(top, last.strategyScore);
    forall j | 0 <= j < |front|
      ensures rows[j] == front[j]
      ensures Less(top, last.strategyScore) ==> Less(rows[j].strategyScore, last.strategyScore)
    {
      if Less(top, last.strategyScore) && Less(front[j].strategyScore, top) {
        LessTransitive(front[j].strategyScore, top, last.strategyScore);
      }
    }
  }

  /** When every evaluation failed, every row scores 0 and the first failure is returned. */
  lemma AllFailuresReturnFirst(rows: seq<Record>)
    requires rows != [] && forall i :: 0 <= i < |rows| ==> rows[i].strategyScore == Fin(0.0)
    ensures BestOf(rows) == rows[0]
  {
    BestIsFirstMaximum(rows);
    var k :| FirstMaximumAt(rows, k) && rows[k] == BestOf(rows);
    assert !Less(rows[0].strategyScore, rows[k].strategyScore);
  }

  /**
   * `optimize_parameters_parallel` of the profiling script: a fresh cache,
   * every combination evaluated in product order, and the best record kept
   * on a strictly greater score.
   */
  method ProfileSweep(grid: Grid, indicators: Indicators, backtest: Backtest) returns (best: Record)
    ensures best == BestOf(Rows(Combinations(grid), map[], indicators, backtest, WithDailyReturn).0)
  {
    var combos := Product(Candidates(grid));
    var names := Names(grid);
    ghost var ps := Combinations(grid);
    var cache := new Cache();
    best := Initial();
    var i := 0;
    while i < |combos|
      invariant 0 <= i <= |combos|
      invariant (best == BestOf(Rows(ps[..i], map[], indicators, backtest, WithDailyReturn).0))
      invariant cache.entries == Rows(ps[..i], map[], indicators, backtest, WithDailyReturn).1
    {
      var params := Zip(names, combos[i]);
      assert ps[i] == params;
      RowsNext(ps, i, map[], indicators, backtest, WithDailyReturn);
      BestOfNext(ps, i, map[], indicators, backtest, WithDailyReturn);
      var result := CachedWrapper(params, indicators, backtest, WithDailyReturn, cache);
      if Less(best.strategyScore, result.strategyScore) {
        best := result;
      }
      i := i + 1;
    }
    assert ps[..i] == ps;
  }

  /** An empty candidate list makes the product empty, and the initial record comes back. */
  lemma EmptyCandidatesKeepInitial(grid: Grid, k: nat, indicators: Indicators, backtest: Backtest)
    requires k < |grid| && grid[k].1 == []
    ensures BestOf(Rows(Combinations(grid), map[], indicators, backtest, WithDailyReturn).0) == Initial()
  {
    ProductCount(Candidates(grid));
    EmptyListEmptyCount(Candidates(grid), k);
    RowsFollowCombinations(Combinations(grid), map[], indicators, backtest, WithDailyReturn);
  }

  lemma {:induction false} EmptyListEmptyCount(lists: seq<seq<Value>>, k: nat)
    requires k < |lists| && lists[k] == []
    ensures CountOf(lists) == 0
  {
    if k > 0 {
      EmptyListEmptyCount(lists[1..], k - 1);
    }
  }

  // ---------------------------------------------------------------------------
  // The sequential sweep of the crypto script, and the best rows

  /** `optimize_parameters_parallel` of the crypto script: one row per combination, the cache threaded through. */
  method CryptoSweep(grid: Grid, indicators: Indicators, backtest: Backtest) returns (results: seq<Record>)
    ensures results == Rows(Combinations(grid), map[], indicators, backtest, WithoutDailyReturn).0
  {
    var combos := Product(Candidates(grid));
    var names := Names(grid);
    ghost var ps := Combinations(grid);
    var cache := new Cache();
    results := [];
    var i := 0;
    while i < |combos|
      invariant 0 <= i <= |combos|
      invariant results == Rows(ps[..i], map[], indicators, backtest, WithoutDailyReturn).0
      invariant cache.entries == Rows(ps[..i], map[], indicators, backtest, WithoutDailyReturn).1
    {
      var params := Zip(names, combos[i]);
      assert ps[i] == params;
      RowsNext(ps, i, map[], indicators, backtest, WithoutDailyReturn);
      var result := CachedWrapper(params, indicators, backtest, WithoutDailyReturn, cache);
      results := results + [result];
      i := i + 1;
    }
    assert ps[..i] == ps;
  }

  /** Which end of a column `idxmax` / `idxmin` looks for. */
  datatype Direction = Largest | Smallest

  predicate Beats(dir: Direction, a: Ext, b: Ext) {
    if dir == Largest then Less(b, a) else Less(a, b)
  }

  /** `idxmax` / `idxmin`: the first position holding the extreme value; None on an empty column. */
  function FirstExtreme(xs: seq<Ext>, dir: Direction): (r: Option<nat>)
    ensures r.Some? <==> xs != []
    ensures r.Some? ==> r.value < |xs|
  {
    if xs == [] then None
    else
      var rest := FirstExtreme(xs[..|xs| - 1], dir);
      if rest.None? || Beats(dir, xs[|xs| - 1], xs[rest.value]) then Some(|xs| - 1) else rest
  }

  /** The position found holds a value no other position beats, and every earlier position holds a worse one. */
  lemma {:induction false} FirstExtremeIsFirst(xs: seq<Ext>, dir: Direction)
    requires xs != []
    ensures var k := FirstExtreme(xs, dir).value;
      && (forall j :: 0 <= j < |xs| ==> !Beats(dir, xs[j], xs[k]))
      && (forall j :: 0 <= j < k ==> Beats(dir, xs[k], xs[j]))
  {
    var n := |xs|;
    var front := xs[..n - 1];
    if front != [] {
      FirstExtremeIsFirst(front, dir);
      var k0 := FirstExtreme(front, dir).value;
      assert forall j :: 0 <= j < n - 1 ==> xs[j] == front[j];
      if Beats(dir, xs[n - 1], xs[k0]) {
        LastTakesOver(xs, dir, k0);
      } else {
        LessTotal(xs[n - 1], xs[k0]);
      }
    }
  }

  /** A last value beating the front's extreme beats the whole front. */
  lemma LastTakesOver(xs: seq<Ext>, dir: Direction, k0: nat)
    requires k0 < |xs| - 1
    requires forall j :: 0 <= j < |xs| - 1 ==> !Beats(dir, xs[j], xs[k0])
    requires Beats(dir, xs[|xs| - 1], xs[k0])
    ensures forall j :: 0 <= j < |xs| ==> !Beats(dir, xs[j], xs[|xs| - 1])
    ensures forall j :: 0 <= j < |xs| - 1 ==> Beats(dir, xs[|xs| - 1], xs[j])
  {
    var n := |xs|;
    forall j | 0 <= j < n - 1
      ensures Beats(dir, xs[n - 1], xs[j])
    {
      LessTotal(xs[j], xs[k0]);
      if dir == Largest {
        if Less(xs[j], xs[k0]) {
          LessTransitive(xs[j], xs[k0], xs[n - 1]);
        }
      } else {
        if Less(xs[k0], xs[j]) {
          LessTransitive(xs[n - 1], xs[k0], xs[j]);
        }
      }
    }
    forall j | 0 <= j < n
      ensures !Beats(dir, xs[j], xs[n - 1])
    {
      LessTotal(xs[j], xs[n - 1]);
    }
  }

  function ScoreColumn(rows: seq<Record>): (r: seq<Ext>)
    ensures |r| == |rows| && forall i :: 0 <= i < |rows| ==> r[i] == rows[i].strategyScore
  {
    seq(|rows|, i requires 0 <= i < |rows| => rows[i].strategyScore)
  }

  function SharpeColumn(rows: seq<Record>): (r: seq<Ext>)
    ensures |r| == |rows| && forall i :: 0 <= i < |rows| ==> r[i] == rows[i].sharpe
  {
    seq(|rows|, i requires 0 <= i < |rows| => rows[i].sharpe)
  }

  function ReturnColumn(rows: seq<Record>): (r: seq<Ext>)
    ensures |r| == |rows| && forall i :: 0 <= i < |rows| ==> r[i] == rows[i].totalReturn
  {
    seq(|rows|, i requires 0 <= i < |rows| => rows[i].totalReturn)
  }

  function DrawdownColumn(rows: seq<Record>): (r: seq<Ext>)
    ensures |r| == |rows| && forall i :: 0 <= i < |rows| ==> r[i] == rows[i].maxDrawdown
  {
    seq(|rows|, i requires 0 <= i < |rows| => rows[i].maxDrawdown)
  }

  /** The four rows `optimize_one` picks. */
  datatype BestRows = BestRows(bestSharpe: Record, bestReturn: Record, bestDrawdown: Record, bestStrategy: Record)

  /** The best rows of a results table; `idxmax` on an empty table raises, which is None here. */
  function SelectBest(rows: seq<Record>): Option<BestRows>
  {
    if rows == [] then None
    else
      Some(BestRows(
        rows[FirstExtreme(SharpeColumn(rows), Largest).value],
        rows[FirstExtreme(ReturnColumn(rows), Largest).value],
        rows[FirstExtreme(DrawdownColumn(rows), Smallest).value],
        rows[FirstExtreme(ScoreColumn(rows), Largest).value]))
  }

  /** The strategy row is the first row of maximal score, and no row has a smaller drawdown than the drawdown row. */
  lemma SelectBestRows(rows: seq<Record>)
    requires rows != []
    ensures SelectBest(rows).Some?
    ensures var b := SelectBest(rows).value;
      && (exists k :: FirstMaximumAt(rows, k) && rows[k] == b.bestStrategy)
      && (forall j :: 0 <= j < |rows| ==> LessEq(b.bestDrawdown.maxDrawdown, rows[j].maxDrawdown))
      && (forall j :: 0 <= j < |rows| ==> LessEq(rows[j].sharpe, b.bestSharpe.sharpe))
      && (forall j :: 0 <= j < |rows| ==> LessEq(rows[j].totalReturn, b.bestReturn.totalReturn))
  {
    var b := SelectBest(rows).value;
    var scores := ScoreColumn(rows);
    var k := FirstExtreme(scores, Largest).value;
    ExtremeBounds(scores, Largest);
    FirstExtremeIsFirst(scores, Largest);
    assert FirstMaximumAt(rows, k) by {
      forall j | 0 <= j < k ensures Less(rows[j].strategyScore, rows[k].strategyScore) {
        assert scores[j] == rows[j].strategyScore && scores[k] == rows[k].strategyScore;
      }
    }
    assert (forall j :: 0 <= j < |rows| ==> LessEq(b.bestDrawdown.maxDrawdown, rows[j].maxDrawdown)) by {
      ExtremeBounds(DrawdownColumn(rows), Smallest);
    }
    assert (forall j :: 0 <= j < |rows| ==> LessEq(rows[j].sharpe, b.bestSharpe.sharpe)) by {
      ExtremeBounds(SharpeColumn(rows), Largest);
    }
    assert (forall j :: 0 <= j < |rows| ==> LessEq(rows[j].totalReturn, b.bestReturn.totalReturn)) by {
      ExtremeBounds(ReturnColumn(rows), Largest);
    }
  }

  /** No position beats the one found: at least as large for `idxmax`, at most as large for `idxmin`. */
  lemma ExtremeBounds(xs: seq<Ext>, dir: Direction)
    requires xs != []
    ensures var k := FirstExtreme(xs, dir).value;
      forall j :: 0 <= j < |xs| ==> if dir == Largest then LessEq(xs[j], xs[k]) else LessEq(xs[k], xs[j])
  {
    FirstExtremeIsFirst(xs, dir);
    var k := FirstExtreme(xs, dir).value;
    forall j | 0 <= j < |xs|
      ensures if dir == Largest then LessEq(xs[j], xs[k]) else LessEq(xs[k], xs[j])
    {
      LessTotal(xs[j], xs[k]);
    }
  }

  /** On a non-empty sweep, the strategy row of the crypto script is the record the profiling reduction keeps. */
  lemma BestRowAgreesWithReduction(rows: seq<Record>)
    requires rows != [] && forall i :: 0 <= i < |rows| ==> rows[i].strategyScore.Fin?
    ensures SelectBest(rows).value.bestStrategy == BestOf(rows)
  {
    SelectBestRows(rows);
    BestIsFirstMaximum(rows);
    var b := SelectBest(rows).value.bestStrategy;
    var k1 :| FirstMaximumAt(rows, k1) && rows[k1] == b;
    var k2 :| FirstMaximumAt(rows, k2) && rows[k2] == BestOf(rows);
    LessTotal(rows[k1].strategyScore, rows[k2].strategyScore);
    assert rows[k1].strategyScore == rows[k2].strategyScore;
    assert !(k1 < k2) && !(k2 < k1);
  }

  // ---------------------------------------------------------------------------
  // The sequential sweep of the reporting script

  /** The indicator computation without a cache. */
  type PlainIndicators = Params -> Option<Data>

  /** `backtest_wrapper` of the reporting script: no cache; an exception gives the sentinel. */
  function PlainEval(p: Params, indicators: PlainIndicators, backtest: Backtest): (r: Record)
    ensures r.params == p
    ensures r.error.Some? ==> r.strategyScore == Fin(0.0) && r.nTrades == 0
  {
    match indicators(p)
    case None => Sentinel(p, IndicatorFailure)
    case Some(data) =>
      match backtest(p, data)
      case None => Sentinel(p, BacktestFailure)
      case Some(m) => Evaluated(p, m)
  }

  /**
   * `optimize_parameters_parallel` of the reporting script: the list of
   * all combinations, then one wrapper call per entry, appended in order.
   */
  method ReportingSweep(grid: Grid, indicators: PlainIndicators, backtest: Backtest) returns (results: seq<Record>)
    ensures |results| == |Combinations(grid)| == CountOf(Candidates(grid))
    ensures forall i :: 0 <= i < |results| ==> results[i] == PlainEval(Combinations(grid)[i], indicators, backtest)
  {
    var combos := Product(Candidates(grid));
    var names := Names(grid);
    var all := seq(|combos|, i requires 0 <= i < |combos| => Zip(names, combos[i]));
    assert all == Combinations(grid);
    results := [];
    var i := 0;
    while i < |all|
      invariant 0 <= i <= |all|
      invariant |results| == i
      invariant forall j :: 0 <= j < i ==> results[j] == PlainEval(all[j], indicators, backtest)
    {
      var result := PlainEval(all[i], indicators, backtest);
      results := results + [result];
      i := i + 1;
    }
    ProductCount(Candidates(grid));
  }

  /** The rows of the reporting sweep carry the grid's values for each name, in product order. */
  lemma ReportingRowsCarryCombination(grid: Grid, indicators: PlainIndicators, backtest: Backtest, i: nat, k: nat)
    requires Distinct(Names(grid))
    requires i < |Combinations(grid)| && k < |grid|
    ensures var p := PlainEval(Combinations(grid)[i], indicators, backtest).params;
      grid[k].0 in p && p[grid[k].0] in grid[k].1
  {
    var combos := Product(Candidates(grid));
    assert combos[i] in combos;
    ProductMembers(Candidates(grid), combos[i]);
    ZipLookup(Names(grid), combos[i]);
  }
}
