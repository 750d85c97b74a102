/**
 * The current backtesting engine: the bar loop of `run`, the performance
 * summary of its portfolio log, the composite strategy score and the
 * pairwise trade statistics.
 */
module Engine {
  import opened Common
  import opened Simulator
  import opened Metrics

  // ---------------------------------------------------------------------------
  // The bar loop

  /** What `run` returns once it completes: the trade log, the portfolio log and the summary. */
  datatype Backtest = Backtest(trades: seq<Trade>, portfolio: seq<Snapshot>, performance: Performance)

  /**
   * `run`: walk the bars with their signals; on each bar manage the open
   * position, then look for an entry, then log one snapshot. Indexing the
   * log by its dates raises KeyError when no bar was logged.
   */
  method Run(cfg: Config, bars: seq<Bar>, signals: seq<Signal>) returns (r: Result<Backtest, Failure>)
    requires |bars| <= |signals| && PositivePrices(bars)
    ensures bars == [] ==> r == Err(KeyError)
    ensures bars != [] ==> r.Ok?
    ensures r.Ok? ==> r.value.trades == Simulate(Current, cfg, bars, signals, |bars|).trades
    ensures r.Ok? ==> r.value.portfolio == Simulate(Current, cfg, bars, signals, |bars|).portfolio
    ensures r.Ok? ==> r.value.performance == CalculatePerformance(r.value.portfolio)
  {
    var book := Book(cfg.initialCapital, 0, 0.0, [], []);
    var i := 0;
    while i < |bars|
      invariant 0 <= i <= |bars|
      invariant book == Simulate(Current, cfg, bars, signals, i)
    {
      var bar := bars[i];
      var signal := signals[i];
      SimulateNext(Current, cfg, bars, signals, i);
      ghost var entered := Open(cfg, AfterExit(Current, cfg, book, bar, signal), bar, signal);
      book := ManagePosition(cfg, book, bar, signal);
      book := EnterOnBuy(cfg, book, bar, signal);
      assert book == entered;
      var value := Worth(book.capital, book.position, bar.close);
      book := book.(portfolio := book.portfolio + [Snapshot(bar.day, value, book.position, bar.close)]);
      assert book == Record(entered, bar);
      i := i + 1;
    }
    OneSnapshotPerBar(Current, cfg, bars, signals, |bars|);
    if book.portfolio == [] {
      return Err(KeyError);
    }
    return Ok(Backtest(book.trades, book.portfolio, CalculatePerformance(book.portfolio)));
  }

  /**
   * The exit block of `run`: with a position open, sell it all on a SELL
   * signal, else when the price is at or below `entry * stop_loss`, else
   * when it is at or above `entry * take_profit`.
   */
  method ManagePosition(cfg: Config, book: Book, bar: Bar, signal: Signal) returns (after: Book)
    ensures after == AfterExit(Current, cfg, book, bar, signal)
  {
    after := book;
    var price := bar.close;
    if book.position > 0 {
      var proceeds := Proceeds(book.position, price, cfg.fee);
      if signal == SELL {
        after := book.(trades := book.trades + [Trade(bar.day, Sell, price, book.position, OnSignal)],
                       capital := book.capital + proceeds, position := 0);
      } else if Enabled(cfg.stopLoss) && price <= book.entryPrice * cfg.stopLoss.value {
        after := book.(trades := book.trades + [Trade(bar.day, Sell, price, book.position, StopLoss)],
                       capital := book.capital + proceeds, position := 0);
      } else if Enabled(cfg.takeProfit) && price >= book.entryPrice * cfg.takeProfit.value {
        after := book.(trades := book.trades + [Trade(bar.day, Sell, price, book.position, TakeProfit)],
                       capital := book.capital + proceeds, position := 0);
      }
    }
  }

  // ---------------------------------------------------------------------------
  // Performance summary

  /**
   * The pandas Sharpe ratio `mean / std` of the percentage changes, with
   * the sample deviation: `ZeroRatio` is every 0.0 it reports (fewer than
   * two snapshots, a zero deviation, a NaN ratio); `SampleOf` is the ratio
   * of the values' changes, not computed here.
   */
  datatype SampleSharpe = ZeroRatio | SampleOf(values: seq<real>)

  datatype Performance = Performance(
    totalReturn: real,
    annualized: Growth,
    maxDrawdown: Option<Ext>,
    sharpe: SampleSharpe)

  function Values(portfolio: seq<Snapshot>): (r: seq<real>)
    ensures |r| == |portfolio| && forall i :: 0 <= i < |portfolio| ==> r[i] == portfolio[i].value
  {
    if portfolio == [] then [] else Values(portfolio[..|portfolio| - 1]) + [portfolio[|portfolio| - 1].value]
  }

  /**
   * `pct_change().dropna()`: the float64 changes `(v[i] - v[i-1]) / v[i-1]`
   * in order, with the NaN of a 0/0 dropped and the infinities kept. With
   * no zero value before the last they are exactly the simple returns.
   */
  function PctChange(values: seq<real>): (r: seq<Ext>)
    ensures |values| > 0 ==> |r| <= |values| - 1
    ensures |values| > 0 && NoZeroBefore(values, |values| - 1) ==>
      |r| == |values| - 1 && forall i :: 1 <= i < |values| ==> r[i - 1] == Fin(SimpleReturn(values[i - 1], values[i]))
  {
    if |values| < 2 then []
    else
      var init := values[..|values| - 1];
      assert forall i :: 0 <= i < |init| ==> init[i] == values[i];
      var change := FloatDiv(values[|values| - 1] - values[|values| - 2], values[|values| - 2]);
      PctChange(init) + (if change.None? then [] else [change.value])
  }

  /**
   * The Sharpe entry of `_calculate_performance`. Fewer than two changes
   * leave the sample deviation NaN, and an infinite change makes it NaN,
   * so the ratio is NaN and reported as 0.0; equal changes have a zero
   * deviation and report 0.0; otherwise the ratio is a number.
   */
  function PandasSharpe(values: seq<real>): SampleSharpe {
    var changes := PctChange(values);
    if |changes| < 2 then ZeroRatio
    else if exists i :: 0 <= i < |changes| && !changes[i].Fin? then ZeroRatio
    else if forall i :: 0 <= i < |changes| ==> changes[i] == changes[0] then ZeroRatio
    else SampleOf(values)
  }

  /**
   * `_calculate_performance`: all zeros for fewer than two snapshots;
   * otherwise the total return (0.0 from a zero start), the largest
   * drawdown from the running peak, the Sharpe ratio and the annualized
   * return (0.0 when the dates span no day).
   */
  function CalculatePerformance(portfolio: seq<Snapshot>): Performance {
    if |portfolio| < 2 then Performance(0.0, NoSpan, Some(Fin(0.0)), ZeroRatio)
    else
      var start := portfolio[0].value;
      var end := portfolio[|portfolio| - 1].value;
      var total := TotalReturn(start, end);
      var days := portfolio[|portfolio| - 1].day - portfolio[0].day;
      Performance(
        total,
        if days > 0 then Compounded(Some(Fin(total)), days) else NoSpan,
        CumMaxDrawdown(Values(portfolio)),
        PandasSharpe(Values(portfolio)))
  }

  /** An empty or one-row log reports 0.0 for all four metrics. */
  lemma DegeneratePerformance(portfolio: seq<Snapshot>)
    requires |portfolio| < 2
    ensures var p := CalculatePerformance(portfolio);
      p.totalReturn == 0.0 && p.annualized == NoSpan && p.maxDrawdown == Some(Fin(0.0)) && p.sharpe == ZeroRatio
  {
  }

  /** Two snapshots give a single change, whose sample deviation is NaN: the Sharpe entry is 0.0. */
  lemma TwoSnapshotsZeroSharpe(portfolio: seq<Snapshot>)
    requires |portfolio| == 2
    ensures CalculatePerformance(portfolio).sharpe == ZeroRatio
  {
    assert |PctChange(Values(portfolio))| <= 1;
  }

  /** The changes of a flat series are all 0 (none at all when it is flat at 0, where each is a dropped NaN). */
  lemma {:induction false} FlatChanges(values: seq<real>, c: real)
    requires forall i :: 0 <= i < |values| ==> values[i] == c
    ensures forall i :: 0 <= i < |PctChange(values)| ==> PctChange(values)[i] == Fin(0.0)
  {
    if |values| >= 2 {
      var init := values[..|values| - 1];
      FlatChanges(init, c);
      if c != 0.0 {
        assert (c - c) / c == 0.0;
      }
    }
  }

  /** A log whose value never moves has a Sharpe entry of 0.0. */
  lemma FlatLogZeroSharpe(portfolio: seq<Snapshot>)
    requires forall i :: 0 <= i < |portfolio| ==> portfolio[i].value == portfolio[0].value
    ensures CalculatePerformance(portfolio).sharpe == ZeroRatio
  {
    if |portfolio| >= 2 {
      var v := Values(portfolio);
      FlatChanges(v, portfolio[0].value);
    }
  }

  /**
   * A run that only HOLDs keeps every snapshot at the initial capital, so
   * it reports a total return of 0 and a Sharpe ratio of 0.
   */
  lemma AllHoldPerformance(cfg: Config, bars: seq<Bar>, signals: seq<Signal>)
    requires |bars| <= |signals| && PositivePrices(bars)
    requires forall k :: 0 <= k < |bars| ==> signals[k] == HOLD
    ensures var p := CalculatePerformance(Simulate(Current, cfg, bars, signals, |bars|).portfolio);
      p.totalReturn == 0.0 && p.sharpe == ZeroRatio
  {
    AllHoldIsIdle(Current, cfg, bars, signals, |bars|);
    var portfolio := Simulate(Current, cfg, bars, signals, |bars|).portfolio;
    FlatLogZeroSharpe(portfolio);
    var c := cfg.initialCapital;
    if c != 0.0 && |portfolio| >= 2 {
      assert (c - c) / c == 0.0;
    }
  }

  /** `(end - start) / start`, or 0.0 from a zero start. */
  function TotalReturn(start: real, end: real): real {
    if start != 0.0 then (end - start) / start else 0.0
  }

  /**
   * The total return is the growth of the first value into the last:
   * `start * (1 + return) == end`; a zero start reports 0.0.
   */
  lemma TotalReturnGrowth(start: real, end: real)
    ensures start != 0.0 ==> start * (1.0 + TotalReturn(start, end)) == end
    ensures start == 0.0 ==> TotalReturn(start, end) == 0.0
  {
    if start != 0.0 {
      var r := (end - start) / start;
      assert r * start == end - start;
      assert start * (1.0 + r) == start + r * start;
    }
  }

  /** The annualized return is computed exactly when there are two snapshots at least a day apart. */
  lemma AnnualizedGuard(portfolio: seq<Snapshot>)
    ensures CalculatePerformance(portfolio).annualized.Compounded? <==>
      |portfolio| >= 2 && portfolio[|portfolio| - 1].day > portfolio[0].day
  {
  }

  /**
   * For positive portfolio values the maximum drawdown is a number in
   * [0, 1), equal to what the `_max_drawdown` accumulator loop returns.
   */
  lemma DrawdownOfPositiveLog(portfolio: seq<Snapshot>)
    requires |portfolio| >= 2 && forall i :: 0 <= i < |portfolio| ==> portfolio[i].value > 0.0
    ensures var v := Values(portfolio);
      && CalculatePerformance(portfolio).maxDrawdown == Some(WorstDrawdown(v, |v|))
      && WorstDrawdown(v, |v|).Fin? && 0.0 <= WorstDrawdown(v, |v|).v < 1.0
  {
    var v := Values(portfolio);
    PositiveDrawdownBounds(v, |v|);
    LoopMatchesVectorised(v);
  }

  // ---------------------------------------------------------------------------
  // Composite score

  /** What the score needs of `np.tanh`: strictly increasing with values in (-1, 1). */
  ghost predicate TanhLike(tanh: real -> real) {
    && (forall x: real, y: real :: x < y ==> tanh(x) < tanh(y))
    && (forall x: real :: -1.0 < tanh(x) < 1.0)
  }

  datatype Weights = Weights(ret: real, drawdown: real, trades: real, winRate: real)

  const DefaultWeights := Weights(0.4, 0.3, 0.1, 0.2)
  const DefaultMaxTradesRef := 200.0

  /** `min(n_trades / max_trades_ref, 1.0)`; dividing by a zero reference raises ZeroDivisionError. */
  function TradesNorm(nTrades: int, maxTradesRef: real): (r: Result<real, Failure>)
    ensures r.Err? <==> maxTradesRef == 0.0
    ensures r.Err? ==> r.error == ZeroDivisionError
    ensures r.Ok? ==> r.value <= 1.0 && (r.value == 1.0 || r.value == nTrades as real / maxTradesRef)
    ensures r.Ok? && maxTradesRef > 0.0 && nTrades >= 0 ==> r.value >= 0.0
  {
    if maxTradesRef == 0.0 then Err(ZeroDivisionError)
    else
      var ratio := nTrades as real / maxTradesRef;
      Ok(if 1.0 < ratio then 1.0 else ratio)
  }

  /**
   * `strategy_score`: weighted return, minus weighted drawdown, plus
   * weighted activity and win rate; the activity term raises on a zero
   * reference.
   */
  function StrategyScore(tanh: real -> real, returnPct: real, drawdownPct: real, nTrades: int, winRate: real,
                         w: Weights, maxTradesRef: real): Result<real, Failure>
  {
    match TradesNorm(nTrades, maxTradesRef)
    case Err(e) => Err(e)
    case Ok(tradesNorm) =>
      Ok(w.ret * tanh(returnPct / 100.0)
         - w.drawdown * tanh(drawdownPct / 100.0)
         + w.trades * tradesNorm
         + w.winRate * winRate)
  }

  lemma ScaleStrict(w: real, a: real, b: real)
    requires w > 0.0 && a < b
    ensures w * a < w * b
  {
  }

  /**
   * With the other inputs fixed and a positive drawdown weight, a deeper
   * drawdown strictly lowers the score; both scores fail together, on a
   * zero reference.
   */
  lemma ScoreFallsWithDrawdown(tanh: real -> real, returnPct: real, d1: real, d2: real, nTrades: int, winRate: real,
                               w: Weights, maxTradesRef: real)
    requires TanhLike(tanh) && w.drawdown > 0.0 && d1 < d2
    ensures var s1 := StrategyScore(tanh, returnPct, d1, nTrades, winRate, w, maxTradesRef);
      var s2 := StrategyScore(tanh, returnPct, d2, nTrades, winRate, w, maxTradesRef);
      (s1 == Err(ZeroDivisionError) <==> maxTradesRef == 0.0) && (s2.Ok? <==> s1.Ok?) && (s1.Ok? ==> s2.value < s1.value)
  {
    if maxTradesRef != 0.0 {
      var norm := TradesNorm(nTrades, maxTradesRef).value;
      assert d1 / 100.0 < d2 / 100.0;
      ScaleStrict(w.drawdown, tanh(d1 / 100.0), tanh(d2 / 100.0));
      assert StrategyScore(tanh, returnPct, d1, nTrades, winRate, w, maxTradesRef).value
        == w.ret * tanh(returnPct / 100.0) - w.drawdown * tanh(d1 / 100.0) + w.trades * norm + w.winRate * winRate;
    }
  }

  /** With a positive return weight, a higher return strictly raises the score; both fail together. */
  lemma ScoreRisesWithReturn(tanh: real -> real, r1: real, r2: real, drawdownPct: real, nTrades: int, winRate: real,
                             w: Weights, maxTradesRef: real)
    requires TanhLike(tanh) && w.ret > 0.0 && r1 < r2
    ensures var s1 := StrategyScore(tanh, r1, drawdownPct, nTrades, winRate, w, maxTradesRef);
      var s2 := StrategyScore(tanh, r2, drawdownPct, nTrades, winRate, w, maxTradesRef);
      (s1 == Err(ZeroDivisionError) <==> maxTradesRef == 0.0) && (s2.Ok? <==> s1.Ok?) && (s1.Ok? ==> s1.value < s2.value)
  {
    if maxTradesRef != 0.0 {
      var norm := TradesNorm(nTrades, maxTradesRef).value;
      assert r1 / 100.0 < r2 / 100.0;
      ScaleStrict(w.ret, tanh(r1 / 100.0), tanh(r2 / 100.0));
      assert StrategyScore(tanh, r1, drawdownPct, nTrades, winRate, w, maxTradesRef).value
        == w.ret * tanh(r1 / 100.0) - w.drawdown * tanh(drawdownPct / 100.0) + w.trades * norm + w.winRate * winRate;
    }
  }

  /**
   * With the default weights and reference, a non-negative trade count and
   * a win rate in [0, 1], the score is computed and lies strictly between
   * -0.7 and 1.0.
   */
  lemma DefaultScoreBounds(tanh: real -> real, returnPct: real, drawdownPct: real, nTrades: int, winRate: real)
    requires TanhLike(tanh) && nTrades >= 0 && 0.0 <= winRate <= 1.0
    ensures var s := StrategyScore(tanh, returnPct, drawdownPct, nTrades, winRate, DefaultWeights, DefaultMaxTradesRef);
      s.Ok? && -0.7 < s.value < 1.0
  {
    assert -1.0 < tanh(returnPct / 100.0) < 1.0;
    assert -1.0 < tanh(drawdownPct / 100.0) < 1.0;
    assert 0.0 <= TradesNorm(nTrades, DefaultMaxTradesRef).value <= 1.0;
  }

  // ---------------------------------------------------------------------------
  // Trade statistics

  /** One row of the trades table handed to `_compute_trade_metrics`: its "type" and "price". */
  datatype OrderRow = OrderRow(kind: string, price: real)

  datatype TradeStats = TradeStats(
    profits: seq<real>,
    nWins: nat,
    nLosses: nat,
    winRate: real,
    winLossRatio: Ext,
    totalProfit: real)

  /** The two price columns cannot be subtracted: neither has one row and their lengths differ. */
  datatype MetricsError = ShapeMismatch

  /** The prices of the rows whose type is `kind`, in table order. */
  function PricesOf(rows: seq<OrderRow>, kind: string): (r: seq<real>)
    ensures |r| <= |rows|
  {
    if rows == [] then []
    else PricesOf(rows[..|rows| - 1], kind) + (if rows[|rows| - 1].kind == kind then [rows[|rows| - 1].price] else [])
  }

  function CountIf(profits: seq<real>, wins: bool): (r: nat)
    ensures r <= |profits|
  {
    if profits == [] then 0
    else
      var p := profits[|profits| - 1];
      CountIf(profits[..|profits| - 1], wins) + (if (wins && p > 0.0) || (!wins && p < 0.0) then 1 else 0)
  }

  /** A sell price net of its fee minus a buy price plus its fee. */
  function PairProfit(buy: real, sell: real, fee: real): real {
    sell * (1.0 - fee) - buy * (1.0 + fee)
  }

  /**
   * `sell_adj.values - buy_adj.values` with numpy broadcasting: element by
   * element for equal lengths, against the single row when one side has
   * exactly one row, and an error otherwise.
   */
  function NetProfits(buys: seq<real>, sells: seq<real>, fee: real): Result<seq<real>, MetricsError> {
    if |buys| == |sells| then
      Ok(seq(|sells|, i requires 0 <= i < |sells| => PairProfit(buys[i], sells[i], fee)))
    else if |buys| == 1 then
      Ok(seq(|sells|, i requires 0 <= i < |sells| => PairProfit(buys[0], sells[i], fee)))
    else if |sells| == 1 then
      Ok(seq(|buys|, i requires 0 <= i < |buys| => PairProfit(buys[i], sells[0], fee)))
    else Err(ShapeMismatch)
  }

  /** `_compute_trade_metrics`: net profit per buy/sell pair, wins, losses, win rate and win/loss ratio. */
  function ComputeTradeMetrics(rows: seq<OrderRow>, fee: real): Result<TradeStats, MetricsError> {
    match NetProfits(PricesOf(rows, "buy"), PricesOf(rows, "sell"), fee)
    case Err(e) => Err(e)
    case Ok(profits) => Ok(Summarize(profits))
  }

  /** Wins, losses, win rate, win/loss ratio and total of a profit series. */
  function Summarize(profits: seq<real>): TradeStats {
    var nWins := CountIf(profits, true);
    var nLosses := CountIf(profits, false);
    TradeStats(
      profits,
      nWins,
      nLosses,
      WinRate(nWins, nLosses),
      WinLossRatio(nWins, nLosses),
      Sum(profits))
  }

  /** Wins over decisive trades, 0 without any. */
  function WinRate(wins: nat, losses: nat): real {
    if wins + losses > 0 then wins as real / (wins + losses) as real else 0.0
  }

  /** Wins over losses, infinite without a loss. */
  function WinLossRatio(wins: nat, losses: nat): Ext {
    if losses > 0 then Fin(wins as real / losses as real) else PosInf
  }

  /**
   * The win rate is a fraction in [0, 1] (0 without decisive trades) that
   * gives back the wins when multiplied by the decisive trades; the
   * win/loss ratio is infinite exactly when there is no losing trade, and
   * otherwise gives back the wins when multiplied by the losses.
   */
  predicate RatesConsistent(s: TradeStats) {
    && 0.0 <= s.winRate <= 1.0
    && (s.nWins + s.nLosses == 0 ==> s.winRate == 0.0)
    && (s.winLossRatio == PosInf <==> s.nLosses == 0)
    && (s.nLosses > 0 ==> s.winLossRatio.Fin? && s.winLossRatio.v * s.nLosses as real == s.nWins as real)
    && (s.nWins + s.nLosses > 0 ==> s.winRate * (s.nWins + s.nLosses) as real == s.nWins as real)
  }

  /** The two ratios of a statistics record computed from its own counts. */
  lemma RateBounds(s: TradeStats)
    requires s.winRate == WinRate(s.nWins, s.nLosses) && s.winLossRatio == WinLossRatio(s.nWins, s.nLosses)
    ensures RatesConsistent(s)
  {
    if s.nWins + s.nLosses > 0 {
      FractionBounds(s.nWins, s.nWins + s.nLosses);
    }
    if s.nLosses > 0 {
      RatioTimesDivisor(s.nWins as real, s.nLosses as real);
    }
  }

  lemma {:induction false} WinsAndLossesDisjoint(profits: seq<real>)
    ensures CountIf(profits, true) + CountIf(profits, false) <= |profits|
  {
    if profits != [] {
      WinsAndLossesDisjoint(profits[..|profits| - 1]);
    }
  }

  /**
   * The statistics are consistent: wins and losses are disjoint and the
   * two ratios agree with the counts.
   */
  lemma TradeStatsBounds(profits: seq<real>)
    ensures Summarize(profits).profits == profits
    ensures Summarize(profits).nWins + Summarize(profits).nLosses <= |profits|
    ensures RatesConsistent(Summarize(profits))
  {
    var s := Summarize(profits);
    WinsAndLossesDisjoint(profits);
    RateBounds(s);
  }

  lemma RatioTimesDivisor(a: real, b: real)
    requires b != 0.0
    ensures a / b * b == a
  {
  }

  lemma FractionBounds(part: nat, whole: nat)
    requires part <= whole && whole > 0
    ensures 0.0 <= part as real / whole as real <= 1.0
    ensures part as real / whole as real * whole as real == part as real
  {
  }

  /**
   * The summary fails only on unequal lengths where neither side has
   * exactly one row.
   */
  lemma ShapeMismatchExactly(rows: seq<OrderRow>, fee: real)
    ensures ComputeTradeMetrics(rows, fee).Err? <==>
      |PricesOf(rows, "buy")| != |PricesOf(rows, "sell")| && |PricesOf(rows, "buy")| != 1 && |PricesOf(rows, "sell")| != 1
  {
    NetProfitsShape(PricesOf(rows, "buy"), PricesOf(rows, "sell"), fee);
    MetricsKeepNetProfits(rows, fee);
  }

  /**
   * With as many sells as buys the profits are paired in order: the i-th
   * sell net of its fee minus the i-th buy plus its fee.
   */
  lemma PairedProfits(rows: seq<OrderRow>, fee: real)
    requires |PricesOf(rows, "buy")| == |PricesOf(rows, "sell")|
    ensures var buys := PricesOf(rows, "buy");
      var sells := PricesOf(rows, "sell");
      && ComputeTradeMetrics(rows, fee).Ok?
      && |ComputeTradeMetrics(rows, fee).value.profits| == |buys|
      && forall i :: 0 <= i < |buys| ==>
           ComputeTradeMetrics(rows, fee).value.profits[i] == PairProfit(buys[i], sells[i], fee)
  {
    NetProfitsShape(PricesOf(rows, "buy"), PricesOf(rows, "sell"), fee);
    MetricsKeepNetProfits(rows, fee);
  }

  /** The summary fails exactly when the pairing fails, and otherwise keeps its profits. */
  lemma MetricsKeepNetProfits(rows: seq<OrderRow>, fee: real)
    ensures var net := NetProfits(PricesOf(rows, "buy"), PricesOf(rows, "sell"), fee);
      && (ComputeTradeMetrics(rows, fee).Err? <==> net.Err?)
      && (net.Ok? ==> ComputeTradeMetrics(rows, fee).value.profits == net.value)
  {
  }

  /** The pairing on the two price lists alone. */
  lemma NetProfitsShape(buys: seq<real>, sells: seq<real>, fee: real)
    ensures NetProfits(buys, sells, fee).Err? <==> |buys| != |sells| && |buys| != 1 && |sells| != 1
    ensures |buys| == |sells| ==>
      && NetProfits(buys, sells, fee).Ok?
      && |NetProfits(buys, sells, fee).value| == |buys|
      && forall i :: 0 <= i < |buys| ==> NetProfits(buys, sells, fee).value[i] == PairProfit(buys[i], sells[i], fee)
  {
  }

  // ---------------------------------------------------------------------------
  // Worked scenarios

  function Days(closes: seq<real>): (r: seq<Bar>)
    ensures |r| == |closes| && forall i :: 0 <= i < |closes| ==> r[i] == Bar(i, closes[i])
  {
    seq(|closes|, i requires 0 <= i < |closes| => Bar(i, closes[i]))
  }

  /**
   * Eight bars, BUY on bar 1 and 5, SELL on bar 3 and 7, 10% sizing and a
   * 0.1% fee, no thresholds: four trades, the first a BUY at 102 and the
   * second a SELL at 103, and the account ends above its 10000 start.
   */
  lemma BasicScenario(v: Variant)
    ensures var b := Simulate(v, BasicConfig(), BasicBars(), BasicSignals(), 8);
      && |b.trades| == 4
      && b.trades[0].action == Buy && b.trades[0].price == 102.0
      && b.trades[1].action == Sell && b.trades[1].price == 103.0
      && |b.portfolio| == 8 && b.portfolio[7].value > 10000.0
  {
    var cfg, bars, signals := BasicConfig(), BasicBars(), BasicSignals();
    BasicInputs();
    BasicFirstRoundTrip(v);
    BasicSecondRoundTrip(v);
    var b8 := Simulate(v, cfg, bars, signals, 8);
    OneSnapshotPerBar(v, cfg, bars, signals, 8);
    assert b8.portfolio[7].value == Worth(10023.157, 0, 112.0);
  }

  function BasicConfig(): Config {
    Config(10000.0, 0.001, 0.1, None, None)
  }

  function BasicBars(): seq<Bar> {
    Days([100.0, 102.0, 105.0, 103.0, 107.0, 110.0, 108.0, 112.0])
  }

  function BasicSignals(): seq<Signal> {
    [HOLD, BUY, HOLD, SELL, HOLD, BUY, HOLD, SELL]
  }

  /** The first four bars of the basic scenario: BUY 9 shares at 102, SELL them at 103. */
  lemma BasicFirstRoundTrip(v: Variant)
    ensures var b := Simulate(v, BasicConfig(), BasicBars(), BasicSignals(), 4);
      && b.position == 0 && b.capital == 10007.155
      && b.trades == [Trade(1, Buy, 102.0, 9, OnSignal), Trade(3, Sell, 103.0, 9, OnSignal)]
  {
    var cfg, bars, signals := BasicConfig(), BasicBars(), BasicSignals();
    BasicInputs();
    BasicFirstEntry(v);
    var b2 := Simulate(v, cfg, bars, signals, 2);
    var b3 := Simulate(v, cfg, bars, signals, 3);
    assert b3.position == 9 && b3.capital == 9081.082 && b3.trades == b2.trades by {
      SimulateNext(v, cfg, bars, signals, 2);
      IdleStep(v, cfg, b2, bars[2], HOLD);
    }
    SimulateNext(v, cfg, bars, signals, 3);
    SellStep(v, cfg, b3, bars[3]);
    AppendTwo([], Trade(1, Buy, 102.0, 9, OnSignal), Trade(3, Sell, 103.0, 9, OnSignal));
  }

  /** Bars 1 and 2 of the basic run: a BUY of 9 shares at 102. */
  lemma BasicFirstEntry(v: Variant)
    ensures var b := Simulate(v, BasicConfig(), BasicBars(), BasicSignals(), 2);
      && b.position == 9 && b.capital == 9081.082 && b.trades == [Trade(1, Buy, 102.0, 9, OnSignal)]
  {
    var cfg, bars, signals := BasicConfig(), BasicBars(), BasicSignals();
    BasicInputs();
    var b1 := Simulate(v, cfg, bars, signals, 1);
    assert b1.capital == 10000.0 && b1.position == 0 && b1.trades == [] by {
      SimulateNext(v, cfg, bars, signals, 0);
      IdleStep(v, cfg, Initial(cfg), bars[0], HOLD);
    }
    SimulateNext(v, cfg, bars, signals, 1);
    assert SharesFor(10000.0, 0.1, 102.0) == 9;
    BuyStep(v, cfg, b1, bars[1], 9);
  }

  /** Bars 5 and 6 of the basic run: a second BUY of 9 shares at 110. */
  lemma BasicSecondEntry(v: Variant)
    ensures var b4 := Simulate(v, BasicConfig(), BasicBars(), BasicSignals(), 4);
      var b6 := Simulate(v, BasicConfig(), BasicBars(), BasicSignals(), 6);
      && b6.position == 9 && b6.capital == 9016.165
      && b6.trades == b4.trades + [Trade(5, Buy, 110.0, 9, OnSignal)]
  {
    var cfg, bars, signals := BasicConfig(), BasicBars(), BasicSignals();
    BasicInputs();
    BasicFirstRoundTrip(v);
    var b4 := Simulate(v, cfg, bars, signals, 4);
    var b5 := Simulate(v, cfg, bars, signals, 5);
    assert b5.position == 0 && b5.capital == 10007.155 && b5.trades == b4.trades by {
      SimulateNext(v, cfg, bars, signals, 4);
      IdleStep(v, cfg, b4, bars[4], HOLD);
    }
    SimulateNext(v, cfg, bars, signals, 5);
    assert SharesFor(10007.155, 0.1, 110.0) == 9;
    BuyStep(v, cfg, b5, bars[5], 9);
  }

  /** Bars 7 and 8 of the basic run: the second position is sold at 112. */
  lemma BasicSecondRoundTrip(v: Variant)
    ensures var b4 := Simulate(v, BasicConfig(), BasicBars(), BasicSignals(), 4);
      var b8 := Simulate(v, BasicConfig(), BasicBars(), BasicSignals(), 8);
      && b8.position == 0 && b8.capital == 10023.157
      && b8.trades == b4.trades + [Trade(5, Buy, 110.0, 9, OnSignal), Trade(7, Sell, 112.0, 9, OnSignal)]
  {
    var cfg, bars, signals := BasicConfig(), BasicBars(), BasicSignals();
    BasicInputs();
    BasicSecondEntry(v);
    var b4 := Simulate(v, cfg, bars, signals, 4);
    var b6 := Simulate(v, cfg, bars, signals, 6);
    var b7 := Simulate(v, cfg, bars, signals, 7);
    assert b7.position == 9 && b7.capital == 9016.165 && b7.trades == b6.trades by {
      SimulateNext(v, cfg, bars, signals, 6);
      IdleStep(v, cfg, b6, bars[6], HOLD);
    }
    SimulateNext(v, cfg, bars, signals, 7);
    SellStep(v, cfg, b7, bars[7]);
    var buy, sell := Trade(5, Buy, 110.0, 9, OnSignal), Trade(7, Sell, 112.0, 9, OnSignal);
    assert Simulate(v, cfg, bars, signals, 8).trades == b7.trades + [sell];
    AppendTwo(b4.trades, buy, sell);
  }

  lemma AppendTwo<T>(s: seq<T>, x: T, y: T)
    ensures s + [x] + [y] == s + [x, y]
  {
  }

  /** The bars and signals of the basic run. */
  lemma BasicInputs()
    ensures |BasicBars()| == |BasicSignals()| == 8 && PositivePrices(BasicBars())
    ensures BasicBars() == [Bar(0, 100.0), Bar(1, 102.0), Bar(2, 105.0), Bar(3, 103.0),
                            Bar(4, 107.0), Bar(5, 110.0), Bar(6, 108.0), Bar(7, 112.0)]
  {
  }

  /** Without thresholds a HOLD bar only logs its snapshot. */
  lemma IdleStep(v: Variant, cfg: Config, b: Book, bar: Bar, signal: Signal)
    requires bar.close > 0.0 && cfg.stopLoss.None? && cfg.takeProfit.None? && signal == HOLD
    ensures Step(v, cfg, b, bar, signal) == Record(b, bar)
  {
  }

  /** A BUY bar on a flat, funded book buys the floor-sized order. */
  lemma BuyStep(v: Variant, cfg: Config, b: Book, bar: Bar, shares: int)
    requires bar.close > 0.0 && b.position == 0 && b.capital > 0.0
    requires shares == SharesFor(b.capital, cfg.positionSize, bar.close) && shares > 0
    ensures Step(v, cfg, b, bar, BUY) == Record(b.(capital := b.capital - Cost(shares, bar.close, cfg.fee),
                                                  position := shares,
                                                  entryPrice := bar.close,
                                                  trades := b.trades + [Trade(bar.day, Buy, bar.close, shares, OnSignal)]), bar)
  {
  }

  /** Without thresholds a SELL bar closes an open position on the signal. */
  lemma SellStep(v: Variant, cfg: Config, b: Book, bar: Bar)
    requires bar.close > 0.0 && cfg.stopLoss.None? && cfg.takeProfit.None? && b.position > 0
    ensures Step(v, cfg, b, bar, SELL) == Record(Close(cfg, b, bar, OnSignal), bar)
  {
  }

  /** 10000 capital, 50% sizing, BUY at 100: the order is 50 shares. */
  lemma PositionSizingScenario(v: Variant)
    ensures var cfg := Config(10000.0, 0.001, 0.5, None, None);
      var b := Simulate(v, cfg, Days([100.0, 101.0, 102.0, 103.0]), [BUY, HOLD, HOLD, SELL], 1);
      b.trades == [Trade(0, Buy, 100.0, 50, OnSignal)]
  {
    assert SharesFor(10000.0, 0.5, 100.0) == 50;
  }

  /**
   * BUY at 100 with a 0.9 stop-loss ratio and a 1.1 take-profit ratio: the
   * fall to 90 reaches `100 * 0.9`, so the second trade is a stop-loss SELL
   * at 90.
   */
  lemma StopLossScenario()
    ensures var cfg := Config(10000.0, 0.001, 0.1, Some(0.9), Some(1.1));
      var b := Simulate(Current, cfg, Days([100.0, 95.0, 90.0, 115.0, 110.0]), [BUY, HOLD, HOLD, HOLD, HOLD], 5);
      |b.trades| == 2 && b.trades[1] == Trade(2, Sell, 90.0, 10, StopLoss)
  {
    var cfg := Config(10000.0, 0.001, 0.1, Some(0.9), Some(1.1));
    var bars := Days([100.0, 95.0, 90.0, 115.0, 110.0]);
    var signals := [BUY, HOLD, HOLD, HOLD, HOLD];
    assert SharesFor(10000.0, 0.1, 100.0) == 10;
    var b1 := Simulate(Current, cfg, bars, signals, 1);
    assert b1.position == 10 && b1.entryPrice == 100.0 && b1.capital == 8999.0;
    var b2 := Simulate(Current, cfg, bars, signals, 2);
    assert b2 == b1.(portfolio := b2.portfolio);
    var b3 := Simulate(Current, cfg, bars, signals, 3);
    assert b3.position == 0 && b3.trades == b1.trades + [Trade(2, Sell, 90.0, 10, StopLoss)];
    var b4 := Simulate(Current, cfg, bars, signals, 4);
    assert b4.trades == b3.trades;
    var b5 := Simulate(Current, cfg, bars, signals, 5);
    assert b5.trades == b3.trades;
  }

  /**
   * Buying with the whole capital and a positive fee overdraws the account:
   * 100 shares at 100 with a 0.5% fee cost 10050 out of 10000.
   */
  lemma FullSizeOverdraws()
    ensures Simulate(Current, Config(10000.0, 0.005, 1.0, None, None), Days([100.0]), [BUY], 1).capital == -50.0
  {
    assert SharesFor(10000.0, 1.0, 100.0) == 100;
  }
}
