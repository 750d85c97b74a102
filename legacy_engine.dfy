/**
 * The legacy backtesting engine: the same bar loop with the exit checks in
 * the other order (stop-loss fraction, take-profit fraction, SELL signal),
 * and a performance summary that divides without guards.
 */
module LegacyEngine {
  import opened Common
  import opened Simulator
  import opened Metrics
  import Engine

  // ---------------------------------------------------------------------------
  // The bar loop

  /** What the legacy `run` returns once it completes. */
  datatype LegacyBacktest = LegacyBacktest(trades: seq<Trade>, portfolio: seq<Snapshot>, performance: Report)

  /**
   * `run` of the legacy engine: on each bar manage the open position, then
   * look for an entry, then log one snapshot. Indexing the log by its dates
   * raises KeyError when no bar was logged; the summary may then raise
   * ZeroDivisionError.
   */
  method LegacyRun(cfg: Config, bars: seq<Bar>, signals: seq<Signal>) returns (r: Result<LegacyBacktest, Failure>)
    requires |bars| <= |signals| && PositivePrices(bars)
    ensures bars == [] ==> r == Err(KeyError)
    ensures bars != [] ==> r.Err? == Summary(Simulate(Legacy, cfg, bars, signals, |bars|).portfolio).Err?
    ensures r.Err? && bars != [] ==> r.error == ZeroDivisionError
    ensures r.Ok? ==> r.value.trades == Simulate(Legacy, cfg, bars, signals, |bars|).trades
    ensures r.Ok? ==> r.value.portfolio == Simulate(Legacy, cfg, bars, signals, |bars|).portfolio
    ensures r.Ok? ==> Summary(r.value.portfolio) == Ok(r.value.performance)
  {
    var book := Book(cfg.initialCapital, 0, 0.0, [], []);
    var i := 0;
    while i < |bars|
      invariant 0 <= i <= |bars|
      invariant book == Simulate(Legacy, cfg, bars, signals, i)
    {
      var bar := bars[i];
      var signal := signals[i];
      SimulateNext(Legacy, cfg, bars, signals, i);
      ghost var entered := Open(cfg, AfterExit(Legacy, cfg, book, bar, signal), bar, signal);
      book := ManagePositionLegacy(cfg, book, bar, signal);
      book := EnterOnBuy(cfg, book, bar, signal);
      assert book == entered;
      var value := Worth(book.capital, book.position, bar.close);
      book := book.(portfolio := book.portfolio + [Snapshot(bar.day, value, book.position, bar.close)]);
      assert book == Record(entered, bar);
      i := i + 1;
    }
    OneSnapshotPerBar(Legacy, cfg, bars, signals, |bars|);
    if book.portfolio == [] {
      return Err(KeyError);
    }
    var performance := CalculatePerformance(book.portfolio);
    if performance.Err? {
      return Err(performance.error);
    }
    return Ok(LegacyBacktest(book.trades, book.portfolio, performance.value));
  }

  /**
   * The exit block of the legacy `run`: with a position open, sell it all
   * when the price is at or below `entry * (1 - stop_loss)`, else when it is
   * at or above `entry * (1 + take_profit)`, else on a SELL signal.
   */
  method ManagePositionLegacy(cfg: Config, book: Book, bar: Bar, signal: Signal) returns (after: Book)
    ensures after == AfterExit(Legacy, cfg, book, bar, signal)
  {
    after := book;
    var price := bar.close;
    if book.position > 0 {
      var proceeds := Proceeds(book.position, price, cfg.fee);
      if Enabled(cfg.stopLoss) && price <= book.entryPrice * (1.0 - cfg.stopLoss.value) {
        after := book.(trades := book.trades + [Trade(bar.day, Sell, price, book.position, StopLoss)],
                       capital := book.capital + proceeds, position := 0);
      } else if Enabled(cfg.takeProfit) && price >= book.entryPrice * (1.0 + cfg.takeProfit.value) {
        after := book.(trades := book.trades + [Trade(bar.day, Sell, price, book.position, TakeProfit)],
                       capital := book.capital + proceeds, position := 0);
      } else if signal == SELL {
        after := book.(trades := book.trades + [Trade(bar.day, Sell, price, book.position, OnSignal)],
                       capital := book.capital + proceeds, position := 0);
      }
    }
  }

  // ---------------------------------------------------------------------------
  // Performance summary

  /**
   * The metrics mapping: empty for an empty log. The values are float64
   * (`capital + position * close` with the close read from the bar frame),
   * so the total return may be NaN or infinite.
   */
  datatype Report = NoMetrics | Metrics(totalReturn: Option<Ext>, annualized: Growth, maxDrawdown: Ext, sharpe: Sharpe)

  /**
   * What `_calculate_performance` returns: nothing for an empty log;
   * ZeroDivisionError when the dates span no day, from the integer
   * division `365 / days`; otherwise the four metrics, where every other
   * division by zero gives NaN or an infinity instead of raising.
   */
  function Summary(portfolio: seq<Snapshot>): Result<Report, Failure> {
    if portfolio == [] then Ok(NoMetrics)
    else
      var values := Engine.Values(portfolio);
      var start := values[0];
      var end := values[|values| - 1];
      var days := portfolio[|portfolio| - 1].day - portfolio[0].day;
      if days == 0 then Err(ZeroDivisionError)
      else
        var total := FloatDiv(end - start, start);
        Ok(Metrics(total, Compounded(total, days), WorstDrawdown(values, |values|), SimpleSharpe(values)))
  }

  /**
   * `_calculate_performance`: the total return, then `_annualized_return`,
   * `_max_drawdown` and `_sharpe_ratio`.
   */
  method CalculatePerformance(portfolio: seq<Snapshot>) returns (r: Result<Report, Failure>)
    ensures r == Summary(portfolio)
  {
    if portfolio == [] {
      return Ok(NoMetrics);
    }
    var values := Engine.Values(portfolio);
    var start := values[0];
    var end := values[|values| - 1];
    var total := FloatDiv(end - start, start);
    var days := portfolio[|portfolio| - 1].day - portfolio[0].day;
    if days == 0 {
      return Err(ZeroDivisionError);
    }
    var drawdown := MaxDrawdownLoop(values);
    var sharpe := SharpeRatio(values);
    return Ok(Metrics(total, Compounded(total, days), drawdown, sharpe));
  }

  /**
   * A one-snapshot log has first and last date equal, so `365 / days`
   * divides by zero: the legacy summary fails where the current engine
   * reports zeros.
   */
  lemma SingleSnapshotFails(portfolio: seq<Snapshot>)
    requires |portfolio| == 1
    ensures Summary(portfolio) == Err(ZeroDivisionError)
    ensures Engine.CalculatePerformance(portfolio).annualized == NoSpan
  {
  }

  /** The summary of a non-empty log fails exactly when its dates span no day. */
  lemma SummaryFailsOnlyOnSameDay(portfolio: seq<Snapshot>)
    requires portfolio != []
    ensures Summary(portfolio).Err? <==> portfolio[|portfolio| - 1].day == portfolio[0].day
  {
  }

  /**
   * A legacy report's drawdown is never negative (it is +inf below a zero
   * peak), and its Sharpe variance is positive when the ratio is a number
   * other than 0.
   */
  lemma ReportBounds(portfolio: seq<Snapshot>)
    requires Summary(portfolio).Ok? && Summary(portfolio).value.Metrics?
    ensures LessEq(Fin(0.0), Summary(portfolio).value.maxDrawdown)
    ensures Summary(portfolio).value.sharpe.MeanOverDeviation? ==> Summary(portfolio).value.sharpe.variance > 0.0
  {
    var values := Engine.Values(portfolio);
    WorstIsLargest(values, |values|);
  }

  /**
   * From a non-zero first value, where the legacy summary succeeds on two
   * or more snapshots it agrees with the current engine on the total
   * return, the drawdown and the annualized growth.
   */
  lemma AgreesWithCurrent(portfolio: seq<Snapshot>)
    requires |portfolio| >= 2 && Summary(portfolio).Ok? && portfolio[0].value != 0.0
    ensures var cur := Engine.CalculatePerformance(portfolio);
      var leg := Summary(portfolio).value;
      && leg.totalReturn == Some(Fin(cur.totalReturn))
      && cur.maxDrawdown == Some(leg.maxDrawdown)
      && (leg.annualized == cur.annualized || portfolio[|portfolio| - 1].day < portfolio[0].day)
  {
    var values := Engine.Values(portfolio);
    var start := values[0];
    var end := values[|values| - 1];
    assert Engine.TotalReturn(start, end) == (end - start) / start;
    LoopMatchesVectorised(values);
  }

  /**
   * From a zero first value the two summaries part: the current engine
   * reports a total return of 0.0, the legacy one NaN when the last value
   * is 0 too and an infinity signed like the last value otherwise.
   */
  lemma ZeroStartDiffers(portfolio: seq<Snapshot>)
    requires |portfolio| >= 2 && portfolio[0].value == 0.0 && portfolio[|portfolio| - 1].day != portfolio[0].day
    ensures var end := portfolio[|portfolio| - 1].value;
      && Engine.CalculatePerformance(portfolio).totalReturn == 0.0
      && Summary(portfolio).Ok?
      && Summary(portfolio).value.totalReturn
         == (if end == 0.0 then None else if end > 0.0 then Some(PosInf) else Some(NegInf))
  {
  }

  /**
   * A log that stays at 0 over two days: the total return, and so the
   * annualized return, are NaN, the drawdown loop skips every NaN and ends
   * at 0.0, and the Sharpe ratio is NaN.
   */
  lemma ZeroCapitalSummary()
    ensures Summary([Snapshot(0, 0.0, 0, 100.0), Snapshot(1, 0.0, 0, 101.0)])
         == Ok(Metrics(None, Compounded(None, 1), Fin(0.0), NotANumber))
  {
    var values := Engine.Values([Snapshot(0, 0.0, 0, 100.0), Snapshot(1, 0.0, 0, 101.0)]);
    assert values == [0.0, 0.0];
    ZeroPeakDrawdowns();
    assert !NoZeroBefore(values, 1);
  }

  // ---------------------------------------------------------------------------
  // Worked scenario

  /**
   * BUY at 100 with `stop_loss=0.9` and `take_profit=1.1` read as
   * fractions: the exits sit at 10 and 210, so the closes 95, 90, 115, 110
   * never trigger one and the log holds only the BUY.
   */
  lemma StopLossScenarioNeverExits()
    ensures var cfg := Config(10000.0, 0.001, 0.1, Some(0.9), Some(1.1));
      var b := Simulate(Legacy, cfg, Engine.Days([100.0, 95.0, 90.0, 115.0, 110.0]), [BUY, HOLD, HOLD, HOLD, HOLD], 5);
      b.trades == [Trade(0, Buy, 100.0, 10, OnSignal)] && b.position == 10
  {
    var cfg := Config(10000.0, 0.001, 0.1, Some(0.9), Some(1.1));
    var bars := Engine.Days([100.0, 95.0, 90.0, 115.0, 110.0]);
    var signals := [BUY, HOLD, HOLD, HOLD, HOLD];
    assert SharesFor(10000.0, 0.1, 100.0) == 10;
    var b1 := Simulate(Legacy, cfg, bars, signals, 1);
    assert b1.position == 10 && b1.entryPrice == 100.0 && b1.trades == [Trade(0, Buy, 100.0, 10, OnSignal)];
    var b2 := Simulate(Legacy, cfg, bars, signals, 2);
    assert b2.position == 10 && b2.entryPrice == 100.0 && b2.trades == b1.trades;
    var b3 := Simulate(Legacy, cfg, bars, signals, 3);
    assert b3.position == 10 && b3.entryPrice == 100.0 && b3.trades == b1.trades;
    var b4 := Simulate(Legacy, cfg, bars, signals, 4);
    assert b4.position == 10 && b4.entryPrice == 100.0 && b4.trades == b1.trades;
  }
}
