/**
 * The bar-by-bar trade simulation shared by both backtesting engines.
 *
 * Both engines run the same single-position, long-only account over aligned
 * (bar, signal) pairs: on each bar they first try to close an open position,
 * then try to open one on a BUY signal, then record one portfolio snapshot.
 * They differ only in the exit rule (`Variant`): the current engine checks the
 * SELL signal first and reads stop-loss/take-profit as ratios of the entry
 * price; the legacy engine checks the thresholds first and reads them as
 * fractions. `Simulate` is the specification both `Run` methods are proved
 * against.
 */
module Simulator {
  import opened Common

  /** One row of the market data: its date as a day number, and its close. */
  datatype Bar = Bar(day: int, close: real)

  datatype Action = Buy | Sell

  /** The `reason` tag of a trade: 'signal', 'stop_loss' or 'take_profit'. */
  datatype Reason = OnSignal | StopLoss | TakeProfit

  datatype Trade = Trade(day: int, action: Action, price: real, shares: int, reason: Reason)

  /** One row of the portfolio log. */
  datatype Snapshot = Snapshot(day: int, value: real, position: int, price: real)

  /**
   * The engine's constructor arguments. A stop-loss or take-profit of `None`
   * or `0.0` is switched off (Python truthiness).
   */
  datatype Config = Config(
    initialCapital: real,
    fee: real,
    positionSize: real,
    stopLoss: Option<real>,
    takeProfit: Option<real>)

  /** Which engine's exit rule applies. */
  datatype Variant = Current | Legacy

  /** The loop state of `run`: the three account variables and the two logs. */
  datatype Book = Book(
    capital: real,
    position: int,
    entryPrice: real,
    trades: seq<Trade>,
    portfolio: seq<Snapshot>)

  predicate Enabled(threshold: Option<real>) {
    threshold.Some? && threshold.value != 0.0
  }

  predicate PositivePrices(bars: seq<Bar>) {
    forall i :: 0 <= i < |bars| ==> bars[i].close > 0.0
  }

  function Initial(cfg: Config): Book {
    Book(cfg.initialCapital, 0, 0.0, [], [])
  }

  /** Exit rule of the current engine: SELL signal, then stop-loss ratio, then take-profit ratio. */
  function CurrentExit(cfg: Config, signal: Signal, price: real, entry: real): Option<Reason> {
    if signal == SELL then Some(OnSignal)
    else if Enabled(cfg.stopLoss) && price <= entry * cfg.stopLoss.value then Some(StopLoss)
    else if Enabled(cfg.takeProfit) && price >= entry * cfg.takeProfit.value then Some(TakeProfit)
    else None
  }

  /** Exit rule of the legacy engine: stop-loss fraction, then take-profit fraction, then SELL signal. */
  function LegacyExit(cfg: Config, signal: Signal, price: real, entry: real): Option<Reason> {
    if Enabled(cfg.stopLoss) && price <= entry * (1.0 - cfg.stopLoss.value) then Some(StopLoss)
    else if Enabled(cfg.takeProfit) && price >= entry * (1.0 + cfg.takeProfit.value) then Some(TakeProfit)
    else if signal == SELL then Some(OnSignal)
    else None
  }

  function ExitReason(v: Variant, cfg: Config, signal: Signal, price: real, entry: real): Option<Reason> {
    match v
    case Current => CurrentExit(cfg, signal, price, entry)
    case Legacy => LegacyExit(cfg, signal, price, entry)
  }

  /** Cash received for selling `shares` at `price`, net of the proportional fee. */
  function Proceeds(shares: int, price: real, fee: real): real {
    shares as real * price * (1.0 - fee)
  }

  /** Cash paid for buying `shares` at `price`, fee included. */
  function Cost(shares: int, price: real, fee: real): real {
    shares as real * price * (1.0 + fee)
  }

  /** Sell the whole position at the bar's close, net of the fee. */
  function Close(cfg: Config, b: Book, bar: Bar, reason: Reason): Book {
    b.(capital := b.capital + Proceeds(b.position, bar.close, cfg.fee),
       position := 0,
       trades := b.trades + [Trade(bar.day, Sell, bar.close, b.position, reason)])
  }

  /** First half of a bar: close an open position when the exit rule fires. */
  function AfterExit(v: Variant, cfg: Config, b: Book, bar: Bar, signal: Signal): Book {
    if b.position > 0 then
      match ExitReason(v, cfg, signal, bar.close, b.entryPrice)
      case Some(r) => Close(cfg, b, bar, r)
      case None => b
    else b
  }

  /** `max_invest // price`: the whole number of shares the committed cash buys. */
  function SharesFor(capital: real, positionSize: real, price: real): int
    requires price > 0.0
  {
    ((capital * positionSize) / price).Floor
  }

  /** Second half of a bar: open a position on a BUY signal when flat, funded and at least one share. */
  function Open(cfg: Config, b: Book, bar: Bar, signal: Signal): Book
    requires bar.close > 0.0
  {
    if signal == BUY && b.position == 0 && b.capital > 0.0 then
      var shares := SharesFor(b.capital, cfg.positionSize, bar.close);
      if shares > 0 then
        b.(capital := b.capital - Cost(shares, bar.close, cfg.fee),
           position := shares,
           entryPrice := bar.close,
           trades := b.trades + [Trade(bar.day, Buy, bar.close, shares, OnSignal)])
      else b
    else b
  }

  /** The portfolio value: cash plus the position at the close. */
  function Worth(capital: real, position: int, price: real): real {
    capital + position as real * price
  }

  /** The snapshot of an account at a bar: `capital + position * price`, with the position and price. */
  function Mark(capital: real, position: int, bar: Bar): Snapshot {
    Snapshot(bar.day, Worth(capital, position, bar.close), position, bar.close)
  }

  /** Last part of a bar: append its snapshot to the portfolio log. */
  function Record(b: Book, bar: Bar): Book {
    b.(portfolio := b.portfolio + [Mark(b.capital, b.position, bar)])
  }

  function Step(v: Variant, cfg: Config, b: Book, bar: Bar, signal: Signal): Book
    requires bar.close > 0.0
  {
    Record(Open(cfg, AfterExit(v, cfg, b, bar, signal), bar, signal), bar)
  }

  /**
   * The entry block shared by both `run` loops: on a BUY signal, with no
   * position and positive capital, buy `capital * position_size // price`
   * shares when that is at least one, paying the fee on top.
   */
  method EnterOnBuy(cfg: Config, book: Book, bar: Bar, signal: Signal) returns (after: Book)
    requires bar.close > 0.0
    ensures after == Open(cfg, book, bar, signal)
  {
    after := book;
    var price := bar.close;
    if signal == BUY && book.position == 0 && book.capital > 0.0 {
      var shares := SharesFor(book.capital, cfg.positionSize, price);
      if shares > 0 {
        var cost := Cost(shares, price, cfg.fee);
        after := book.(capital := book.capital - cost, position := shares, entryPrice := price,
                       trades := book.trades + [Trade(bar.day, Buy, price, shares, OnSignal)]);
      }
    }
  }

  /** The book after the first `n` bars. */
  function Simulate(v: Variant, cfg: Config, bars: seq<Bar>, signals: seq<Signal>, n: nat): Book
    requires n <= |bars| <= |signals| && PositivePrices(bars)
  {
    if n == 0 then Initial(cfg)
    else Step(v, cfg, Simulate(v, cfg, bars, signals, n - 1), bars[n - 1], signals[n - 1])
  }

  /** One more bar is one more step. */
  lemma SimulateNext(v: Variant, cfg: Config, bars: seq<Bar>, signals: seq<Signal>, n: nat)
    requires n < |bars| <= |signals| && PositivePrices(bars)
    ensures bars[n].close > 0.0
    ensures Simulate(v, cfg, bars, signals, n + 1) == Step(v, cfg, Simulate(v, cfg, bars, signals, n), bars[n], signals[n])
  {
  }

  // ---------------------------------------------------------------------------
  // Invariants of the book

  predicate Alternating(trades: seq<Trade>) {
    forall i :: 0 <= i < |trades| ==> trades[i].action == (if i % 2 == 0 then Buy else Sell)
  }

  /**
   * The position is never negative; trades alternate BUY, SELL, BUY, ...
   * starting with BUY; a position is open exactly when the log ends on a BUY,
   * and then it holds the shares and the price of that BUY; every trade moves
   * a positive number of shares and every SELL sells what the BUY before it
   * bought.
   */
  predicate Consistent(b: Book) {
    && b.position >= 0
    && Alternating(b.trades)
    && (b.position > 0 <==> |b.trades| % 2 == 1)
    && (forall i :: 0 <= i < |b.trades| ==> b.trades[i].shares > 0)
    && (forall i :: 0 < i < |b.trades| && i % 2 == 1 ==> b.trades[i].shares == b.trades[i - 1].shares)
    && (b.position > 0 ==>
          b.position == b.trades[|b.trades| - 1].shares && b.entryPrice == b.trades[|b.trades| - 1].price)
  }

  lemma CloseConsistent(cfg: Config, b: Book, bar: Bar, reason: Reason)
    requires Consistent(b) && b.position > 0
    ensures Consistent(Close(cfg, b, bar, reason))
  {
    var c := Close(cfg, b, bar, reason);
    var n := |b.trades|;
    assert n % 2 == 1;
    assert c.trades[n] == Trade(bar.day, Sell, bar.close, b.position, reason);
    forall i | 0 <= i < |c.trades|
      ensures c.trades[i].action == (if i % 2 == 0 then Buy else Sell)
    {
      if i < n { assert c.trades[i] == b.trades[i]; }
    }
  }

  lemma OpenConsistent(cfg: Config, b: Book, bar: Bar, signal: Signal)
    requires Consistent(b) && bar.close > 0.0
    ensures Consistent(Open(cfg, b, bar, signal))
  {
    var o := Open(cfg, b, bar, signal);
    var n := |b.trades|;
    if o != b {
      assert b.position == 0 && n % 2 == 0;
      assert |o.trades| == n + 1 && o.trades[n].action == Buy;
      forall i | 0 <= i < |o.trades|
        ensures o.trades[i].action == (if i % 2 == 0 then Buy else Sell)
      {
        if i < n { assert o.trades[i] == b.trades[i]; }
      }
    }
  }

  lemma StepConsistent(v: Variant, cfg: Config, b: Book, bar: Bar, signal: Signal)
    requires bar.close > 0.0 && Consistent(b)
    ensures Consistent(Step(v, cfg, b, bar, signal))
  {
    var e := AfterExit(v, cfg, b, bar, signal);
    assert Consistent(e) by {
      var r := ExitReason(v, cfg, signal, bar.close, b.entryPrice);
      if b.position > 0 && r.Some? {
        assert e == Close(cfg, b, bar, r.value);
        CloseConsistent(cfg, b, bar, r.value);
      } else {
        assert e == b;
      }
    }
    OpenConsistent(cfg, e, bar, signal);
    var o := Open(cfg, e, bar, signal);
    assert Step(v, cfg, b, bar, signal).trades == o.trades;
  }

  /** The invariant holds after every prefix of the run. */
  lemma {:induction false} SimulateConsistent(v: Variant, cfg: Config, bars: seq<Bar>, signals: seq<Signal>, n: nat)
    requires n <= |bars| <= |signals| && PositivePrices(bars)
    ensures Consistent(Simulate(v, cfg, bars, signals, n))
  {
    if n > 0 {
      SimulateConsistent(v, cfg, bars, signals, n - 1);
      StepConsistent(v, cfg, Simulate(v, cfg, bars, signals, n - 1), bars[n - 1], signals[n - 1]);
    }
  }

  /** Never two BUYs in a row: a BUY is followed by a SELL or ends the log. */
  lemma NoTwoBuysInARow(v: Variant, cfg: Config, bars: seq<Bar>, signals: seq<Signal>, n: nat, i: nat)
    requires n <= |bars| <= |signals| && PositivePrices(bars)
    requires i + 1 < |Simulate(v, cfg, bars, signals, n).trades|
    requires Simulate(v, cfg, bars, signals, n).trades[i].action == Buy
    ensures Simulate(v, cfg, bars, signals, n).trades[i + 1].action == Sell
  {
    SimulateConsistent(v, cfg, bars, signals, n);
    BuyThenSell(Simulate(v, cfg, bars, signals, n), i);
  }

  lemma BuyThenSell(b: Book, i: nat)
    requires Consistent(b) && i + 1 < |b.trades| && b.trades[i].action == Buy
    ensures b.trades[i + 1].action == Sell
  {
    assert b.trades[i].action == (if i % 2 == 0 then Buy else Sell);
    assert b.trades[i + 1].action == (if (i + 1) % 2 == 0 then Buy else Sell);
  }

  // ---------------------------------------------------------------------------
  // Logs only grow, one snapshot per bar

  /** A bar appends to the trade log and appends exactly its own snapshot to the portfolio log. */
  lemma StepAppends(v: Variant, cfg: Config, b: Book, bar: Bar, signal: Signal)
    requires bar.close > 0.0
    ensures var s := Step(v, cfg, b, bar, signal);
      && b.trades <= s.trades
      && s.portfolio == b.portfolio + [Mark(s.capital, s.position, bar)]
  {
    var e := AfterExit(v, cfg, b, bar, signal);
    assert e.portfolio == b.portfolio && b.trades <= e.trades;
    var o := Open(cfg, e, bar, signal);
    assert o.portfolio == e.portfolio && e.trades <= o.trades;
  }

  lemma {:induction false} LogsGrow(v: Variant, cfg: Config, bars: seq<Bar>, signals: seq<Signal>, m: nat, n: nat)
    requires m <= n <= |bars| <= |signals| && PositivePrices(bars)
    ensures Simulate(v, cfg, bars, signals, m).trades <= Simulate(v, cfg, bars, signals, n).trades
    ensures Simulate(v, cfg, bars, signals, m).portfolio <= Simulate(v, cfg, bars, signals, n).portfolio
  {
    if m < n {
      LogsGrow(v, cfg, bars, signals, m, n - 1);
      StepAppends(v, cfg, Simulate(v, cfg, bars, signals, n - 1), bars[n - 1], signals[n - 1]);
    }
  }

  /** The snapshot of bar `k`: taken from the book right after that bar's trades. */
  function SnapshotAfter(v: Variant, cfg: Config, bars: seq<Bar>, signals: seq<Signal>, k: nat): Snapshot
    requires k < |bars| <= |signals| && PositivePrices(bars)
  {
    var after := Simulate(v, cfg, bars, signals, k + 1);
    Mark(after.capital, after.position, bars[k])
  }

  /**
   * Exactly one snapshot per bar; snapshot `k` carries bar `k`'s date and
   * close, and the value `capital + position * price` of the book right after
   * bar `k`'s trades.
   */
  lemma {:induction false} OneSnapshotPerBar(v: Variant, cfg: Config, bars: seq<Bar>, signals: seq<Signal>, n: nat)
    requires n <= |bars| <= |signals| && PositivePrices(bars)
    ensures |Simulate(v, cfg, bars, signals, n).portfolio| == n
    ensures forall k :: 0 <= k < n ==> Simulate(v, cfg, bars, signals, n).portfolio[k] == SnapshotAfter(v, cfg, bars, signals, k)
  {
    if n > 0 {
      OneSnapshotPerBar(v, cfg, bars, signals, n - 1);
      StepAppends(v, cfg, Simulate(v, cfg, bars, signals, n - 1), bars[n - 1], signals[n - 1]);
      var prev := Simulate(v, cfg, bars, signals, n - 1).portfolio;
      var cur := Simulate(v, cfg, bars, signals, n).portfolio;
      assert cur == prev + [SnapshotAfter(v, cfg, bars, signals, n - 1)];
      forall k | 0 <= k < n
        ensures cur[k] == SnapshotAfter(v, cfg, bars, signals, k)
      {
        if k < n - 1 {
          assert cur[k] == prev[k];
        } else {
          assert cur[k] == cur[n - 1];
        }
      }
    }
  }

  // ---------------------------------------------------------------------------
  // Entry and exit rules, one bar at a time

  /**
   * A bar records a BUY exactly when its signal is BUY, no position is open
   * once the exit check is done, capital is positive and the floor-sized
   * order is at least one share; the BUY then debits the shares' cost plus
   * fee and sets the entry price. Otherwise the entry step changes nothing.
   */
  lemma EntryRule(v: Variant, cfg: Config, b: Book, bar: Bar, signal: Signal)
    requires bar.close > 0.0
    ensures var e := AfterExit(v, cfg, b, bar, signal);
      var s := Step(v, cfg, b, bar, signal);
      var shares := SharesFor(e.capital, cfg.positionSize, bar.close);
      var buys := signal == BUY && e.position == 0 && e.capital > 0.0 && shares > 0;
      && (buys ==>
            && s.trades == e.trades + [Trade(bar.day, Buy, bar.close, shares, OnSignal)]
            && s.capital == e.capital - shares as real * bar.close * (1.0 + cfg.fee)
            && s.position == shares && s.entryPrice == bar.close)
      && (!buys ==>
            s.trades == e.trades && s.capital == e.capital && s.position == e.position && s.entryPrice == e.entryPrice)
  {
  }

  /**
   * With a position open, an exit sells every share at the close, credits
   * `position * price * (1 - fee)` and tags the trade with the rule that
   * fired; without an exit, or without a position, nothing changes.
   */
  lemma ExitRule(v: Variant, cfg: Config, b: Book, bar: Bar, signal: Signal)
    ensures var e := AfterExit(v, cfg, b, bar, signal);
      var r := ExitReason(v, cfg, signal, bar.close, b.entryPrice);
      && (b.position > 0 && r.Some? ==>
            && e.trades == b.trades + [Trade(bar.day, Sell, bar.close, b.position, r.value)]
            && e.capital == b.capital + b.position as real * bar.close * (1.0 - cfg.fee)
            && e.position == 0)
      && (b.position <= 0 || r.None? ==> e == b)
  {
  }

  /**
   * Same-bar re-entry: a bar that closes a position on a threshold and
   * carries a BUY signal reopens at once when the proceeds buy a share.
   */
  lemma ReentryOnSameBar(v: Variant, cfg: Config, b: Book, bar: Bar)
    requires bar.close > 0.0 && b.position > 0
    requires ExitReason(v, cfg, BUY, bar.close, b.entryPrice).Some?
    requires var e := AfterExit(v, cfg, b, bar, BUY);
      e.capital > 0.0 && SharesFor(e.capital, cfg.positionSize, bar.close) > 0
    ensures var r := ExitReason(v, cfg, BUY, bar.close, b.entryPrice).value;
      var e := AfterExit(v, cfg, b, bar, BUY);
      && r != OnSignal
      && Step(v, cfg, b, bar, BUY).trades ==
           b.trades + [Trade(bar.day, Sell, bar.close, b.position, r),
                       Trade(bar.day, Buy, bar.close, SharesFor(e.capital, cfg.positionSize, bar.close), OnSignal)]
  {
  }

  // ---------------------------------------------------------------------------
  // Whole-run consequences

  /** All-HOLD signals: no trade, and every snapshot is worth the initial capital. */
  lemma {:induction false} AllHoldIsIdle(v: Variant, cfg: Config, bars: seq<Bar>, signals: seq<Signal>, n: nat)
    requires n <= |bars| <= |signals| && PositivePrices(bars)
    requires forall k :: 0 <= k < n ==> signals[k] == HOLD
    ensures var b := Simulate(v, cfg, bars, signals, n);
      && b.trades == [] && b.position == 0 && b.capital == cfg.initialCapital
      && |b.portfolio| == n
      && forall k :: 0 <= k < n ==> b.portfolio[k].value == cfg.initialCapital
  {
    if n > 0 {
      AllHoldIsIdle(v, cfg, bars, signals, n - 1);
    }
  }

  /**
   * Single entry: when no exit can fire (no SELL signal, both thresholds
   * off), the log never holds more than one trade, the first BUY.
   */
  lemma {:induction false} SingleEntry(v: Variant, cfg: Config, bars: seq<Bar>, signals: seq<Signal>, n: nat)
    requires n <= |bars| <= |signals| && PositivePrices(bars)
    requires !Enabled(cfg.stopLoss) && !Enabled(cfg.takeProfit)
    requires forall k :: 0 <= k < n ==> signals[k] != SELL
    ensures |Simulate(v, cfg, bars, signals, n).trades| <= 1
    ensures Simulate(v, cfg, bars, signals, n).trades != [] ==> Simulate(v, cfg, bars, signals, n).position > 0
  {
    if n > 0 {
      SingleEntry(v, cfg, bars, signals, n - 1);
      SimulateConsistent(v, cfg, bars, signals, n - 1);
    }
  }

  /** The conditions under which a buy can never overdraw the account. */
  predicate Affordable(cfg: Config) {
    && cfg.initialCapital >= 0.0
    && 0.0 <= cfg.fee <= 1.0
    && 0.0 <= cfg.positionSize
    && cfg.positionSize * (1.0 + cfg.fee) <= 1.0
  }

  lemma BuyIsAffordable(capital: real, positionSize: real, fee: real, price: real)
    requires capital > 0.0 && price > 0.0 && 0.0 <= fee && 0.0 <= positionSize
    requires positionSize * (1.0 + fee) <= 1.0
    ensures var shares := SharesFor(capital, positionSize, price);
      shares > 0 ==> shares as real * price * (1.0 + fee) <= capital
  {
    var shares := SharesFor(capital, positionSize, price);
    var q := (capital * positionSize) / price;
    assert shares as real <= q;
    assert q * price == capital * positionSize;
    if shares > 0 {
      assert shares as real * price <= capital * positionSize by {
        assert shares as real * price <= q * price;
      }
      assert shares as real * price * (1.0 + fee) <= capital * positionSize * (1.0 + fee);
      assert capital * (positionSize * (1.0 + fee)) <= capital * 1.0;
    }
  }

  /**
   * Capital stays non-negative when the committed fraction plus its fee never
   * exceeds the cash: `position_size * (1 + fee) <= 1`.
   */
  lemma {:induction false} CapitalNonNegative(v: Variant, cfg: Config, bars: seq<Bar>, signals: seq<Signal>, n: nat)
    requires n <= |bars| <= |signals| && PositivePrices(bars) && Affordable(cfg)
    ensures Simulate(v, cfg, bars, signals, n).capital >= 0.0
    ensures Simulate(v, cfg, bars, signals, n).position >= 0
  {
    if n > 0 {
      CapitalNonNegative(v, cfg, bars, signals, n - 1);
      StepKeepsSolvent(v, cfg, Simulate(v, cfg, bars, signals, n - 1), bars[n - 1], signals[n - 1]);
    }
  }

  lemma StepKeepsSolvent(v: Variant, cfg: Config, b: Book, bar: Bar, signal: Signal)
    requires bar.close > 0.0 && Affordable(cfg) && b.capital >= 0.0 && b.position >= 0
    ensures Step(v, cfg, b, bar, signal).capital >= 0.0 && Step(v, cfg, b, bar, signal).position >= 0
  {
    ExitKeepsSolvent(v, cfg, b, bar, signal);
    var e := AfterExit(v, cfg, b, bar, signal);
    if e.capital > 0.0 {
      BuyIsAffordable(e.capital, cfg.positionSize, cfg.fee, bar.close);
    }
  }

  lemma ExitKeepsSolvent(v: Variant, cfg: Config, b: Book, bar: Bar, signal: Signal)
    requires bar.close > 0.0 && cfg.fee <= 1.0 && b.capital >= 0.0 && b.position >= 0
    ensures AfterExit(v, cfg, b, bar, signal).capital >= 0.0 && AfterExit(v, cfg, b, bar, signal).position >= 0
  {
    var r := ExitReason(v, cfg, signal, bar.close, b.entryPrice);
    if b.position > 0 && r.Some? {
      var proceeds := b.position as real * bar.close;
      assert proceeds >= 0.0;
      assert proceeds * (1.0 - cfg.fee) >= 0.0;
    }
  }

  // ---------------------------------------------------------------------------
  // The two exit orders compared

  /**
   * A current-engine configuration and a legacy one that describe the same
   * thresholds: ratio `r` is fraction `1 - r` for the stop-loss and `r - 1`
   * for the take-profit, and each threshold is on in both or in neither.
   */
  predicate SameThresholds(cur: Config, leg: Config) {
    && cur.initialCapital == leg.initialCapital
    && cur.fee == leg.fee
    && cur.positionSize == leg.positionSize
    && (Enabled(cur.stopLoss) <==> Enabled(leg.stopLoss))
    && (Enabled(cur.stopLoss) ==> cur.stopLoss.value == 1.0 - leg.stopLoss.value)
    && (Enabled(cur.takeProfit) <==> Enabled(leg.takeProfit))
    && (Enabled(cur.takeProfit) ==> cur.takeProfit.value == 1.0 + leg.takeProfit.value)
  }

  /**
   * On one bar the two exit orders close a position in exactly the same
   * cases; they disagree only on the reason, and only when a SELL signal and
   * a threshold breach coincide.
   */
  lemma ExitOrdersAgree(cur: Config, leg: Config, signal: Signal, price: real, entry: real)
    requires SameThresholds(cur, leg)
    ensures CurrentExit(cur, signal, price, entry).Some? == LegacyExit(leg, signal, price, entry).Some?
    ensures CurrentExit(cur, signal, price, entry) != LegacyExit(leg, signal, price, entry) ==>
      signal == SELL && LegacyExit(leg, signal, price, entry) != Some(OnSignal)
  {
  }

  function Untagged(trades: seq<Trade>): (r: seq<Trade>)
    ensures |r| == |trades|
  {
    if trades == [] then []
    else Untagged(trades[..|trades| - 1]) + [trades[|trades| - 1].(reason := OnSignal)]
  }

  lemma UntaggedAppend(trades: seq<Trade>, t: Trade)
    ensures Untagged(trades + [t]) == Untagged(trades) + [t.(reason := OnSignal)]
  {
    assert (trades + [t])[..|trades|] == trades;
  }

  /** A book with every trade's reason erased. */
  function Erased(b: Book): Book {
    b.(trades := Untagged(b.trades))
  }

  lemma CloseDiffersOnlyInReasons(cur: Config, leg: Config, c: Book, l: Book, bar: Bar, rc: Reason, rl: Reason)
    requires cur.fee == leg.fee && Erased(c) == Erased(l)
    ensures Erased(Close(cur, c, bar, rc)) == Erased(Close(leg, l, bar, rl))
  {
    assert c.capital == Erased(c).capital == Erased(l).capital == l.capital;
    assert c.position == Erased(c).position == Erased(l).position == l.position;
    UntaggedAppend(c.trades, Trade(bar.day, Sell, bar.close, c.position, rc));
    UntaggedAppend(l.trades, Trade(bar.day, Sell, bar.close, l.position, rl));
  }

  lemma ExitDiffersOnlyInReasons(cur: Config, leg: Config, c: Book, l: Book, bar: Bar, signal: Signal)
    requires SameThresholds(cur, leg) && Erased(c) == Erased(l)
    ensures Erased(AfterExit(Current, cur, c, bar, signal)) == Erased(AfterExit(Legacy, leg, l, bar, signal))
  {
    assert c.position == Erased(c).position == Erased(l).position == l.position;
    assert c.entryPrice == Erased(c).entryPrice == Erased(l).entryPrice == l.entryPrice;
    var rc := CurrentExit(cur, signal, bar.close, c.entryPrice);
    var rl := LegacyExit(leg, signal, bar.close, l.entryPrice);
    ExitOrdersAgree(cur, leg, signal, bar.close, c.entryPrice);
    if c.position > 0 && rc.Some? {
      CloseDiffersOnlyInReasons(cur, leg, c, l, bar, rc.value, rl.value);
    }
  }

  lemma OpenDiffersOnlyInReasons(cur: Config, leg: Config, c: Book, l: Book, bar: Bar, signal: Signal)
    requires bar.close > 0.0 && SameThresholds(cur, leg) && Erased(c) == Erased(l)
    ensures Erased(Open(cur, c, bar, signal)) == Erased(Open(leg, l, bar, signal))
  {
    assert c.position == l.position && c.capital == l.capital;
    if Open(cur, c, bar, signal) != c {
      var shares := SharesFor(c.capital, cur.positionSize, bar.close);
      UntaggedAppend(c.trades, Trade(bar.day, Buy, bar.close, shares, OnSignal));
      UntaggedAppend(l.trades, Trade(bar.day, Buy, bar.close, shares, OnSignal));
    }
  }

  lemma StepDiffersOnlyInReasons(cur: Config, leg: Config, c: Book, l: Book, bar: Bar, signal: Signal)
    requires bar.close > 0.0 && SameThresholds(cur, leg) && Erased(c) == Erased(l)
    ensures Erased(Step(Current, cur, c, bar, signal)) == Erased(Step(Legacy, leg, l, bar, signal))
  {
    ExitDiffersOnlyInReasons(cur, leg, c, l, bar, signal);
    var ce := AfterExit(Current, cur, c, bar, signal);
    var le := AfterExit(Legacy, leg, l, bar, signal);
    OpenDiffersOnlyInReasons(cur, leg, ce, le, bar, signal);
    var co := Open(cur, ce, bar, signal);
    var lo := Open(leg, le, bar, signal);
    assert co.capital == lo.capital && co.position == lo.position && co.portfolio == lo.portfolio;
  }

  /**
   * Over a whole run the two engines, given the same thresholds, produce the
   * same capital, position, entry price, portfolio log and trades; only the
   * trades' reason tags may differ.
   */
  lemma {:induction false} VariantsDifferOnlyInReasons(cur: Config, leg: Config, bars: seq<Bar>, signals: seq<Signal>, n: nat)
    requires n <= |bars| <= |signals| && PositivePrices(bars) && SameThresholds(cur, leg)
    ensures Erased(Simulate(Current, cur, bars, signals, n)) == Erased(Simulate(Legacy, leg, bars, signals, n))
  {
    if n > 0 {
      VariantsDifferOnlyInReasons(cur, leg, bars, signals, n - 1);
      StepDiffersOnlyInReasons(cur, leg, Simulate(Current, cur, bars, signals, n - 1),
        Simulate(Legacy, leg, bars, signals, n - 1), bars[n - 1], signals[n - 1]);
    }
  }

  lemma StepAgreesWithoutSell(cur: Config, leg: Config, b: Book, bar: Bar, signal: Signal)
    requires bar.close > 0.0 && SameThresholds(cur, leg) && signal != SELL
    ensures Step(Current, cur, b, bar, signal) == Step(Legacy, leg, b, bar, signal)
  {
    ExitOrdersAgree(cur, leg, signal, bar.close, b.entryPrice);
    var ce := AfterExit(Current, cur, b, bar, signal);
    var le := AfterExit(Legacy, leg, b, bar, signal);
    assert ce == le;
    assert Open(cur, ce, bar, signal) == Open(leg, le, bar, signal);
  }

  /**
   * Without any SELL signal the two exit orders cannot disagree at all: the
   * runs are identical, reasons included.
   */
  lemma {:induction false} VariantsAgreeWithoutSellSignals(cur: Config, leg: Config, bars: seq<Bar>, signals: seq<Signal>, n: nat)
    requires n <= |bars| <= |signals| && PositivePrices(bars) && SameThresholds(cur, leg)
    requires forall k :: 0 <= k < n ==> signals[k] != SELL
    ensures Simulate(Current, cur, bars, signals, n) == Simulate(Legacy, leg, bars, signals, n)
  {
    if n > 0 {
      VariantsAgreeWithoutSellSignals(cur, leg, bars, signals, n - 1);
      StepAgreesWithoutSell(cur, leg, Simulate(Current, cur, bars, signals, n - 1), bars[n - 1], signals[n - 1]);
    }
  }
}
