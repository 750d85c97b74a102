/**
 * The classical RSI / MACD / Bollinger strategy: a per-row signal rule and
 * the eight tunable parameters of the strategy object.
 */
module Classical {
  import opened Common

  // ---------------------------------------------------------------------------
  // The signal rule

  /** The columns the rule reads from one row; a missing (NaN) value is None. */
  datatype Row = Row(
    close: Option<real>,
    rsi: Option<real>,
    macd: Option<real>,
    macdSignal: Option<real>,
    bbLower: Option<real>,
    bbUpper: Option<real>)

  /** `a < b` on floats where NaN compares false. */
  predicate Below(a: Option<real>, b: Option<real>) {
    a.Some? && b.Some? && a.value < b.value
  }

  /** `a <= b` on floats where NaN compares false. */
  predicate AtMost(a: Option<real>, b: Option<real>) {
    a.Some? && b.Some? && a.value <= b.value
  }

  /** RSI under `rsi_buy`, MACD above its signal line, close at or under the lower band. */
  predicate BuyCondition(row: Row, rsiBuy: real) {
    Below(row.rsi, Some(rsiBuy)) && Below(row.macdSignal, row.macd) && AtMost(row.close, row.bbLower)
  }

  /** RSI over `rsi_sell`, or else MACD under its signal line together with close at or over the upper band. */
  predicate SellCondition(row: Row, rsiSell: real) {
    Below(Some(rsiSell), row.rsi) || (Below(row.macd, row.macdSignal) && AtMost(row.bbUpper, row.close))
  }

  /** HOLD by default; BUY where the buy mask holds; SELL, written last, wherever the sell mask holds. */
  function RowSignal(row: Row, rsiBuy: real, rsiSell: real): Signal {
    if SellCondition(row, rsiSell) then SELL
    else if BuyCondition(row, rsiBuy) then BUY
    else HOLD
  }

  /** `generate_signals`: one signal per row, each decided by that row alone. */
  function Signals(data: seq<Row>, rsiBuy: real, rsiSell: real): (r: seq<Signal>)
    ensures |r| == |data|
    ensures forall i :: 0 <= i < |data| ==> r[i] == RowSignal(data[i], rsiBuy, rsiSell)
  {
    if data == [] then []
    else Signals(data[..|data| - 1], rsiBuy, rsiSell) + [RowSignal(data[|data| - 1], rsiBuy, rsiSell)]
  }

  /** SELL overrides BUY: a row is BUY exactly when it meets the buy condition and not the sell condition. */
  lemma SellOverridesBuy(row: Row, rsiBuy: real, rsiSell: real)
    ensures RowSignal(row, rsiBuy, rsiSell) == BUY <==> BuyCondition(row, rsiBuy) && !SellCondition(row, rsiSell)
    ensures RowSignal(row, rsiBuy, rsiSell) == SELL <==> SellCondition(row, rsiSell)
    ensures RowSignal(row, rsiBuy, rsiSell) == HOLD <==> !BuyCondition(row, rsiBuy) && !SellCondition(row, rsiSell)
  {
  }

  /**
   * When `rsi_buy <= rsi_sell` the two conditions exclude each other, so
   * every row meeting the buy condition is a BUY.
   */
  lemma OrderedThresholdsKeepBuys(data: seq<Row>, rsiBuy: real, rsiSell: real)
    requires rsiBuy <= rsiSell
    ensures forall i :: 0 <= i < |data| && BuyCondition(data[i], rsiBuy) ==> Signals(data, rsiBuy, rsiSell)[i] == BUY
  {
  }

  /** With `rsi_buy` above `rsi_sell` an RSI between them meets both conditions and the row is a SELL. */
  lemma CrossedThresholdsLoseBuys()
    ensures BuyCondition(Row(Some(90.0), Some(75.0), Some(1.0), Some(0.0), Some(95.0), Some(110.0)), 80.0)
    ensures RowSignal(Row(Some(90.0), Some(75.0), Some(1.0), Some(0.0), Some(95.0), Some(110.0)), 80.0, 70.0) == SELL
  {
  }

  /**
   * `&` binds tighter than `|`: an RSI over `rsi_sell` sells on its own,
   * even with MACD above its signal and the close under the upper band.
   */
  lemma RsiAloneSells()
    ensures RowSignal(Row(Some(100.0), Some(80.0), Some(1.0), Some(0.0), Some(90.0), Some(110.0)), 30.0, 70.0) == SELL
  {
  }

  /** A row whose indicators are all missing is HOLD. */
  lemma MissingIndicatorsHold(close: Option<real>, rsiBuy: real, rsiSell: real)
    ensures RowSignal(Row(close, None, None, None, None, None), rsiBuy, rsiSell) == HOLD
  {
  }

  // ---------------------------------------------------------------------------
  // The strategy object

  /** The eight attribute names that `set_parameters` can reach. */
  const ParameterNames: set<string> :=
    {"rsi_window", "rsi_buy", "rsi_sell", "macd_fast", "macd_slow", "macd_signal", "bollinger_window", "bollinger_std"}

  /**
   * `params.items()` applied in order to a parameter mapping: a key that
   * names a parameter takes the value, any other key is ignored.
   */
  function Applied(m: map<string, real>, items: seq<(string, real)>): map<string, real> {
    if items == [] then m
    else
      var (key, value) := items[|items| - 1];
      Assign(Applied(m, items[..|items| - 1]), key, value)
  }

  /** One item: a known parameter takes the value, any other key is ignored. */
  function Assign(m: map<string, real>, key: string, value: real): map<string, real> {
    if key in m then m[key := value] else m
  }

  /** Applying one more item assigns it after the ones before. */
  lemma AppliedNext(m: map<string, real>, items: seq<(string, real)>, i: nat)
    requires i < |items|
    ensures Applied(m, items[..i + 1]) == Assign(Applied(m, items[..i]), items[i].0, items[i].1)
  {
    assert items[..i + 1][..i] == items[..i];
  }

  /** The value the last item with key `key` carries, or `default` when there is none. */
  function LastValue(items: seq<(string, real)>, key: string, default: real): real {
    if items == [] then default
    else if items[|items| - 1].0 == key then items[|items| - 1].1
    else LastValue(items[..|items| - 1], key, default)
  }

  /**
   * Applying items never adds or removes a parameter, and each parameter
   * ends with the value of the last item naming it, or keeps its own.
   */
  lemma {:induction false} AppliedLastWins(m: map<string, real>, items: seq<(string, real)>)
    ensures Applied(m, items).Keys == m.Keys
    ensures forall k :: k in m ==> Applied(m, items)[k] == LastValue(items, k, m[k])
  {
    if items != [] {
      AppliedLastWins(m, items[..|items| - 1]);
    }
  }

  class ClassicalStrategy {
    var rsiWindow: real
    var rsiBuy: real
    var rsiSell: real
    var macdFast: real
    var macdSlow: real
    var macdSignal: real
    var bollingerWindow: real
    var bollingerStd: real

    constructor(rsiWindow: real, rsiBuy: real, rsiSell: real, macdFast: real, macdSlow: real, macdSignal: real,
                bollingerWindow: real, bollingerStd: real)
      ensures this.rsiWindow == rsiWindow && this.rsiBuy == rsiBuy && this.rsiSell == rsiSell
      ensures this.macdFast == macdFast && this.macdSlow == macdSlow && this.macdSignal == macdSignal
      ensures this.bollingerWindow == bollingerWindow && this.bollingerStd == bollingerStd
    {
      this.rsiWindow := rsiWindow;
      this.rsiBuy := rsiBuy;
      this.rsiSell := rsiSell;
      this.macdFast := macdFast;
      this.macdSlow := macdSlow;
      this.macdSignal := macdSignal;
      this.bollingerWindow := bollingerWindow;
      this.bollingerStd := bollingerStd;
    }

    /** `generate_signals` with this strategy's RSI thresholds. */
    function GenerateSignals(data: seq<Row>): (r: seq<Signal>)
      reads this
      ensures |r| == |data|
    {
      Signals(data, rsiBuy, rsiSell)
    }

    /** `get_parameters`: the eight parameters under their attribute names. */
    function GetParameters(): (m: map<string, real>)
      reads this
      ensures m.Keys == ParameterNames
      ensures m["rsi_buy"] == rsiBuy && m["rsi_sell"] == rsiSell
    {
      map["rsi_window" := rsiWindow, "rsi_buy" := rsiBuy, "rsi_sell" := rsiSell,
          "macd_fast" := macdFast, "macd_slow" := macdSlow, "macd_signal" := macdSignal,
          "bollinger_window" := bollingerWindow, "bollinger_std" := bollingerStd]
    }

    /** `set_parameters`: assign each item whose key is a parameter, in order; ignore the others. */
    method SetParameters(items: seq<(string, real)>)
      modifies this
      ensures GetParameters() == Applied(old(GetParameters()), items)
    {
      var i := 0;
      while i < |items|
        invariant 0 <= i <= |items|
        invariant GetParameters() == Applied(old(GetParameters()), items[..i])
      {
        var (key, value) := items[i];
        AppliedNext(old(GetParameters()), items, i);
        SetParameter(key, value);
        i := i + 1;
      }
      assert items[..i] == items;
    }

    /** One step of `set_parameters`: assign the attribute named `key`, if there is one. */
    method SetParameter(key: string, value: real)
      modifies this
      ensures GetParameters() == Assign(old(GetParameters()), key, value)
    {
      if key == "rsi_window" {
        rsiWindow := value;
      } else if key == "rsi_buy" {
        rsiBuy := value;
      } else if key == "rsi_sell" {
        rsiSell := value;
      } else if key == "macd_fast" {
        macdFast := value;
      } else if key == "macd_slow" {
        macdSlow := value;
      } else if key == "macd_signal" {
        macdSignal := value;
      } else if key == "bollinger_window" {
        bollingerWindow := value;
      } else if key == "bollinger_std" {
        bollingerStd := value;
      }
    }
  }
}
