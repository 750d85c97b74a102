/**
 * The indicator cache of the parameter sweeps: a dictionary from indicator
 * keys to data columns that `update_cache` fills in place, writing each
 * indicator only when the key it checks is absent.
 *
 * The update is described twice: once as the imperative method that
 * changes the cache step by step, once as a plan of guarded stores that a
 * pure interpreter runs. The method is proved to do what the plan says, and
 * the properties (keys only grow, idempotence, the ATR key mismatch, the
 * MACD failure) are proved about the plan.
 */
module IndicatorCache {
  import opened Common

  // ---------------------------------------------------------------------------
  // Parameters, columns and keys

  /**
   * A parameter value of the grid: a number, a boolean switch, a list of
   * EMA windows, or `None` (formatted as `None` inside a key).
   */
  datatype Value = Num(x: real) | Flag(b: bool) | Windows(ws: seq<real>) | Null

  /** Python truthiness of a parameter value. */
  predicate Truthy(v: Value) {
    match v
    case Num(x) => x != 0.0
    case Flag(b) => b
    case Windows(ws) => ws != []
    case Null => false
  }

  type Params = map<string, Value>
  type Series = seq<real>

  /** The columns of the enriched data frame that the cache copies. */
  datatype Column =
    | RSI | MACD | MACDSignal | ATR | BBUpper | BBMiddle | BBLower | EMA(window: real)
    | ADX | OBV | VolMA | PriceVolumeTrend | DailyReturn

  type Data = map<Column, Series>

  /** The cache keys, one constructor per formatted key family (`RSI_{w}`, `MACD_{f}_{s}_{g}`, ...). */
  datatype CacheKey =
    | RsiKey(rsiWindow: Value)
    | MacdKey(fast: Value, slow: Value, signal: Value)
    | MacdSignalKey(fast: Value, slow: Value, signal: Value)
    | AtrKey(atrWindow: Value)
    | BbUpperKey(bbWindow: Value, bbStd: Value)
    | BbMiddleKey(bbWindow: Value, bbStd: Value)
    | BbLowerKey(bbWindow: Value, bbStd: Value)
    | EmaKey(emaWindow: real)
    | AdxKey(adxWindow: Value)
    | ObvKey
    | VolMaKey(volmaWindow: Value)
    | PvtKey
    | DailyReturnKey

  type Entries = map<CacheKey, Series>

  /** The data column that every store under a key copies. */
  function ColumnOf(k: CacheKey): Column {
    match k
    case RsiKey(_) => RSI
    case MacdKey(_, _, _) => MACD
    case MacdSignalKey(_, _, _) => MACDSignal
    case AtrKey(_) => ATR
    case BbUpperKey(_, _) => BBUpper
    case BbMiddleKey(_, _) => BBMiddle
    case BbLowerKey(_, _) => BBLower
    case EmaKey(w) => EMA(w)
    case AdxKey(_) => ADX
    case ObvKey => OBV
    case VolMaKey(_) => VolMA
    case PvtKey => PriceVolumeTrend
    case DailyReturnKey => DailyReturn
  }

  /** The exceptions `update_cache` can raise: a `KeyError` on params or data, a `TypeError` on iteration. */
  datatype UpdateError = MissingParam(name: string) | MissingColumn(column: Column) | NotIterable(name: string)

  /** The cache after an update, and the exception that cut it short, if any. Writes made before it stay. */
  datatype Outcome = Outcome(cache: Entries, error: Option<UpdateError>)

  /** Whether the sweep's cache also records `Daily_Return`. */
  datatype CacheVariant = WithDailyReturn | WithoutDailyReturn

  // ---------------------------------------------------------------------------
  // The plan of an update and its interpreter

  /**
   * One assignment `cache[key] = data[column]`. `StoreUnnamed` reads its
   * column and then fails to build the key because a parameter is missing.
   */
  datatype Store = Store(key: CacheKey) | StoreUnnamed(column: Column, missingParam: string)

  /** A block of stores run only when `check` is absent, or an exception raised outright. */
  datatype Instr = Guarded(check: CacheKey, stores: seq<Store>) | Raise(error: UpdateError)

  function RunStores(c: Entries, d: Data, ws: seq<Store>): Outcome
    decreases ws
  {
    if ws == [] then Outcome(c, None)
    else match ws[0]
      case Store(k) =>
        if ColumnOf(k) in d then RunStores(c[k := d[ColumnOf(k)]], d, ws[1..])
        else Outcome(c, Some(MissingColumn(ColumnOf(k))))
      case StoreUnnamed(col, name) =>
        if col in d then Outcome(c, Some(MissingParam(name))) else Outcome(c, Some(MissingColumn(col)))
  }

  function RunInstr(c: Entries, d: Data, i: Instr): Outcome
  {
    match i
    case Guarded(check, ws) => if check in c then Outcome(c, None) else RunStores(c, d, ws)
    case Raise(e) => Outcome(c, Some(e))
  }

  /** Run the instructions in order, stopping at the first exception. */
  function Exec(c: Entries, d: Data, plan: seq<Instr>): Outcome
    decreases plan
  {
    if plan == [] then Outcome(c, None)
    else
      var o := RunInstr(c, d, plan[0]);
      if o.error.Some? then o else Exec(o.cache, d, plan[1..])
  }

  /** `RSI_{rsi_window}` from the `RSI` column. */
  function RsiPlan(p: Params): seq<Instr> {
    if "rsi_window" in p then [Guarded(RsiKey(p["rsi_window"]), [Store(RsiKey(p["rsi_window"]))])] else []
  }

  /** The MACD keys are formatted before any membership test, so a missing MACD parameter raises here. */
  function MacdPlan(p: Params): seq<Instr> {
    if "macd_fast" !in p then [Raise(MissingParam("macd_fast"))]
    else if "macd_slow" !in p then [Raise(MissingParam("macd_slow"))]
    else if "macd_signal" !in p then [Raise(MissingParam("macd_signal"))]
    else
      var (f, s, g) := (p["macd_fast"], p["macd_slow"], p["macd_signal"]);
      [Guarded(MacdKey(f, s, g), [Store(MacdKey(f, s, g)), Store(MacdSignalKey(f, s, g))])]
  }

  /** Checked under `ATR_{atr_window}`, written under `ATR_{rsi_window}`. */
  function AtrPlan(p: Params): seq<Instr> {
    if "atr_window" in p then
      [Guarded(AtrKey(p["atr_window"]),
               [if "rsi_window" in p then Store(AtrKey(p["rsi_window"])) else StoreUnnamed(ATR, "rsi_window")])]
    else []
  }

  /** The three bands, checked under the upper one. */
  function BollingerPlan(p: Params): seq<Instr> {
    if "bollinger_window" in p && "bollinger_std" in p then
      var (w, s) := (p["bollinger_window"], p["bollinger_std"]);
      [Guarded(BbUpperKey(w, s), [Store(BbUpperKey(w, s)), Store(BbMiddleKey(w, s)), Store(BbLowerKey(w, s))])]
    else []
  }

  /** One guarded store per EMA window, in list order. */
  function EmaSteps(ws: seq<real>): seq<Instr> {
    if ws == [] then [] else [Guarded(EmaKey(ws[0]), [Store(EmaKey(ws[0]))])] + EmaSteps(ws[1..])
  }

  /** Iterating a number or a boolean raises a `TypeError`. */
  function EmaPlan(p: Params): seq<Instr> {
    if "ema_windows" in p then
      match p["ema_windows"]
      case Windows(ws) => EmaSteps(ws)
      case _ => [Raise(NotIterable("ema_windows"))]
    else []
  }

  function AdxPlan(p: Params): seq<Instr> {
    if "adx_window" in p then [Guarded(AdxKey(p["adx_window"]), [Store(AdxKey(p["adx_window"]))])] else []
  }

  function ObvPlan(p: Params): seq<Instr> {
    if "balance_volume" in p && Truthy(p["balance_volume"]) then [Guarded(ObvKey, [Store(ObvKey)])] else []
  }

  function VolMaPlan(p: Params): seq<Instr> {
    if "volma_window" in p then [Guarded(VolMaKey(p["volma_window"]), [Store(VolMaKey(p["volma_window"]))])] else []
  }

  function PvtPlan(p: Params): seq<Instr> {
    if "price_volume_trend" in p && Truthy(p["price_volume_trend"]) then [Guarded(PvtKey, [Store(PvtKey)])] else []
  }

  function DailyReturnPlan(v: CacheVariant): seq<Instr> {
    if v == WithDailyReturn then [Guarded(DailyReturnKey, [Store(DailyReturnKey)])] else []
  }

  /** The ten blocks of `update_cache`, in source order. */
  function Section(p: Params, v: CacheVariant, k: nat): seq<Instr> {
    if k == 0 then RsiPlan(p)
    else if k == 1 then MacdPlan(p)
    else if k == 2 then AtrPlan(p)
    else if k == 3 then BollingerPlan(p)
    else if k == 4 then EmaPlan(p)
    else if k == 5 then AdxPlan(p)
    else if k == 6 then ObvPlan(p)
    else if k == 7 then VolMaPlan(p)
    else if k == 8 then PvtPlan(p)
    else if k == 9 then DailyReturnPlan(v)
    else []
  }

  /** The blocks from the `k`-th on. */
  function From(p: Params, v: CacheVariant, k: nat): seq<Instr>
    decreases 10 - k
  {
    if k >= 10 then [] else Section(p, v, k) + From(p, v, k + 1)
  }

  function Plan(p: Params, v: CacheVariant): seq<Instr> {
    From(p, v, 0)
  }

  /** Nothing, or one check guarding a single store under the checked key. */
  predicate OneGuardedStore(block: seq<Instr>) {
    block == [] || (|block| == 1 && block[0].Guarded? && block[0].stores == [Store(block[0].check)])
  }

  /** The last five blocks each check one key and store it. */
  lemma SinglePlans(p: Params, v: CacheVariant)
    ensures OneGuardedStore(AdxPlan(p)) && OneGuardedStore(ObvPlan(p)) && OneGuardedStore(VolMaPlan(p))
    ensures OneGuardedStore(PvtPlan(p)) && OneGuardedStore(DailyReturnPlan(v))
  {
  }

  /** The first five blocks, one at a time. */
  lemma FirstSections(p: Params, v: CacheVariant)
    ensures From(p, v, 0) == RsiPlan(p) + From(p, v, 1)
    ensures From(p, v, 1) == MacdPlan(p) + From(p, v, 2)
    ensures From(p, v, 2) == AtrPlan(p) + From(p, v, 3)
    ensures From(p, v, 3) == BollingerPlan(p) + From(p, v, 4)
    ensures From(p, v, 4) == EmaPlan(p) + From(p, v, 5)
  {
  }

  /** The last five blocks, one at a time, and nothing after them. */
  lemma LastSections(p: Params, v: CacheVariant)
    ensures From(p, v, 5) == AdxPlan(p) + From(p, v, 6)
    ensures From(p, v, 6) == ObvPlan(p) + From(p, v, 7)
    ensures From(p, v, 7) == VolMaPlan(p) + From(p, v, 8)
    ensures From(p, v, 8) == PvtPlan(p) + From(p, v, 9)
    ensures From(p, v, 9) == DailyReturnPlan(v) + From(p, v, 10)
    ensures From(p, v, 10) == []
  {
  }

  // ---------------------------------------------------------------------------
  // The cache object

  class Cache {
    var entries: Entries

    constructor()
      ensures entries == map[]
    {
      entries := map[];
    }

    /**
     * `update_cache(cache, data, params)`: copy each indicator column whose
     * checked key is absent, block by block. An exception leaves the writes
     * made before it.
     */
    method Update(data: Data, params: Params, variant: CacheVariant) returns (error: Option<UpdateError>)
      modifies this
      ensures Outcome(entries, error) == Exec(old(entries), data, Plan(params, variant))
    {
      error := UpdateFirstBlocks(data, params, variant);
      if error.Some? { return; }
      error := UpdateLastBlocks(data, params, variant);
    }

    /** The RSI, MACD, ATR, Bollinger and EMA blocks; without an exception the remaining blocks are still to run. */
    method UpdateFirstBlocks(data: Data, params: Params, variant: CacheVariant) returns (error: Option<UpdateError>)
      modifies this
      ensures Exec(old(entries), data, From(params, variant, 0)) ==
        if error.Some? then Outcome(entries, error) else Exec(entries, data, From(params, variant, 5))
    {
      ghost var goal := Exec(entries, data, From(params, variant, 0));
      FirstSections(params, variant);
      ghost var before := entries;
      error := UpdateRsi(data, params);
      Step(goal, before, entries, error, data, RsiPlan(params), From(params, variant, 1), From(params, variant, 0));
      if error.Some? { return; }

      before := entries;
      error := UpdateMacd(data, params);
      Step(goal, before, entries, error, data, MacdPlan(params), From(params, variant, 2), From(params, variant, 1));
      if error.Some? { return; }

      before := entries;
      error := UpdateAtr(data, params);
      Step(goal, before, entries, error, data, AtrPlan(params), From(params, variant, 3), From(params, variant, 2));
      if error.Some? { return; }

      before := entries;
      error := UpdateBollinger(data, params);
      Step(goal, before, entries, error, data, BollingerPlan(params), From(params, variant, 4), From(params, variant, 3));
      if error.Some? { return; }

      before := entries;
      error := UpdateEma(data, params);
      Step(goal, before, entries, error, data, EmaPlan(params), From(params, variant, 5), From(params, variant, 4));
    }

    /** The ADX, OBV, volume-average, PVT and daily-return blocks. */
    method UpdateLastBlocks(data: Data, params: Params, variant: CacheVariant) returns (error: Option<UpdateError>)
      modifies this
      ensures Outcome(entries, error) == Exec(old(entries), data, From(params, variant, 5))
    {
      ghost var goal := Exec(entries, data, From(params, variant, 5));
      SinglePlans(params, variant);
      LastSections(params, variant);
      ghost var before := entries;
      error := UpdateSingle(data, AdxPlan(params));
      Step(goal, before, entries, error, data, AdxPlan(params), From(params, variant, 6), From(params, variant, 5));
      if error.Some? { return; }

      before := entries;
      error := UpdateSingle(data, ObvPlan(params));
      Step(goal, before, entries, error, data, ObvPlan(params), From(params, variant, 7), From(params, variant, 6));
      if error.Some? { return; }

      before := entries;
      error := UpdateSingle(data, VolMaPlan(params));
      Step(goal, before, entries, error, data, VolMaPlan(params), From(params, variant, 8), From(params, variant, 7));
      if error.Some? { return; }

      before := entries;
      error := UpdateSingle(data, PvtPlan(params));
      Step(goal, before, entries, error, data, PvtPlan(params), From(params, variant, 9), From(params, variant, 8));
      if error.Some? { return; }

      before := entries;
      error := UpdateSingle(data, DailyReturnPlan(variant));
      Step(goal, before, entries, error, data, DailyReturnPlan(variant), From(params, variant, 10), From(params, variant, 9));
    }

    /** The RSI block. */
    method UpdateRsi(data: Data, params: Params) returns (error: Option<UpdateError>)
      modifies this
      ensures Outcome(entries, error) == Exec(old(entries), data, RsiPlan(params))
    {
      if "rsi_window" in params {
        ExecSingle(entries, data, RsiPlan(params)[0]);
        assert [Store(RsiKey(params["rsi_window"]))][1..] == [];
      }
      error := None;
      if "rsi_window" in params && RsiKey(params["rsi_window"]) !in entries {
        if RSI !in data {
          return Some(MissingColumn(RSI));
        }
        entries := entries[RsiKey(params["rsi_window"]) := data[RSI]];
        assert RunStores(old(entries), data, [Store(RsiKey(params["rsi_window"]))]) == Outcome(entries, None);
      }
    }

    /** The MACD block: both keys are formatted first, which needs all three MACD parameters. */
    method UpdateMacd(data: Data, params: Params) returns (error: Option<UpdateError>)
      modifies this
      ensures Outcome(entries, error) == Exec(old(entries), data, MacdPlan(params))
    {
      if "macd_fast" !in params {
        return Some(MissingParam("macd_fast"));
      }
      if "macd_slow" !in params {
        return Some(MissingParam("macd_slow"));
      }
      if "macd_signal" !in params {
        return Some(MissingParam("macd_signal"));
      }
      var macdKey := MacdKey(params["macd_fast"], params["macd_slow"], params["macd_signal"]);
      var macdSignalKey := MacdSignalKey(params["macd_fast"], params["macd_slow"], params["macd_signal"]);
      ghost var stores := [Store(macdKey), Store(macdSignalKey)];
      assert stores[1..] == [Store(macdSignalKey)] && stores[1..][1..] == [];
      assert ColumnOf(macdKey) == MACD && ColumnOf(macdSignalKey) == MACDSignal;
      ExecSingle(entries, data, Guarded(macdKey, stores));
      error := None;
      if macdKey !in entries {
        if MACD !in data {
          return Some(MissingColumn(MACD));
        }
        entries := entries[macdKey := data[MACD]];
        ghost var mid := entries;
        assert RunStores(old(entries), data, stores) == RunStores(mid, data, [Store(macdSignalKey)]);
        if MACDSignal !in data {
          return Some(MissingColumn(MACDSignal));
        }
        entries := entries[macdSignalKey := data[MACDSignal]];
        assert RunStores(mid, data, [Store(macdSignalKey)]) == RunStores(entries, data, []);
      }
    }

    /** The ATR block: the column is read before the key under `rsi_window` is formatted. */
    method UpdateAtr(data: Data, params: Params) returns (error: Option<UpdateError>)
      modifies this
      ensures Outcome(entries, error) == Exec(old(entries), data, AtrPlan(params))
    {
      if "atr_window" in params {
        ExecSingle(entries, data, AtrPlan(params)[0]);
        assert AtrPlan(params)[0].stores[1..] == [];
      }
      error := None;
      if "atr_window" in params && AtrKey(params["atr_window"]) !in entries {
        if ATR !in data {
          return Some(MissingColumn(ATR));
        }
        if "rsi_window" !in params {
          return Some(MissingParam("rsi_window"));
        }
        entries := entries[AtrKey(params["rsi_window"]) := data[ATR]];
        assert RunStores(old(entries), data, [Store(AtrKey(params["rsi_window"]))]) == Outcome(entries, None);
      }
    }

    /** The Bollinger block: upper, middle and lower band, checked under the upper one. */
    method UpdateBollinger(data: Data, params: Params) returns (error: Option<UpdateError>)
      modifies this
      ensures Outcome(entries, error) == Exec(old(entries), data, BollingerPlan(params))
    {
      error := None;
      if "bollinger_window" in params && "bollinger_std" in params
        && BbUpperKey(params["bollinger_window"], params["bollinger_std"]) !in entries
      {
        var (w, s) := (params["bollinger_window"], params["bollinger_std"]);
        ghost var stores := [Store(BbUpperKey(w, s)), Store(BbMiddleKey(w, s)), Store(BbLowerKey(w, s))];
        assert stores[1..] == [Store(BbMiddleKey(w, s)), Store(BbLowerKey(w, s))];
        assert stores[1..][1..] == [Store(BbLowerKey(w, s))] && stores[1..][1..][1..] == [];
        ExecSingle(entries, data, Guarded(BbUpperKey(w, s), stores));
        if BBUpper !in data {
          return Some(MissingColumn(BBUpper));
        }
        entries := entries[BbUpperKey(w, s) := data[BBUpper]];
        assert RunStores(old(entries), data, stores) == RunStores(entries, data, stores[1..]);
        if BBMiddle !in data {
          return Some(MissingColumn(BBMiddle));
        }
        ghost var middle := entries;
        entries := entries[BbMiddleKey(w, s) := data[BBMiddle]];
        assert RunStores(middle, data, stores[1..]) == RunStores(entries, data, stores[1..][1..]);
        if BBLower !in data {
          return Some(MissingColumn(BBLower));
        }
        ghost var lower := entries;
        entries := entries[BbLowerKey(w, s) := data[BBLower]];
        assert RunStores(lower, data, stores[1..][1..]) == Outcome(entries, None);
      }
    }

    /** The EMA block: a loop over the windows, each copied when its key is absent. */
    method UpdateEma(data: Data, params: Params) returns (error: Option<UpdateError>)
      modifies this
      ensures Outcome(entries, error) == Exec(old(entries), data, EmaPlan(params))
    {
      error := None;
      if "ema_windows" in params {
        if !params["ema_windows"].Windows? {
          return Some(NotIterable("ema_windows"));
        }
        var ws := params["ema_windows"].ws;
        var i := 0;
        while i < |ws|
          invariant 0 <= i <= |ws|
          invariant Exec(old(entries), data, EmaSteps(ws)) == Exec(entries, data, EmaSteps(ws[i..]))
        {
          assert ws[i..][1..] == ws[i + 1..];
          var emaKey := EmaKey(ws[i]);
          assert EmaSteps(ws[i..]) == [Guarded(emaKey, [Store(emaKey)])] + EmaSteps(ws[i + 1..]);
          ExecAppend(entries, data, [Guarded(emaKey, [Store(emaKey)])], EmaSteps(ws[i + 1..]));
          ExecSingle(entries, data, Guarded(emaKey, [Store(emaKey)]));
          assert [Store(emaKey)][1..] == [];
          if emaKey !in entries {
            if EMA(ws[i]) !in data {
              return Some(MissingColumn(EMA(ws[i])));
            }
            assert RunStores(entries, data, [Store(emaKey)]) == Outcome(entries[emaKey := data[EMA(ws[i])]], None);
            entries := entries[emaKey := data[EMA(ws[i])]];
          }
          i := i + 1;
        }
        assert ws[i..] == [];
      }
    }

    /** A block that copies one column under one key when that key is absent (ADX, OBV, VolMA, PVT, daily return). */
    method UpdateSingle(data: Data, block: seq<Instr>) returns (error: Option<UpdateError>)
      requires OneGuardedStore(block)
      modifies this
      ensures Outcome(entries, error) == Exec(old(entries), data, block)
    {
      error := None;
      if block != [] {
        var key := block[0].check;
        ExecSingle(entries, data, block[0]);
        assert block == [block[0]] && block[0].stores[1..] == [];
        if key !in entries {
          if ColumnOf(key) !in data {
            return Some(MissingColumn(ColumnOf(key)));
          }
          assert RunStores(entries, data, [Store(key)]) == Outcome(entries[key := data[ColumnOf(key)]], None);
          entries := entries[key := data[ColumnOf(key)]];
        }
      }
    }
  }

  // ---------------------------------------------------------------------------
  // Properties of the plan

  /**
   * One block of the update: when the whole run is this block followed by
   * `rest`, it ends where the block raised or else where `rest` ends.
   */
  lemma Step(goal: Outcome, before: Entries, after: Entries, error: Option<UpdateError>, d: Data,
             block: seq<Instr>, rest: seq<Instr>, whole: seq<Instr>)
    requires whole == block + rest && goal == Exec(before, d, whole)
    requires Outcome(after, error) == Exec(before, d, block)
    ensures goal == if error.Some? then Outcome(after, error) else Exec(after, d, rest)
  {
    ExecAppend(before, d, block, rest);
  }

  /** A one-instruction plan runs that instruction. */
  lemma ExecSingle(c: Entries, d: Data, i: Instr)
    ensures Exec(c, d, [i]) == RunInstr(c, d, i)
  {
    assert [i][1..] == [];
  }

  /** Running two plans one after the other is running their concatenation. */
  lemma {:induction false} ExecAppend(c: Entries, d: Data, p: seq<Instr>, q: seq<Instr>)
    ensures Exec(c, d, p + q)
         == (var o := Exec(c, d, p); if o.error.Some? then o else Exec(o.cache, d, q))
    decreases p
  {
    if p == [] {
      assert p + q == q;
    } else {
      assert (p + q)[0] == p[0];
      assert (p + q)[1..] == p[1..] + q;
      var o := RunInstr(c, d, p[0]);
      if o.error.None? {
        ExecAppend(o.cache, d, p[1..], q);
      }
    }
  }

  /** A value the update leaves under a key is the one already there, or the data column of that key. */
  predicate FromColumn(before: Entries, after: Entries, d: Data) {
    && before.Keys <= after.Keys
    && forall k :: k in after ==> (k in before && after[k] == before[k]) || (ColumnOf(k) in d && after[k] == d[ColumnOf(k)])
  }

  lemma {:induction false} StoresFromColumn(c: Entries, d: Data, ws: seq<Store>)
    ensures FromColumn(c, RunStores(c, d, ws).cache, d)
    decreases ws
  {
    if ws != [] && ws[0].Store? && ColumnOf(ws[0].key) in d {
      var k := ws[0].key;
      StoresFromColumn(c[k := d[ColumnOf(k)]], d, ws[1..]);
    }
  }

  /**
   * `update_cache` only adds: no key ever disappears, and every value it
   * leaves is either the old one or a copy of the column the key names.
   */
  lemma {:induction false} KeysOnlyGrow(c: Entries, d: Data, plan: seq<Instr>)
    ensures FromColumn(c, Exec(c, d, plan).cache, d)
    decreases plan
  {
    if plan != [] {
      var o := RunInstr(c, d, plan[0]);
      if plan[0].Guarded? && plan[0].check !in c {
        StoresFromColumn(c, d, plan[0].stores);
      }
      if o.error.None? {
        KeysOnlyGrow(o.cache, d, plan[1..]);
      }
    }
  }

  /** A key that holds its own column's data keeps it through any update. */
  predicate Settled(c: Entries, d: Data, k: CacheKey) {
    k in c && ColumnOf(k) in d && c[k] == d[ColumnOf(k)]
  }

  lemma {:induction false} StoresKeepSettled(c: Entries, d: Data, ws: seq<Store>, k: CacheKey)
    requires Settled(c, d, k)
    ensures Settled(RunStores(c, d, ws).cache, d, k)
    decreases ws
  {
    if ws != [] && ws[0].Store? && ColumnOf(ws[0].key) in d {
      var k0 := ws[0].key;
      StoresKeepSettled(c[k0 := d[ColumnOf(k0)]], d, ws[1..], k);
    }
  }

  lemma {:induction false} ExecKeepsSettled(c: Entries, d: Data, plan: seq<Instr>, k: CacheKey)
    requires Settled(c, d, k)
    ensures Settled(Exec(c, d, plan).cache, d, k)
    decreases plan
  {
    if plan != [] {
      var o := RunInstr(c, d, plan[0]);
      if plan[0].Guarded? && plan[0].check !in c {
        StoresKeepSettled(c, d, plan[0].stores, k);
      }
      if o.error.None? {
        ExecKeepsSettled(o.cache, d, plan[1..], k);
      }
    }
  }

  /** Stores that ran without an exception were all named and left their keys settled. */
  lemma {:induction false} SuccessfulStores(c: Entries, d: Data, ws: seq<Store>)
    requires RunStores(c, d, ws).error.None?
    ensures forall w :: w in ws ==> w.Store? && Settled(RunStores(c, d, ws).cache, d, w.key)
    decreases ws
  {
    if ws != [] {
      var k := ws[0].key;
      var c' := c[k := d[ColumnOf(k)]];
      SuccessfulStores(c', d, ws[1..]);
      StoresKeepSettled(c', d, ws[1..], k);
      forall w | w in ws
        ensures w.Store? && Settled(RunStores(c, d, ws).cache, d, w.key)
      {
        if w != ws[0] {
          assert w in ws[1..];
        }
      }
    }
  }

  /** Stores whose keys are all settled change nothing. */
  lemma {:induction false} SettledStoresAreNoOps(c: Entries, d: Data, ws: seq<Store>)
    requires forall w :: w in ws ==> w.Store? && Settled(c, d, w.key)
    ensures RunStores(c, d, ws) == Outcome(c, None)
    decreases ws
  {
    if ws != [] {
      var k := ws[0].key;
      assert c[k := d[ColumnOf(k)]] == c;
      assert forall w :: w in ws[1..] ==> w in ws;
      SettledStoresAreNoOps(c, d, ws[1..]);
    }
  }

  /** After a run without exception, every instruction of the plan is a no-op on the resulting cache. */
  lemma {:induction false} SuccessSettlesPlan(c: Entries, d: Data, plan: seq<Instr>)
    requires Exec(c, d, plan).error.None?
    ensures forall i :: i in plan ==> RunInstr(Exec(c, d, plan).cache, d, i) == Outcome(Exec(c, d, plan).cache, None)
    decreases plan
  {
    if plan != [] {
      var final := Exec(c, d, plan).cache;
      var o := RunInstr(c, d, plan[0]);
      SuccessSettlesPlan(o.cache, d, plan[1..]);
      KeysOnlyGrow(o.cache, d, plan[1..]);
      var i0 := plan[0];
      match i0 {
      case Guarded(check, ws) =>
        if check !in c && check !in final {
          SuccessfulStores(c, d, ws);
          forall w | w in ws
            ensures w.Store? && Settled(final, d, w.key)
          {
            ExecKeepsSettled(o.cache, d, plan[1..], w.key);
          }
          SettledStoresAreNoOps(final, d, ws);
        } else if check in c {
          KeysOnlyGrow(c, d, plan);
        }
      case Raise(_) =>
        assert false;
      }
      forall i | i in plan
        ensures RunInstr(final, d, i) == Outcome(final, None)
      {
        if i != plan[0] {
          assert i in plan[1..];
        }
      }
    }
  }

  lemma {:induction false} NoOpsRunIdle(c: Entries, d: Data, plan: seq<Instr>)
    requires forall i :: i in plan ==> RunInstr(c, d, i) == Outcome(c, None)
    ensures Exec(c, d, plan) == Outcome(c, None)
    decreases plan
  {
    if plan != [] {
      assert forall i :: i in plan[1..] ==> i in plan;
      NoOpsRunIdle(c, d, plan[1..]);
    }
  }

  /**
   * Idempotence: updating again, with the same data and parameters, a cache
   * that an update completed without exception changes nothing.
   */
  lemma UpdateIsIdempotent(c: Entries, d: Data, p: Params, v: CacheVariant)
    requires Exec(c, d, Plan(p, v)).error.None?
    ensures Exec(Exec(c, d, Plan(p, v)).cache, d, Plan(p, v)) == Exec(c, d, Plan(p, v))
  {
    SuccessSettlesPlan(c, d, Plan(p, v));
    NoOpsRunIdle(Exec(c, d, Plan(p, v)).cache, d, Plan(p, v));
  }

  /**
   * Idempotence needs the first update to complete: when `MACD_Signal` is
   * missing, the first update stores the MACD key and stops, and the second
   * skips MACD and goes on to store `Daily_Return`.
   */
  lemma RetryAfterFailureMovesOn()
    ensures var p := map["macd_fast" := Num(12.0), "macd_slow" := Num(26.0), "macd_signal" := Num(9.0)];
      var d := map[MACD := [0.5], DailyReturn := [0.01]];
      var first := Exec(map[], d, Plan(p, WithDailyReturn));
      && first == Outcome(map[MacdKey(Num(12.0), Num(26.0), Num(9.0)) := [0.5]], Some(MissingColumn(MACDSignal)))
      && Exec(first.cache, d, Plan(p, WithDailyReturn)).cache
         == map[MacdKey(Num(12.0), Num(26.0), Num(9.0)) := [0.5], DailyReturnKey := [0.01]]
  {
    var p := map["macd_fast" := Num(12.0), "macd_slow" := Num(26.0), "macd_signal" := Num(9.0)];
    var d := map[MACD := [0.5], DailyReturn := [0.01]];
    var mk := MacdKey(Num(12.0), Num(26.0), Num(9.0));
    MacdOnlyPlan(p);
    FirstRunStopsAtSignal(p, d, mk);
    RetrySkipsMacd(p, d, mk);
  }

  /** The first run stores the MACD column, then fails on the missing signal column. */
  lemma FirstRunStopsAtSignal(p: Params, d: Data, mk: CacheKey)
    requires d == map[MACD := [0.5], DailyReturn := [0.01]] && mk == MacdKey(Num(12.0), Num(26.0), Num(9.0))
    requires Plan(p, WithDailyReturn)
          == [Guarded(mk, [Store(mk), Store(MacdSignalKey(Num(12.0), Num(26.0), Num(9.0)))]),
              Guarded(DailyReturnKey, [Store(DailyReturnKey)])]
    ensures Exec(map[], d, Plan(p, WithDailyReturn)) == Outcome(map[mk := [0.5]], Some(MissingColumn(MACDSignal)))
  {
    var sk := MacdSignalKey(Num(12.0), Num(26.0), Num(9.0));
    var macd := Guarded(mk, [Store(mk), Store(sk)]);
    var daily := Guarded(DailyReturnKey, [Store(DailyReturnKey)]);
    assert Plan(p, WithDailyReturn) == [macd] + [daily];
    ExecAppend(map[], d, [macd], [daily]);
    ExecSingle(map[], d, macd);
    assert [Store(mk), Store(sk)][1..] == [Store(sk)];
    assert RunStores(map[], d, [Store(mk), Store(sk)]) == Outcome(map[mk := [0.5]], Some(MissingColumn(MACDSignal)));
  }

  /** The retry finds the MACD key, skips the block and stores the daily return. */
  lemma RetrySkipsMacd(p: Params, d: Data, mk: CacheKey)
    requires d == map[MACD := [0.5], DailyReturn := [0.01]] && mk == MacdKey(Num(12.0), Num(26.0), Num(9.0))
    requires Plan(p, WithDailyReturn)
          == [Guarded(mk, [Store(mk), Store(MacdSignalKey(Num(12.0), Num(26.0), Num(9.0)))]),
              Guarded(DailyReturnKey, [Store(DailyReturnKey)])]
    ensures Exec(map[mk := [0.5]], d, Plan(p, WithDailyReturn)).cache == map[mk := [0.5], DailyReturnKey := [0.01]]
  {
    var sk := MacdSignalKey(Num(12.0), Num(26.0), Num(9.0));
    var macd := Guarded(mk, [Store(mk), Store(sk)]);
    var daily := Guarded(DailyReturnKey, [Store(DailyReturnKey)]);
    assert Plan(p, WithDailyReturn) == [macd] + [daily];
    ExecAppend(map[mk := [0.5]], d, [macd], [daily]);
    ExecSingle(map[mk := [0.5]], d, macd);
    ExecSingle(map[mk := [0.5]], d, daily);
    assert [Store(DailyReturnKey)][1..] == [];
  }

  /** The plan of a parameter set holding only the three MACD parameters. */
  lemma MacdOnlyPlan(p: Params)
    requires p == map["macd_fast" := Num(12.0), "macd_slow" := Num(26.0), "macd_signal" := Num(9.0)]
    ensures Plan(p, WithDailyReturn)
         == [Guarded(MacdKey(Num(12.0), Num(26.0), Num(9.0)),
                     [Store(MacdKey(Num(12.0), Num(26.0), Num(9.0))), Store(MacdSignalKey(Num(12.0), Num(26.0), Num(9.0)))]),
             Guarded(DailyReturnKey, [Store(DailyReturnKey)])]
  {
    assert p.Keys == {"macd_fast", "macd_slow", "macd_signal"};
    assert "rsi_window" !in p && "atr_window" !in p && "bollinger_window" !in p && "ema_windows" !in p;
    assert "adx_window" !in p && "balance_volume" !in p && "volma_window" !in p && "price_volume_trend" !in p;
  }

  /** No instruction of the plan stores under `k`. */
  predicate NeverStores(plan: seq<Instr>, k: CacheKey) {
    forall i :: i in plan && i.Guarded? ==> Store(k) !in i.stores
  }

  lemma {:induction false} AbsentStaysAbsent(c: Entries, d: Data, plan: seq<Instr>, k: CacheKey)
    requires k !in c && NeverStores(plan, k)
    ensures k !in Exec(c, d, plan).cache
    decreases plan
  {
    if plan != [] {
      var o := RunInstr(c, d, plan[0]);
      if plan[0].Guarded? && plan[0].check !in c {
        StoresFromColumn(c, d, plan[0].stores);
        StoresAvoid(c, d, plan[0].stores, k);
      }
      if o.error.None? {
        assert forall i :: i in plan[1..] ==> i in plan;
        AbsentStaysAbsent(o.cache, d, plan[1..], k);
      }
    }
  }

  lemma {:induction false} StoresAvoid(c: Entries, d: Data, ws: seq<Store>, k: CacheKey)
    requires k !in c && Store(k) !in ws
    ensures k !in RunStores(c, d, ws).cache
    decreases ws
  {
    if ws != [] && ws[0].Store? && ColumnOf(ws[0].key) in d {
      assert forall w :: w in ws[1..] ==> w in ws;
      StoresAvoid(c[ws[0].key := d[ColumnOf(ws[0].key)]], d, ws[1..], k);
    }
  }

  lemma {:induction false} EmaStepsStoreOnlyEma(ws: seq<real>, k: CacheKey)
    requires !k.EmaKey?
    ensures NeverStores(EmaSteps(ws), k)
  {
    if ws != [] {
      EmaStepsStoreOnlyEma(ws[1..], k);
    }
  }

  lemma NeverStoresAppend(a: seq<Instr>, b: seq<Instr>, k: CacheKey)
    requires NeverStores(a, k) && NeverStores(b, k)
    ensures NeverStores(a + b, k)
  {
    assert forall i :: i in a + b ==> i in a || i in b;
  }

  /** Only the ATR block stores an ATR key, and it stores `ATR_{rsi_window}`. */
  lemma SectionNeverStoresAtr(p: Params, v: CacheVariant, k: nat, a: Value)
    requires "rsi_window" !in p || p["rsi_window"] != a
    ensures NeverStores(Section(p, v, k), AtrKey(a))
  {
    if k == 4 && "ema_windows" in p && p["ema_windows"].Windows? {
      EmaStepsStoreOnlyEma(p["ema_windows"].ws, AtrKey(a));
    }
  }

  lemma {:induction false} FromNeverStoresAtr(p: Params, v: CacheVariant, k: nat, a: Value)
    requires "rsi_window" !in p || p["rsi_window"] != a
    ensures NeverStores(From(p, v, k), AtrKey(a))
    decreases 10 - k
  {
    if k < 10 {
      FromNeverStoresAtr(p, v, k + 1, a);
      SectionNeverStoresAtr(p, v, k, a);
      NeverStoresAppend(Section(p, v, k), From(p, v, k + 1), AtrKey(a));
    }
  }

  /**
   * The ATR key mismatch: when `atr_window` differs from `rsi_window` the
   * checked key `ATR_{atr_window}` is never written, so an update that
   * starts without it ends without it and the check never hits.
   */
  lemma AtrCheckNeverHits(c: Entries, d: Data, p: Params, v: CacheVariant)
    requires "atr_window" in p && AtrKey(p["atr_window"]) !in c
    requires "rsi_window" !in p || p["rsi_window"] != p["atr_window"]
    ensures AtrKey(p["atr_window"]) !in Exec(c, d, Plan(p, v)).cache
  {
    FromNeverStoresAtr(p, v, 0, p["atr_window"]);
    AbsentStaysAbsent(c, d, Plan(p, v), AtrKey(p["atr_window"]));
  }

  /**
   * The ATR column is stored under `ATR_{rsi_window}`, overwriting what was
   * there, whenever `ATR_{atr_window}` is absent.
   */
  lemma AtrStoredUnderRsiWindow()
    ensures var p := map["rsi_window" := Num(14.0), "macd_fast" := Num(12.0), "macd_slow" := Num(26.0),
                         "macd_signal" := Num(9.0), "atr_window" := Num(10.0)];
      var c := map[RsiKey(Num(14.0)) := [50.0], MacdKey(Num(12.0), Num(26.0), Num(9.0)) := [0.5],
                   AtrKey(Num(14.0)) := [1.0]];
      var o := Exec(c, map[ATR := [2.0]], Plan(p, WithoutDailyReturn));
      o == Outcome(c[AtrKey(Num(14.0)) := [2.0]], None) && AtrKey(Num(10.0)) !in o.cache
  {
    var p := map["rsi_window" := Num(14.0), "macd_fast" := Num(12.0), "macd_slow" := Num(26.0),
                 "macd_signal" := Num(9.0), "atr_window" := Num(10.0)];
    var c := map[RsiKey(Num(14.0)) := [50.0], MacdKey(Num(12.0), Num(26.0), Num(9.0)) := [0.5],
                 AtrKey(Num(14.0)) := [1.0]];
    var d := map[ATR := [2.0]];
    var mk := MacdKey(Num(12.0), Num(26.0), Num(9.0));
    var rsi := Guarded(RsiKey(Num(14.0)), [Store(RsiKey(Num(14.0)))]);
    var macd := Guarded(mk, [Store(mk), Store(MacdSignalKey(Num(12.0), Num(26.0), Num(9.0)))]);
    var atr := Guarded(AtrKey(Num(10.0)), [Store(AtrKey(Num(14.0)))]);
    var stored := c[AtrKey(Num(14.0)) := [2.0]];
    AtrQuirkPlan(p);
    assert RunInstr(c, d, rsi) == Outcome(c, None);
    assert RunInstr(c, d, macd) == Outcome(c, None);
    assert RunStores(c, d, [Store(AtrKey(Num(14.0)))]) == Outcome(stored, None) by {
      assert [Store(AtrKey(Num(14.0)))][1..] == [];
    }
    assert RunInstr(c, d, atr) == Outcome(stored, None);
    var plan := [rsi, macd, atr];
    assert plan[1..] == [macd, atr] && plan[1..][1..] == [atr] && plan[1..][1..][1..] == [];
    assert Exec(c, d, [atr]) == Outcome(stored, None);
    assert Exec(c, d, [macd, atr]) == Outcome(stored, None);
    assert Exec(c, d, plan) == Outcome(stored, None);
  }

  /** The plan of the parameter set used to show the ATR mismatch. */
  lemma AtrQuirkPlan(p: Params)
    requires p == map["rsi_window" := Num(14.0), "macd_fast" := Num(12.0), "macd_slow" := Num(26.0),
                      "macd_signal" := Num(9.0), "atr_window" := Num(10.0)]
    ensures Plan(p, WithoutDailyReturn)
         == [Guarded(RsiKey(Num(14.0)), [Store(RsiKey(Num(14.0)))]),
             Guarded(MacdKey(Num(12.0), Num(26.0), Num(9.0)),
                     [Store(MacdKey(Num(12.0), Num(26.0), Num(9.0))), Store(MacdSignalKey(Num(12.0), Num(26.0), Num(9.0)))]),
             Guarded(AtrKey(Num(10.0)), [Store(AtrKey(Num(14.0)))])]
  {
    assert p.Keys == {"rsi_window", "macd_fast", "macd_slow", "macd_signal", "atr_window"};
    assert "bollinger_window" !in p && "ema_windows" !in p;
    assert "adx_window" !in p && "balance_volume" !in p && "volma_window" !in p && "price_volume_trend" !in p;
  }

  /**
   * A missing MACD parameter makes every update fail, after the RSI block
   * has had its effect and before any other block runs.
   */
  lemma MissingMacdParamFails(c: Entries, d: Data, p: Params, v: CacheVariant)
    requires "macd_fast" !in p || "macd_slow" !in p || "macd_signal" !in p
    ensures Exec(c, d, Plan(p, v)).error.Some?
    ensures Exec(c, d, Plan(p, v)).cache == Exec(c, d, RsiPlan(p)).cache
  {
    FirstSections(p, v);
    ExecAppend(c, d, RsiPlan(p), From(p, v, 1));
    var o := Exec(c, d, RsiPlan(p));
    if o.error.None? {
      ExecAppend(o.cache, d, MacdPlan(p), From(p, v, 2));
      ExecSingle(o.cache, d, MacdPlan(p)[0]);
    }
  }

  /**
   * `None` in the grid: Bollinger parameters of `None` give the keys
   * `BB_Upper_None_None` and its two siblings, a `None` switch is falsy so
   * OBV and the price-volume trend are skipped, and a `None` EMA list
   * cannot be iterated.
   */
  lemma NoneParameters(p: Params)
    requires p == map["bollinger_window" := Null, "bollinger_std" := Null, "balance_volume" := Null,
                      "price_volume_trend" := Null, "ema_windows" := Null]
    ensures BollingerPlan(p)
         == [Guarded(BbUpperKey(Null, Null),
                     [Store(BbUpperKey(Null, Null)), Store(BbMiddleKey(Null, Null)), Store(BbLowerKey(Null, Null))])]
    ensures ObvPlan(p) == [] && PvtPlan(p) == []
    ensures EmaPlan(p) == [Raise(NotIterable("ema_windows"))]
  {
  }
}
