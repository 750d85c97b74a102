/**
 * The validity check applied to a backtest over the validation period: a
 * verdict with an ordered list of failure labels joined into one reason.
 */
module Validator {
  import opened Common
  import Engine
  import Metrics
  import Simulator

  /** The keyword arguments of `is_valid`; the earn rate is accepted and never read. */
  datatype Thresholds = Thresholds(minPerformance: real, maxDrawdown: real, minTrades: int, minTradesEarnRate: real)

  const Defaults := Thresholds(0.02, -20.0, 2, 0.75)

  /**
   * What `is_valid` reads from a backtest result: the total return, the
   * maximum drawdown (None for NaN, which compares false; it may also be
   * +inf) and the number of trade rows.
   */
  datatype Outcome = Outcome(totalReturn: real, maxDrawdown: Option<Ext>, nTrades: nat)

  datatype Verdict = Verdict(valid: bool, reason: string)

  const LowReturn := "Low Return"
  const HighDrawdown := "High Drawdown"
  const NotEnoughTrades := "Not enough trades"

  /** The three checks in the order `is_valid` makes them. */
  const Labels := [LowReturn, HighDrawdown, NotEnoughTrades]

  /** Whether the check named `name` fails on `o`. */
  predicate Fails(name: string, o: Outcome, t: Thresholds) {
    if name == LowReturn then o.totalReturn < t.minPerformance
    else if name == HighDrawdown then o.maxDrawdown.Some? && Less(o.maxDrawdown.value, Fin(t.maxDrawdown))
    else name == NotEnoughTrades && o.nTrades < t.minTrades
  }

  /** The labels among `labels` whose check fails, kept in their order. */
  function Failing(labels: seq<string>, o: Outcome, t: Thresholds): (r: seq<string>)
    ensures forall l :: l in r <==> l in labels && Fails(l, o, t)
    ensures |r| <= |labels|
  {
    if labels == [] then []
    else (if Fails(labels[0], o, t) then [labels[0]] else []) + Failing(labels[1..], o, t)
  }

  /** The reason list `is_valid` builds. */
  function Reasons(o: Outcome, t: Thresholds): seq<string> {
    Failing(Labels, o, t)
  }

  /** The reason list is the three optional labels in check order. */
  lemma ReasonsUnfold(o: Outcome, t: Thresholds)
    ensures Reasons(o, t) ==
      (if o.totalReturn < t.minPerformance then [LowReturn] else []) +
      (if o.maxDrawdown.Some? && Less(o.maxDrawdown.value, Fin(t.maxDrawdown)) then [HighDrawdown] else []) +
      (if o.nTrades < t.minTrades then [NotEnoughTrades] else [])
  {
    assert |LowReturn| == 10 && |HighDrawdown| == 13 && |NotEnoughTrades| == 17;
    assert HighDrawdown != LowReturn && NotEnoughTrades != LowReturn && NotEnoughTrades != HighDrawdown;
    assert Fails(LowReturn, o, t) == (o.totalReturn < t.minPerformance);
    assert Fails(HighDrawdown, o, t) == (o.maxDrawdown.Some? && Less(o.maxDrawdown.value, Fin(t.maxDrawdown)));
    assert Fails(NotEnoughTrades, o, t) == (o.nTrades < t.minTrades);
    var last := [NotEnoughTrades];
    assert last[1..] == [];
    assert Failing(last, o, t) == (if Fails(NotEnoughTrades, o, t) then last else []) + Failing([], o, t);
    var tail := [HighDrawdown, NotEnoughTrades];
    assert tail[1..] == last;
    assert Failing(tail, o, t) == (if Fails(HighDrawdown, o, t) then [HighDrawdown] else []) + Failing(last, o, t);
    assert Labels[1..] == tail;
  }

  /** `sep.join(parts)`. */
  function Join(parts: seq<string>, sep: string): string {
    if parts == [] then ""
    else if |parts| == 1 then parts[0]
    else parts[0] + sep + Join(parts[1..], sep)
  }

  /** The total length of the parts. */
  function TotalLength(parts: seq<string>): nat {
    if parts == [] then 0 else |parts[0]| + TotalLength(parts[1..])
  }

  /** The joined text holds every part and one separator between each neighbouring pair. */
  lemma {:induction false} JoinLength(parts: seq<string>, sep: string)
    requires parts != []
    ensures |Join(parts, sep)| == TotalLength(parts) + |sep| * (|parts| - 1)
  {
    if |parts| > 1 {
      JoinLength(parts[1..], sep);
    }
  }

  /** The reason text: the labels joined by ", ", or "OK" for none. */
  function ReasonText(reasons: seq<string>): string {
    if |reasons| > 0 then Join(reasons, ", ") else "OK"
  }

  /**
   * `is_valid`: clear the flag and append the name of each failing check
   * (return, then drawdown, then trade count), then join the labels.
   */
  method IsValid(o: Outcome, t: Thresholds) returns (v: Verdict)
    ensures v.valid <==> (o.totalReturn >= t.minPerformance &&
                          !(o.maxDrawdown.Some? && Less(o.maxDrawdown.value, Fin(t.maxDrawdown))) &&
                          o.nTrades >= t.minTrades)
    ensures v.valid <==> Reasons(o, t) == []
    ensures v.reason == ReasonText(Reasons(o, t))
  {
    var valid := true;
    var reason: seq<string> := [];
    if o.totalReturn < t.minPerformance {
      valid := false;
      reason := reason + [LowReturn];
    }
    if o.maxDrawdown.Some? && Less(o.maxDrawdown.value, Fin(t.maxDrawdown)) {
      valid := false;
      reason := reason + [HighDrawdown];
    }
    if o.nTrades < t.minTrades {
      valid := false;
      reason := reason + [NotEnoughTrades];
    }
    ReasonsUnfold(o, t);
    assert reason == Reasons(o, t);
    v := Verdict(valid, if |reason| > 0 then Join(reason, ", ") else "OK");
  }

  /** Each name is in the reasons exactly when its own comparison fails. */
  lemma LabelsFireOnTheirChecks(o: Outcome, t: Thresholds)
    ensures LowReturn in Reasons(o, t) <==> o.totalReturn < t.minPerformance
    ensures HighDrawdown in Reasons(o, t) <==> o.maxDrawdown.Some? && Less(o.maxDrawdown.value, Fin(t.maxDrawdown))
    ensures NotEnoughTrades in Reasons(o, t) <==> o.nTrades < t.minTrades
  {
  }

  /** Position of a name in the fixed check order. */
  function Rank(name: string): nat {
    if name == LowReturn then 0 else if name == HighDrawdown then 1 else 2
  }

  /** The reasons keep the fixed order: Low Return before High Drawdown before Not enough trades. */
  lemma ReasonsInCheckOrder(o: Outcome, t: Thresholds)
    ensures forall i, j :: 0 <= i < j < |Reasons(o, t)| ==> Rank(Reasons(o, t)[i]) < Rank(Reasons(o, t)[j])
  {
    var r := Reasons(o, t);
    ReasonsUnfold(o, t);
    assert Rank(LowReturn) == 0 && Rank(HighDrawdown) == 1 && Rank(NotEnoughTrades) == 2;
  }

  /** The joined text has the first part as its prefix. */
  lemma JoinStartsWithFirst(parts: seq<string>, sep: string)
    requires parts != []
    ensures |parts[0]| <= |Join(parts, sep)| && Join(parts, sep)[..|parts[0]|] == parts[0]
  {
  }

  /** "OK" is the reason exactly when no check failed: no name starts with 'O'. */
  lemma OkExactlyWhenValid(o: Outcome, t: Thresholds)
    ensures ReasonText(Reasons(o, t)) == "OK" <==> Reasons(o, t) == []
  {
    var r := Reasons(o, t);
    if r != [] {
      JoinStartsWithFirst(r, ", ");
      assert r[0] in Labels;
      assert r[0][0] != 'O';
      assert ReasonText(r)[0] == r[0][0];
    }
  }

  /** The length of the reason text for each of the eight failure combinations. */
  function TextLength(low: bool, high: bool, trades: bool): nat {
    var n := (if low then 1 else 0) + (if high then 1 else 0) + (if trades then 1 else 0);
    if n == 0 then 2
    else (if low then 10 else 0) + (if high then 13 else 0) + (if trades then 17 else 0) + 2 * (n - 1)
  }

  lemma ReasonTextLength(o: Outcome, t: Thresholds)
    ensures |ReasonText(Reasons(o, t))| ==
      TextLength(Fails(LowReturn, o, t), Fails(HighDrawdown, o, t), Fails(NotEnoughTrades, o, t))
  {
    ReasonsUnfold(o, t);
    var r := Reasons(o, t);
    assert |LowReturn| == 10 && |HighDrawdown| == 13 && |NotEnoughTrades| == 17;
    if r != [] {
      JoinLength(r, ", ");
      if |r| > 1 {
        if |r| > 2 {
          assert r == [LowReturn, HighDrawdown, NotEnoughTrades];
          assert r[1..][1..][1..] == [];
          assert TotalLength(r[1..][1..]) == 17;
          assert TotalLength(r) == 10 + 13 + 17;
        }
      }
    }
  }

  /**
   * The reason text determines which checks failed: two outcomes with the
   * same text fail the same checks.
   */
  lemma ReasonTextDeterminesFailures(o1: Outcome, t1: Thresholds, o2: Outcome, t2: Thresholds)
    requires ReasonText(Reasons(o1, t1)) == ReasonText(Reasons(o2, t2))
    ensures Fails(LowReturn, o1, t1) == Fails(LowReturn, o2, t2)
    ensures Fails(HighDrawdown, o1, t1) == Fails(HighDrawdown, o2, t2)
    ensures Fails(NotEnoughTrades, o1, t1) == Fails(NotEnoughTrades, o2, t2)
  {
    ReasonTextLength(o1, t1);
    ReasonTextLength(o2, t2);
  }

  /** With the default thresholds: under 2 % return, a drawdown below -20.0, fewer than two trades. */
  lemma DefaultThresholds(o: Outcome)
    ensures LowReturn in Reasons(o, Defaults) <==> o.totalReturn < 0.02
    ensures HighDrawdown in Reasons(o, Defaults) <==> o.maxDrawdown.Some? && Less(o.maxDrawdown.value, Fin(-20.0))
    ensures NotEnoughTrades in Reasons(o, Defaults) <==> o.nTrades < 2
  {
  }

  /** `min_trades_earn_rate` never changes the reasons. */
  lemma EarnRateIgnored(o: Outcome, t: Thresholds, rate: real)
    ensures Reasons(o, t.(minTradesEarnRate := rate)) == Reasons(o, t)
  {
    ReasonsUnfold(o, t);
    ReasonsUnfold(o, t.(minTradesEarnRate := rate));
  }

  /**
   * The engine reports a drawdown as a non-negative fraction, so against a
   * non-positive threshold such as the default -20.0 the High Drawdown
   * check never fires.
   */
  lemma EngineDrawdownNeverHigh(portfolio: seq<Simulator.Snapshot>, nTrades: nat, t: Thresholds)
    requires t.maxDrawdown <= 0.0
    ensures var p := Engine.CalculatePerformance(portfolio);
      HighDrawdown !in Reasons(Outcome(p.totalReturn, p.maxDrawdown, nTrades), t)
  {
    if |portfolio| >= 2 {
      Metrics.VectorisedDrawdownNonNegative(Engine.Values(portfolio));
    }
  }
}
