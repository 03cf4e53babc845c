/** Anomaly scoring: history is summarised by category, and a transaction is scored against
    its own category's summary or, failing that, the account's. */
module Anomaly {
  import opened Common
  import opened Money
  import opened GroupBy

  datatype Severity = SeverityNone | SeverityLow | SeverityMedium | SeverityHigh

  function Rank(s: Severity): nat {
    match s
    case SeverityNone => 0
    case SeverityLow => 1
    case SeverityMedium => 2
    case SeverityHigh => 3
  }

  datatype Stat = Stat(category: string, count: int, total: real, mean: real, max: real)

  /** `scope` is the category whose history was compared against, or "" for the account's;
      `named` is the one the reason speaks of, if it speaks of any. */
  datatype Assessment = Assessment(anomalous: bool, severity: Severity, scope: string, named: Option<string>)

  /** The scale a transaction is compared with. */
  datatype Scale = Scale(count: int, total: real, max: real)

  /** The thresholds. Money arriving is held to a higher bar than money leaving. */
  function Grade(incoming: bool, a: real, mean: real, max: real): Severity {
    if incoming then if Exceeds(a, mean, 10.0) then SeverityLow else SeverityNone
    else if Exceeds(a, max, 2.0) && Exceeds(a, mean, 4.0) then SeverityHigh
    else if Exceeds(a, mean, 3.0) then SeverityMedium
    else if Exceeds(a, mean, 2.0) then SeverityLow
    else SeverityNone
  }

  predicate Exceeds(a: real, scale: real, times: real) { a > scale * times }

  function Score(amount: real, scale: Scale): Severity {
    if scale.count == 0 then SeverityNone
    else Grade(amount > 0.0, Abs(amount), Mean(scale), scale.max)
  }

  function Mean(scale: Scale): real
    requires scale.count != 0
  {
    scale.total / scale.count as real
  }

  /** The first line of the baseline for the category, as a scale. */
  function OwnScale(category: string, baseline: seq<Stat>): Scale {
    if category == "" || baseline == [] then Scale(0, 0.0, 0.0)
    else if baseline[0].category == category
    then Scale(baseline[0].count, Abs(baseline[0].total), Abs(baseline[0].max))
    else OwnScale(category, baseline[1..])
  }

  /** A scale with one more line of the baseline added to it. */
  function Plus(s: Scale, line: Stat): Scale {
    Scale(s.count + line.count, s.total + Abs(line.total), Larger(s.max, Abs(line.max)))
  }

  /** The whole baseline as one scale. */
  function AccountScale(baseline: seq<Stat>): Scale {
    if baseline == [] then Scale(0, 0.0, 0.0)
    else Plus(AccountScale(baseline[..|baseline| - 1]), baseline[|baseline| - 1])
  }

  /** The account's scale on top of what the search for the category left behind. */
  function Blend(own: Scale, all: Scale): Scale {
    Scale(all.count, own.total + all.total, Larger(own.max, all.max))
  }

  /** The scale used: the category's own when it has history, otherwise the account's, to
      which a line of the category with no rows would still add its amounts. */
  function Pool(category: string, baseline: seq<Stat>): Scale {
    var own, all := OwnScale(category, baseline), AccountScale(baseline);
    if own.count != 0 then own else Blend(own, all)
  }

  /** The category whose history is compared against, or "" for the account's. */
  function Scope(category: string, baseline: seq<Stat>): string {
    if OwnScale(category, baseline).count != 0 then category else ""
  }

  /** What the reason speaks of: the scope when an outflow is flagged, otherwise the account. */
  function Named(amount: real, severity: Severity, scope: string): string {
    if amount <= 0.0 && severity != SeverityNone then scope else ""
  }

  function Assess(amount: real, category: string, baseline: seq<Stat>): Assessment {
    var pool, scope := Pool(category, baseline), Scope(category, baseline);
    var severity := Score(amount, pool);
    Assessment(severity != SeverityNone, severity, scope,
               if pool.count == 0 then None else Some(Named(amount, severity, scope)))
  }

  /** The search for the category's own line. */
  method FindOwn(category: string, baseline: seq<Stat>) returns (own: Scale)
    ensures own == OwnScale(category, baseline)
  {
    own := Scale(0, 0.0, 0.0);
    if category != "" {
      for i := 0 to |baseline|
        invariant own == Scale(0, 0.0, 0.0) && OwnScale(category, baseline) == OwnScale(category, baseline[i..])
      {
        var stat := baseline[i];
        assert baseline[i..][1..] == baseline[i + 1..];
        if stat.category == category {
          return Scale(stat.count, Abs(stat.total), Abs(stat.max));
        }
      }
    }
  }

  /** The account-wide accumulation, on top of `own`. */
  method AddAll(own: Scale, baseline: seq<Stat>) returns (s: Scale)
    requires own.count == 0 && own.max >= 0.0
    ensures s == Blend(own, AccountScale(baseline))
  {
    var totalCount, totalAmount, overallMax := own.count, own.total, own.max;
    for i := 0 to |baseline|
      invariant Scale(totalCount, totalAmount, overallMax) == Blend(own, AccountScale(baseline[..i]))
    {
      var stat := baseline[i];
      assert baseline[..i + 1][..i] == baseline[..i];
      totalCount := totalCount + stat.count;
      totalAmount := totalAmount + Abs(stat.total);
      overallMax := Larger(overallMax, Abs(stat.max));
    }
    assert baseline[..|baseline|] == baseline;
    s := Scale(totalCount, totalAmount, overallMax);
  }

  lemma {:induction false} OwnMaxNonNegative(category: string, baseline: seq<Stat>)
    ensures OwnScale(category, baseline).max >= 0.0
  {
    if baseline != [] {
      OwnMaxNonNegative(category, baseline[1..]);
    }
  }

  /** The scorer. */
  method DetectAnomaly(amount: real, category: string, baseline: seq<Stat>) returns (r: Assessment)
    ensures r == Assess(amount, category, baseline)
    ensures r.anomalous <==> r.severity != SeverityNone
    ensures r.anomalous ==> (r.named == Some(r.scope) <==> amount <= 0.0 || r.scope == "")
  {
    var a := Abs(amount);
    if |baseline| == 0 {
      return Assessment(false, SeverityNone, "", None);
    }
    OwnMaxNonNegative(category, baseline);
    var scope := category;
    var scale := FindOwn(category, baseline);
    if scale.count == 0 {
      scope := "";
      scale := AddAll(scale, baseline);
    }
    if scale.count == 0 {
      return Assessment(false, SeverityNone, scope, None);
    }
    var mean := scale.total / scale.count as real;
    if amount > 0.0 {
      if a > mean * 10.0 {
        return Assessment(true, SeverityLow, scope, Some(""));
      }
      return Assessment(false, SeverityNone, scope, Some(""));
    }
    if a > scale.max * 2.0 && a > mean * 4.0 {
      r := Assessment(true, SeverityHigh, scope, Some(scope));
    } else if a > mean * 3.0 {
      r := Assessment(true, SeverityMedium, scope, Some(scope));
    } else if a > mean * 2.0 {
      r := Assessment(true, SeverityLow, scope, Some(scope));
    } else {
      r := Assessment(false, SeverityNone, scope, Some(""));
    }
  }

  // ----- The summary loses nothing -----

  /** The history query's contract: a line for each category of the account's rows, given
      as magnitudes, in any order. */
  ghost predicate IsBaseline(baseline: seq<Stat>, items: seq<Item>) {
    && IsGrouping(Keys(baseline), items)
    && forall i :: 0 <= i < |baseline| ==> IsLine(baseline[i], items)
  }

  ghost predicate IsLine(s: Stat, items: seq<Item>) {
    && s.count == CountOf(items, s.category) > 0 && s.total == SumOf(items, s.category)
    && s.mean == s.total / s.count as real && s.max == MaxOf(items, s.category)
  }

  function Keys(baseline: seq<Stat>): seq<string> { Each(baseline, (s: Stat) => s.category) }

  /** Scoring against the rows themselves: those of the transaction's category, or all the
      account's when it has none. */
  function ScoreRaw(amount: real, category: string, items: seq<Item>): Severity {
    if category != "" && CountOf(items, category) > 0
    then Score(amount, Scale(CountOf(items, category), SumOf(items, category), MaxOf(items, category)))
    else Score(amount, Scale(|items|, Total(items), MaxAll(items)))
  }

  lemma {:induction false} GroupMagnitudes(items: seq<Item>, key: string)
    requires Magnitudes(items)
    ensures SumOf(items, key) >= 0.0 && MaxOf(items, key) >= 0.0
  {
    if items != [] {
      GroupMagnitudes(items[..|items| - 1], key);
    }
  }

  lemma {:induction false} OwnScaleIsGroup(category: string, baseline: seq<Stat>, items: seq<Item>)
    requires Magnitudes(items) && category != ""
    requires forall i :: 0 <= i < |baseline| ==> IsLine(baseline[i], items)
    ensures OwnScale(category, baseline)
         == if category in Keys(baseline)
            then Scale(CountOf(items, category), SumOf(items, category), MaxOf(items, category))
            else Scale(0, 0.0, 0.0)
  {
    if baseline != [] {
      GroupMagnitudes(items, category);
      OwnScaleIsGroup(category, baseline[1..], items);
      assert Keys(baseline) == [baseline[0].category] + Keys(baseline[1..]);
      assert IsLine(baseline[0], items);
    }
  }

  lemma {:induction false} AccountScaleIsGroups(baseline: seq<Stat>, items: seq<Item>)
    requires Magnitudes(items)
    requires forall i :: 0 <= i < |baseline| ==> IsLine(baseline[i], items)
    ensures AccountScale(baseline)
         == Scale(CountOver(Keys(baseline), items), SumOver(Keys(baseline), items), MaxOver(Keys(baseline), items))
  {
    if baseline != [] {
      var n := |baseline| - 1;
      AccountScaleIsGroups(baseline[..n], items);
      assert Keys(baseline)[..n] == Keys(baseline[..n]);
      assert IsLine(baseline[n], items);
      GroupMagnitudes(items, baseline[n].category);
    }
  }

  lemma {:induction false} MaxAllNonNegative(items: seq<Item>)
    ensures MaxAll(items) >= 0.0
  {
    if items != [] {
      MaxAllNonNegative(items[..|items| - 1]);
    }
  }

  /** Scoring against the per-category summary gives the severity of scoring against the raw
      rows, whatever order the summary lists the categories in, and the scope it names is
      the category exactly when the category has rows of its own. */
  lemma SummaryLosesNothing(amount: real, category: string, baseline: seq<Stat>, items: seq<Item>)
    requires Magnitudes(items) && IsBaseline(baseline, items)
    ensures Assess(amount, category, baseline).severity == ScoreRaw(amount, category, items)
    ensures Assess(amount, category, baseline).scope == if CountOf(items, category) > 0 then category else ""
  {
    assert category in Keys(baseline) <==> CountOf(items, category) > 0;
    AccountPoolIsAll(baseline, items);
    if category != "" {
      OwnScaleIsGroup(category, baseline, items);
    }
  }

  lemma AccountPoolIsAll(baseline: seq<Stat>, items: seq<Item>)
    requires Magnitudes(items) && IsBaseline(baseline, items)
    ensures Blend(Scale(0, 0.0, 0.0), AccountScale(baseline)) == Scale(|items|, Total(items), MaxAll(items))
  {
    AccountScaleIsGroups(baseline, items);
    GroupingPartitions(Keys(baseline), items);
    MaxAllNonNegative(items);
  }

  // ----- The thresholds, over the rows -----

  lemma ExceedsMean(a: real, n: real, total: real, times: real)
    requires n > 0.0
    ensures Exceeds(a, total / n, times) <==> n * a > times * total
  {
    var mean := total / n;
    assert total == mean * n;
    assert times * total == n * (mean * times);
    if a > mean * times {
      assert n * (a - mean * times) > 0.0;
    } else {
      assert n * (mean * times - a) >= 0.0;
    }
  }

  /** The rules, with no division: `n` rows of `total` in all and `max` at most. */
  ghost predicate ByTheRules(severity: Severity, x: real, n: real, total: real, max: real) {
    if x > 0.0 then
      && (severity == SeverityLow <==> n * x > 10.0 * total)
      && (severity == SeverityNone <==> n * x <= 10.0 * total)
    else
      var a := -x;
      && (severity == SeverityHigh <==> a > 2.0 * max && n * a > 4.0 * total)
      && (severity == SeverityMedium <==> !(a > 2.0 * max && n * a > 4.0 * total) && n * a > 3.0 * total)
      && (severity == SeverityLow <==>
          !(a > 2.0 * max && n * a > 4.0 * total) && n * a <= 3.0 * total && n * a > 2.0 * total)
  }

  lemma ScoreByTheRules(x: real, scale: Scale)
    requires scale.count > 0
    ensures ByTheRules(Score(x, scale), x, scale.count as real, scale.total, scale.max)
  {
    var n, a := scale.count as real, Abs(x);
    ExceedsMean(a, n, scale.total, 10.0);
    ExceedsMean(a, n, scale.total, 4.0);
    ExceedsMean(a, n, scale.total, 3.0);
    ExceedsMean(a, n, scale.total, 2.0);
    assert Exceeds(a, scale.max, 2.0) <==> a > 2.0 * scale.max;
  }

  /** The severity of any amount, from the rows alone: over the rows of its category, or all
      the account's when it has none, with their count, sum and maximum. */
  lemma VerdictByTheRules(x: real, category: string, baseline: seq<Stat>, items: seq<Item>)
    requires Magnitudes(items) && IsBaseline(baseline, items)
    ensures var severity := Assess(x, category, baseline).severity;
            && (items == [] ==> severity == SeverityNone)
            && (HasHistory(category, items) ==>
                  var n := CountOf(items, category) as real;
                  ByTheRules(severity, x, n, SumOf(items, category), MaxOf(items, category)))
            && (items != [] && !HasHistory(category, items) ==>
                  ByTheRules(severity, x, |items| as real, Total(items), MaxAll(items)))
  {
    SummaryLosesNothing(x, category, baseline, items);
    if HasHistory(category, items) {
      ScoreByTheRules(x, Scale(CountOf(items, category), SumOf(items, category), MaxOf(items, category)));
    } else if items != [] {
      ScoreByTheRules(x, Scale(|items|, Total(items), MaxAll(items)));
    }
  }

  // ----- What the reason claims -----

  /** The category has a row among those summarised. */
  predicate HasHistory(category: string, items: seq<Item>) { category != "" && CountOf(items, category) > 0 }

  /** The reason for a flag speaks of what was compared against, for every history, exactly
      when the amount is an outflow or the category has no history of its own. */
  lemma FlagNamesScopeIff(amount: real, category: string, baseline: seq<Stat>, items: seq<Item>)
    requires Magnitudes(items) && IsBaseline(baseline, items)
    requires Assess(amount, category, baseline).anomalous
    ensures var r := Assess(amount, category, baseline);
            r.named == Some(r.scope) <==> amount <= 0.0 || !HasHistory(category, items)
  {
    ScopeIsHistory(category, baseline, items);
  }

  lemma ScopeIsHistory(category: string, baseline: seq<Stat>, items: seq<Item>)
    requires Magnitudes(items) && IsBaseline(baseline, items)
    ensures Scope(category, baseline) == if HasHistory(category, items) then category else ""
  {
    assert category in Keys(baseline) <==> CountOf(items, category) > 0;
    if category != "" {
      OwnScaleIsGroup(category, baseline, items);
    }
  }

  /** Without a flag the reason speaks of the account, or of nothing when it has no rows. */
  lemma QuietReasonNamesAccount(amount: real, category: string, baseline: seq<Stat>, items: seq<Item>)
    requires Magnitudes(items) && IsBaseline(baseline, items)
    requires !Assess(amount, category, baseline).anomalous
    ensures Assess(amount, category, baseline).named == if items == [] then None else Some("")
  {
    AccountPoolIsAll(baseline, items);
    if category != "" {
      OwnScaleIsGroup(category, baseline, items);
      assert category in Keys(baseline) <==> CountOf(items, category) > 0;
    }
    if items == [] {
      assert CountOf(items, category) == 0;
    }
  }

  /** A salary well above its category's average: it is compared with the category, and the
      reason speaks of the account's average. */
  lemma InflowNamesTheAccount()
    ensures var baseline := [Stat("income", 1, 10.0, 10.0, 10.0)];
            && IsBaseline(baseline, [Item("income", 10.0)])
            && Assess(1000.0, "income", baseline) == Assessment(true, SeverityLow, "income", Some(""))
  {
    var baseline, items := [Stat("income", 1, 10.0, 10.0, 10.0)], [Item("income", 10.0)];
    assert items[..0] == [];
    assert Keys(baseline) == ["income"];
    assert forall k :: CountOf(items, k) == if k == "income" then 1 else 0;
    assert SumOf(items, "income") == SumOf(items[..0], "income") + 10.0;
    assert MaxOf(items, "income") == Larger(MaxOf(items[..0], "income"), 10.0);
  }

  // ----- A line with no rows -----

  lemma {:induction false} OwnMaxWithinAccount(category: string, baseline: seq<Stat>)
    ensures OwnScale(category, baseline).max <= AccountScale(baseline).max
  {
    if baseline != [] {
      if category != "" && baseline[0].category == category {
        LineWithinAccount(baseline, 0);
      } else {
        OwnMaxWithinAccount(category, baseline[1..]);
        TailWithinAccount(baseline);
      }
    }
  }

  lemma {:induction false} LineWithinAccount(baseline: seq<Stat>, i: nat)
    requires i < |baseline|
    ensures Abs(baseline[i].max) <= AccountScale(baseline).max
  {
    if i < |baseline| - 1 {
      LineWithinAccount(baseline[..|baseline| - 1], i);
    }
  }

  lemma {:induction false} TailWithinAccount(baseline: seq<Stat>)
    requires baseline != []
    ensures AccountScale(baseline[1..]).max <= AccountScale(baseline).max
  {
    var n := |baseline| - 1;
    if n > 0 {
      TailWithinAccount(baseline[..n]);
      assert baseline[1..][..n - 1] == baseline[..n][1..];
    } else {
      LineWithinAccount(baseline, 0);
      assert baseline[1..] == [];
    }
  }

  /** When the first line of the category has no rows, the fallback is the account's own scale
      exactly when that line carries no amount either; grouped rows always satisfy this. */
  lemma FallbackIsAccountIff(category: string, baseline: seq<Stat>)
    requires OwnScale(category, baseline).count == 0
    ensures Pool(category, baseline) == AccountScale(baseline) <==> OwnScale(category, baseline).total == 0.0
  {
    OwnMaxWithinAccount(category, baseline);
  }

  lemma ScoreOfOne(amount: real, total: real, max: real)
    ensures Score(amount, Scale(1, total, max)) == Grade(amount > 0.0, Abs(amount), total, max)
  {
    assert Mean(Scale(1, total, max)) == total;
  }

  lemma TwoLines(a: Stat, b: Stat)
    ensures AccountScale([a, b]) == Plus(Plus(Scale(0, 0.0, 0.0), a), b)
  {
    assert [a, b][..1] == [a] && [a][..0] == [];
    assert AccountScale([a]) == Plus(AccountScale([a][..0]), a);
  }

  lemma EmptyLinePools(a: Stat, b: Stat)
    requires a.count == 0 && a.max == 0.0 && a.category != "" && b.category != a.category
    requires a.total >= 0.0 && b.total >= 0.0 && b.max >= 0.0
    ensures AccountScale([a, b]) == Scale(b.count, a.total + b.total, b.max)
    ensures Pool(a.category, [a, b]) == Scale(b.count, a.total + (a.total + b.total), b.max)
  {
    TwoLines(a, b);
    assert OwnScale(a.category, [a, b]) == Scale(0, a.total, 0.0);
  }

  /** Counted twice, such a line can hide an outflow that the account's scale would flag. */
  lemma EmptyLineHidesOutflow()
    ensures var baseline := [Stat("rent", 0, 100.0, 0.0, 0.0), Stat("food", 1, 10.0, 10.0, 10.0)];
            && Score(-250.0, Pool("rent", baseline)) == SeverityNone
            && Score(-250.0, AccountScale(baseline)) == SeverityLow
  {
    EmptyLinePools(Stat("rent", 0, 100.0, 0.0, 0.0), Stat("food", 1, 10.0, 10.0, 10.0));
    ScoreOfOne(-250.0, 210.0, 10.0);
    ScoreOfOne(-250.0, 110.0, 10.0);
  }

  // ----- Properties of the verdict -----

  /** For one baseline, the severity of an outflow never falls as its magnitude grows. */
  lemma SeverityIsMonotone(a: real, b: real, category: string, baseline: seq<Stat>)
    requires b <= a <= 0.0
    ensures Rank(Assess(a, category, baseline).severity) <= Rank(Assess(b, category, baseline).severity)
  {
    var pool := Pool(category, baseline);
    if pool.count != 0 {
      var mean := pool.total / pool.count as real;
      assert Abs(a) <= Abs(b);
    }
  }

  function Rescale(f: real, x: real): real { f * x }

  function Scaled(baseline: seq<Stat>, f: real): seq<Stat> {
    seq(|baseline|, i requires 0 <= i < |baseline| => ScaledLine(baseline[i], f))
  }

  function ScaledLine(s: Stat, f: real): Stat {
    Stat(s.category, s.count, Rescale(f, s.total), Rescale(f, s.mean), Rescale(f, s.max))
  }

  function Times(f: real, s: Scale): Scale { Scale(s.count, Rescale(f, s.total), Rescale(f, s.max)) }

  lemma CompareTimes(f: real, a: real, b: real)
    requires f > 0.0
    ensures Rescale(f, a) > Rescale(f, b) <==> a > b
  {
    assert f * a - f * b == f * (a - b);
    if a > b {
      assert f * (a - b) > 0.0;
    } else {
      assert f * (b - a) >= 0.0;
    }
  }

  lemma AbsTimes(f: real, x: real)
    requires f > 0.0
    ensures Abs(Rescale(f, x)) == Rescale(f, Abs(x))
  {
    CompareTimes(f, 0.0, x);
    assert f * (-x) == -(f * x);
  }

  lemma LargerTimes(f: real, x: real, y: real)
    requires f > 0.0
    ensures Larger(Rescale(f, x), Rescale(f, y)) == Rescale(f, Larger(x, y))
  {
    CompareTimes(f, y, x);
  }

  lemma {:induction false} OwnScaleTimes(category: string, baseline: seq<Stat>, f: real)
    requires f > 0.0
    ensures OwnScale(category, Scaled(baseline, f)) == Times(f, OwnScale(category, baseline))
  {
    if baseline != [] {
      assert Scaled(baseline, f)[1..] == Scaled(baseline[1..], f);
      OwnScaleTimes(category, baseline[1..], f);
      AbsTimes(f, baseline[0].total);
      AbsTimes(f, baseline[0].max);
    }
  }

  lemma PlusTimes(f: real, s: Scale, line: Stat)
    requires f > 0.0
    ensures Plus(Times(f, s), ScaledLine(line, f)) == Times(f, Plus(s, line))
  {
    AbsTimes(f, line.total);
    AbsTimes(f, line.max);
    LargerTimes(f, s.max, Abs(line.max));
    Distribute(f, s.total, Abs(line.total));
  }

  lemma Distribute(f: real, x: real, y: real)
    ensures Rescale(f, x + y) == Rescale(f, x) + Rescale(f, y)
  {
  }

  lemma {:induction false} AccountScaleTimes(baseline: seq<Stat>, f: real)
    requires f > 0.0
    ensures AccountScale(Scaled(baseline, f)) == Times(f, AccountScale(baseline))
  {
    if baseline != [] {
      var n := |baseline| - 1;
      assert Scaled(baseline, f)[..n] == Scaled(baseline[..n], f);
      AccountScaleTimes(baseline[..n], f);
      PlusTimes(f, AccountScale(baseline[..n]), baseline[n]);
    }
  }

  lemma BlendTimes(f: real, own: Scale, all: Scale)
    requires f > 0.0
    ensures Blend(Times(f, own), Times(f, all)) == Times(f, Blend(own, all))
  {
    LargerTimes(f, own.max, all.max);
    Distribute(f, own.total, all.total);
  }

  lemma PoolTimes(category: string, baseline: seq<Stat>, f: real)
    requires f > 0.0
    ensures Pool(category, Scaled(baseline, f)) == Times(f, Pool(category, baseline))
  {
    OwnScaleTimes(category, baseline, f);
    AccountScaleTimes(baseline, f);
    BlendTimes(f, OwnScale(category, baseline), AccountScale(baseline));
  }

  lemma ExceedsTimes(f: real, a: real, m: real, k: real)
    requires f > 0.0
    ensures Exceeds(Rescale(f, a), Rescale(f, m), k) <==> Exceeds(a, m, k)
  {
    CompareTimes(f, a, m * k);
    assert f * (m * k) == (f * m) * k;
  }

  lemma Quotient(f: real, total: real, n: real)
    requires n != 0.0
    ensures Rescale(f, total) / n == Rescale(f, total / n)
  {
    var mean := total / n;
    assert total == mean * n;
    assert f * total == (f * mean) * n;
  }

  lemma MeanTimes(f: real, s: Scale)
    requires s.count != 0
    ensures Mean(Times(f, s)) == Rescale(f, Mean(s))
  {
    Quotient(f, s.total, s.count as real);
  }

  lemma SignTimes(f: real, x: real)
    requires f > 0.0
    ensures (Rescale(f, x) > 0.0) == (x > 0.0)
  {
    if x > 0.0 {
      assert f * x > 0.0;
    } else {
      assert f * (-x) >= 0.0;
      assert f * x == -(f * (-x));
    }
  }

  lemma GradeTimes(f: real, incoming: bool, a: real, mean: real, max: real)
    requires f > 0.0
    ensures Grade(incoming, Rescale(f, a), Rescale(f, mean), Rescale(f, max)) == Grade(incoming, a, mean, max)
  {
    ExceedsTimes(f, a, mean, 10.0);
    ExceedsTimes(f, a, mean, 4.0);
    ExceedsTimes(f, a, mean, 3.0);
    ExceedsTimes(f, a, mean, 2.0);
    ExceedsTimes(f, a, max, 2.0);
  }

  lemma ScoreTimes(amount: real, s: Scale, f: real)
    requires f > 0.0
    ensures Score(Rescale(f, amount), Times(f, s)) == Score(amount, s)
  {
    if s.count != 0 {
      MeanTimes(f, s);
      AbsTimes(f, amount);
      SignTimes(f, amount);
      GradeTimes(f, amount > 0.0, Abs(amount), Mean(s), s.max);
      calc {
        Score(Rescale(f, amount), Times(f, s));
        Grade(Rescale(f, amount) > 0.0, Abs(Rescale(f, amount)), Mean(Times(f, s)), Rescale(f, s.max));
        Grade(amount > 0.0, Rescale(f, Abs(amount)), Rescale(f, Mean(s)), Rescale(f, s.max));
        Grade(amount > 0.0, Abs(amount), Mean(s), s.max);
      }
    }
  }

  /** Scaling the amount and every amount of the baseline by one positive factor, as a change
      of currency would, changes no verdict. */
  lemma VerdictIsScaleFree(amount: real, category: string, baseline: seq<Stat>, f: real)
    requires f > 0.0
    ensures Assess(Rescale(f, amount), category, Scaled(baseline, f)) == Assess(amount, category, baseline)
  {
    OwnScaleTimes(category, baseline, f);
    PoolTimes(category, baseline, f);
    ScoreTimes(amount, Pool(category, baseline), f);
  }

  ghost predicate OneLineEach(baseline: seq<Stat>) {
    forall i, j :: 0 <= i < j < |baseline| ==> baseline[i].category != baseline[j].category
  }

  lemma WithoutInit<T>(xs: seq<T>, i: nat)
    requires i < |xs| - 1
    ensures Without(xs, i) == Without(xs[..|xs| - 1], i) + [xs[|xs| - 1]]
  {
  }

  lemma AccountScaleSnoc(baseline: seq<Stat>, line: Stat)
    ensures AccountScale(baseline + [line]) == Plus(AccountScale(baseline), line)
  {
    assert (baseline + [line])[..|baseline|] == baseline;
  }

  lemma {:induction false} AccountScaleWithout(baseline: seq<Stat>, i: nat)
    requires i < |baseline|
    ensures AccountScale(baseline) == Plus(AccountScale(Without(baseline, i)), baseline[i])
    decreases |baseline|
  {
    var n := |baseline| - 1;
    if i == n {
      assert Without(baseline, i) == baseline[..n];
    } else {
      AccountScaleWithout(baseline[..n], i);
      WithoutInit(baseline, i);
      AccountScaleSnoc(Without(baseline[..n], i), baseline[n]);
      PlusCommutes(AccountScale(Without(baseline[..n], i)), baseline[i], baseline[n]);
    }
  }

  lemma PlusCommutes(s: Scale, a: Stat, b: Stat)
    ensures Plus(Plus(s, a), b) == Plus(Plus(s, b), a)
  {
  }

  lemma {:induction false} AccountScaleReordered(b1: seq<Stat>, b2: seq<Stat>)
    requires multiset(b1) == multiset(b2)
    ensures AccountScale(b1) == AccountScale(b2)
    decreases |b1|
  {
    assert |b1| == |multiset(b1)| == |b2|;
    if b1 != [] {
      var n := |b1| - 1;
      assert b1[n] in multiset(b2);
      var i :| 0 <= i < |b2| && b2[i] == b1[n];
      RemovalKeepsReordering(b1, b2, i);
      AccountScaleReordered(b1[..n], Without(b2, i));
      AccountScaleWithout(b2, i);
    } else {
      assert b2 == [];
    }
  }

  lemma RemovalKeepsReordering(b1: seq<Stat>, b2: seq<Stat>, i: nat)
    requires multiset(b1) == multiset(b2) && b1 != [] && i < |b2| && b2[i] == b1[|b1| - 1]
    ensures multiset(b1[..|b1| - 1]) == multiset(Without(b2, i))
  {
    assert b1 == b1[..|b1| - 1] + [b2[i]];
    assert b2 == b2[..i] + ([b2[i]] + b2[i + 1..]);
    Cancel(multiset(b1[..|b1| - 1]), multiset(Without(b2, i)), b2[i]);
  }

  lemma Cancel(a: multiset<Stat>, b: multiset<Stat>, s: Stat)
    requires a + multiset{s} == b + multiset{s}
    ensures a == b
  {
    assert a == (a + multiset{s}) - multiset{s};
  }

  lemma {:induction false} OwnScaleOfLine(category: string, baseline: seq<Stat>, i: nat)
    requires i < |baseline| && OneLineEach(baseline) && baseline[i].category == category != ""
    ensures OwnScale(category, baseline) == Scale(baseline[i].count, Abs(baseline[i].total), Abs(baseline[i].max))
  {
    if i > 0 {
      OwnScaleOfLine(category, baseline[1..], i - 1);
    }
  }

  lemma {:induction false} OwnScaleOfNone(category: string, baseline: seq<Stat>)
    requires forall i :: 0 <= i < |baseline| ==> baseline[i].category != category
    ensures OwnScale(category, baseline) == Scale(0, 0.0, 0.0)
  {
    if baseline != [] {
      OwnScaleOfNone(category, baseline[1..]);
    }
  }

  lemma OwnScaleReordered(category: string, b1: seq<Stat>, b2: seq<Stat>)
    requires (forall s :: s in b1 <==> s in b2) && OneLineEach(b1) && OneLineEach(b2) && category != ""
    ensures OwnScale(category, b1) == OwnScale(category, b2)
  {
    if i :| 0 <= i < |b1| && b1[i].category == category {
      assert b1[i] in b2;
      var j :| 0 <= j < |b2| && b2[j] == b1[i];
      OwnScaleOfLine(category, b1, i);
      OwnScaleOfLine(category, b2, j);
    } else {
      assert forall j :: 0 <= j < |b2| ==> b2[j] in b1;
      OwnScaleOfNone(category, b1);
      OwnScaleOfNone(category, b2);
    }
  }

  /** The order of a baseline with one line for each category does not matter. */
  lemma VerdictIgnoresOrder(amount: real, category: string, b1: seq<Stat>, b2: seq<Stat>)
    requires multiset(b1) == multiset(b2) && OneLineEach(b1) && OneLineEach(b2)
    ensures Assess(amount, category, b1) == Assess(amount, category, b2)
  {
    AccountScaleReordered(b1, b2);
    forall s ensures s in b1 <==> s in b2 {
      assert s in b1 <==> s in multiset(b1);
      assert s in b2 <==> s in multiset(b2);
    }
    if category != "" {
      OwnScaleReordered(category, b1, b2);
    }
  }

  // ----- Ordinary amounts are never flagged -----

  /** How many times the mean an amount may reach without being flagged. */
  function Bar(amount: real): real { if amount > 0.0 then 10.0 else 2.0 }

  /** `amount` reaches past the bar set by no row of the category. */
  predicate Covered(amount: real, category: string, items: seq<Item>) {
    forall i :: 0 <= i < |items| && items[i].key == category ==> !Exceeds(Abs(amount), items[i].value, Bar(amount))
  }

  lemma {:induction false} SumCovers(amount: real, category: string, items: seq<Item>)
    requires Covered(amount, category, items)
    ensures CountOf(items, category) as real * Abs(amount) <= SumOf(items, category) * Bar(amount)
  {
    if items != [] {
      var init := items[..|items| - 1];
      SumCovers(amount, category, init);
      var n, a := CountOf(init, category) as real, Abs(amount);
      assert (n + 1.0) * a == n * a + a;
    }
  }

  lemma MeanCovers(n: real, total: real, a: real, times: real)
    requires n > 0.0 && n * a <= total * times
    ensures !Exceeds(a, total / n, times)
  {
    var mean := total / n;
    assert total == mean * n;
    assert total * times == n * (mean * times);
    if a > mean * times {
      assert n * (a - mean * times) > 0.0;
    }
  }

  lemma BelowBarIsQuiet(amount: real, scale: Scale)
    requires scale.count != 0 && !Exceeds(Abs(amount), Mean(scale), Bar(amount))
    ensures Score(amount, scale) == SeverityNone
  {
  }

  /** An outflow no more than twice any past amount of its category, or an inflow no more
      than ten times, is never flagged. */
  lemma OrdinaryIsNotFlagged(amount: real, category: string, items: seq<Item>)
    requires category != "" && CountOf(items, category) > 0 && Covered(amount, category, items)
    ensures ScoreRaw(amount, category, items) == SeverityNone
  {
    SumCovers(amount, category, items);
    var n, a := CountOf(items, category) as real, Abs(amount);
    MeanCovers(n, SumOf(items, category), a, Bar(amount));
    BelowBarIsQuiet(amount, Scale(CountOf(items, category), SumOf(items, category), MaxOf(items, category)));
  }
}
