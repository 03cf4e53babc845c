/** Spending by category and cash flow over a window, as the summary and insights report them. */
module Aggregate {
  import opened Common
  import opened Money
  import opened Ledger
  import opened GroupBy

  /** The caller's rows in [start, end): those of the accounts the caller owns. */
  function Selected(rows: seq<Txn>, owned: set<int>, start: int, end: int): seq<Txn> {
    if rows == [] then []
    else
      var t := rows[|rows| - 1];
      var rest := Selected(rows[..|rows| - 1], owned, start, end);
      if InWindow(t, owned, start, end) then rest + [t] else rest
  }

  predicate InWindow(t: Txn, owned: set<int>, start: int, end: int) {
    t.account in owned && start <= t.at < end
  }

  lemma {:induction false} SelectedIsWindow(rows: seq<Txn>, owned: set<int>, start: int, end: int, t: Txn)
    ensures t in Selected(rows, owned, start, end) <==> t in rows && InWindow(t, owned, start, end)
  {
    if rows != [] {
      SelectedIsWindow(rows[..|rows| - 1], owned, start, end, t);
      assert t in rows <==> t in rows[..|rows| - 1] || t == rows[|rows| - 1];
    }
  }

  /** The window keeps each of its rows as often as it is stored. */
  lemma {:induction false} SelectedKeepsEach(rows: seq<Txn>, owned: set<int>, start: int, end: int, t: Txn)
    ensures multiset(Selected(rows, owned, start, end))[t]
         == if InWindow(t, owned, start, end) then multiset(rows)[t] else 0
  {
    if rows != [] {
      var n := |rows| - 1;
      SelectedKeepsEach(rows[..n], owned, start, end, t);
      assert rows == rows[..n] + [rows[n]];
    }
  }

  function SignedSum(rows: seq<Txn>): real {
    if rows == [] then 0.0 else SignedSum(rows[..|rows| - 1]) + rows[|rows| - 1].amount
  }

  function Inflow(rows: seq<Txn>): real {
    if rows == [] then 0.0
    else Inflow(rows[..|rows| - 1]) + (if rows[|rows| - 1].amount > 0.0 then rows[|rows| - 1].amount else 0.0)
  }

  function Outflow(rows: seq<Txn>): real {
    if rows == [] then 0.0
    else Outflow(rows[..|rows| - 1]) + (if rows[|rows| - 1].amount < 0.0 then -rows[|rows| - 1].amount else 0.0)
  }

  /** The cash flow query over the selected rows, rounded to cents. */
  function Cashflow(rows: seq<Txn>): (real, real) {
    (Round2(Inflow(rows)), Round2(Outflow(rows)))
  }

  /** The negative rows, as magnitudes by category. */
  function Spending(rows: seq<Txn>): seq<Item> {
    if rows == [] then []
    else
      var t := rows[|rows| - 1];
      var rest := Spending(rows[..|rows| - 1]);
      if t.amount < 0.0 then rest + [Item(t.category, -t.amount)] else rest
  }

  datatype Bucket = Bucket(category: string, count: nat, total: real)

  function Categories(answer: seq<Bucket>): seq<string> { Each(answer, (b: Bucket) => b.category) }

  function Totals(answer: seq<Bucket>): seq<real> { Each(answer, (b: Bucket) => b.total) }

  predicate Descending(answer: seq<Bucket>) {
    forall i, j :: 0 <= i <= j < |answer| ==> answer[i].total >= answer[j].total
  }

  /** The category query's contract: one line for each group of negative rows, with its
      count and sum, largest sum first. */
  ghost predicate IsSpendingAnswer(answer: seq<Bucket>, rows: seq<Txn>) {
    && IsGrouping(Categories(answer), Spending(rows))
    && (forall i :: 0 <= i < |answer| ==>
          && answer[i].count == CountOf(Spending(rows), answer[i].category)
          && answer[i].total == SumOf(Spending(rows), answer[i].category))
    && Descending(answer)
  }

  /** Rounds the query's totals and lists the buckets. */
  method CategoryOutflow(answer: seq<Bucket>) returns (buckets: seq<Bucket>)
    ensures |buckets| == |answer|
    ensures forall i :: 0 <= i < |answer| ==> buckets[i] == answer[i].(total := Round2(answer[i].total))
    ensures Descending(answer) ==> Descending(buckets)
  {
    buckets := [];
    for i := 0 to |answer|
      invariant |buckets| == i
      invariant forall j :: 0 <= j < i ==> buckets[j] == answer[j].(total := Round2(answer[j].total))
    {
      var c := answer[i];
      buckets := buckets + [c.(total := Round2(c.total))];
    }
    forall i, j | 0 <= i <= j < |answer| && answer[i].total >= answer[j].total
      ensures buckets[i].total >= buckets[j].total
    {
      Round2Monotone(answer[j].total, answer[i].total);
    }
  }

  lemma {:induction false} SpendingIsOutflow(rows: seq<Txn>)
    ensures Total(Spending(rows)) == Outflow(rows)
    ensures forall i :: 0 <= i < |Spending(rows)| ==> Spending(rows)[i].value > 0.0
  {
    if rows != [] {
      SpendingIsOutflow(rows[..|rows| - 1]);
      var t, rest := rows[|rows| - 1], Spending(rows[..|rows| - 1]);
      if t.amount < 0.0 {
        assert Spending(rows)[..|rest|] == rest;
      }
    }
  }

  /** Money in less money out is the signed sum, for any rows. */
  lemma {:induction false} FlowsBalance(rows: seq<Txn>)
    ensures Inflow(rows) - Outflow(rows) == SignedSum(rows)
    ensures Inflow(rows) >= 0.0 && Outflow(rows) >= 0.0
  {
    if rows != [] {
      FlowsBalance(rows[..|rows| - 1]);
    }
  }

  lemma {:induction false} TotalsAreGroupSums(answer: seq<Bucket>, items: seq<Item>)
    requires forall i :: 0 <= i < |answer| ==> answer[i].total == SumOf(items, answer[i].category)
    ensures Sum(Totals(answer)) == SumOver(Categories(answer), items)
  {
    if answer != [] {
      var init := answer[..|answer| - 1];
      TotalsAreGroupSums(init, items);
      assert Totals(answer)[..|answer| - 1] == Totals(init);
      assert Categories(answer)[..|answer| - 1] == Categories(init);
    }
  }

  /** The per-category totals add up to the outflow of the cash flow query, and to within
      half a cent for each category once rounded. */
  lemma BreakdownSumsToOutflow(answer: seq<Bucket>, rows: seq<Txn>)
    requires IsSpendingAnswer(answer, rows)
    ensures Sum(Totals(answer)) == Outflow(rows)
    ensures Within(Sum(Rounded(Totals(answer))), Outflow(rows), 0.005 * |answer| as real)
  {
    SpendingIsOutflow(rows);
    TotalsAreGroupSums(answer, Spending(rows));
    GroupingPartitions(Categories(answer), Spending(rows));
    RoundedSumIsNear(Totals(answer));
  }

  predicate Spends(t: Txn, category: string) { t.category == category && t.amount < 0.0 }

  lemma {:induction false} SpendingHasRow(rows: seq<Txn>, category: string)
    ensures CountOf(Spending(rows), category) > 0 <==> exists t :: t in rows && Spends(t, category)
  {
    if rows != [] {
      var init, t := rows[..|rows| - 1], rows[|rows| - 1];
      SpendingHasRow(init, category);
      if t.amount < 0.0 {
        assert Spending(rows)[..|Spending(init)|] == Spending(init);
      }
      assert forall u :: u in rows <==> u in init || u == t;
      if CountOf(Spending(init), category) > 0 {
        var u :| u in init && Spends(u, category);
        assert u in rows;
      } else if Spends(t, category) {
        assert t in rows;
      }
    }
  }

  predicate SpentAt(rows: seq<Txn>, i: int, category: string) { 0 <= i < |rows| && Spends(rows[i], category) }

  /** How many rows spend on a category, and how much. */
  function SpentCount(rows: seq<Txn>, category: string): nat {
    |set i | 0 <= i < |rows| && SpentAt(rows, i, category)|
  }

  function Spent(rows: seq<Txn>, category: string): real {
    if rows == [] then 0.0
    else (if Spends(rows[0], category) then -rows[0].amount else 0.0) + Spent(rows[1..], category)
  }

  lemma SpentCountSnoc(rows: seq<Txn>, category: string)
    requires rows != []
    ensures var n := |rows| - 1;
            SpentCount(rows, category) == SpentCount(rows[..n], category) + (if Spends(rows[n], category) then 1 else 0)
  {
    var n := |rows| - 1;
    var before := set i | 0 <= i < n && SpentAt(rows[..n], i, category);
    var all := set i | 0 <= i < |rows| && SpentAt(rows, i, category);
    assert all == before + (if Spends(rows[n], category) then {n} else {});
  }

  lemma NothingSpent(category: string)
    ensures SpentCount([], category) == 0
  {
    assert (set i | 0 <= i < 0 && SpentAt([], i, category)) == {};
  }

  lemma {:induction false} SpentSnoc(rows: seq<Txn>, category: string)
    requires rows != []
    ensures var n := |rows| - 1;
            Spent(rows, category)
            == Spent(rows[..n], category) + (if Spends(rows[n], category) then -rows[n].amount else 0.0)
    decreases |rows|
  {
    var n := |rows| - 1;
    if n > 0 {
      SpentSnoc(rows[1..], category);
      assert rows[1..][..n - 1] == rows[..n][1..];
    } else {
      assert rows[1..] == [] && rows[..n] == [];
    }
  }

  lemma SpendingSnoc(rows: seq<Txn>, category: string)
    requires rows != []
    ensures var init, t := Spending(rows[..|rows| - 1]), rows[|rows| - 1];
            && CountOf(Spending(rows), category) == CountOf(init, category) + (if Spends(t, category) then 1 else 0)
            && SumOf(Spending(rows), category)
               == SumOf(init, category) + (if Spends(t, category) then -t.amount else 0.0)
  {
    var init, t := Spending(rows[..|rows| - 1]), rows[|rows| - 1];
    if t.amount < 0.0 {
      assert Spending(rows)[..|init|] == init;
    }
  }

  lemma {:induction false} SpendingIsSpent(rows: seq<Txn>, category: string)
    ensures CountOf(Spending(rows), category) == SpentCount(rows, category)
    ensures SumOf(Spending(rows), category) == Spent(rows, category)
  {
    if rows == [] {
      NothingSpent(category);
    } else {
      SpendingIsSpent(rows[..|rows| - 1], category);
      SpendingSnoc(rows, category);
      SpentCountSnoc(rows, category);
      SpentSnoc(rows, category);
    }
  }

  /** Each bucket counts the category's negative rows and totals what they took. */
  lemma BucketsAreOfTheirRows(answer: seq<Bucket>, rows: seq<Txn>, i: nat)
    requires IsSpendingAnswer(answer, rows) && i < |answer|
    ensures answer[i].count == SpentCount(rows, answer[i].category)
    ensures answer[i].total == Spent(rows, answer[i].category)
  {
    SpendingIsSpent(rows, answer[i].category);
  }

  /** A category is listed exactly when it has a negative row, and then once. */
  lemma CategoryListedIffSpent(answer: seq<Bucket>, rows: seq<Txn>, category: string)
    requires IsSpendingAnswer(answer, rows)
    ensures (exists t :: t in rows && Spends(t, category))
       <==> (exists j :: 0 <= j < |answer| && answer[j].category == category)
    ensures forall i, j :: 0 <= i < j < |answer| ==> answer[i].category != answer[j].category
  {
    SpendingHasRow(rows, category);
    var keys := Categories(answer);
    assert forall i :: 0 <= i < |answer| ==> keys[i] == answer[i].category;
    assert category in keys <==> CountOf(Spending(rows), category) > 0;
  }

  /** Over any rows and window: the breakdown adds up to the outflow, inflow less the
      breakdown is the signed sum, and a category is listed exactly when the caller has a
      negative row of it in the window. */
  lemma WindowReport(answer: seq<Bucket>, rows: seq<Txn>, owned: set<int>, start: int, end: int, category: string)
    requires IsSpendingAnswer(answer, Selected(rows, owned, start, end))
    ensures var selected := Selected(rows, owned, start, end);
            && Sum(Totals(answer)) == Outflow(selected)
            && Inflow(selected) - Sum(Totals(answer)) == SignedSum(selected)
    ensures (exists j :: 0 <= j < |answer| && answer[j].category == category)
       <==> (exists t :: t in rows && InWindow(t, owned, start, end) && Spends(t, category))
  {
    var selected := Selected(rows, owned, start, end);
    BreakdownSumsToOutflow(answer, selected);
    FlowsBalance(selected);
    CategoryListedIffSpent(answer, selected, category);
    forall t ensures t in selected <==> t in rows && InWindow(t, owned, start, end) {
      SelectedIsWindow(rows, owned, start, end, t);
    }
  }

  predicate RowsInCents(rows: seq<Txn>) {
    forall i :: 0 <= i < |rows| ==> WholeCents(rows[i].amount)
  }

  lemma {:induction false} GroupSumsInCents(rows: seq<Txn>, category: string)
    requires RowsInCents(rows)
    ensures WholeCents(SumOf(Spending(rows), category)) && WholeCents(Outflow(rows))
  {
    if rows != [] {
      var init, t := rows[..|rows| - 1], rows[|rows| - 1];
      GroupSumsInCents(init, category);
      CentsAdd(SumOf(Spending(init), category), t.amount);
      CentsAdd(Outflow(init), t.amount);
      if t.amount < 0.0 {
        assert Spending(rows)[..|Spending(init)|] == Spending(init);
      }
    }
  }

  /** With whole-cent rows the reported totals add up exactly to the reported outflow. */
  lemma ReportedTotalsAddUp(answer: seq<Bucket>, rows: seq<Txn>)
    requires IsSpendingAnswer(answer, rows) && RowsInCents(rows)
    ensures Sum(Rounded(Totals(answer))) == Cashflow(rows).1
  {
    BreakdownSumsToOutflow(answer, rows);
    forall i | 0 <= i < |answer| ensures WholeCents(Totals(answer)[i]) {
      GroupSumsInCents(rows, answer[i].category);
    }
    RoundedSumInCents(Totals(answer));
    GroupSumsInCents(rows, "");
    Round2Facts(Outflow(rows));
  }
}
