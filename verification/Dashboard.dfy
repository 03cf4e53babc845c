/** The figures of one dashboard response against each other: the chart of combined balances,
    and the inflow and outflow of the period. */
module Dashboard {
  import opened Money
  import opened Ledger
  import opened Aggregate
  import opened Summary

  /** The first instant of a day. */
  function Midnight(day: int): int { day * DAY }

  lemma OnDays(at: int, lo: int, hi: int)
    ensures lo < Day(at) <= hi <==> Midnight(lo + 1) <= at < Midnight(hi + 1)
  {
  }

  lemma {:induction false} MovedIsSelected(rows: seq<Txn>, owned: set<int>, lo: int, hi: int)
    ensures NetMoved(rows, owned, lo, hi) == SignedSum(Selected(rows, owned, Midnight(lo + 1), Midnight(hi + 1)))
  {
    if rows != [] {
      MovedIsSelected(rows[..|rows| - 1], owned, lo, hi);
      OnDays(rows[|rows| - 1].at, lo, hi);
      SelectedLast(rows, owned, Midnight(lo + 1), Midnight(hi + 1));
    }
  }

  lemma SelectedLast(rows: seq<Txn>, owned: set<int>, start: int, end: int)
    requires rows != []
    ensures var t := rows[|rows| - 1];
            SignedSum(Selected(rows, owned, start, end))
            == SignedSum(Selected(rows[..|rows| - 1], owned, start, end))
               + (if InWindow(t, owned, start, end) then t.amount else 0.0)
  {
    var rest, t := Selected(rows[..|rows| - 1], owned, start, end), rows[|rows| - 1];
    assert (rest + [t])[..|rest|] == rest;
  }

  /** Adjoining windows add up. */
  lemma {:induction false} WindowsAdd(rows: seq<Txn>, owned: set<int>, a: int, b: int, c: int)
    requires a <= b <= c
    ensures SignedSum(Selected(rows, owned, a, c))
         == SignedSum(Selected(rows, owned, a, b)) + SignedSum(Selected(rows, owned, b, c))
  {
    if rows != [] {
      WindowsAdd(rows[..|rows| - 1], owned, a, b, c);
      SelectedLast(rows, owned, a, b);
      SelectedLast(rows, owned, b, c);
      SelectedLast(rows, owned, a, c);
    }
  }

  function Slack(accounts: seq<Account>): real { 0.005 * |accounts| as real + 0.005 }

  /** A chart over `n` days from the day of `start`, as the summary computes it. */
  ghost predicate IsChart(serie: seq<real>, accounts: seq<Account>, rows: seq<Txn>, start: int, n: nat) {
    |serie| == n && forall i :: 0 <= i < n ==> IsPoint(serie[i], accounts, rows, Day(start) + i, Day(start) + n - 1)
  }

  /** The rows of the caller on the days after day `i` of the chart. */
  function After(accounts: seq<Account>, rows: seq<Txn>, start: int, n: nat, i: nat): seq<Txn> {
    Selected(rows, Owned(accounts), Midnight(Day(start) + i + 1), Midnight(Day(start) + n))
  }

  lemma {:induction false} NothingMovedOnNoDay(rows: seq<Txn>, owned: set<int>, day: int)
    ensures NetMoved(rows, owned, day, day) == 0.0
  {
    if rows != [] {
      NothingMovedOnNoDay(rows[..|rows| - 1], owned, day);
    }
  }

  /** From any day to the last the chart rises by the inflow less the outflow of the days in
      between, to within the rounding of two points, and exactly so in whole cents. */
  lemma RiseIsCashflow(serie: seq<real>, accounts: seq<Account>, rows: seq<Txn>, start: int, n: nat, i: nat)
    requires IsChart(serie, accounts, rows, start, n) && i < n
    ensures var later := After(accounts, rows, start, n, i);
            && Within(serie[n - 1] - serie[i], Inflow(later) - Outflow(later), 2.0 * Slack(accounts))
            && (StoredInCents(accounts, rows) ==> serie[n - 1] - serie[i] == Inflow(later) - Outflow(later))
  {
    var first, last := Day(start) + i, Day(start) + n - 1;
    MovedIsSelected(rows, Owned(accounts), first, last);
    NothingMovedOnNoDay(rows, Owned(accounts), last);
    FlowsBalance(After(accounts, rows, start, n, i));
    assert IsPoint(serie[i], accounts, rows, first, last);
    assert IsPoint(serie[n - 1], accounts, rows, last, last);
  }

  /** The caller's rows in a window of instants. */
  function Net(accounts: seq<Account>, rows: seq<Txn>, from: int, to: int): real {
    SignedSum(Selected(rows, Owned(accounts), from, to))
  }

  /** The reported inflow less the reported outflow. */
  function Reported(accounts: seq<Account>, rows: seq<Txn>, start: int, end: int): real {
    var (inflow, outflow) := Cashflow(Selected(rows, Owned(accounts), start, end));
    inflow - outflow
  }

  /** In whole cents the reported figures differ by the signed sum of the period's rows. */
  lemma ReportedIsNet(accounts: seq<Account>, rows: seq<Txn>, start: int, end: int)
    requires RowsInCents(rows)
    ensures Reported(accounts, rows, start, end) == Net(accounts, rows, start, end)
  {
    var selected := Selected(rows, Owned(accounts), start, end);
    FlowsBalance(selected);
    SelectedInCents(rows, Owned(accounts), start, end);
    FlowsInCents(selected);
    Round2Facts(Inflow(selected));
    Round2Facts(Outflow(selected));
  }

  lemma PeriodAndDays(accounts: seq<Account>, rows: seq<Txn>, start: int, end: int)
    requires Day(start) < Day(end)
    ensures var next, last := Midnight(Day(start) + 1), Midnight(Day(end) + 1);
            Net(accounts, rows, start, end)
            == Net(accounts, rows, start, next) + Net(accounts, rows, next, last) - Net(accounts, rows, end, last)
  {
    var next, last := Midnight(Day(start) + 1), Midnight(Day(end) + 1);
    OnDays(end, Day(start), Day(end));
    OnDays(start, Day(start) - 1, Day(start));
    WindowsAdd(rows, Owned(accounts), start, next, end);
    WindowsAdd(rows, Owned(accounts), next, end, last);
  }

  lemma RiseIsNet(serie: seq<real>, accounts: seq<Account>, rows: seq<Txn>, start: int, n: nat)
    requires IsChart(serie, accounts, rows, start, n) && n > 0 && StoredInCents(accounts, rows)
    ensures serie[n - 1] - serie[0] == Net(accounts, rows, Midnight(Day(start) + 1), Midnight(Day(start) + n))
  {
    RiseIsCashflow(serie, accounts, rows, start, n, 0);
    FlowsBalance(After(accounts, rows, start, n, 0));
  }

  /** The two figures of one response, for the period [start, end) the chart's days span: in
      whole cents the reported inflow less the reported outflow is the rise of the chart, plus
      what moved on the first day from `start` on, less what is dated `end` or later on the
      last day. They agree exactly when those two amounts do. */
  lemma ReportedFlowsAndChart(serie: seq<real>, accounts: seq<Account>, rows: seq<Txn>, start: int, end: int, n: nat)
    requires IsChart(serie, accounts, rows, start, n) && n > 1 && Day(end) == Day(start) + n - 1
    requires StoredInCents(accounts, rows)
    ensures var reported, rise := Reported(accounts, rows, start, end), serie[n - 1] - serie[0];
            var firstDay := Net(accounts, rows, start, Midnight(Day(start) + 1));
            var toCome := Net(accounts, rows, end, Midnight(Day(end) + 1));
            reported == rise + firstDay - toCome && (reported == rise <==> firstDay == toCome)
  {
    ReportedIsNet(accounts, rows, start, end);
    PeriodAndDays(accounts, rows, start, end);
    RiseIsNet(serie, accounts, rows, start, n);
  }

  lemma OneRowNet(accounts: seq<Account>, t: Txn, from: int, to: int)
    ensures Net(accounts, [t], from, to) == if InWindow(t, Owned(accounts), from, to) then t.amount else 0.0
  {
    SelectedLast([t], Owned(accounts), from, to);
    assert [t][..0] == [];
  }

  /** They can differ: a row of the first day, dated in the period, is in the reported flows
      and leaves the chart flat. */
  lemma FirstDayIsOnlyInFlows(serie: seq<real>, accounts: seq<Account>, t: Txn, start: int, end: int, n: nat)
    requires IsChart(serie, accounts, [t], start, n) && n > 1 && Day(end) == Day(start) + n - 1
    requires StoredInCents(accounts, [t]) && t.account in Owned(accounts) && start <= t.at && Day(t.at) == Day(start)
    ensures serie[n - 1] - serie[0] == 0.0 && Reported(accounts, [t], start, end) == t.amount
  {
    ReportedFlowsAndChart(serie, accounts, [t], start, end, n);
    ReportedIsNet(accounts, [t], start, end);
    OneRowNet(accounts, t, start, end);
    OneRowNet(accounts, t, start, Midnight(Day(start) + 1));
    OneRowNet(accounts, t, end, Midnight(Day(end) + 1));
    OnDays(t.at, Day(start) - 1, Day(start));
    OnDays(end, Day(start), Day(end));
  }

  lemma SelectedInCents(rows: seq<Txn>, owned: set<int>, start: int, end: int)
    requires RowsInCents(rows)
    ensures RowsInCents(Selected(rows, owned, start, end))
  {
    var selected := Selected(rows, owned, start, end);
    forall i | 0 <= i < |selected| ensures WholeCents(selected[i].amount) {
      SelectedIsWindow(rows, owned, start, end, selected[i]);
      assert selected[i] in rows;
    }
  }

  lemma {:induction false} FlowsInCents(rows: seq<Txn>)
    requires RowsInCents(rows)
    ensures WholeCents(Inflow(rows)) && WholeCents(Outflow(rows))
  {
    if rows != [] {
      var init, t := rows[..|rows| - 1], rows[|rows| - 1];
      FlowsInCents(init);
      CentsAdd(Inflow(init), t.amount);
      CentsAdd(Outflow(init), t.amount);
    }
  }
}
