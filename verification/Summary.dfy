/** The dashboard's balance series: each account's balance is rebuilt by undoing daily
    movements backwards from the stored balance, and the accounts are added up. */
module Summary {
  import opened Common
  import opened Money
  import opened Ledger

  type Deltas = map<int, real>

  function DeltaOn(deltas: Deltas, day: int): real {
    if day in deltas then deltas[day] else 0.0
  }

  /** The unrounded balance at the end of day `i`: the current balance with the movement of
      every later day undone. */
  function Running(current: real, deltas: Deltas, timeline: seq<int>, i: nat): real
    requires i < |timeline|
    decreases |timeline| - i
  {
    if i == |timeline| - 1 then current
    else Running(current, deltas, timeline, i + 1) - DeltaOn(deltas, timeline[i + 1])
  }

  function Series(current: real, deltas: Deltas, timeline: seq<int>): (s: seq<real>)
    ensures |s| == |timeline|
  {
    seq(|timeline|, i requires 0 <= i < |timeline| => Round2(Running(current, deltas, timeline, i)))
  }

  method BalanceSeries(current: real, deltas: Deltas, timeline: seq<int>) returns (points: seq<real>)
    ensures points == Series(current, deltas, timeline)
  {
    var series := new real[|timeline|];
    var running := current;
    var i := |timeline| - 1;
    while i >= 0
      invariant -1 <= i < |timeline|
      invariant i >= 0 ==> running == Running(current, deltas, timeline, i)
      invariant forall k :: i < k < |timeline| ==> series[k] == Round2(Running(current, deltas, timeline, k))
    {
      series[i] := Round2(running);
      running := running - DeltaOn(deltas, timeline[i]);
      i := i - 1;
    }
    points := series[..];
  }

  // ----- One account -----

  /** The movements of days 1 to `i` of the timeline. */
  function Replayed(deltas: Deltas, timeline: seq<int>, i: nat): real
    requires i < |timeline|
  {
    if i == 0 then 0.0 else Replayed(deltas, timeline, i - 1) + DeltaOn(deltas, timeline[i])
  }

  /** Replaying the movements forward from the first point rebuilds every balance. */
  lemma {:induction false} ReplayRebuilds(current: real, deltas: Deltas, timeline: seq<int>, i: nat)
    requires i < |timeline|
    ensures Running(current, deltas, timeline, i)
         == Running(current, deltas, timeline, 0) + Replayed(deltas, timeline, i)
  {
    if i > 0 {
      ReplayRebuilds(current, deltas, timeline, i - 1);
    }
  }

  /** The series ends at the current balance, each step is that day's movement, and a point
      is within half a cent of the unrounded balance: exactly it when amounts are whole cents. */
  lemma SeriesFollowsMovements(current: real, deltas: Deltas, timeline: seq<int>, i: nat)
    requires i < |timeline|
    ensures Series(current, deltas, timeline)[|timeline| - 1] == Round2(current)
    ensures i > 0 ==> Running(current, deltas, timeline, i) - Running(current, deltas, timeline, i - 1)
                      == DeltaOn(deltas, timeline[i])
    ensures Within(Series(current, deltas, timeline)[i], Running(current, deltas, timeline, i), 0.005)
    ensures InCents(current, deltas) ==> Series(current, deltas, timeline)[i] == Running(current, deltas, timeline, i)
  {
    Round2Facts(Running(current, deltas, timeline, i));
    if InCents(current, deltas) {
      RunningInCents(current, deltas, timeline, i);
    }
  }

  predicate InCents(current: real, deltas: Deltas) {
    WholeCents(current) && forall d :: d in deltas ==> WholeCents(deltas[d])
  }

  lemma {:induction false} RunningInCents(current: real, deltas: Deltas, timeline: seq<int>, i: nat)
    requires i < |timeline| && InCents(current, deltas)
    ensures WholeCents(Running(current, deltas, timeline, i))
    decreases |timeline| - i
  {
    if i < |timeline| - 1 {
      RunningInCents(current, deltas, timeline, i + 1);
      CentsAdd(Running(current, deltas, timeline, i + 1), DeltaOn(deltas, timeline[i + 1]));
    }
  }

  lemma {:induction false} RunningReadsLaterDays(current: real, d1: Deltas, d2: Deltas, timeline: seq<int>, i: nat)
    requires i < |timeline|
    requires forall k :: i < k < |timeline| ==> DeltaOn(d1, timeline[k]) == DeltaOn(d2, timeline[k])
    ensures Running(current, d1, timeline, i) == Running(current, d2, timeline, i)
    decreases |timeline| - i
  {
    if i < |timeline| - 1 {
      RunningReadsLaterDays(current, d1, d2, timeline, i + 1);
    }
  }

  /** On distinct days, the movement of the first day never matters. */
  lemma FirstDayNeverMatters(current: real, deltas: Deltas, timeline: seq<int>, movement: real)
    requires |timeline| > 0 && Distinct(timeline)
    ensures Series(current, deltas[timeline[0] := movement], timeline) == Series(current, deltas, timeline)
  {
    var changed := deltas[timeline[0] := movement];
    forall i | 0 <= i < |timeline|
      ensures Running(current, changed, timeline, i) == Running(current, deltas, timeline, i)
    {
      assert forall k :: i < k < |timeline| ==> timeline[k] != timeline[0];
      RunningReadsLaterDays(current, changed, deltas, timeline, i);
    }
  }

  // ----- The daily movements, from the rows -----

  /** One line of the daily movement query. */
  datatype Daily = Daily(account: int, day: int, amount: real)

  /** The movement of an account on one day, over the rows dated at or after `start`. */
  function Movement(rows: seq<Txn>, account: int, day: int, start: int): real {
    if rows == [] then 0.0
    else
      var t := rows[|rows| - 1];
      Movement(rows[..|rows| - 1], account, day, start)
      + (if t.account == account && Day(t.at) == day && t.at >= start then t.amount else 0.0)
  }

  predicate SameGroup(a: Daily, b: Daily) { a.account == b.account && a.day == b.day }

  predicate Ungrouped(answer: seq<Daily>) {
    forall i, j :: 0 <= i < j < |answer| ==> !SameGroup(answer[i], answer[j])
  }

  predicate Lists(answer: seq<Daily>, account: int, day: int) {
    exists i :: 0 <= i < |answer| && answer[i].account == account && answer[i].day == day
  }

  /** The query's contract: one line for each of the caller's accounts and each day with a
      row, in any order. */
  ghost predicate IsDailyAnswer(answer: seq<Daily>, rows: seq<Txn>, owned: set<int>, start: int) {
    && Ungrouped(answer)
    && (forall i :: 0 <= i < |answer| ==>
          answer[i].amount == Movement(rows, answer[i].account, answer[i].day, start))
    && (forall i :: 0 <= i < |rows| && rows[i].account in owned && rows[i].at >= start ==>
          Lists(answer, rows[i].account, Day(rows[i].at)))
  }

  /** The lines are in the map, and nothing else is. */
  ghost predicate Filed(answer: seq<Daily>, deltas: map<int, Deltas>) {
    && (forall i :: 0 <= i < |answer| ==> Lookup(deltas, answer[i].account, answer[i].day) == answer[i].amount)
    && (forall a, d :: !Lists(answer, a, d) ==> Lookup(deltas, a, d) == 0.0)
  }

  function Lookup(deltas: map<int, Deltas>, account: int, day: int): real {
    if account in deltas then DeltaOn(deltas[account], day) else 0.0
  }

  lemma ListsMore(answer: seq<Daily>, n: nat, account: int, day: int)
    requires n < |answer|
    ensures Lists(answer[..n], account, day) ==> Lists(answer[..n + 1], account, day)
  {
    if Lists(answer[..n], account, day) {
      var i :| 0 <= i < n && answer[..n][i].account == account && answer[..n][i].day == day;
      assert answer[..n + 1][i] == answer[..n][i];
    }
  }

  /** Files the query's lines by account, then by day. */
  method DailyDeltas(answer: seq<Daily>) returns (deltas: map<int, Deltas>)
    requires Ungrouped(answer)
    ensures Filed(answer, deltas)
  {
    deltas := map[];
    for n := 0 to |answer|
      invariant forall i :: 0 <= i < n ==> Lookup(deltas, answer[i].account, answer[i].day) == answer[i].amount
      invariant forall a, d :: !Lists(answer[..n], a, d) ==> Lookup(deltas, a, d) == 0.0
    {
      var line := answer[n];
      if line.account !in deltas {
        deltas := deltas[line.account := map[]];
      }
      ghost var before := deltas;
      deltas := deltas[line.account := deltas[line.account][line.day := line.amount]];
      forall a, d | !Lists(answer[..n + 1], a, d) ensures Lookup(deltas, a, d) == 0.0 {
        assert answer[..n + 1][n] == line;
        ListsMore(answer, n, a, d);
      }
      assert forall i :: 0 <= i < n ==> !SameGroup(answer[i], line);
    }
    assert answer[..|answer|] == answer;
  }

  lemma {:induction false} NoRowsNoMovement(rows: seq<Txn>, account: int, day: int, start: int)
    requires forall i :: 0 <= i < |rows| && rows[i].at >= start ==> rows[i].account != account || Day(rows[i].at) != day
    ensures Movement(rows, account, day, start) == 0.0
  {
    if rows != [] {
      NoRowsNoMovement(rows[..|rows| - 1], account, day, start);
    }
  }

  /** Every account of the caller and every day looks up its movement, listed or not. */
  lemma LookupIsMovement(answer: seq<Daily>, rows: seq<Txn>, owned: set<int>, start: int,
                         deltas: map<int, Deltas>, account: int, day: int)
    requires IsDailyAnswer(answer, rows, owned, start) && Filed(answer, deltas) && account in owned
    ensures Lookup(deltas, account, day) == Movement(rows, account, day, start)
  {
    if Lists(answer, account, day) {
      var i :| 0 <= i < |answer| && answer[i].account == account && answer[i].day == day;
      assert answer[i].amount == Movement(rows, account, day, start);
    } else {
      NoRowsNoMovement(rows, account, day, start);
    }
  }

  /** What an account moved after day `lo` and up to day `hi`, over all its rows. */
  function MovedBetween(rows: seq<Txn>, account: int, lo: int, hi: int): real {
    if rows == [] then 0.0
    else
      var t := rows[|rows| - 1];
      MovedBetween(rows[..|rows| - 1], account, lo, hi)
      + (if t.account == account && lo < Day(t.at) <= hi then t.amount else 0.0)
  }

  lemma {:induction false} MovedOneDayMore(rows: seq<Txn>, account: int, lo: int, hi: int, start: int)
    requires Day(start) <= lo < hi
    ensures MovedBetween(rows, account, lo, hi)
         == Movement(rows, account, lo + 1, start) + MovedBetween(rows, account, lo + 1, hi)
  {
    if rows != [] {
      MovedOneDayMore(rows[..|rows| - 1], account, lo, hi, start);
      var t := rows[|rows| - 1];
      if Day(t.at) == lo + 1 {
        LaterDayIsLater(t.at, start);
      }
    }
  }

  lemma {:induction false} NothingMovedBetween(rows: seq<Txn>, account: int, day: int)
    ensures MovedBetween(rows, account, day, day) == 0.0
  {
    if rows != [] {
      NothingMovedBetween(rows[..|rows| - 1], account, day);
    }
  }

  function Timeline(start: int, n: nat): seq<int> {
    seq(n, i => Day(start) + i)
  }

  /** The reconstructed balance of a day is the current balance less all that moved on the
      days after it. The query drops the part of the first day before `start`, and that
      never shows. */
  lemma {:induction false} RunningUndoesLaterRows(rows: seq<Txn>, account: int, current: real, deltas: Deltas,
                                                  start: int, n: nat, i: nat)
    requires i < n
    requires forall d :: DeltaOn(deltas, d) == Movement(rows, account, d, start)
    ensures Running(current, deltas, Timeline(start, n), i)
         == current - MovedBetween(rows, account, Day(start) + i, Day(start) + n - 1)
    decreases n - i
  {
    if i == n - 1 {
      NothingMovedBetween(rows, account, Day(start) + i);
    } else {
      RunningUndoesLaterRows(rows, account, current, deltas, start, n, i + 1);
      MovedOneDayMore(rows, account, Day(start) + i, Day(start) + n - 1, start);
    }
  }

  // ----- All accounts -----

  datatype AccountView = AccountView(balance: real, deltas: Deltas)

  /** The unrounded balances of all accounts on day `i`. */
  function Column(accounts: seq<AccountView>, timeline: seq<int>, i: nat): (c: seq<real>)
    requires i < |timeline|
    ensures |c| == |accounts|
  {
    seq(|accounts|, k requires 0 <= k < |accounts| => Running(accounts[k].balance, accounts[k].deltas, timeline, i))
  }

  /** The accounts' rounded points of day `i`, added up. */
  function Total(accounts: seq<AccountView>, timeline: seq<int>, i: nat): real
    requires i < |timeline|
  {
    Sum(Rounded(Column(accounts, timeline, i)))
  }

  method AddSeries(aggregate: array<real>, series: seq<real>)
    requires aggregate.Length == |series|
    modifies aggregate
    ensures forall i :: 0 <= i < |series| ==> aggregate[i] == old(aggregate[i]) + series[i]
  {
    for i := 0 to |series|
      invariant forall j :: 0 <= j < i ==> aggregate[j] == old(aggregate[j]) + series[j]
      invariant forall j :: i <= j < |series| ==> aggregate[j] == old(aggregate[j])
    {
      aggregate[i] := aggregate[i] + series[i];
    }
  }

  /** One turn of the loop over the accounts. */
  method AddAccount(aggregate: array<real>, accounts: seq<AccountView>, k: nat, timeline: seq<int>)
    returns (series: seq<real>)
    requires k < |accounts| && aggregate.Length == |timeline|
    requires forall i :: 0 <= i < |timeline| ==> aggregate[i] == Total(accounts[..k], timeline, i)
    modifies aggregate
    ensures series == Series(accounts[k].balance, accounts[k].deltas, timeline)
    ensures forall i :: 0 <= i < |timeline| ==> aggregate[i] == Total(accounts[..k + 1], timeline, i)
  {
    series := BalanceSeries(accounts[k].balance, accounts[k].deltas, timeline);
    AddSeries(aggregate, series);
    forall i | 0 <= i < |timeline| ensures aggregate[i] == Total(accounts[..k + 1], timeline, i) {
      TotalMore(accounts, k, timeline, i);
    }
  }

  method RoundPoints(aggregate: array<real>) returns (serie: seq<real>)
    ensures |serie| == aggregate.Length
    ensures forall i :: 0 <= i < |serie| ==> serie[i] == Round2(aggregate[i])
  {
    var points := new real[aggregate.Length];
    for i := 0 to aggregate.Length
      invariant forall j :: 0 <= j < i ==> points[j] == Round2(aggregate[j])
    {
      points[i] := Round2(aggregate[i]);
    }
    serie := points[..];
  }

  /** Adds the accounts' series point by point, rounds each total, and keeps each series. */
  method Combine(accounts: seq<AccountView>, timeline: seq<int>)
    returns (sparklines: seq<seq<real>>, serie: seq<real>)
    ensures |sparklines| == |accounts| && |serie| == |timeline|
    ensures forall k :: 0 <= k < |accounts| ==>
              sparklines[k] == Series(accounts[k].balance, accounts[k].deltas, timeline)
    ensures forall i :: 0 <= i < |timeline| ==> serie[i] == Round2(Total(accounts, timeline, i))
  {
    var aggregate := new real[|timeline|](_ => 0.0);
    sparklines := [];
    assert forall i :: 0 <= i < |timeline| ==> Total(accounts[..0], timeline, i) == 0.0;
    for k := 0 to |accounts|
      invariant |sparklines| == k
      invariant forall j :: 0 <= j < k ==>
                  sparklines[j] == Series(accounts[j].balance, accounts[j].deltas, timeline)
      invariant forall i :: 0 <= i < |timeline| ==> aggregate[i] == Total(accounts[..k], timeline, i)
    {
      var series := AddAccount(aggregate, accounts, k, timeline);
      sparklines := sparklines + [series];
    }
    assert accounts[..|accounts|] == accounts;
    serie := RoundPoints(aggregate);
  }

  lemma ColumnSnoc(accounts: seq<AccountView>, timeline: seq<int>, i: nat)
    requires i < |timeline| && |accounts| > 0
    ensures var k, a := |accounts| - 1, accounts[|accounts| - 1];
            && Column(accounts, timeline, i)[..k] == Column(accounts[..k], timeline, i)
            && Total(accounts, timeline, i)
               == Total(accounts[..k], timeline, i) + Round2(Running(a.balance, a.deltas, timeline, i))
  {
    var k := |accounts| - 1;
    var c := Rounded(Column(accounts, timeline, i));
    assert c[..k] == Rounded(Column(accounts[..k], timeline, i));
  }

  lemma TotalMore(accounts: seq<AccountView>, k: nat, timeline: seq<int>, i: nat)
    requires i < |timeline| && k < |accounts|
    ensures Total(accounts[..k + 1], timeline, i)
         == Total(accounts[..k], timeline, i) + Series(accounts[k].balance, accounts[k].deltas, timeline)[i]
  {
    assert accounts[..k + 1][..k] == accounts[..k];
    ColumnSnoc(accounts[..k + 1], timeline, i);
  }

  function MergeDeltas(d1: Deltas, d2: Deltas): Deltas {
    map d | d in d1.Keys + d2.Keys :: DeltaOn(d1, d) + DeltaOn(d2, d)
  }

  /** One account with all the balances and all the movements. */
  function Merged(accounts: seq<AccountView>): AccountView {
    if accounts == [] then AccountView(0.0, map[])
    else
      var rest, a := Merged(accounts[..|accounts| - 1]), accounts[|accounts| - 1];
      AccountView(rest.balance + a.balance, MergeDeltas(rest.deltas, a.deltas))
  }

  lemma {:induction false} RunningAdds(c1: real, d1: Deltas, c2: real, d2: Deltas, timeline: seq<int>, i: nat)
    requires i < |timeline|
    ensures Running(c1 + c2, MergeDeltas(d1, d2), timeline, i)
         == Running(c1, d1, timeline, i) + Running(c2, d2, timeline, i)
    decreases |timeline| - i
  {
    if i < |timeline| - 1 {
      RunningAdds(c1, d1, c2, d2, timeline, i + 1);
    }
  }

  lemma {:induction false} RunningOfNothing(timeline: seq<int>, i: nat)
    requires i < |timeline|
    ensures Running(0.0, map[], timeline, i) == 0.0
    decreases |timeline| - i
  {
    if i < |timeline| - 1 {
      RunningOfNothing(timeline, i + 1);
    }
  }

  lemma {:induction false} ColumnSumsToMerged(accounts: seq<AccountView>, timeline: seq<int>, i: nat)
    requires i < |timeline|
    ensures Sum(Column(accounts, timeline, i))
         == Running(Merged(accounts).balance, Merged(accounts).deltas, timeline, i)
    decreases |accounts|
  {
    if accounts == [] {
      RunningOfNothing(timeline, i);
    } else {
      var k := |accounts| - 1;
      var rest, a := Merged(accounts[..k]), accounts[k];
      ColumnSumsToMerged(accounts[..k], timeline, i);
      ColumnSnoc(accounts, timeline, i);
      RunningAdds(rest.balance, rest.deltas, a.balance, a.deltas, timeline, i);
    }
  }

  lemma RoundedApart(s: real, t: real, slack: real)
    requires Within(s, t, slack) && WholeCents(s)
    ensures Within(Round2(s), Round2(t), slack + 0.005)
  {
    Round2Facts(s);
    Round2Facts(t);
  }

  /** The combined series is within half a cent for each account, plus half a cent, of the
      series of one account with all the balances and all the movements. */
  lemma CombinedIsNearMerged(accounts: seq<AccountView>, timeline: seq<int>, i: nat)
    requires i < |timeline|
    ensures Within(Round2(Total(accounts, timeline, i)),
                   Series(Merged(accounts).balance, Merged(accounts).deltas, timeline)[i],
                   0.005 * |accounts| as real + 0.005)
  {
    var column := Column(accounts, timeline, i);
    RoundedSumIsNear(column);
    RoundedSumInCents(column);
    ColumnSumsToMerged(accounts, timeline, i);
    RoundedApart(Sum(Rounded(column)), Sum(column), 0.005 * |column| as real);
  }

  predicate AllInCents(accounts: seq<AccountView>) {
    forall k :: 0 <= k < |accounts| ==> InCents(accounts[k].balance, accounts[k].deltas)
  }

  /** With every balance and movement in whole cents, as the database stores them, it is
      exactly that series. */
  lemma CombinedIsMergedInCents(accounts: seq<AccountView>, timeline: seq<int>, i: nat)
    requires i < |timeline| && AllInCents(accounts)
    ensures Round2(Total(accounts, timeline, i))
         == Series(Merged(accounts).balance, Merged(accounts).deltas, timeline)[i]
  {
    var column := Column(accounts, timeline, i);
    forall k | 0 <= k < |accounts| ensures WholeCents(column[k]) {
      RunningInCents(accounts[k].balance, accounts[k].deltas, timeline, i);
    }
    RoundedSumInCents(column);
    ColumnSumsToMerged(accounts, timeline, i);
  }

  // ----- From the rows to the chart -----

  datatype Account = Account(id: int, balance: real)

  function Ids(accounts: seq<Account>): seq<int> { Each(accounts, (a: Account) => a.id) }

  function Owned(accounts: seq<Account>): set<int> { set id | id in Ids(accounts) }

  function NetBalance(accounts: seq<Account>): real {
    if accounts == [] then 0.0 else NetBalance(accounts[..|accounts| - 1]) + accounts[|accounts| - 1].balance
  }

  /** The accounts with their filed movements. */
  function Views(accounts: seq<Account>, deltas: map<int, Deltas>): (views: seq<AccountView>)
    ensures |views| == |accounts|
  {
    seq(|accounts|, k requires 0 <= k < |accounts| =>
      AccountView(accounts[k].balance, if accounts[k].id in deltas then deltas[accounts[k].id] else map[]))
  }

  /** What all of the given accounts moved after day `lo` and up to day `hi`. */
  function NetMoved(rows: seq<Txn>, owned: set<int>, lo: int, hi: int): real {
    if rows == [] then 0.0
    else
      var t := rows[|rows| - 1];
      NetMoved(rows[..|rows| - 1], owned, lo, hi)
      + (if t.account in owned && lo < Day(t.at) <= hi then t.amount else 0.0)
  }

  lemma {:induction false} NetMovedMore(rows: seq<Txn>, owned: set<int>, account: int, lo: int, hi: int)
    requires account !in owned
    ensures NetMoved(rows, owned + {account}, lo, hi)
         == NetMoved(rows, owned, lo, hi) + MovedBetween(rows, account, lo, hi)
  {
    if rows != [] {
      NetMovedMore(rows[..|rows| - 1], owned, account, lo, hi);
    }
  }

  lemma {:induction false} NothingOwned(rows: seq<Txn>, lo: int, hi: int)
    ensures NetMoved(rows, {}, lo, hi) == 0.0
  {
    if rows != [] {
      NothingOwned(rows[..|rows| - 1], lo, hi);
    }
  }

  /** An account's balance at the end of day `lo`, when `hi` is the current day. */
  function BalanceOn(a: Account, rows: seq<Txn>, lo: int, hi: int): real {
    a.balance - MovedBetween(rows, a.id, lo, hi)
  }

  /** Every account of the list shows, day by day, its balance less what it moved later. */
  ghost predicate UndoLater(accounts: seq<Account>, column: seq<real>, rows: seq<Txn>, lo: int, hi: int) {
    && |column| == |accounts|
    && forall k :: 0 <= k < |accounts| ==> column[k] == BalanceOn(accounts[k], rows, lo, hi)
  }

  lemma {:induction false} ColumnIsNet(accounts: seq<Account>, column: seq<real>, rows: seq<Txn>, lo: int, hi: int)
    requires Distinct(Ids(accounts)) && UndoLater(accounts, column, rows, lo, hi)
    ensures Sum(column) == NetBalance(accounts) - NetMoved(rows, Owned(accounts), lo, hi)
    decreases |accounts|
  {
    var ids := Owned(accounts);
    if accounts == [] {
      NothingOwned(rows, lo, hi);
      assert ids == {};
    } else {
      var n := |accounts| - 1;
      var init, last := Ids(accounts[..n]), accounts[n].id;
      assert Ids(accounts) == init + [last];
      assert forall k :: 0 <= k < n ==> init[k] == Ids(accounts)[k];
      var before := set id | id in init;
      ColumnIsNet(accounts[..n], column[..n], rows, lo, hi);
      assert last !in before by { assert Ids(accounts)[n] == last; }
      assert ids == before + {last};
      NetMovedMore(rows, before, last, lo, hi);
    }
  }

  lemma AccountUndoesLater(accounts: seq<Account>, answer: seq<Daily>, deltas: map<int, Deltas>, rows: seq<Txn>,
                           owned: set<int>, start: int, n: nat, k: nat, i: nat)
    requires IsDailyAnswer(answer, rows, owned, start) && Filed(answer, deltas) && i < n
    requires k < |accounts| && Owned(accounts) <= owned
    ensures var view := Views(accounts, deltas)[k];
            Running(view.balance, view.deltas, Timeline(start, n), i)
            == BalanceOn(accounts[k], rows, Day(start) + i, Day(start) + n - 1)
  {
    var id, view := accounts[k].id, Views(accounts, deltas)[k];
    assert Ids(accounts)[k] == id;
    forall d ensures DeltaOn(view.deltas, d) == Movement(rows, id, d, start) {
      LookupIsMovement(answer, rows, owned, start, deltas, id, d);
    }
    RunningUndoesLaterRows(rows, id, view.balance, view.deltas, start, n, i);
  }

  lemma ColumnUndoesLater(accounts: seq<Account>, answer: seq<Daily>, deltas: map<int, Deltas>, rows: seq<Txn>,
                          owned: set<int>, start: int, n: nat, i: nat)
    requires IsDailyAnswer(answer, rows, owned, start) && Filed(answer, deltas) && i < n
    requires Owned(accounts) <= owned
    ensures UndoLater(accounts, Column(Views(accounts, deltas), Timeline(start, n), i), rows,
                      Day(start) + i, Day(start) + n - 1)
  {
    forall k | 0 <= k < |accounts|
      ensures Column(Views(accounts, deltas), Timeline(start, n), i)[k]
           == BalanceOn(accounts[k], rows, Day(start) + i, Day(start) + n - 1)
    {
      AccountUndoesLater(accounts, answer, deltas, rows, owned, start, n, k, i);
    }
  }

  predicate StoredInCents(accounts: seq<Account>, rows: seq<Txn>) {
    && (forall k :: 0 <= k < |accounts| ==> WholeCents(accounts[k].balance))
    && (forall i :: 0 <= i < |rows| ==> WholeCents(rows[i].amount))
  }

  lemma {:induction false} MovedInCents(rows: seq<Txn>, account: int, lo: int, hi: int)
    requires forall i :: 0 <= i < |rows| ==> WholeCents(rows[i].amount)
    ensures WholeCents(MovedBetween(rows, account, lo, hi))
  {
    if rows != [] {
      MovedInCents(rows[..|rows| - 1], account, lo, hi);
      CentsAdd(MovedBetween(rows[..|rows| - 1], account, lo, hi), rows[|rows| - 1].amount);
    }
  }

  lemma ColumnInCents(accounts: seq<Account>, column: seq<real>, rows: seq<Txn>, lo: int, hi: int)
    requires StoredInCents(accounts, rows) && UndoLater(accounts, column, rows, lo, hi)
    ensures AllCents(column)
  {
    forall k | 0 <= k < |column| ensures WholeCents(column[k]) {
      MovedInCents(rows, accounts[k].id, lo, hi);
      CentsAdd(accounts[k].balance, MovedBetween(rows, accounts[k].id, lo, hi));
    }
  }

  /** A rounded total of rounded balances, from the unrounded ones. */
  lemma PointIsNear(column: seq<real>)
    ensures Within(Round2(Sum(Rounded(column))), Sum(column), 0.005 * |column| as real + 0.005)
    ensures AllCents(column) ==> Round2(Sum(Rounded(column))) == Sum(column)
  {
    RoundedSumIsNear(column);
    RoundedSumInCents(column);
    Round2Facts(Sum(Rounded(column)));
  }

  lemma PointOfRows(accounts: seq<Account>, answer: seq<Daily>, deltas: map<int, Deltas>, rows: seq<Txn>,
                    start: int, n: nat, i: nat)
    requires Distinct(Ids(accounts)) && IsDailyAnswer(answer, rows, Owned(accounts), start)
    requires Filed(answer, deltas) && i < n
    ensures IsPoint(Round2(Total(Views(accounts, deltas), Timeline(start, n), i)), accounts, rows,
                    Day(start) + i, Day(start) + n - 1)
  {
    ColumnUndoesLater(accounts, answer, deltas, rows, Owned(accounts), start, n, i);
    var column := Column(Views(accounts, deltas), Timeline(start, n), i);
    PointIsNet(accounts, column, rows, Day(start) + i, Day(start) + n - 1);
  }

  /** An account's sparkline: its balance less what it moved on later days, rounded. */
  ghost predicate IsSparkline(points: seq<real>, a: Account, rows: seq<Txn>, start: int, n: nat) {
    && |points| == n
    && forall i :: 0 <= i < n ==> IsRounded(points[i], BalanceOn(a, rows, Day(start) + i, Day(start) + n - 1))
  }

  predicate IsRounded(point: real, x: real) { point == Round2(x) }

  lemma SparklineOfRows(accounts: seq<Account>, answer: seq<Daily>, deltas: map<int, Deltas>, rows: seq<Txn>,
                        start: int, n: nat, k: nat)
    requires IsDailyAnswer(answer, rows, Owned(accounts), start) && Filed(answer, deltas) && k < |accounts|
    ensures var view := Views(accounts, deltas)[k];
            IsSparkline(Series(view.balance, view.deltas, Timeline(start, n)), accounts[k], rows, start, n)
  {
    var view := Views(accounts, deltas)[k];
    var points := Series(view.balance, view.deltas, Timeline(start, n));
    forall i | 0 <= i < n
      ensures IsRounded(points[i], BalanceOn(accounts[k], rows, Day(start) + i, Day(start) + n - 1))
    {
      AccountUndoesLater(accounts, answer, deltas, rows, Owned(accounts), start, n, k, i);
      SeriesAt(view, Timeline(start, n), i);
    }
  }

  lemma SeriesAt(view: AccountView, timeline: seq<int>, i: nat)
    requires i < |timeline|
    ensures IsRounded(Series(view.balance, view.deltas, timeline)[i], Running(view.balance, view.deltas, timeline, i))
  {
  }

  /** The dashboard's chart, from the stored rows: each combined point is the caller's net
      balance less everything the caller's accounts moved on later days of the timeline, to
      within half a cent for each account and half a cent more, and exactly so in whole cents. */
  method BalanceChart(accounts: seq<Account>, answer: seq<Daily>, start: int, n: nat, ghost rows: seq<Txn>)
    returns (sparklines: seq<seq<real>>, serie: seq<real>)
    requires Distinct(Ids(accounts)) && IsDailyAnswer(answer, rows, Owned(accounts), start)
    ensures |sparklines| == |accounts| && |serie| == n
    ensures forall k :: 0 <= k < |accounts| ==> IsSparkline(sparklines[k], accounts[k], rows, start, n)
    ensures forall i :: 0 <= i < n ==> IsPoint(serie[i], accounts, rows, Day(start) + i, Day(start) + n - 1)
  {
    var deltas := DailyDeltas(answer);
    sparklines, serie := Combine(Views(accounts, deltas), Timeline(start, n));
    forall k | 0 <= k < |accounts| ensures IsSparkline(sparklines[k], accounts[k], rows, start, n) {
      SparklineOfRows(accounts, answer, deltas, rows, start, n, k);
    }
    forall i | 0 <= i < n ensures IsPoint(serie[i], accounts, rows, Day(start) + i, Day(start) + n - 1) {
      PointOfRows(accounts, answer, deltas, rows, start, n, i);
    }
  }

  /** The net balance at the end of day `lo`, when `hi` is the current day. */
  function NetOn(accounts: seq<Account>, rows: seq<Txn>, lo: int, hi: int): real {
    NetBalance(accounts) - NetMoved(rows, Owned(accounts), lo, hi)
  }

  predicate IsPoint(point: real, accounts: seq<Account>, rows: seq<Txn>, lo: int, hi: int) {
    && Within(point, NetOn(accounts, rows, lo, hi), 0.005 * |accounts| as real + 0.005)
    && (StoredInCents(accounts, rows) ==> point == NetOn(accounts, rows, lo, hi))
  }

  lemma PointIsNet(accounts: seq<Account>, column: seq<real>, rows: seq<Txn>, lo: int, hi: int)
    requires Distinct(Ids(accounts)) && UndoLater(accounts, column, rows, lo, hi)
    ensures IsPoint(Round2(Sum(Rounded(column))), accounts, rows, lo, hi)
  {
    ColumnIsNet(accounts, column, rows, lo, hi);
    PointIsNear(column);
    if StoredInCents(accounts, rows) {
      ColumnInCents(accounts, column, rows, lo, hi);
    }
  }
}
