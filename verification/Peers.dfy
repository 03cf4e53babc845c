/** The rows a transaction is compared with, as the history query summarises them and as they
    stand in the table. */
module Peers {
  import opened Common
  import opened Money
  import opened Ledger
  import opened GroupBy
  import opened Anomaly

  /** An account's history as magnitudes by category. */
  function History(rows: seq<Txn>, account: int): seq<Item> {
    if rows == [] then []
    else
      var t := rows[|rows| - 1];
      var rest := History(rows[..|rows| - 1], account);
      if t.account == account then rest + [Item(t.category, Abs(t.amount))] else rest
  }

  // ----- In the table -----

  /** A row of the account, and of the category unless that is "". */
  predicate IsPeer(t: Txn, account: int, category: string) {
    t.account == account && (category == "" || t.category == category)
  }

  predicate PeerAt(rows: seq<Txn>, i: int, account: int, category: string) {
    0 <= i < |rows| && IsPeer(rows[i], account, category)
  }

  function PeerCount(rows: seq<Txn>, account: int, category: string): nat {
    |set i | 0 <= i < |rows| && PeerAt(rows, i, account, category)|
  }

  function PeerTotal(rows: seq<Txn>, account: int, category: string): real {
    if rows == [] then 0.0
    else (if IsPeer(rows[0], account, category) then Abs(rows[0].amount) else 0.0)
         + PeerTotal(rows[1..], account, category)
  }

  ghost predicate IsPeerMax(rows: seq<Txn>, account: int, category: string, max: real) {
    && (forall i :: 0 <= i < |rows| && IsPeer(rows[i], account, category) ==> Abs(rows[i].amount) <= max)
    && (exists i :: 0 <= i < |rows| && IsPeer(rows[i], account, category) && Abs(rows[i].amount) == max)
  }

  lemma NoPeers(account: int, category: string)
    ensures PeerCount([], account, category) == 0
  {
    assert (set i | 0 <= i < 0 && PeerAt([], i, account, category)) == {};
  }

  lemma PeerCountSnoc(rows: seq<Txn>, account: int, category: string)
    requires rows != []
    ensures var n := |rows| - 1;
            PeerCount(rows, account, category)
            == PeerCount(rows[..n], account, category) + (if IsPeer(rows[n], account, category) then 1 else 0)
  {
    var n := |rows| - 1;
    var before := set i | 0 <= i < n && PeerAt(rows[..n], i, account, category);
    var all := set i | 0 <= i < |rows| && PeerAt(rows, i, account, category);
    assert all == before + (if IsPeer(rows[n], account, category) then {n} else {});
  }

  lemma {:induction false} PeerTotalSnoc(rows: seq<Txn>, account: int, category: string)
    requires rows != []
    ensures var n := |rows| - 1;
            PeerTotal(rows, account, category)
            == PeerTotal(rows[..n], account, category)
               + (if IsPeer(rows[n], account, category) then Abs(rows[n].amount) else 0.0)
    decreases |rows|
  {
    var n := |rows| - 1;
    if n > 0 {
      PeerTotalSnoc(rows[1..], account, category);
      assert rows[1..][..n - 1] == rows[..n][1..];
    } else {
      assert rows[1..] == [] && rows[..n] == [];
    }
  }

  // ----- The history is the table's -----

  lemma HistoryInit(rows: seq<Txn>, account: int)
    requires rows != [] && rows[|rows| - 1].account == account
    ensures var t, h := rows[|rows| - 1], History(rows, account);
            && h != [] && h[|h| - 1] == Item(t.category, Abs(t.amount))
            && h[..|h| - 1] == History(rows[..|rows| - 1], account)
  {
  }

  lemma {:induction false} HistoryIsMagnitudes(rows: seq<Txn>, account: int)
    ensures Magnitudes(History(rows, account))
  {
    if rows != [] {
      HistoryIsMagnitudes(rows[..|rows| - 1], account);
    }
  }

  /** The count and the sum of a category in an account's history, and of all of it, are those
      of the account's rows in the table. */
  lemma {:induction false} HistorySums(rows: seq<Txn>, account: int, category: string)
    requires category != ""
    ensures var h := History(rows, account);
            && CountOf(h, category) == PeerCount(rows, account, category)
            && SumOf(h, category) == PeerTotal(rows, account, category)
            && |h| == PeerCount(rows, account, "") && Total(h) == PeerTotal(rows, account, "")
  {
    if rows != [] {
      HistorySums(rows[..|rows| - 1], account, category);
      PeerCountSnoc(rows, account, category);
      PeerCountSnoc(rows, account, "");
      PeerTotalSnoc(rows, account, category);
      PeerTotalSnoc(rows, account, "");
      if rows[|rows| - 1].account == account {
        HistoryInit(rows, account);
      }
    } else {
      NoPeers(account, category);
      NoPeers(account, "");
    }
  }

  /** The row behind an item, and the item of a row. */
  lemma {:induction false} RowOfItem(rows: seq<Txn>, account: int, k: nat) returns (i: nat)
    requires k < |History(rows, account)|
    ensures i < |rows| && rows[i].account == account
    ensures History(rows, account)[k] == Item(rows[i].category, Abs(rows[i].amount))
  {
    var n := |rows| - 1;
    if k < |History(rows[..n], account)| {
      i := RowOfItem(rows[..n], account, k);
    } else {
      i := n;
    }
  }

  lemma {:induction false} ItemOfRow(rows: seq<Txn>, account: int, i: nat) returns (k: nat)
    requires i < |rows| && rows[i].account == account
    ensures k < |History(rows, account)|
    ensures History(rows, account)[k] == Item(rows[i].category, Abs(rows[i].amount))
  {
    var n := |rows| - 1;
    if i < n {
      k := ItemOfRow(rows[..n], account, i);
    } else {
      HistoryInit(rows, account);
      k := |History(rows, account)| - 1;
    }
  }

  /** The maximum of a category in an account's history is that of the account's rows. */
  lemma HistoryMax(rows: seq<Txn>, account: int, category: string)
    requires category != "" && CountOf(History(rows, account), category) > 0
    ensures IsPeerMax(rows, account, category, MaxOf(History(rows, account), category))
  {
    var h := History(rows, account);
    HistoryIsMagnitudes(rows, account);
    MaxOfIsMax(h, category);
    var k :| 0 <= k < |h| && IsOf(h[k], category) && h[k].value == MaxOf(h, category);
    var i := RowOfItem(rows, account, k);
    assert IsPeer(rows[i], account, category);
    forall j | 0 <= j < |rows| && IsPeer(rows[j], account, category) ensures Abs(rows[j].amount) <= MaxOf(h, category) {
      var l := ItemOfRow(rows, account, j);
      assert IsOf(h[l], category);
    }
  }

  lemma HistoryMaxAll(rows: seq<Txn>, account: int)
    requires History(rows, account) != []
    ensures IsPeerMax(rows, account, "", MaxAll(History(rows, account)))
  {
    var h := History(rows, account);
    HistoryIsMagnitudes(rows, account);
    MaxAllIsMax(h);
    var k :| 0 <= k < |h| && h[k].value == MaxAll(h);
    var i := RowOfItem(rows, account, k);
    assert IsPeer(rows[i], account, "");
    forall j | 0 <= j < |rows| && IsPeer(rows[j], account, "") ensures Abs(rows[j].amount) <= MaxAll(h) {
      var l := ItemOfRow(rows, account, j);
    }
  }

  // ----- The verdict, from the table -----

  /** The rows compared with: those of the category, or all the account's when it has none. */
  function PeerScope(rows: seq<Txn>, account: int, category: string): string {
    if PeerCount(rows, account, category) > 0 then category else ""
  }

  /** The name of the severity the rules give an amount. */
  ghost predicate NamedByTheRules(name: string, x: real, n: real, total: real, max: real) {
    if x > 0.0 then name == if n * x > 10.0 * total then "low" else "none"
    else
      var a := -x;
      name == if a > 2.0 * max && n * a > 4.0 * total then "high"
              else if n * a > 3.0 * total then "medium"
              else if n * a > 2.0 * total then "low"
              else "none"
  }

  /** The name is right for an amount, given the rows in the table. */
  ghost predicate RightSeverity(name: string, x: real, rows: seq<Txn>, account: int, category: string) {
    var scope := PeerScope(rows, account, category);
    var n := PeerCount(rows, account, scope);
    if n == 0 then name == "none"
    else exists max :: IsPeerMax(rows, account, scope, max)
                       && NamedByTheRules(name, x, n as real, PeerTotal(rows, account, scope), max)
  }

  function SeverityName(s: Severity): string {
    match s
    case SeverityNone => "none"
    case SeverityLow => "low"
    case SeverityMedium => "medium"
    case SeverityHigh => "high"
  }

  lemma RulesName(severity: Severity, x: real, n: real, total: real, max: real)
    requires ByTheRules(severity, x, n, total, max)
    ensures NamedByTheRules(SeverityName(severity), x, n, total, max)
  {
  }

  /** The scorer's answer for an account's history is right for the account's rows. */
  lemma VerdictIsRight(x: real, rows: seq<Txn>, account: int, category: string, baseline: seq<Stat>)
    requires category != "" && IsBaseline(baseline, History(rows, account))
    ensures RightSeverity(SeverityName(Assess(x, category, baseline).severity), x, rows, account, category)
  {
    var h, severity := History(rows, account), Assess(x, category, baseline).severity;
    HistoryIsMagnitudes(rows, account);
    HistorySums(rows, account, category);
    VerdictByTheRules(x, category, baseline, h);
    if HasHistory(category, h) {
      HistoryMax(rows, account, category);
      RulesName(severity, x, CountOf(h, category) as real, SumOf(h, category), MaxOf(h, category));
    } else if h != [] {
      HistoryMaxAll(rows, account);
      RulesName(severity, x, |h| as real, Total(h), MaxAll(h));
    }
  }
}
