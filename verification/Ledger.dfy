/** The stored transactions, as the read and write paths see them. */
module Ledger {
  import opened Common

  const DAY: int := 86400

  /** A row of the transactions table; `at` is its timestamp in seconds. */
  datatype Txn = Txn(id: nat, account: int, amount: real, category: string, at: int,
                     severity: Option<string>, provider: Option<string>)

  function Day(at: int): int { at / DAY }

  /** A day is 24 hours of 3600 seconds, also before the epoch. */
  lemma DayIsFloor(at: int)
    ensures Day(at) * 24 * 3600 <= at < (Day(at) + 1) * 24 * 3600
  {
  }

  lemma LaterDayIsLater(at: int, start: int)
    requires Day(at) > Day(start)
    ensures at >= start
  {
  }
}
