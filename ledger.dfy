/**
 * A category's ledger: an append-only list of signed entries in integer
 * cents.  A positive amount is a deposit, a negative one a withdrawal.  The
 * balance is the sum of all amounts; the spend, which the chart uses, is the
 * sum of the negative ones alone.
 */
module Ledger {

  datatype Entry = Entry(amount: int, description: string)

  /**
   * The running total `get_balance` computes: every amount added up, 0 for
   * an empty ledger.  It is always the deposits plus the withdrawals.
   */
  function Balance(ledger: seq<Entry>): (b: int)
    ensures b == Income(ledger) + Spend(ledger)
  {
    if ledger == [] then 0 else Balance(ledger[..|ledger| - 1]) + ledger[|ledger| - 1].amount
  }

  /** Added up first to last, as the loop in `get_balance` goes, the sum is the same. */
  lemma {:induction false} BalanceFromFront(ledger: seq<Entry>)
    ensures Balance(ledger) == if ledger == [] then 0 else ledger[0].amount + Balance(ledger[1..])
  {
    if |ledger| > 1 {
      var n := |ledger|;
      BalanceFromFront(ledger[..n - 1]);
      assert ledger[..n - 1][1..] == ledger[1..][..n - 2];
      assert ledger[..n - 1][0] == ledger[0];
    } else if |ledger| == 1 {
      assert ledger[..0] == [] && ledger[1..] == [];
    }
  }

  /** The withdrawals of a ledger summed, as `create_spend_chart` does. */
  function Spend(ledger: seq<Entry>): (s: int)
    ensures s <= 0
  {
    if ledger == [] then 0
    else
      var last := ledger[|ledger| - 1].amount;
      Spend(ledger[..|ledger| - 1]) + (if last < 0 then last else 0)
  }

  /** The deposits of a ledger summed (entries with amount >= 0). */
  function Income(ledger: seq<Entry>): (s: int)
    ensures s >= 0
  {
    if ledger == [] then 0
    else
      var last := ledger[|ledger| - 1].amount;
      Income(ledger[..|ledger| - 1]) + (if last < 0 then 0 else last)
  }

  /** Balance is additive over the concatenation of two ledgers. */
  lemma {:induction false} BalanceAppend(a: seq<Entry>, b: seq<Entry>)
    ensures Balance(a + b) == Balance(a) + Balance(b)
  {
    if b == [] {
      assert a + b == a;
    } else {
      BalanceAppend(a, b[..|b| - 1]);
      assert (a + b)[..|a + b| - 1] == a + b[..|b| - 1];
    }
  }

  /** Appending one entry moves the balance by exactly its amount. */
  lemma BalanceAppendEntry(ledger: seq<Entry>, e: Entry)
    ensures Balance(ledger + [e]) == Balance(ledger) + e.amount
  {
    assert (ledger + [e])[..|ledger|] == ledger;
  }

  /** The balance does not depend on the order of the entries. */
  lemma {:induction false} BalanceOrderIndependent(a: seq<Entry>, b: seq<Entry>)
    requires multiset(a) == multiset(b)
    ensures Balance(a) == Balance(b)
  {
    if a == [] {
      assert |b| == |multiset(b)| == 0;
    } else {
      var x := a[|a| - 1];
      assert a == a[..|a| - 1] + [x];
      assert x in multiset(b);
      var j :| 0 <= j < |b| && b[j] == x;
      var rest := b[..j] + b[j + 1..];
      assert b == b[..j] + [x] + b[j + 1..];
      assert multiset(rest) == multiset(b) - multiset{x};
      assert multiset(a[..|a| - 1]) == multiset(a) - multiset{x};
      BalanceOrderIndependent(a[..|a| - 1], rest);
      BalanceAppend(b[..j] + [x], b[j + 1..]);
      BalanceAppendEntry(b[..j], x);
      BalanceAppend(b[..j], b[j + 1..]);
    }
  }

  /** Only withdrawals contribute to the spend. */
  lemma {:induction false} SpendOfDeposits(ledger: seq<Entry>)
    requires forall i :: 0 <= i < |ledger| ==> ledger[i].amount >= 0
    ensures Spend(ledger) == 0
  {
    if ledger != [] {
      SpendOfDeposits(ledger[..|ledger| - 1]);
    }
  }
}
