// The array operations the components apply to a transaction list:
// `filter` by type and `reduce` of the amounts, next to the plain sums
// they are proved against.
module Ledger {
  import opened Types

  /** The sum of the amounts in `ts`. */
  function SumAmounts(ts: seq<Transaction>): int
  {
    if ts == [] then 0 else SumAmounts(ts[..|ts| - 1]) + ts[|ts| - 1].amount
  }

  /** The sum of the amounts of the transactions of type `k`, in one pass. */
  function TotalOf(ts: seq<Transaction>, k: TxType): int
  {
    if ts == [] then 0
    else TotalOf(ts[..|ts| - 1], k) + (if ts[|ts| - 1].kind == k then ts[|ts| - 1].amount else 0)
  }

  /** `ts.filter(t => t.type === k)`: keeps exactly the transactions of type `k`, in order. */
  function OfType(ts: seq<Transaction>, k: TxType): (r: seq<Transaction>)
    ensures |r| <= |ts|
    ensures forall i :: 0 <= i < |r| ==> r[i].kind == k
    ensures forall t :: t in r <==> t in ts && t.kind == k
  {
    if ts == [] then []
    else
      var p := ts[..|ts| - 1];
      assert ts == p + [ts[|ts| - 1]];
      var r := OfType(p, k);
      if ts[|ts| - 1].kind == k then r + [ts[|ts| - 1]] else r
  }

  /** The filter keeps order: filtering a concatenation filters each part. */
  lemma {:induction false} OfTypeAppend(a: seq<Transaction>, b: seq<Transaction>, k: TxType)
    ensures OfType(a + b, k) == OfType(a, k) + OfType(b, k)
  {
    if b == [] {
      assert a + b == a;
    } else {
      var q, t := b[..|b| - 1], b[|b| - 1];
      assert (a + b)[..|a + b| - 1] == a + q;
      assert (a + b)[|a + b| - 1] == t;
      assert OfType(a + b, k) == OfType(a + q, k) + (if t.kind == k then [t] else []);
      assert OfType(b, k) == OfType(q, k) + (if t.kind == k then [t] else []);
      OfTypeAppend(a, q, k);
    }
  }

  /** The filter keeps every transaction of type `k` as often as `ts` has it, and no other. */
  lemma {:induction false} OfTypeCounts(ts: seq<Transaction>, k: TxType)
    ensures forall t :: multiset(OfType(ts, k))[t] == if t.kind == k then multiset(ts)[t] else 0
  {
    if ts != [] {
      var p, x := ts[..|ts| - 1], ts[|ts| - 1];
      assert ts == p + [x];
      assert multiset(ts) == multiset(p) + multiset{x};
      assert OfType(ts, k) == OfType(p, k) + (if x.kind == k then [x] else []);
      OfTypeCounts(p, k);
    }
  }

  /** `ts.reduce((sum, t) => sum + t.amount, acc)`: a left fold. */
  function Reduce(acc: int, ts: seq<Transaction>): int
    decreases |ts|
  {
    if ts == [] then acc else Reduce(acc + ts[0].amount, ts[1..])
  }

  lemma {:induction false} SumAmountsAppend(a: seq<Transaction>, b: seq<Transaction>)
    ensures SumAmounts(a + b) == SumAmounts(a) + SumAmounts(b)
  {
    if b == [] {
      assert a + b == a;
    } else {
      assert (a + b)[..|a + b| - 1] == a + b[..|b| - 1];
      SumAmountsAppend(a, b[..|b| - 1]);
    }
  }

  lemma SumAmountsSnoc(p: seq<Transaction>, t: Transaction)
    ensures SumAmounts(p + [t]) == SumAmounts(p) + t.amount
  {
    assert (p + [t])[..|p|] == p;
  }

  lemma {:induction false} TotalOfAppend(a: seq<Transaction>, b: seq<Transaction>, k: TxType)
    ensures TotalOf(a + b, k) == TotalOf(a, k) + TotalOf(b, k)
  {
    if b == [] {
      assert a + b == a;
    } else {
      assert (a + b)[..|a + b| - 1] == a + b[..|b| - 1];
      TotalOfAppend(a, b[..|b| - 1], k);
    }
  }

  /** The left fold computes the sum, whatever it starts from. */
  lemma {:induction false} ReduceIsSum(acc: int, ts: seq<Transaction>)
    ensures Reduce(acc, ts) == acc + SumAmounts(ts)
    decreases |ts|
  {
    if ts != [] {
      ReduceIsSum(acc + ts[0].amount, ts[1..]);
      assert ts == [ts[0]] + ts[1..];
      SumAmountsAppend([ts[0]], ts[1..]);
      assert SumAmounts([ts[0]]) == ts[0].amount by {
        assert [ts[0]][..0] == [];
      }
    }
  }

  /** Filtering by type and then summing is the one-pass total. */
  lemma {:induction false} FilterThenSum(ts: seq<Transaction>, k: TxType)
    ensures SumAmounts(OfType(ts, k)) == TotalOf(ts, k)
  {
    if ts != [] {
      var p, t := ts[..|ts| - 1], ts[|ts| - 1];
      FilterThenSum(p, k);
      if t.kind == k {
        SumAmountsAppend(OfType(p, k), [t]);
        assert SumAmounts([t]) == t.amount by {
          assert [t][..0] == [];
        }
      }
    }
  }

  /** Every transaction is an income or an expense, so the two totals split the sum. */
  lemma {:induction false} TotalsPartition(ts: seq<Transaction>)
    ensures TotalOf(ts, Income) + TotalOf(ts, Expense) == SumAmounts(ts)
  {
    if ts != [] {
      TotalsPartition(ts[..|ts| - 1]);
    }
  }
}
