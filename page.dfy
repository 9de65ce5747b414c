// The home page's two lists and the handlers that replace them
// (app/page.tsx): adding prepends a record under a new id, deleting keeps
// every record whose id differs. The id that `Date.now()` supplies is a
// parameter.
module Page {
  import opened Types

  /** `xs.filter(x => idOf(x) !== id)`. */
  function WithoutId<T(!new)>(xs: seq<T>, idOf: T -> string, id: string): (r: seq<T>)
    ensures |r| <= |xs|
    ensures forall x :: x in r <==> x in xs && idOf(x) != id
  {
    if xs == [] then []
    else
      var p := xs[..|xs| - 1];
      assert xs == p + [xs[|xs| - 1]];
      WithoutId(p, idOf, id) + (if idOf(xs[|xs| - 1]) != id then [xs[|xs| - 1]] else [])
  }

  /**
   * Deletion works element by element: on a concatenation it is the
   * deletion from each part in turn, so the kept records stay in order.
   */
  lemma {:induction false} WithoutIdAppend<T(!new)>(a: seq<T>, b: seq<T>, idOf: T -> string, id: string)
    ensures WithoutId(a + b, idOf, id) == WithoutId(a, idOf, id) + WithoutId(b, idOf, id)
  {
    if b == [] {
      assert a + b == a;
    } else {
      assert (a + b)[..|a + b| - 1] == a + b[..|b| - 1];
      WithoutIdAppend(a, b[..|b| - 1], idOf, id);
    }
  }

  /** A single record is dropped exactly when it carries the id. */
  lemma {:induction false} WithoutIdOne<T(!new)>(x: T, idOf: T -> string, id: string)
    ensures WithoutId([x], idOf, id) == if idOf(x) == id then [] else [x]
  {
    assert [x][..0] == [];
  }

  /** Deleting an id that no record carries changes nothing. */
  lemma {:induction false} WithoutAbsentId<T(!new)>(xs: seq<T>, idOf: T -> string, id: string)
    requires forall x :: x in xs ==> idOf(x) != id
    ensures WithoutId(xs, idOf, id) == xs
  {
    if xs != [] {
      var p := xs[..|xs| - 1];
      assert xs == p + [xs[|xs| - 1]];
      WithoutAbsentId(p, idOf, id);
    }
  }

  /** Deleting twice is deleting once. */
  lemma {:induction false} WithoutIdIdempotent<T(!new)>(xs: seq<T>, idOf: T -> string, id: string)
    ensures WithoutId(WithoutId(xs, idOf, id), idOf, id) == WithoutId(xs, idOf, id)
  {
    WithoutAbsentId(WithoutId(xs, idOf, id), idOf, id);
  }

  /** `{...transaction, id}`. */
  function NewTransaction(d: TransactionDraft, id: string): Transaction
  {
    Transaction(id, d.kind, d.amount, d.category, d.description, d.date)
  }

  /** `{...budget, id}`. */
  function NewBudget(d: BudgetDraft, id: string): Budget
  {
    Budget(id, d.category, d.amount, d.period)
  }

  /** `addTransaction`: the new record first, then the old list. */
  function TransactionsAfterAdd(ts: seq<Transaction>, d: TransactionDraft, id: string): seq<Transaction>
  {
    [NewTransaction(d, id)] + ts
  }

  /** `deleteTransaction`. */
  function TransactionsAfterDelete(ts: seq<Transaction>, id: string): seq<Transaction>
  {
    WithoutId(ts, TxId, id)
  }

  /** `addBudget`: the new record first, then the old list. */
  function BudgetsAfterAdd(bs: seq<Budget>, d: BudgetDraft, id: string): seq<Budget>
  {
    [NewBudget(d, id)] + bs
  }

  /** `deleteBudget`. */
  function BudgetsAfterDelete(bs: seq<Budget>, id: string): seq<Budget>
  {
    WithoutId(bs, BudgetId, id)
  }

  /** Adding grows the list by one: the draft under the new id, then the old list untouched. */
  lemma {:induction false} AddTransactionShape(ts: seq<Transaction>, d: TransactionDraft, id: string)
    ensures |TransactionsAfterAdd(ts, d, id)| == |ts| + 1
    ensures TransactionsAfterAdd(ts, d, id)[0].id == id
    ensures var t := TransactionsAfterAdd(ts, d, id)[0];
      TransactionDraft(t.kind, t.amount, t.category, t.description, t.date) == d
    ensures TransactionsAfterAdd(ts, d, id)[1..] == ts
  {
  }

  /** Deleting keeps exactly the records with another id, in their order. */
  lemma {:induction false} DeleteTransactionShape(ts: seq<Transaction>, id: string, t: Transaction)
    ensures t in TransactionsAfterDelete(ts, id) <==> t in ts && t.id != id
    ensures forall t' :: t' in TransactionsAfterDelete(ts, id) ==> t'.id != id
    ensures TransactionsAfterDelete([t] + ts, id)
         == (if t.id == id then [] else [t]) + TransactionsAfterDelete(ts, id)
  {
    WithoutIdAppend([t], ts, TxId, id);
    WithoutIdOne(t, TxId, id);
  }

  /**
   * Adding under an id no record carries and then deleting that id gives
   * back the original list. `Date.now()` does not promise such an id:
   * two adds in one millisecond share one.
   */
  lemma {:induction false} AddThenDeleteTransaction(ts: seq<Transaction>, d: TransactionDraft, id: string)
    requires forall t :: t in ts ==> t.id != id
    ensures TransactionsAfterDelete(TransactionsAfterAdd(ts, d, id), id) == ts
  {
    WithoutIdAppend([NewTransaction(d, id)], ts, TxId, id);
    WithoutIdOne(NewTransaction(d, id), TxId, id);
    WithoutAbsentId(ts, TxId, id);
  }

  /** With an id already in the list, add-then-delete loses the older record too. */
  lemma {:induction false} AddThenDeleteRepeatedId(ts: seq<Transaction>, d: TransactionDraft, id: string)
    requires exists t :: t in ts && t.id == id
    ensures TransactionsAfterDelete(TransactionsAfterAdd(ts, d, id), id) != ts
  {
    var t :| t in ts && t.id == id;
    assert t !in TransactionsAfterDelete(TransactionsAfterAdd(ts, d, id), id);
  }

  lemma {:induction false} AddBudgetShape(bs: seq<Budget>, d: BudgetDraft, id: string)
    ensures |BudgetsAfterAdd(bs, d, id)| == |bs| + 1
    ensures BudgetsAfterAdd(bs, d, id)[0].id == id
    ensures var b := BudgetsAfterAdd(bs, d, id)[0];
      BudgetDraft(b.category, b.amount, b.period) == d
    ensures BudgetsAfterAdd(bs, d, id)[1..] == bs
  {
  }

  lemma {:induction false} DeleteBudgetShape(bs: seq<Budget>, id: string, b: Budget)
    ensures b in BudgetsAfterDelete(bs, id) <==> b in bs && b.id != id
    ensures forall b' :: b' in BudgetsAfterDelete(bs, id) ==> b'.id != id
    ensures BudgetsAfterDelete([b] + bs, id)
         == (if b.id == id then [] else [b]) + BudgetsAfterDelete(bs, id)
  {
    WithoutIdAppend([b], bs, BudgetId, id);
    WithoutIdOne(b, BudgetId, id);
  }

  lemma {:induction false} AddThenDeleteBudget(bs: seq<Budget>, d: BudgetDraft, id: string)
    requires forall b :: b in bs ==> b.id != id
    ensures BudgetsAfterDelete(BudgetsAfterAdd(bs, d, id), id) == bs
  {
    WithoutIdAppend([NewBudget(d, id)], bs, BudgetId, id);
    WithoutIdOne(NewBudget(d, id), BudgetId, id);
    WithoutAbsentId(bs, BudgetId, id);
  }

  /** The page's state: the two lists each handler replaces. */
  class Home {
    var transactions: seq<Transaction>
    var budgets: seq<Budget>

    /** Both lists start empty (and stay so when nothing was saved). */
    constructor ()
      ensures transactions == [] && budgets == []
    {
      transactions := [];
      budgets := [];
    }

    method AddTransaction(d: TransactionDraft, id: string)
      modifies this
      ensures transactions == TransactionsAfterAdd(old(transactions), d, id)
      ensures budgets == old(budgets)
    {
      transactions := [NewTransaction(d, id)] + transactions;
    }

    method DeleteTransaction(id: string)
      modifies this
      ensures transactions == TransactionsAfterDelete(old(transactions), id)
      ensures budgets == old(budgets)
    {
      transactions := WithoutId(transactions, TxId, id);
    }

    method AddBudget(d: BudgetDraft, id: string)
      modifies this
      ensures budgets == BudgetsAfterAdd(old(budgets), d, id)
      ensures transactions == old(transactions)
    {
      budgets := [NewBudget(d, id)] + budgets;
    }

    method DeleteBudget(id: string)
      modifies this
      ensures budgets == BudgetsAfterDelete(old(budgets), id)
      ensures transactions == old(transactions)
    {
      budgets := WithoutId(budgets, BudgetId, id);
    }
  }
}
