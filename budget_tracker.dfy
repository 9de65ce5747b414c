// Budget progress and the budget form (components/BudgetTracker.tsx).
// The reference date that the component reads from the clock is the
// parameter `today`; `parseFloat` is the parameter `parse`.
module BudgetTracker {
  import opened Types
  import opened Seqs
  import opened Ledger

  // ---------------------------------------------------------------------
  // Spent per budget

  /**
   * `isInPeriod`: a monthly budget counts the transactions of the month
   * and year of `today`, a yearly budget those of its year.
   */
  predicate InPeriod(d: Date, period: Period, today: Date)
    ensures InPeriod(d, period, today) ==> d.year == today.year
    ensures period == Monthly && InPeriod(d, period, today) ==> d.month == today.month
    ensures d.year == today.year && (period == Yearly || d.month == today.month) ==> InPeriod(d, period, today)
  {
    match period
    case Monthly => d.month == today.month && d.year == today.year
    case Yearly => d.year == today.year
  }

  /**
   * What a budget has spent: the sum of the amounts of the expenses of
   * its category whose date is in its period.
   */
  function Spent(ts: seq<Transaction>, b: Budget, today: Date): int
  {
    if ts == [] then 0
    else
      var t := ts[|ts| - 1];
      Spent(ts[..|ts| - 1], b, today)
        + (if t.kind == Expense && t.category == b.category && InPeriod(t.date, b.period, today) then t.amount else 0)
  }

  /** `transactions.filter(t => t.type === 'expense' && t.category === c)`. */
  function Matching(ts: seq<Transaction>, c: string): (r: seq<Transaction>)
    ensures |r| <= |ts|
    ensures forall i :: 0 <= i < |r| ==> r[i].kind == Expense && r[i].category == c
    ensures forall t :: t in r <==> t in ts && t.kind == Expense && t.category == c
  {
    if ts == [] then []
    else
      var p, t := ts[..|ts| - 1], ts[|ts| - 1];
      assert ts == p + [t];
      if t.kind == Expense && t.category == c then Matching(p, c) + [t] else Matching(p, c)
  }

  /** The sum of the amounts in `ms` whose date is in the period. */
  function PeriodSum(ms: seq<Transaction>, period: Period, today: Date): int
  {
    if ms == [] then 0
    else
      var t := ms[|ms| - 1];
      PeriodSum(ms[..|ms| - 1], period, today) + (if InPeriod(t.date, period, today) then t.amount else 0)
  }

  /** Filtering first and then summing what is in period is `Spent`. */
  lemma {:induction false} MatchingThenPeriodSum(ts: seq<Transaction>, b: Budget, today: Date)
    ensures PeriodSum(Matching(ts, b.category), b.period, today) == Spent(ts, b, today)
  {
    if ts != [] {
      var p, t := ts[..|ts| - 1], ts[|ts| - 1];
      MatchingThenPeriodSum(p, b, today);
      assert Spent(ts, b, today) == Spent(p, b, today)
        + (if t.kind == Expense && t.category == b.category && InPeriod(t.date, b.period, today) then t.amount else 0);
      var m := Matching(p, b.category);
      if t.kind == Expense && t.category == b.category {
        assert Matching(ts, b.category) == m + [t];
        assert (m + [t])[..|m|] == m;
        assert PeriodSum(m + [t], b.period, today)
            == PeriodSum(m, b.period, today) + (if InPeriod(t.date, b.period, today) then t.amount else 0);
      } else {
        assert Matching(ts, b.category) == m;
      }
    }
  }

  /** The `let spent` accumulator and its `forEach` over the matching expenses. */
  method ComputeSpent(ts: seq<Transaction>, b: Budget, today: Date) returns (spent: int)
    ensures spent == Spent(ts, b, today)
  {
    var matching := Matching(ts, b.category);
    spent := 0;
    var i := 0;
    while i < |matching|
      invariant 0 <= i <= |matching|
      invariant spent == PeriodSum(matching[..i], b.period, today)
    {
      var t := matching[i];
      TakeSnoc(matching, i);
      assert matching[..i + 1][..i] == matching[..i];
      if InPeriod(t.date, b.period, today) {
        spent := spent + t.amount;
      }
      i := i + 1;
    }
    assert matching[..i] == matching;
    MatchingThenPeriodSum(ts, b, today);
  }

  /** Incomes never count: `Spent` over the expenses alone is the same. */
  lemma {:induction false} SpentIgnoresIncome(ts: seq<Transaction>, b: Budget, today: Date)
    ensures Spent(OfType(ts, Expense), b, today) == Spent(ts, b, today)
  {
    if ts != [] {
      var p, t := ts[..|ts| - 1], ts[|ts| - 1];
      SpentIgnoresIncome(p, b, today);
      if t.kind == Expense {
        var e := OfType(p, Expense);
        assert (e + [t])[..|e|] == e;
      }
    }
  }

  /**
   * With amounts that are not negative, a monthly budget never counts more
   * than a yearly budget of the same category would.
   */
  lemma {:induction false} MonthlyWithinYearly(ts: seq<Transaction>, b: Budget, today: Date)
    requires forall i :: 0 <= i < |ts| ==> ts[i].amount >= 0
    ensures Spent(ts, b.(period := Monthly), today) <= Spent(ts, b.(period := Yearly), today)
  {
    if ts != [] {
      MonthlyWithinYearly(ts[..|ts| - 1], b, today);
    }
  }

  // ---------------------------------------------------------------------
  // Percentage

  /** A JavaScript number as far as the percentage needs one. */
  datatype Number = Finite(value: real) | PosInfinity | NegInfinity | NaN

  /** `x / y` on numbers that are integers, with IEEE 754 division by zero. */
  function Divide(x: int, y: int): (r: Number)
    ensures r.Finite? <==> y != 0
    ensures r.Finite? ==> r.value * (y as real) == x as real
    ensures r == NaN <==> x == 0 && y == 0
    ensures r == PosInfinity <==> y == 0 && x > 0
  {
    if y != 0 then Finite(x as real / y as real)
    else if x > 0 then PosInfinity
    else if x < 0 then NegInfinity
    else NaN
  }

  /** `n * 100`: NaN and the infinities pass through; a finite ratio is scaled by 100. */
  function Times100(n: Number): (r: Number)
    ensures r.Finite? <==> n.Finite?
    ensures r.Finite? ==> (r.value <= 100.0 <==> n.value <= 1.0)
    ensures !n.Finite? ==> r == n
    ensures r.Finite? ==> r.value / 100.0 == n.value
  {
    match n
    case Finite(v) => Finite(v * 100.0)
    case _ => n
  }

  /** `Math.min(n, 100)`: NaN stays NaN, +Infinity becomes 100, a finite value is capped at 100. */
  function Min100(n: Number): (r: Number)
    ensures n == NaN <==> r == NaN
    ensures r.Finite? ==> r.value <= 100.0
    ensures n == PosInfinity ==> r == Finite(100.0)
    ensures n == NegInfinity ==> r == NegInfinity
    ensures n.Finite? ==> r.Finite? && r.value <= n.value && (r.value == n.value || r.value == 100.0)
  {
    match n
    case Finite(v) => Finite(if v < 100.0 then v else 100.0)
    case PosInfinity => Finite(100.0)
    case NegInfinity => NegInfinity
    case NaN => NaN
  }

  /** `Math.min((spent / budget.amount) * 100, 100)`, as the component computes it. */
  function PercentageAsWritten(spent: int, amount: int): (r: Number)
    ensures r == NaN <==> spent == 0 && amount == 0
    ensures amount != 0 ==> r.Finite? && r.value <= 100.0
    ensures amount == 0 && spent > 0 ==> r == Finite(100.0)
    ensures amount == 0 && spent < 0 ==> r == NegInfinity
  {
    Min100(Times100(Divide(spent, amount)))
  }

  /** A budget of zero with nothing spent shows a percentage that is not a number. */
  lemma ZeroBudgetPercentageIsNaN()
    ensures PercentageAsWritten(0, 0) == NaN
  {
  }

  /**
   * The percentage with a zero budget given a value: 100 once anything is
   * spent, 0 otherwise. Every other input is computed as written.
   */
  function Percentage(spent: int, amount: int): (p: real)
    ensures p <= 100.0
    ensures amount == 0 ==> p == (if spent > 0 then 100.0 else 0.0)
    ensures spent >= 0 && amount >= 0 ==> p >= 0.0
  {
    if amount == 0 then (if spent > 0 then 100.0 else 0.0)
    else
      var v := spent as real / amount as real * 100.0;
      if v < 100.0 then v else 100.0
  }

  /**
   * The corrected percentage agrees with the written one wherever that one
   * is a finite number, and is finite everywhere.
   */
  lemma PercentageAgrees(spent: int, amount: int)
    ensures PercentageAsWritten(spent, amount).Finite? ==> PercentageAsWritten(spent, amount) == Finite(Percentage(spent, amount))
    ensures amount != 0 || spent > 0 ==> PercentageAsWritten(spent, amount) == Finite(Percentage(spent, amount))
  {
    if amount != 0 {
      assert Divide(spent, amount) == Finite(spent as real / amount as real);
    }
  }

  /** Fully spent once what is spent reaches a positive budget. */
  lemma PercentageFull(spent: int, amount: int)
    requires amount > 0 && spent >= amount
    ensures Percentage(spent, amount) == 100.0
  {
    assert spent as real / amount as real >= 1.0;
  }

  // ---------------------------------------------------------------------
  // Progress

  /** A budget with its progress: the budget's own fields, then the derived ones. */
  datatype BudgetProgress = BudgetProgress(
    id: string,
    category: string,
    amount: int,
    period: Period,
    spent: int,
    remaining: int,
    percentage: real,
    isOverBudget: bool)

  /** The record the `map` callback returns for budget `b` once `spent` is known. */
  function ProgressOf(b: Budget, spent: int): (p: BudgetProgress)
    ensures p.id == b.id && p.category == b.category && p.amount == b.amount && p.period == b.period
    ensures p.spent == spent
    ensures p.remaining >= 0 && p.remaining >= b.amount - spent
    ensures p.remaining == 0 || p.remaining == b.amount - spent
    ensures p.percentage == Percentage(spent, b.amount) && p.percentage <= 100.0
    ensures p.isOverBudget <==> spent > b.amount
  {
    var remaining := b.amount - spent;
    BudgetProgress(b.id, b.category, b.amount, b.period, spent,
      if remaining > 0 then remaining else 0,
      Percentage(spent, b.amount),
      spent > b.amount)
  }

  /** Spending exactly the budget is not over it, and leaves nothing. */
  lemma ExactSpendIsNotOver(b: Budget)
    requires b.amount > 0
    ensures !ProgressOf(b, b.amount).isOverBudget
    ensures ProgressOf(b, b.amount).remaining == 0
    ensures ProgressOf(b, b.amount).percentage == 100.0
  {
    PercentageFull(b.amount, b.amount);
  }

  /** An overspent budget has nothing remaining and shows 100 percent. */
  lemma OverBudgetIsFull(b: Budget, spent: int)
    requires b.amount > 0 && ProgressOf(b, spent).isOverBudget
    ensures ProgressOf(b, spent).remaining == 0
    ensures ProgressOf(b, spent).percentage == 100.0
  {
    PercentageFull(spent, b.amount);
  }

  /** `budgetProgress`: one record per budget, in the order of `budgets`. */
  method ComputeBudgetProgress(budgets: seq<Budget>, ts: seq<Transaction>, today: Date) returns (r: seq<BudgetProgress>)
    ensures |r| == |budgets|
    ensures forall i :: 0 <= i < |r| ==> r[i] == ProgressOf(budgets[i], Spent(ts, budgets[i], today))
  {
    r := [];
    var i := 0;
    while i < |budgets|
      invariant 0 <= i <= |budgets|
      invariant |r| == i
      invariant forall j :: 0 <= j < i ==> r[j] == ProgressOf(budgets[j], Spent(ts, budgets[j], today))
    {
      var spent := ComputeSpent(ts, budgets[i], today);
      r := r + [ProgressOf(budgets[i], spent)];
      i := i + 1;
    }
  }

  // ---------------------------------------------------------------------
  // The budget form

  /** The three fields of the "Set Budget" form and its submit handler. */
  class BudgetForm {
    var category: string
    var amount: string
    var period: Period

    constructor ()
      ensures category == "" && amount == "" && period == Monthly
    {
      category := "";
      amount := "";
      period := Monthly;
    }

    method SetCategory(c: string)
      modifies this
      ensures category == c && amount == old(amount) && period == old(period)
    {
      category := c;
    }

    method SetAmount(a: string)
      modifies this
      ensures amount == a && category == old(category) && period == old(period)
    {
      amount := a;
    }

    method SetPeriod(p: Period)
      modifies this
      ensures period == p && category == old(category) && amount == old(amount)
    {
      period := p;
    }

    /**
     * `handleSubmit`: with an empty category or amount nothing is emitted
     * and no field changes; otherwise the draft is emitted and the category
     * and amount are cleared, the period kept.
     */
    method Submit(parse: string -> int) returns (emitted: Option<BudgetDraft>)
      modifies this
      ensures old(category) == "" || old(amount) == "" ==>
        emitted == None && category == old(category) && amount == old(amount) && period == old(period)
      ensures old(category) != "" && old(amount) != "" ==>
        emitted == Some(BudgetDraft(old(category), parse(old(amount)), old(period))) &&
        category == "" && amount == "" && period == old(period)
    {
      if category == "" || amount == "" {
        return None;
      }
      emitted := Some(BudgetDraft(category, parse(amount), period));
      category := "";
      amount := "";
    }
  }

  /**
   * The amount text "0" is not empty, so the form emits a budget of zero,
   * whose percentage with nothing spent is not a number.
   */
  method ZeroBudgetAccepted(parse: string -> int) returns (emitted: Option<BudgetDraft>)
    requires parse("0") == 0
    ensures emitted.Some? && emitted.value.amount == 0
    ensures PercentageAsWritten(0, emitted.value.amount) == NaN
  {
    var form := new BudgetForm();
    form.SetCategory("Food & Dining");
    form.SetAmount("0");
    emitted := form.Submit(parse);
    ZeroBudgetPercentageIsNaN();
  }
}
