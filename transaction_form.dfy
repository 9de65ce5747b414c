// The transaction entry form (components/TransactionForm.tsx): five
// fields, a category vocabulary chosen by the type, and a submit that
// rejects empty fields or emits a draft and resets. Today's date, which the
// source reads from the clock, and `parseFloat` are parameters.
module TransactionForm {
  import opened Types

  /** `categories`: the income vocabulary for income, the expense one otherwise. */
  function CategoriesFor(kind: TxType): (r: seq<string>)
    ensures "Other" in r
    ensures "Salary" in r <==> kind == Income
    ensures "Food & Dining" in r <==> kind != Income
  {
    if kind == Income then IncomeCategories else ExpenseCategories
  }

  /** The two vocabularies share only "Other". */
  lemma SharedCategory(c: string)
    ensures c in CategoriesFor(Income) && c in CategoriesFor(Expense) <==> c == "Other"
  {
    if c in IncomeCategories && c in ExpenseCategories {
      var i :| 0 <= i < |IncomeCategories| && IncomeCategories[i] == c;
      assert i == 5;
    }
    assert ExpenseCategories[8] == "Other" && IncomeCategories[5] == "Other";
  }

  /** Whether `handleSubmit` refuses: some required text is empty. */
  predicate Incomplete(amount: string, category: string, description: string)
  {
    amount == "" || category == "" || description == ""
  }

  class Form {
    var kind: TxType
    var amount: string
    var category: string
    var description: string
    var date: Date

    /** A fresh form: an expense, empty texts, and today's date. */
    constructor (today: Date)
      ensures kind == Expense && amount == "" && category == "" && description == ""
      ensures date == today
    {
      kind := Expense;
      amount := "";
      category := "";
      description := "";
      date := today;
    }

    /** The expense button: only the type changes; the category is kept. */
    method SelectExpense()
      modifies this
      ensures kind == Expense
      ensures amount == old(amount) && category == old(category)
      ensures description == old(description) && date == old(date)
    {
      kind := Expense;
    }

    /** The income button: only the type changes; the category is kept. */
    method SelectIncome()
      modifies this
      ensures kind == Income
      ensures amount == old(amount) && category == old(category)
      ensures description == old(description) && date == old(date)
    {
      kind := Income;
    }

    method SetAmount(a: string)
      modifies this
      ensures amount == a && kind == old(kind) && category == old(category)
      ensures description == old(description) && date == old(date)
    {
      amount := a;
    }

    method SetCategory(c: string)
      modifies this
      ensures category == c && kind == old(kind) && amount == old(amount)
      ensures description == old(description) && date == old(date)
    {
      category := c;
    }

    method SetDescription(s: string)
      modifies this
      ensures description == s && kind == old(kind) && amount == old(amount)
      ensures category == old(category) && date == old(date)
    {
      description := s;
    }

    method SetDate(d: Date)
      modifies this
      ensures date == d && kind == old(kind) && amount == old(amount)
      ensures category == old(category) && description == old(description)
    {
      date := d;
    }

    /**
     * `handleSubmit`: with an empty amount, category or description nothing
     * is emitted and no field changes; otherwise one draft with the current
     * type, parsed amount, category, description and date is emitted, the
     * three texts are cleared, the date is reset to today and the type kept.
     */
    method Submit(parse: string -> int, today: Date) returns (emitted: Option<TransactionDraft>)
      modifies this
      ensures Incomplete(old(amount), old(category), old(description)) ==>
        emitted == None && kind == old(kind) && amount == old(amount) &&
        category == old(category) && description == old(description) && date == old(date)
      ensures !Incomplete(old(amount), old(category), old(description)) ==>
        emitted == Some(TransactionDraft(old(kind), parse(old(amount)), old(category), old(description), old(date))) &&
        kind == old(kind) && amount == "" && category == "" && description == "" && date == today
    {
      if amount == "" || category == "" || description == "" {
        return None;
      }
      emitted := Some(TransactionDraft(kind, parse(amount), category, description, date));
      amount := "";
      category := "";
      description := "";
      date := today;
    }
  }

  /**
   * Choosing an expense category and then switching to income keeps that
   * category, which the income vocabulary does not offer.
   */
  method ToggleKeepsForeignCategory(today: Date) returns (category: string, offered: seq<string>)
    ensures category == "Food & Dining"
    ensures offered == CategoriesFor(Income)
    ensures category !in offered
  {
    var form := new Form(today);
    form.SetCategory("Food & Dining");
    form.SelectIncome();
    category := form.category;
    offered := CategoriesFor(form.kind);
    SharedCategory(category);
  }
}
