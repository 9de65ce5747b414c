// The dashboard's derived data (components/Dashboard.tsx): all-time
// totals, the expense breakdown by category, the six-month trend and the
// list of recent transactions.
module Dashboard {
  import opened Types
  import opened Seqs
  import opened Strings
  import opened Ledger

  // ---------------------------------------------------------------------
  // Summary statistics

  datatype Stats = Stats(totalIncome: int, totalExpenses: int, balance: int)

  /** `stats`: filter by type, reduce the amounts, and take the difference. */
  function ComputeStats(ts: seq<Transaction>): (s: Stats)
    ensures s.totalIncome == TotalOf(ts, Income)
    ensures s.totalExpenses == TotalOf(ts, Expense)
    ensures s.balance == s.totalIncome - s.totalExpenses
    ensures s.totalIncome + s.totalExpenses == SumAmounts(ts)
    ensures ts == [] ==> s == Stats(0, 0, 0)
  {
    var totalIncome := Reduce(0, OfType(ts, Income));
    var totalExpenses := Reduce(0, OfType(ts, Expense));
    ReduceIsSum(0, OfType(ts, Income));
    ReduceIsSum(0, OfType(ts, Expense));
    FilterThenSum(ts, Income);
    FilterThenSum(ts, Expense);
    TotalsPartition(ts);
    Stats(totalIncome, totalExpenses, totalIncome - totalExpenses)
  }

  /** The totals of a concatenation are the sums of the totals. */
  lemma StatsAppend(a: seq<Transaction>, b: seq<Transaction>)
    ensures ComputeStats(a + b).totalIncome == ComputeStats(a).totalIncome + ComputeStats(b).totalIncome
    ensures ComputeStats(a + b).totalExpenses == ComputeStats(a).totalExpenses + ComputeStats(b).totalExpenses
    ensures ComputeStats(a + b).balance == ComputeStats(a).balance + ComputeStats(b).balance
  {
    TotalOfAppend(a, b, Income);
    TotalOfAppend(a, b, Expense);
  }

  /** The balance is not clamped: spending more than was earned makes it negative. */
  lemma BalanceMayBeNegative(t: Transaction)
    requires t.kind == Expense && t.amount > 0
    ensures ComputeStats([t]).balance == -t.amount < 0
  {
    assert [t][..0] == [];
    assert TotalOf([t], Income) == 0;
    assert TotalOf([t], Expense) == t.amount;
  }

  // ---------------------------------------------------------------------
  // Expenses by category

  datatype CategoryTotal = CategoryTotal(name: string, value: int)

  /** The category of every transaction of `es`, in order. */
  function Categories(es: seq<Transaction>): (cs: seq<string>)
    ensures |cs| == |es| && forall i :: 0 <= i < |es| ==> cs[i] == es[i].category
  {
    if es == [] then [] else Categories(es[..|es| - 1]) + [es[|es| - 1].category]
  }

  /** The sum of the amounts in `es` whose category is `c`. */
  function CategorySum(es: seq<Transaction>, c: string): int
  {
    if es == [] then 0
    else CategorySum(es[..|es| - 1], c) + (if es[|es| - 1].category == c then es[|es| - 1].amount else 0)
  }

  /** One entry per name, valued by the sum of that category in `es`. */
  function CategoryEntries(names: seq<string>, es: seq<Transaction>): (r: seq<CategoryTotal>)
    ensures |r| == |names|
    ensures forall i :: 0 <= i < |r| ==> r[i] == CategoryTotal(names[i], CategorySum(es, names[i]))
  {
    if names == [] then []
    else
      CategoryEntries(names[..|names| - 1], es)
        + [CategoryTotal(names[|names| - 1], CategorySum(es, names[|names| - 1]))]
  }

  function SumValues(r: seq<CategoryTotal>): int
  {
    if r == [] then 0 else SumValues(r[..|r| - 1]) + r[|r| - 1].value
  }

  /** The categories of the expenses, each once, in the order they are first met. */
  function ExpenseCategoryNames(ts: seq<Transaction>): seq<string>
  {
    Dedup(Categories(OfType(ts, Expense)))
  }

  /** `expensesByCategory`, as a value: the breakdown the dashboard's pie chart shows. */
  function CategoryBreakdown(ts: seq<Transaction>): seq<CategoryTotal>
  {
    CategoryEntries(ExpenseCategoryNames(ts), OfType(ts, Expense))
  }

  /**
   * The `forEach` of `expensesByCategory`: fills an insertion-ordered map
   * from category to running sum (its keys, in order, in `keys`).
   */
  method AccumulateByCategory(es: seq<Transaction>) returns (keys: seq<string>, m: map<string, int>)
    ensures keys == Dedup(Categories(es))
    ensures forall k :: k in m <==> k in keys
    ensures forall k :: k in m ==> m[k] == CategorySum(es, k)
  {
    keys := [];
    m := map[];
    var i := 0;
    while i < |es|
      invariant 0 <= i <= |es|
      invariant CategoryMapHolds(es[..i], keys, m)
    {
      TakeSnoc(es, i);
      keys, m := AddToCategory(es[..i], es[i], keys, m);
      i := i + 1;
    }
    assert es[..i] == es;
  }

  /**
   * The callback of that `forEach` for one expense `t`: the category's
   * current sum, zero when it has none yet, plus the amount.
   */
  method AddToCategory(ghost p: seq<Transaction>, t: Transaction, keys: seq<string>, m: map<string, int>)
    returns (keys': seq<string>, m': map<string, int>)
    requires CategoryMapHolds(p, keys, m)
    ensures CategoryMapHolds(p + [t], keys', m')
  {
    var current := if t.category in m then m[t.category] else 0;
    keys' := if t.category in m then keys else keys + [t.category];
    m' := m[t.category := current + t.amount];
    BreakdownStep(p, t, keys, m, keys', current + t.amount, m');
  }

  /**
   * `keys` are the distinct categories of `p` in first-seen order, and `m`
   * maps each of them to its sum over `p`.
   */
  ghost predicate CategoryMapHolds(p: seq<Transaction>, keys: seq<string>, m: map<string, int>)
  {
    && keys == Dedup(Categories(p))
    && (forall k :: k in m <==> k in keys)
    && (forall k :: k in m ==> m[k] == CategorySum(p, k))
  }

  /**
   * `expensesByCategory`: keep the expenses, accumulate them by category,
   * and list the map's entries in insertion order.
   */
  method ExpensesByCategory(ts: seq<Transaction>) returns (r: seq<CategoryTotal>)
    ensures r == CategoryBreakdown(ts)
    ensures forall i, j :: 0 <= i < j < |r| ==> r[i].name != r[j].name
    ensures forall i :: 0 <= i < |r| ==> r[i].value == CategorySum(OfType(ts, Expense), r[i].name)
    ensures SumValues(r) == ComputeStats(ts).totalExpenses
  {
    var keys, m := AccumulateByCategory(OfType(ts, Expense));
    r := EntriesInKeyOrder(keys, m);
    MapEntriesInOrder(OfType(ts, Expense), keys, m);
    BreakdownShape(ts);
  }

  /** `Array.from(map.entries())` as name/value records, for a map whose insertion order is `keys`. */
  function EntriesInKeyOrder(keys: seq<string>, m: map<string, int>): seq<CategoryTotal>
    requires forall k :: k in keys ==> k in m
  {
    seq(|keys|, j requires 0 <= j < |keys| => CategoryTotal(keys[j], m[keys[j]]))
  }

  /** The filled category map, read in insertion order, is the breakdown of `es`. */
  lemma MapEntriesInOrder(es: seq<Transaction>, keys: seq<string>, m: map<string, int>)
    requires keys == Dedup(Categories(es))
    requires forall k :: k in m <==> k in keys
    requires forall k :: k in m ==> m[k] == CategorySum(es, k)
    ensures EntriesInKeyOrder(keys, m) == CategoryEntries(keys, es)
  {
    var r, spec := EntriesInKeyOrder(keys, m), CategoryEntries(keys, es);
    forall j | 0 <= j < |keys| ensures r[j] == spec[j] {
      assert keys[j] in m;
    }
  }

  /**
   * The breakdown names each category once, values it by the sum of its
   * expenses, and its values add up to the expense total.
   */
  lemma BreakdownShape(ts: seq<Transaction>)
    ensures forall i, j :: 0 <= i < j < |CategoryBreakdown(ts)| ==> CategoryBreakdown(ts)[i].name != CategoryBreakdown(ts)[j].name
    ensures forall i :: 0 <= i < |CategoryBreakdown(ts)| ==>
      CategoryBreakdown(ts)[i].value == CategorySum(OfType(ts, Expense), CategoryBreakdown(ts)[i].name)
    ensures SumValues(CategoryBreakdown(ts)) == ComputeStats(ts).totalExpenses
  {
    var names := ExpenseCategoryNames(ts);
    assert forall i :: 0 <= i < |names| ==> CategoryBreakdown(ts)[i].name == names[i];
    BreakdownTotal(ts);
  }

  /** One turn of the loop: the map still holds each category's running sum. */
  lemma BreakdownStep(p: seq<Transaction>, t: Transaction, keys: seq<string>, m: map<string, int>,
                      keys': seq<string>, v: int, m': map<string, int>)
    requires CategoryMapHolds(p, keys, m)
    requires keys' == if t.category in m then keys else keys + [t.category]
    requires v == (if t.category in m then m[t.category] else 0) + t.amount
    requires m' == m[t.category := v]
    ensures CategoryMapHolds(p + [t], keys', m')
  {
    var c := t.category;
    CategoriesSnoc(p, t);
    DedupSnoc(Categories(p), c);
    assert c in m <==> c in Categories(p);
    if c in m {
      SameKeyDomain(keys, m, c, v);
    } else {
      NewKeyDomain(keys, m, c, v);
      CategorySumAbsent(p, c);
    }
    CategorySumsStep(p, t, m, v);
  }

  lemma SameKeyDomain<V>(keys: seq<string>, m: map<string, V>, key: string, v: V)
    requires forall k :: k in m <==> k in keys
    requires key in m
    ensures forall k :: k in m[key := v] <==> k in keys
  {
  }

  /** Adding `t` to its category's sum keeps every category's sum right. */
  lemma CategorySumsStep(p: seq<Transaction>, t: Transaction, m: map<string, int>, v: int)
    requires forall k :: k in m ==> m[k] == CategorySum(p, k)
    requires v == (if t.category in m then m[t.category] else 0) + t.amount
    requires t.category !in m ==> CategorySum(p, t.category) == 0
    ensures forall k :: k in m[t.category := v] ==> m[t.category := v][k] == CategorySum(p + [t], k)
  {
    var m' := m[t.category := v];
    forall k | k in m' ensures m'[k] == CategorySum(p + [t], k) {
      CategorySumSnoc(p, t, k);
      if k != t.category {
        assert m'[k] == m[k];
      }
    }
  }

  lemma CategoriesSnoc(p: seq<Transaction>, t: Transaction)
    ensures Categories(p + [t]) == Categories(p) + [t.category]
  {
    assert (p + [t])[..|p|] == p;
  }

  lemma CategorySumSnoc(p: seq<Transaction>, t: Transaction, k: string)
    ensures CategorySum(p + [t], k) == CategorySum(p, k) + (if t.category == k then t.amount else 0)
  {
    assert (p + [t])[..|p|] == p;
  }

  lemma {:induction false} CategorySumAbsent(es: seq<Transaction>, c: string)
    requires c !in Categories(es)
    ensures CategorySum(es, c) == 0
  {
    if es != [] {
      assert Categories(es[..|es| - 1]) == Categories(es)[..|es| - 1];
      CategorySumAbsent(es[..|es| - 1], c);
    }
  }

  /** Adding an amount to one listed category adds it to the total once. */
  lemma {:induction false} EntriesBump(names: seq<string>, p: seq<Transaction>, t: Transaction)
    requires Distinct(names)
    ensures SumValues(CategoryEntries(names, p + [t]))
         == SumValues(CategoryEntries(names, p)) + (if t.category in names then t.amount else 0)
  {
    if names != [] {
      var init := names[..|names| - 1];
      assert (p + [t])[..|p + [t]| - 1] == p;
      EntriesBump(init, p, t);
      assert CategoryEntries(names, p + [t])[..|names| - 1] == CategoryEntries(init, p + [t]);
      assert CategoryEntries(names, p)[..|names| - 1] == CategoryEntries(init, p);
      assert t.category in names <==> t.category in init || t.category == names[|names| - 1];
      assert names[|names| - 1] !in init;
    }
  }

  /** The values over the distinct categories of `es` add up to the sum of `es`. */
  lemma {:induction false} EntriesTotal(es: seq<Transaction>)
    ensures SumValues(CategoryEntries(Dedup(Categories(es)), es)) == SumAmounts(es)
  {
    if es != [] {
      var p := es[..|es| - 1];
      assert es == p + [es[|es| - 1]];
      EntriesTotal(p);
      EntriesTotalStep(p, es[|es| - 1], Dedup(Categories(p)), Dedup(Categories(es)));
    }
  }

  /** One more transaction keeps the values adding up to the sum. */
  lemma {:induction false} EntriesTotalStep(p: seq<Transaction>, t: Transaction, names: seq<string>, names': seq<string>)
    requires names == Dedup(Categories(p)) && names' == Dedup(Categories(p + [t]))
    requires SumValues(CategoryEntries(names, p)) == SumAmounts(p)
    ensures SumValues(CategoryEntries(names', p + [t])) == SumAmounts(p + [t])
  {
    SumAmountsSnoc(p, t);
    CategoriesSnoc(p, t);
    DedupSnoc(Categories(p), t.category);
    EntriesBump(names, p, t);
    if t.category in Categories(p) {
      assert names' == names && t.category in names;
      assert SumValues(CategoryEntries(names, p + [t])) == SumValues(CategoryEntries(names, p)) + t.amount;
    } else {
      assert names' == names + [t.category] && t.category !in names;
      assert SumValues(CategoryEntries(names, p + [t])) == SumValues(CategoryEntries(names, p));
      EntriesTotalNew(p, t, names);
    }
  }

  /** The case of `EntriesTotalStep` where `t` opens a new category. */
  lemma {:induction false} EntriesTotalNew(p: seq<Transaction>, t: Transaction, names: seq<string>)
    requires t.category !in Categories(p)
    ensures SumValues(CategoryEntries(names + [t.category], p + [t]))
         == SumValues(CategoryEntries(names, p + [t])) + t.amount
  {
    CategorySumAbsent(p, t.category);
    CategorySumSnoc(p, t, t.category);
    EntriesSnoc(names, t.category, p + [t]);
  }

  lemma EntriesSnoc(names: seq<string>, c: string, es: seq<Transaction>)
    ensures SumValues(CategoryEntries(names + [c], es))
         == SumValues(CategoryEntries(names, es)) + CategorySum(es, c)
  {
    assert (names + [c])[..|names|] == names;
    var r := CategoryEntries(names + [c], es);
    assert r[..|names|] == CategoryEntries(names, es);
  }

  /** The breakdown's values add up to the total of the expenses. */
  lemma BreakdownTotal(ts: seq<Transaction>)
    ensures SumValues(CategoryBreakdown(ts)) == ComputeStats(ts).totalExpenses
  {
    EntriesTotal(OfType(ts, Expense));
    FilterThenSum(ts, Expense);
  }

  /**
   * The breakdown names exactly the categories that occur among the
   * expenses, each once; an income never makes a category appear.
   */
  lemma BreakdownCategories(ts: seq<Transaction>, c: string)
    ensures (exists i :: 0 <= i < |CategoryBreakdown(ts)| && CategoryBreakdown(ts)[i].name == c)
        <==> (exists t :: t in ts && t.kind == Expense && t.category == c)
  {
    var es := OfType(ts, Expense);
    var names := ExpenseCategoryNames(ts);
    var r := CategoryBreakdown(ts);
    CategoriesMembership(es, c);
    if c in names {
      var i :| 0 <= i < |names| && names[i] == c;
      assert r[i].name == c;
    }
  }

  lemma CategoriesMembership(es: seq<Transaction>, c: string)
    ensures c in Categories(es) <==> exists e :: e in es && e.category == c
  {
    if c in Categories(es) {
      var k :| 0 <= k < |es| && Categories(es)[k] == c;
      assert es[k] in es;
    }
    if e :| e in es && e.category == c {
      var k :| 0 <= k < |es| && es[k] == e;
      assert Categories(es)[k] == c;
    }
  }

  /** Categories are listed in the order of their first expense. */
  lemma BreakdownFirstSeen(ts: seq<Transaction>, i: nat, j: nat)
    requires i < j < |CategoryBreakdown(ts)|
    ensures FirstIndex(Categories(OfType(ts, Expense)), CategoryBreakdown(ts)[i].name)
          < FirstIndex(Categories(OfType(ts, Expense)), CategoryBreakdown(ts)[j].name)
  {
    DedupFirstSeenOrder(Categories(OfType(ts, Expense)), i, j);
  }

  // ---------------------------------------------------------------------
  // Monthly trend

  /** The bucket key: the year, a dash, and the month padded to two digits. */
  function MonthKey(d: Date): string
  {
    Decimal(d.year) + "-" + PadStart(Decimal(d.month), 2, '0')
  }

  /** The month of `d1` comes before the month of `d2`. */
  predicate Older(d1: Date, d2: Date)
  {
    d1.year < d2.year || (d1.year == d2.year && d1.month < d2.month)
  }

  /** The month part of the key: two digits that denote the month. */
  lemma PaddedMonth(m: nat)
    requires 1 <= m <= 12
    ensures |PadStart(Decimal(m), 2, '0')| == 2
    ensures AllDigits(PadStart(Decimal(m), 2, '0'))
    ensures DecimalValue(PadStart(Decimal(m), 2, '0')) == m
  {
    var pad := PadStart(Decimal(m), 2, '0');
    if m < 10 {
      assert pad == ['0', Digit(m)];
      assert pad[..1] == ['0'] && ['0'][..0] == [];
    } else {
      DecimalLength(m, 2);
      DecimalRoundTrip(m);
    }
  }

  /** In a key, the first dash comes right after the year's digits. */
  lemma DashAfterDigits(y: string, r: string)
    requires AllDigits(y)
    ensures '-' in y + "-" + r && FirstIndex(y + "-" + r, '-') == |y|
  {
    var s := y + "-" + r;
    assert s[|y|] == '-';
    var i := FirstIndex(s, '-');
    assert i >= |y|;
  }

  /** Two keys are equal exactly when their years and their months are. */
  lemma MonthKeyInjective(d1: Date, d2: Date)
    requires 1 <= d1.month <= 12 && 1 <= d2.month <= 12
    ensures MonthKey(d1) == MonthKey(d2) <==> d1.year == d2.year && d1.month == d2.month
  {
    if MonthKey(d1) == MonthKey(d2) {
      var y1, y2 := Decimal(d1.year), Decimal(d2.year);
      var p1, p2 := PadStart(Decimal(d1.month), 2, '0'), PadStart(Decimal(d2.month), 2, '0');
      var s := MonthKey(d1);
      DecimalDigits(d1.year);
      DecimalDigits(d2.year);
      DashAfterDigits(y1, p1);
      DashAfterDigits(y2, p2);
      assert y1 == s[..|y1|] && y2 == s[..|y2|];
      assert p1 == s[|y1| + 1..] && p2 == s[|y2| + 1..];
      DecimalInjective(d1.year, d2.year);
      PaddedMonth(d1.month);
      PaddedMonth(d2.month);
    }
  }

  /**
   * For four-digit years, the lexicographic order of two keys (how the
   * trend sorts them) is the chronological order of their months.
   */
  lemma MonthKeyOrder(d1: Date, d2: Date)
    requires 1000 <= d1.year <= 9999 && 1000 <= d2.year <= 9999
    requires 1 <= d1.month <= 12 && 1 <= d2.month <= 12
    ensures StrLess(MonthKey(d1), MonthKey(d2)) <==> Older(d1, d2)
  {
    var y1, y2 := Decimal(d1.year), Decimal(d2.year);
    var p1, p2 := PadStart(Decimal(d1.month), 2, '0'), PadStart(Decimal(d2.month), 2, '0');
    assert Pow10(3) == 1000 && Pow10(4) == 10000;
    DecimalLength(d1.year, 4);
    DecimalLength(d2.year, 4);
    DecimalRoundTrip(d1.year);
    DecimalRoundTrip(d2.year);
    PaddedMonth(d1.month);
    PaddedMonth(d2.month);
    assert MonthKey(d1) == y1 + ("-" + p1) && MonthKey(d2) == y2 + ("-" + p2);
    StrLessConcat(y1, "-" + p1, y2, "-" + p2);
    StrLessConcat("-", p1, "-", p2);
    StrLessIrreflexive("-");
    DigitsOrder(y1, y2);
    DigitsOrder(p1, p2);
  }

  function MonthKeys(ts: seq<Transaction>): (ks: seq<string>)
    ensures |ks| == |ts| && forall i :: 0 <= i < |ts| ==> ks[i] == MonthKey(ts[i].date)
  {
    if ts == [] then [] else MonthKeys(ts[..|ts| - 1]) + [MonthKey(ts[|ts| - 1].date)]
  }

  /** The income of the month with key `key`. */
  function MonthIncome(ts: seq<Transaction>, key: string): int
  {
    if ts == [] then 0
    else
      var t := ts[|ts| - 1];
      MonthIncome(ts[..|ts| - 1], key) + (if MonthKey(t.date) == key && t.kind == Income then t.amount else 0)
  }

  /** The amounts of the month with key `key` that are not income. */
  function MonthExpense(ts: seq<Transaction>, key: string): int
  {
    if ts == [] then 0
    else
      var t := ts[|ts| - 1];
      MonthExpense(ts[..|ts| - 1], key) + (if MonthKey(t.date) == key && t.kind != Income then t.amount else 0)
  }

  /** A month's running sums, the record that `monthMap` holds per key. */
  datatype MonthBucket = MonthBucket(month: string, income: int, expense: int)

  datatype TrendPoint = TrendPoint(month: string, income: int, expense: int, net: int)

  function BucketsFor(keys: seq<string>, ts: seq<Transaction>): (r: seq<MonthBucket>)
    ensures |r| == |keys|
    ensures forall i :: 0 <= i < |r| ==>
      r[i] == MonthBucket(keys[i], MonthIncome(ts, keys[i]), MonthExpense(ts, keys[i]))
  {
    if keys == [] then []
    else
      var k := keys[|keys| - 1];
      BucketsFor(keys[..|keys| - 1], ts) + [MonthBucket(k, MonthIncome(ts, k), MonthExpense(ts, k))]
  }

  /** One bucket per month key that occurs in `ts`, in first-seen order. */
  function MonthBuckets(ts: seq<Transaction>): seq<MonthBucket>
  {
    BucketsFor(Dedup(MonthKeys(ts)), ts)
  }

  predicate Ascending(bs: seq<MonthBucket>)
  {
    forall i, j :: 0 <= i < j < |bs| ==> StrLess(bs[i].month, bs[j].month)
  }

  /** No two buckets share a month key. */
  predicate DistinctMonths(bs: seq<MonthBucket>)
  {
    forall i, j :: 0 <= i < j < |bs| ==> bs[i].month != bs[j].month
  }

  /** Inserts `b` before the first bucket whose key is larger. */
  function InsertByMonth(bs: seq<MonthBucket>, b: MonthBucket): (r: seq<MonthBucket>)
    ensures |r| == |bs| + 1
    ensures forall x :: x in r <==> x in bs || x == b
  {
    if bs == [] then [b]
    else if StrLess(b.month, bs[0].month) then [b] + bs
    else
      assert bs == [bs[0]] + bs[1..];
      [bs[0]] + InsertByMonth(bs[1..], b)
  }

  /**
   * Sorts buckets by key (the `sort` with `localeCompare`), inserting each
   * bucket in turn into the sorted earlier ones.
   */
  function SortByMonth(bs: seq<MonthBucket>): (r: seq<MonthBucket>)
    ensures |r| == |bs|
    ensures forall x :: x in r <==> x in bs
  {
    if bs == [] then []
    else
      var p := bs[..|bs| - 1];
      assert bs == p + [bs[|bs| - 1]];
      InsertByMonth(SortByMonth(p), bs[|bs| - 1])
  }

  /** Inserting adds exactly one copy of the bucket. */
  lemma {:induction false} InsertByMonthPermutation(bs: seq<MonthBucket>, b: MonthBucket)
    ensures multiset(InsertByMonth(bs, b)) == multiset(bs) + multiset{b}
  {
    if bs != [] && !StrLess(b.month, bs[0].month) {
      assert bs == [bs[0]] + bs[1..];
      InsertByMonthPermutation(bs[1..], b);
    }
  }

  /** The month sort is a permutation of its input. */
  lemma {:induction false} SortByMonthPermutation(bs: seq<MonthBucket>)
    ensures multiset(SortByMonth(bs)) == multiset(bs)
  {
    if bs != [] {
      var p := bs[..|bs| - 1];
      assert bs == p + [bs[|bs| - 1]];
      SortByMonthPermutation(p);
      InsertByMonthPermutation(SortByMonth(p), bs[|bs| - 1]);
    }
  }

  /** A bucket with a fresh key lands in order among ascending buckets. */
  lemma {:induction false} InsertByMonthAscending(bs: seq<MonthBucket>, b: MonthBucket)
    requires Ascending(bs)
    requires forall x :: x in bs ==> x.month != b.month
    ensures Ascending(InsertByMonth(bs, b))
  {
    if bs == [] {
    } else if StrLess(b.month, bs[0].month) {
      forall j | 0 < j < |bs| ensures StrLess(b.month, bs[j].month) {
        AscendingPair(bs, 0, j);
        StrLessTransitive(b.month, bs[0].month, bs[j].month);
      }
      ConsAscending(b, bs);
    } else {
      assert bs[0] in bs;
      StrLessTotal(b.month, bs[0].month);
      var t := bs[1..];
      AscendingTail(bs);
      forall x | x in t ensures x.month != b.month {
        assert x in bs;
      }
      InsertByMonthAscending(t, b);
      var rest := InsertByMonth(t, b);
      forall j | 0 <= j < |rest| ensures StrLess(bs[0].month, rest[j].month) {
        if rest[j] != b {
          assert rest[j] in t;
          var k :| 0 <= k < |t| && t[k] == rest[j];
          AscendingPair(bs, 0, k + 1);
        }
      }
      ConsAscending(bs[0], rest);
      assert InsertByMonth(bs, b) == [bs[0]] + rest;
    }
  }

  lemma {:induction false} ConsAscending(h: MonthBucket, rest: seq<MonthBucket>)
    requires Ascending(rest)
    requires forall j :: 0 <= j < |rest| ==> StrLess(h.month, rest[j].month)
    ensures Ascending([h] + rest)
  {
    var r := [h] + rest;
    forall i, j | 0 <= i < j < |r| ensures StrLess(r[i].month, r[j].month) {
      assert r[j] == rest[j - 1];
      if i > 0 {
        assert r[i] == rest[i - 1];
        AscendingPair(rest, i - 1, j - 1);
      }
    }
  }

  lemma {:induction false} AscendingTail(bs: seq<MonthBucket>)
    requires Ascending(bs) && bs != []
    ensures Ascending(bs[1..])
  {
    var t := bs[1..];
    forall i, j | 0 <= i < j < |t| ensures StrLess(t[i].month, t[j].month) {
      assert t[i] == bs[i + 1] && t[j] == bs[j + 1];
      AscendingPair(bs, i + 1, j + 1);
    }
  }

  /** Buckets with distinct keys come out of the sort strictly ascending. */
  lemma {:induction false} SortByMonthAscending(bs: seq<MonthBucket>)
    requires DistinctMonths(bs)
    ensures Ascending(SortByMonth(bs))
  {
    if bs != [] {
      var p, b := bs[..|bs| - 1], bs[|bs| - 1];
      assert bs == p + [b];
      forall i, j | 0 <= i < j < |p| ensures p[i].month != p[j].month {
        assert p[i] == bs[i] && p[j] == bs[j];
      }
      SortByMonthAscending(p);
      forall x | x in SortByMonth(p) ensures x.month != b.month {
        var j :| 0 <= j < |p| && p[j] == x;
        assert bs[j] == x;
      }
      InsertByMonthAscending(SortByMonth(p), b);
    }
  }

  /** A bucket as a chart point: its month, its two sums and their difference. */
  function ToPoint(b: MonthBucket): TrendPoint
  {
    TrendPoint(b.month, b.income, b.expense, b.income - b.expense)
  }

  /**
   * `.sort(...).slice(-6).map(...)`: sort by key, keep the last six buckets
   * (all of them when there are fewer) and turn each into a point.
   */
  function TrendOf(bs: seq<MonthBucket>): (r: seq<TrendPoint>)
    ensures |r| == if |bs| < 6 then |bs| else 6
    ensures forall i :: 0 <= i < |r| ==> r[i] == ToPoint(SortByMonth(bs)[|bs| - |r| + i])
  {
    var sorted := SortByMonth(bs);
    var kept := if |sorted| < 6 then |sorted| else 6;
    seq(kept, i requires 0 <= i < kept => ToPoint(sorted[|sorted| - kept + i]))
  }

  /** `monthlyTrend`, as a value. */
  function MonthlyTrendOf(ts: seq<Transaction>): seq<TrendPoint>
  {
    TrendOf(MonthBuckets(ts))
  }

  lemma MonthBucketsDistinct(ts: seq<Transaction>)
    ensures DistinctMonths(MonthBuckets(ts))
  {
  }

  /**
   * Every month key of `ts` has exactly one bucket, and each bucket holds
   * the income and non-income sums of its month.
   */
  lemma MonthBucketsContents(ts: seq<Transaction>)
    ensures |MonthBuckets(ts)| == |Dedup(MonthKeys(ts))|
    ensures forall b :: b in MonthBuckets(ts) ==>
      b.month in MonthKeys(ts) && b == MonthBucket(b.month, MonthIncome(ts, b.month), MonthExpense(ts, b.month))
    ensures forall k :: k in MonthKeys(ts) ==> exists b :: b in MonthBuckets(ts) && b.month == k
  {
    var bs, keys := MonthBuckets(ts), Dedup(MonthKeys(ts));
    forall k | k in MonthKeys(ts) ensures exists b :: b in bs && b.month == k {
      var i :| 0 <= i < |keys| && keys[i] == k;
      assert bs[i] in bs;
    }
  }

  /** Each bucket of `monthMap` holds the sums of its month over `p`. */
  ghost predicate SumsHold(p: seq<Transaction>, monthMap: map<string, MonthBucket>)
  {
    forall k :: k in monthMap ==> monthMap[k] == MonthBucket(k, MonthIncome(p, k), MonthExpense(p, k))
  }

  /**
   * `keys` are the distinct month keys of `p` in first-seen order, the keys
   * of `monthMap`, whose buckets hold the sums of their months over `p`.
   */
  ghost predicate MonthMapHolds(p: seq<Transaction>, keys: seq<string>, monthMap: map<string, MonthBucket>)
  {
    && keys == Dedup(MonthKeys(p))
    && (forall k :: k in monthMap <==> k in keys)
    && SumsHold(p, monthMap)
  }

  /**
   * Halfway through a turn for `t`: its key has a bucket, which does not
   * count `t` yet.
   */
  ghost predicate MonthKeyReady(p: seq<Transaction>, t: Transaction, keys: seq<string>, monthMap: map<string, MonthBucket>)
  {
    && keys == Dedup(MonthKeys(p + [t]))
    && (forall k :: k in monthMap <==> k in keys)
    && SumsHold(p, monthMap)
    && MonthKey(t.date) in monthMap
  }

  /**
   * The `forEach` of `monthlyTrend`: fills an insertion-ordered map from
   * month key to bucket (its keys, in order, in `keys`).
   */
  method AccumulateByMonth(ts: seq<Transaction>) returns (keys: seq<string>, monthMap: map<string, MonthBucket>)
    ensures keys == Dedup(MonthKeys(ts))
    ensures forall k :: k in monthMap <==> k in keys
    ensures SumsHold(ts, monthMap)
  {
    keys := [];
    monthMap := map[];
    var i := 0;
    while i < |ts|
      invariant 0 <= i <= |ts|
      invariant MonthMapHolds(ts[..i], keys, monthMap)
    {
      TakeSnoc(ts, i);
      keys, monthMap := AddToMonth(ts[..i], ts[i], keys, monthMap);
      i := i + 1;
    }
    assert ts[..i] == ts;
  }

  /**
   * The callback of that `forEach` for one transaction `t`: open a zero
   * bucket for a month seen for the first time, then add the amount to
   * the bucket's income or, for any other type, to its expense.
   */
  method AddToMonth(ghost p: seq<Transaction>, t: Transaction, keys: seq<string>, monthMap: map<string, MonthBucket>)
    returns (keys': seq<string>, monthMap': map<string, MonthBucket>)
    requires MonthMapHolds(p, keys, monthMap)
    ensures MonthMapHolds(p + [t], keys', monthMap')
  {
    var monthKey := MonthKey(t.date);
    keys', monthMap' := keys, monthMap;
    if monthKey !in monthMap' {
      MonthOpenNew(p, t, keys, monthMap);
      keys' := keys' + [monthKey];
      monthMap' := monthMap'[monthKey := MonthBucket(monthKey, 0, 0)];
    } else {
      MonthOpenSeen(p, t, keys, monthMap);
    }
    assert MonthKeyReady(p, t, keys', monthMap');
    var data := monthMap'[monthKey];
    ghost var b := data;
    if t.kind == Income {
      data := data.(income := data.income + t.amount);
    } else {
      data := data.(expense := data.expense + t.amount);
    }
    ghost var ready := monthMap';
    monthMap' := monthMap'[monthKey := data];
    MonthAdd(p, t, keys', ready, b, data, monthMap');
  }

  lemma MonthKeysSnoc(p: seq<Transaction>, t: Transaction)
    ensures MonthKeys(p + [t]) == MonthKeys(p) + [MonthKey(t.date)]
  {
    assert (p + [t])[..|p|] == p;
  }

  /** The first half of a turn, for a month seen before: nothing to open. */
  lemma MonthOpenSeen(p: seq<Transaction>, t: Transaction, keys: seq<string>, monthMap: map<string, MonthBucket>)
    requires MonthMapHolds(p, keys, monthMap)
    requires MonthKey(t.date) in monthMap
    ensures MonthKeyReady(p, t, keys, monthMap)
  {
    MonthKeysSnoc(p, t);
    DedupSnoc(MonthKeys(p), MonthKey(t.date));
  }

  /** The first half of a turn, for a month seen for the first time: a zero bucket. */
  lemma MonthOpenNew(p: seq<Transaction>, t: Transaction, keys: seq<string>, monthMap: map<string, MonthBucket>)
    requires MonthMapHolds(p, keys, monthMap)
    requires MonthKey(t.date) !in monthMap
    ensures var key := MonthKey(t.date);
      MonthKeyReady(p, t, keys + [key], monthMap[key := MonthBucket(key, 0, 0)])
  {
    var key := MonthKey(t.date);
    NewMonthKey(p, t, keys);
    NewKeyDomain(keys, monthMap, key, MonthBucket(key, 0, 0));
    MonthInsertEmpty(p, monthMap, key);
  }

  /** A month key not seen before goes to the end of the key order. */
  lemma NewMonthKey(p: seq<Transaction>, t: Transaction, keys: seq<string>)
    requires keys == Dedup(MonthKeys(p)) && MonthKey(t.date) !in keys
    ensures keys + [MonthKey(t.date)] == Dedup(MonthKeys(p + [t]))
    ensures MonthKey(t.date) !in MonthKeys(p)
  {
    MonthKeysSnoc(p, t);
    DedupSnoc(MonthKeys(p), MonthKey(t.date));
  }

  lemma NewKeyDomain<V>(keys: seq<string>, m: map<string, V>, key: string, v: V)
    requires forall k :: k in m <==> k in keys
    ensures forall k :: k in m[key := v] <==> k in keys + [key]
  {
  }

  /** A new bucket starts at zero, which is its month's sum so far. */
  lemma MonthInsertEmpty(p: seq<Transaction>, monthMap: map<string, MonthBucket>, key: string)
    requires SumsHold(p, monthMap)
    requires key !in MonthKeys(p)
    ensures SumsHold(p, monthMap[key := MonthBucket(key, 0, 0)])
  {
    MonthAbsent(p, key);
  }

  /** The second half of a turn: `t` is added to its month's bucket. */
  lemma MonthAdd(p: seq<Transaction>, t: Transaction, keys: seq<string>, monthMap: map<string, MonthBucket>,
                  b: MonthBucket, data: MonthBucket, m': map<string, MonthBucket>)
    requires MonthKeyReady(p, t, keys, monthMap)
    requires b == monthMap[MonthKey(t.date)]
    requires data == if t.kind == Income then b.(income := b.income + t.amount) else b.(expense := b.expense + t.amount)
    requires m' == monthMap[MonthKey(t.date) := data]
    ensures MonthMapHolds(p + [t], keys, m')
  {
    MonthSumsAdd(p, t, monthMap, b, data, m');
    assert forall k :: k in m' <==> k in monthMap;
  }

  /** Adding `t` to its month's bucket keeps every bucket's sums right. */
  lemma MonthSumsAdd(p: seq<Transaction>, t: Transaction, monthMap: map<string, MonthBucket>,
                     b: MonthBucket, data: MonthBucket, m': map<string, MonthBucket>)
    requires SumsHold(p, monthMap) && MonthKey(t.date) in monthMap
    requires b == monthMap[MonthKey(t.date)]
    requires data == if t.kind == Income then b.(income := b.income + t.amount) else b.(expense := b.expense + t.amount)
    requires m' == monthMap[MonthKey(t.date) := data]
    ensures SumsHold(p + [t], m')
  {
    var key := MonthKey(t.date);
    forall k | k in m' ensures m'[k] == MonthBucket(k, MonthIncome(p + [t], k), MonthExpense(p + [t], k)) {
      MonthSumsSnoc(p, t, k);
      if k != key {
        assert m'[k] == monthMap[k];
      }
    }
  }

  lemma MonthSumsSnoc(p: seq<Transaction>, t: Transaction, k: string)
    ensures MonthIncome(p + [t], k)
         == MonthIncome(p, k) + (if MonthKey(t.date) == k && t.kind == Income then t.amount else 0)
    ensures MonthExpense(p + [t], k)
         == MonthExpense(p, k) + (if MonthKey(t.date) == k && t.kind != Income then t.amount else 0)
  {
    assert (p + [t])[..|p|] == p;
  }

  /**
   * `monthlyTrend`: bucket every transaction by month, then sort the
   * buckets by key, keep the last six and add each month's net.
   */
  method MonthlyTrend(ts: seq<Transaction>) returns (trend: seq<TrendPoint>)
    ensures trend == MonthlyTrendOf(ts)
    ensures |trend| <= 6
    ensures forall i, j :: 0 <= i < j < |trend| ==> StrLess(trend[i].month, trend[j].month)
    ensures forall i :: 0 <= i < |trend| ==> trend[i].net == trend[i].income - trend[i].expense
  {
    var keys, monthMap := AccumulateByMonth(ts);
    var entries := InKeyOrder(keys, monthMap);
    MapBucketsInOrder(ts, keys, monthMap);
    MonthBucketsDistinct(ts);
    trend := TrendOf(entries);
    TrendShape(ts);
  }

  /**
   * `Array.from(monthMap.entries())` with each entry's value kept, for a map
   * whose insertion order is `keys`; the key is dropped because every
   * `MonthBucket` already carries its own month.
   */
  function InKeyOrder<V>(keys: seq<string>, m: map<string, V>): seq<V>
    requires forall k :: k in keys ==> k in m
  {
    seq(|keys|, i requires 0 <= i < |keys| => m[keys[i]])
  }

  /** The filled month map, read in insertion order, is `MonthBuckets`. */
  lemma MapBucketsInOrder(ts: seq<Transaction>, keys: seq<string>, monthMap: map<string, MonthBucket>)
    requires keys == Dedup(MonthKeys(ts))
    requires forall k :: k in monthMap <==> k in keys
    requires SumsHold(ts, monthMap)
    ensures InKeyOrder(keys, monthMap) == MonthBuckets(ts)
  {
    var r, spec := InKeyOrder(keys, monthMap), MonthBuckets(ts);
    assert |spec| == |keys|;
    forall j | 0 <= j < |keys| ensures r[j] == spec[j] {
      assert keys[j] in monthMap;
    }
  }

  lemma {:induction false} MonthAbsent(ts: seq<Transaction>, key: string)
    requires key !in MonthKeys(ts)
    ensures MonthIncome(ts, key) == 0 && MonthExpense(ts, key) == 0
  {
    if ts != [] {
      assert MonthKeys(ts[..|ts| - 1]) == MonthKeys(ts)[..|ts| - 1];
      MonthAbsent(ts[..|ts| - 1], key);
    }
  }

  /** Each point of `TrendOf` comes from a bucket. */
  lemma TrendOfPoints(bs: seq<MonthBucket>)
    ensures forall p :: p in TrendOf(bs) ==> exists b :: b in bs && p == ToPoint(b)
  {
    var sorted, r := SortByMonth(bs), TrendOf(bs);
    assert forall x :: x in sorted ==> x in bs;
    assert |sorted| == |bs| && |r| <= |bs|;
    assert forall i :: 0 <= i < |r| ==> r[i] == ToPoint(sorted[|bs| - |r| + i]);
    SuffixPointsFrom(sorted, |bs|, bs, r);
  }

  /** Points read off a suffix of `sorted` come from buckets of `bs`. */
  lemma SuffixPointsFrom(sorted: seq<MonthBucket>, n: nat, bs: seq<MonthBucket>, r: seq<TrendPoint>)
    requires forall x :: x in sorted ==> x in bs
    requires n == |sorted| && |r| <= n
    requires forall i :: 0 <= i < |r| ==> r[i] == ToPoint(sorted[n - |r| + i])
    ensures forall p :: p in r ==> exists b :: b in bs && p == ToPoint(b)
  {
    forall p | p in r ensures exists b :: b in bs && p == ToPoint(b) {
      var i :| 0 <= i < |r| && r[i] == p;
      assert sorted[|sorted| - |r| + i] in sorted;
    }
  }

  /** The points of `TrendOf` ascend strictly by key. */
  lemma TrendOfAscending(bs: seq<MonthBucket>)
    requires DistinctMonths(bs)
    ensures forall i, j :: 0 <= i < j < |TrendOf(bs)| ==> StrLess(TrendOf(bs)[i].month, TrendOf(bs)[j].month)
  {
    var sorted, r := SortByMonth(bs), TrendOf(bs);
    SortByMonthAscending(bs);
    forall i, j | 0 <= i < j < |r| ensures StrLess(r[i].month, r[j].month) {
      AscendingPair(sorted, |bs| - |r| + i, |bs| - |r| + j);
    }
  }

  lemma AscendingPair(bs: seq<MonthBucket>, i: nat, j: nat)
    requires Ascending(bs) && i < j < |bs|
    ensures StrLess(bs[i].month, bs[j].month)
  {
  }

  /** A bucket whose point `TrendOf` leaves out sorts before every point it keeps. */
  lemma TrendOfDropsSmallest(bs: seq<MonthBucket>, b: MonthBucket)
    requires DistinctMonths(bs)
    requires b in bs
    requires forall p :: p in TrendOf(bs) ==> p.month != b.month
    ensures forall p :: p in TrendOf(bs) ==> StrLess(b.month, p.month)
  {
    var sorted, r := SortByMonth(bs), TrendOf(bs);
    SortByMonthAscending(bs);
    assert Ascending(sorted) && b in sorted;
    assert |sorted| == |bs| && |r| <= |bs|;
    assert forall i :: 0 <= i < |r| ==> r[i] == ToPoint(sorted[|bs| - |r| + i]);
    assert forall p :: p in r ==> p.month != b.month;
    SuffixDropsSmallest(sorted, |bs|, r, b);
  }

  /**
   * In an ascending `sorted`, a bucket missing from the points of a suffix
   * lies before that suffix, so its key is below every point's.
   */
  lemma SuffixDropsSmallest(sorted: seq<MonthBucket>, n: nat, r: seq<TrendPoint>, b: MonthBucket)
    requires Ascending(sorted) && b in sorted
    requires n == |sorted| && |r| <= n
    requires forall i :: 0 <= i < |r| ==> r[i] == ToPoint(sorted[n - |r| + i])
    requires forall p :: p in r ==> p.month != b.month
    ensures forall p :: p in r ==> StrLess(b.month, p.month)
  {
    var off := |sorted| - |r|;
    var s := FirstIndex(sorted, b);
    forall j | off <= j < |sorted| ensures sorted[j].month != b.month {
      assert r[j - off] in r && r[j - off] == ToPoint(sorted[j]);
    }
    assert s < off;
    forall p | p in r ensures StrLess(b.month, p.month) {
      var j :| 0 <= j < |r| && r[j] == p;
      assert p.month == sorted[off + j].month;
    }
  }

  /**
   * The trend has one point per month key up to six, strictly ascending by
   * key, each with its month's income and non-income sums and their
   * difference.
   */
  lemma TrendShape(ts: seq<Transaction>)
    ensures |MonthlyTrendOf(ts)| == if |Dedup(MonthKeys(ts))| < 6 then |Dedup(MonthKeys(ts))| else 6
    ensures forall i, j :: 0 <= i < j < |MonthlyTrendOf(ts)| ==>
      StrLess(MonthlyTrendOf(ts)[i].month, MonthlyTrendOf(ts)[j].month)
    ensures forall p :: p in MonthlyTrendOf(ts) ==>
      p.month in MonthKeys(ts) &&
      p.income == MonthIncome(ts, p.month) && p.expense == MonthExpense(ts, p.month) &&
      p.net == p.income - p.expense
  {
    MonthBucketsDistinct(ts);
    MonthBucketsContents(ts);
    TrendOfAscending(MonthBuckets(ts));
    TrendOfPoints(MonthBuckets(ts));
    forall p | p in MonthlyTrendOf(ts)
      ensures p.month in MonthKeys(ts)
      ensures p.income == MonthIncome(ts, p.month) && p.expense == MonthExpense(ts, p.month)
      ensures p.net == p.income - p.expense
    {
      var b :| b in MonthBuckets(ts) && p == ToPoint(b);
    }
  }

  /**
   * A month key of `ts` that the trend leaves out comes before every key
   * it keeps: only the oldest months are dropped.
   */
  lemma TrendKeepsNewest(ts: seq<Transaction>, k: string)
    requires k in MonthKeys(ts)
    requires forall p :: p in MonthlyTrendOf(ts) ==> p.month != k
    ensures forall p :: p in MonthlyTrendOf(ts) ==> StrLess(k, p.month)
  {
    MonthBucketsDistinct(ts);
    MonthBucketsContents(ts);
    var b :| b in MonthBuckets(ts) && b.month == k;
    TrendOfDropsSmallest(MonthBuckets(ts), b);
  }

  /**
   * With four-digit years and valid months, a transaction whose month the
   * trend leaves out is older than some transaction of every month the
   * trend shows.
   */
  lemma TrendDropsOlderMonths(ts: seq<Transaction>, t: Transaction)
    requires forall u :: u in ts ==> 1000 <= u.date.year <= 9999 && 1 <= u.date.month <= 12
    requires t in ts
    requires forall p :: p in MonthlyTrendOf(ts) ==> p.month != MonthKey(t.date)
    ensures forall p :: p in MonthlyTrendOf(ts) ==>
      exists u :: u in ts && MonthKey(u.date) == p.month && Older(t.date, u.date)
  {
    var k := MonthKey(t.date);
    var i :| 0 <= i < |ts| && ts[i] == t;
    assert MonthKeys(ts)[i] == k;
    TrendKeepsNewest(ts, k);
    TrendShape(ts);
    forall p | p in MonthlyTrendOf(ts)
      ensures exists u :: u in ts && MonthKey(u.date) == p.month && Older(t.date, u.date)
    {
      var j :| 0 <= j < |ts| && MonthKeys(ts)[j] == p.month;
      var u := ts[j];
      assert u in ts;
      MonthKeyOrder(t.date, u.date);
    }
  }

  // ---------------------------------------------------------------------
  // Recent transactions

  /** `transactions.slice(0, 5)`: the first five, or all when there are fewer. */
  function Recent(ts: seq<Transaction>): (r: seq<Transaction>)
    ensures |r| == if |ts| < 5 then |ts| else 5
    ensures forall i :: 0 <= i < |r| ==> r[i] == ts[i]
  {
    if |ts| < 5 then ts else ts[..5]
  }
}
