// The transaction list's view (components/TransactionList.tsx): keep the
// transactions of the chosen type, then sort that fresh array, newest or
// largest first. `Array.prototype.sort` is stable, so ties keep their order.
module TransactionList {
  import opened Types
  import opened Seqs
  import opened Ledger

  /** The `filter` state: every transaction, or those of one type. */
  datatype TypeFilter = All | Only(kind: TxType)

  /** The `sortBy` state. */
  datatype SortKey = ByDate | ByAmount

  /** `transactions.filter(t => filter === 'all' || t.type === filter)`. */
  function FilterTransactions(ts: seq<Transaction>, f: TypeFilter): (r: seq<Transaction>)
    ensures f == All ==> r == ts
    ensures f.Only? ==> forall t :: t in r <==> t in ts && t.kind == f.kind
    ensures f.Only? ==> forall i :: 0 <= i < |r| ==> r[i].kind == f.kind
    ensures f.Only? ==> forall t :: multiset(r)[t] == if t.kind == f.kind then multiset(ts)[t] else 0
    ensures |r| <= |ts|
  {
    match f
    case All => ts
    case Only(k) => OfTypeCounts(ts, k); OfType(ts, k)
  }

  /**
   * A calendar date as one number that orders like the date's time value:
   * `getTime()` of two valid dates compares as this does.
   */
  function DateKey(d: Date): int
  {
    d.year * 10000 + d.month * 100 + d.day
  }

  lemma DateKeyOrder(d1: Date, d2: Date)
    requires ValidDate(d1) && ValidDate(d2)
    ensures DateKey(d1) < DateKey(d2) <==>
      d1.year < d2.year || (d1.year == d2.year && (d1.month < d2.month || (d1.month == d2.month && d1.day < d2.day)))
  {
  }

  /** The number the comparator subtracts for the chosen order. */
  function Key(t: Transaction, sortBy: SortKey): int
  {
    match sortBy
    case ByDate => DateKey(t.date)
    case ByAmount => t.amount
  }

  /** Non-increasing by key: what a comparator of the form `key(b) - key(a)` sorts to. */
  predicate SortedDesc(s: seq<Transaction>, sortBy: SortKey)
  {
    forall i, j :: 0 <= i < j < |s| ==> Key(s[i], sortBy) >= Key(s[j], sortBy)
  }

  /** Inserts `x` after every element whose key is at least its own. */
  function InsertDesc(x: Transaction, s: seq<Transaction>, sortBy: SortKey): (r: seq<Transaction>)
    ensures |r| == |s| + 1
  {
    if s == [] then [x]
    else if Key(s[0], sortBy) < Key(x, sortBy) then [x] + s
    else [s[0]] + InsertDesc(x, s[1..], sortBy)
  }

  /**
   * The stable descending sort as a value: each element in turn is
   * inserted after the earlier ones whose key is at least its own.
   */
  function SortDesc(s: seq<Transaction>, sortBy: SortKey): (r: seq<Transaction>)
    ensures |r| == |s|
  {
    if s == [] then []
    else InsertDesc(s[|s| - 1], SortDesc(s[..|s| - 1], sortBy), sortBy)
  }

  /** Insertion adds `x` and loses nothing. */
  lemma {:induction false} InsertDescPermutation(x: Transaction, s: seq<Transaction>, sortBy: SortKey)
    ensures multiset(InsertDesc(x, s, sortBy)) == multiset(s) + multiset{x}
  {
    if s != [] && Key(s[0], sortBy) >= Key(x, sortBy) {
      assert s == [s[0]] + s[1..];
      InsertDescPermutation(x, s[1..], sortBy);
    }
  }

  /** Insertion into a non-increasing sequence keeps it non-increasing. */
  lemma {:induction false} InsertDescSorted(x: Transaction, s: seq<Transaction>, sortBy: SortKey)
    requires SortedDesc(s, sortBy)
    ensures SortedDesc(InsertDesc(x, s, sortBy), sortBy)
  {
    if s != [] && Key(s[0], sortBy) >= Key(x, sortBy) {
      var t := s[1..];
      assert forall m :: 0 <= m < |t| ==> t[m] == s[m + 1];
      InsertDescSorted(x, t, sortBy);
      InsertDescBelow(x, t, sortBy, Key(s[0], sortBy));
      ConsSorted(s[0], InsertDesc(x, t, sortBy), sortBy);
    }
  }

  /** A bound on every key survives insertion of an element within the bound. */
  lemma {:induction false} InsertDescBelow(x: Transaction, s: seq<Transaction>, sortBy: SortKey, k: int)
    requires Key(x, sortBy) <= k
    requires forall m :: 0 <= m < |s| ==> Key(s[m], sortBy) <= k
    ensures forall j :: 0 <= j < |InsertDesc(x, s, sortBy)| ==> Key(InsertDesc(x, s, sortBy)[j], sortBy) <= k
  {
    if s != [] && Key(s[0], sortBy) >= Key(x, sortBy) {
      var t := s[1..];
      assert forall m :: 0 <= m < |t| ==> t[m] == s[m + 1];
      InsertDescBelow(x, t, sortBy, k);
    }
  }

  lemma {:induction false} ConsSorted(h: Transaction, rest: seq<Transaction>, sortBy: SortKey)
    requires SortedDesc(rest, sortBy)
    requires forall j :: 0 <= j < |rest| ==> Key(rest[j], sortBy) <= Key(h, sortBy)
    ensures SortedDesc([h] + rest, sortBy)
  {
    var r := [h] + rest;
    forall i, j | 0 <= i < j < |r| ensures Key(r[i], sortBy) >= Key(r[j], sortBy) {
      assert r[j] == rest[j - 1];
      if i > 0 {
        assert r[i] == rest[i - 1];
      }
    }
  }

  /** The sort only reorders. */
  lemma {:induction false} SortDescPermutation(s: seq<Transaction>, sortBy: SortKey)
    ensures multiset(SortDesc(s, sortBy)) == multiset(s)
  {
    if s != [] {
      var p := s[..|s| - 1];
      assert s == p + [s[|s| - 1]];
      SortDescPermutation(p, sortBy);
      InsertDescPermutation(s[|s| - 1], SortDesc(p, sortBy), sortBy);
    }
  }

  /** The sort's result is non-increasing by key. */
  lemma {:induction false} SortDescSorted(s: seq<Transaction>, sortBy: SortKey)
    ensures SortedDesc(SortDesc(s, sortBy), sortBy)
  {
    if s != [] {
      SortDescSorted(s[..|s| - 1], sortBy);
      InsertDescSorted(s[|s| - 1], SortDesc(s[..|s| - 1], sortBy), sortBy);
    }
  }

  /** The elements of `s` whose key is `v`, in order. */
  function WithKey(s: seq<Transaction>, sortBy: SortKey, v: int): seq<Transaction>
  {
    if s == [] then []
    else
      var t := s[|s| - 1];
      WithKey(s[..|s| - 1], sortBy, v) + (if Key(t, sortBy) == v then [t] else [])
  }

  lemma {:induction false} WithKeyAppend(a: seq<Transaction>, b: seq<Transaction>, sortBy: SortKey, v: int)
    ensures WithKey(a + b, sortBy, v) == WithKey(a, sortBy, v) + WithKey(b, sortBy, v)
  {
    if b == [] {
      assert a + b == a;
    } else {
      assert (a + b)[..|a + b| - 1] == a + b[..|b| - 1];
      WithKeyAppend(a, b[..|b| - 1], sortBy, v);
    }
  }

  lemma {:induction false} WithKeyOne(t: Transaction, sortBy: SortKey, v: int)
    ensures WithKey([t], sortBy, v) == if Key(t, sortBy) == v then [t] else []
  {
    assert [t][..0] == [];
  }

  /** No element of a sorted sequence below a smaller first key has key `v`. */
  lemma {:induction false} WithKeyNone(s: seq<Transaction>, sortBy: SortKey, v: int)
    requires forall i :: 0 <= i < |s| ==> Key(s[i], sortBy) < v
    ensures WithKey(s, sortBy, v) == []
  {
    if s != [] {
      WithKeyNone(s[..|s| - 1], sortBy, v);
    }
  }

  /** Insertion keeps the order among equal keys: `x` joins its key's group last. */
  lemma {:induction false} InsertKeepsGroups(x: Transaction, s: seq<Transaction>, sortBy: SortKey, v: int)
    requires SortedDesc(s, sortBy)
    ensures WithKey(InsertDesc(x, s, sortBy), sortBy, v)
         == WithKey(s, sortBy, v) + (if Key(x, sortBy) == v then [x] else [])
  {
    var tail := if Key(x, sortBy) == v then [x] else [];
    WithKeyOne(x, sortBy, v);
    if s == [] {
      assert InsertDesc(x, s, sortBy) == [x];
      assert WithKey(s, sortBy, v) == [];
    } else if Key(s[0], sortBy) < Key(x, sortBy) {
      GroupsInFront(x, s, sortBy, v);
    } else {
      SortedTail(s, sortBy);
      InsertKeepsGroups(x, s[1..], sortBy, v);
      GroupsBehindHead(x, s, sortBy, v);
    }
  }

  /** When `x` goes behind the head, the head stays first of its group. */
  lemma {:induction false} GroupsBehindHead(x: Transaction, s: seq<Transaction>, sortBy: SortKey, v: int)
    requires s != [] && Key(s[0], sortBy) >= Key(x, sortBy)
    requires WithKey(InsertDesc(x, s[1..], sortBy), sortBy, v)
          == WithKey(s[1..], sortBy, v) + (if Key(x, sortBy) == v then [x] else [])
    ensures WithKey(InsertDesc(x, s, sortBy), sortBy, v)
         == WithKey(s, sortBy, v) + (if Key(x, sortBy) == v then [x] else [])
  {
    var t := s[1..];
    assert s == [s[0]] + t;
    assert InsertDesc(x, s, sortBy) == [s[0]] + InsertDesc(x, t, sortBy);
    WithKeyAppend([s[0]], InsertDesc(x, t, sortBy), sortBy, v);
    WithKeyAppend([s[0]], t, sortBy, v);
  }

  /** When `x` goes first, it is also first of its key's group. */
  lemma {:induction false} GroupsInFront(x: Transaction, s: seq<Transaction>, sortBy: SortKey, v: int)
    requires SortedDesc(s, sortBy) && s != [] && Key(s[0], sortBy) < Key(x, sortBy)
    ensures WithKey(InsertDesc(x, s, sortBy), sortBy, v)
         == WithKey(s, sortBy, v) + (if Key(x, sortBy) == v then [x] else [])
  {
    WithKeyOne(x, sortBy, v);
    assert InsertDesc(x, s, sortBy) == [x] + s;
    WithKeyAppend([x], s, sortBy, v);
    if Key(x, sortBy) == v {
      NoneAboveHead(s, sortBy, v);
    }
  }

  /** A sorted sequence has no element with a key above its head's. */
  lemma {:induction false} NoneAboveHead(s: seq<Transaction>, sortBy: SortKey, v: int)
    requires SortedDesc(s, sortBy) && s != [] && Key(s[0], sortBy) < v
    ensures WithKey(s, sortBy, v) == []
  {
    assert forall i :: 0 <= i < |s| ==> Key(s[i], sortBy) <= Key(s[0], sortBy);
    WithKeyNone(s, sortBy, v);
  }

  lemma {:induction false} SortedTail(s: seq<Transaction>, sortBy: SortKey)
    requires SortedDesc(s, sortBy) && s != []
    ensures SortedDesc(s[1..], sortBy)
  {
    forall i, j | 0 <= i < j < |s| - 1 ensures Key(s[1..][i], sortBy) >= Key(s[1..][j], sortBy) {
      assert s[1..][i] == s[i + 1] && s[1..][j] == s[j + 1];
    }
  }

  /** Stability: for every key, the elements with that key keep their order. */
  lemma {:induction false} SortDescStable(s: seq<Transaction>, sortBy: SortKey, v: int)
    ensures WithKey(SortDesc(s, sortBy), sortBy, v) == WithKey(s, sortBy, v)
  {
    if s != [] {
      var p, x := s[..|s| - 1], s[|s| - 1];
      SortDescStable(p, sortBy, v);
      SortDescSorted(p, sortBy);
      InsertKeepsGroups(x, SortDesc(p, sortBy), sortBy, v);
    }
  }

  /** `InsertDesc` places `x` right where the keys drop below its own. */
  lemma {:induction false} InsertAt(x: Transaction, s: seq<Transaction>, sortBy: SortKey, j: nat)
    requires j <= |s|
    requires forall m :: 0 <= m < j ==> Key(s[m], sortBy) >= Key(x, sortBy)
    requires forall m :: j <= m < |s| ==> Key(s[m], sortBy) < Key(x, sortBy)
    ensures InsertDesc(x, s, sortBy) == s[..j] + [x] + s[j..]
    decreases |s|, 1
  {
    if j == 0 {
      if s != [] {
        assert Key(s[0], sortBy) < Key(x, sortBy);
      }
      assert s[..0] + [x] + s[0..] == [x] + s;
    } else {
      InsertAtLater(x, s, sortBy, j);
    }
  }

  /** The case of `InsertAt` where `x` goes behind the head. */
  lemma {:induction false} InsertAtLater(x: Transaction, s: seq<Transaction>, sortBy: SortKey, j: nat)
    requires 0 < j <= |s|
    requires forall m :: 0 <= m < j ==> Key(s[m], sortBy) >= Key(x, sortBy)
    requires forall m :: j <= m < |s| ==> Key(s[m], sortBy) < Key(x, sortBy)
    ensures InsertDesc(x, s, sortBy) == s[..j] + [x] + s[j..]
    decreases |s|, 0
  {
    var t := s[1..];
    assert forall m :: 0 <= m < |t| ==> t[m] == s[m + 1];
    assert Key(s[0], sortBy) >= Key(x, sortBy);
    assert InsertDesc(x, s, sortBy) == [s[0]] + InsertDesc(x, t, sortBy);
    InsertAt(x, t, sortBy, j - 1);
    SplitAfterHead(s, j);
  }

  lemma {:induction false} SplitAfterHead(s: seq<Transaction>, j: nat)
    requires 0 < j <= |s|
    ensures s[..j] == [s[0]] + s[1..][..j - 1]
    ensures s[j..] == s[1..][j - 1..]
  {
  }

  /** The comparator-driven `.sort`, in place: a stable insertion sort. */
  method SortInPlace(a: array<Transaction>, sortBy: SortKey)
    modifies a
    ensures a[..] == SortDesc(old(a[..]), sortBy)
  {
    ghost var a0 := a[..];
    var i := 0;
    while i < a.Length
      invariant 0 <= i <= a.Length
      invariant a[..i] == SortDesc(a0[..i], sortBy)
      invariant a[i..] == a0[i..]
    {
      assert a[i] == a0[i];
      TakeSnoc(a0, i);
      SortDescSorted(a0[..i], sortBy);
      ShiftInto(a, i, sortBy);
      i := i + 1;
    }
    assert a[..] == a[..i] && a0 == a0[..i];
  }

  /** One pass of the insertion sort: moves `a[i]` into the sorted prefix `a[..i]`. */
  method ShiftInto(a: array<Transaction>, i: nat, sortBy: SortKey)
    requires i < a.Length && SortedDesc(a[..i], sortBy)
    modifies a
    ensures a[..i + 1] == InsertDesc(old(a[i]), old(a[..i]), sortBy)
    ensures a[i + 1..] == old(a[i + 1..])
  {
    ghost var a0 := a[..];
    ghost var sorted := a0[..i];
    var x := a[i];
    var j := OpenGap(a, i, sortBy);
    ghost var a1 := a[..];
    assert a1[i + 1..] == a0[i + 1..];
    a[j] := x;
    assert a[i + 1..] == a1[i + 1..];
    assert a[..] == a1[j := x];
    InsertionPoint(sorted, x, sortBy, j);
    InsertAt(x, sorted, sortBy, j);
    GapFilled(a1[j := x][..i + 1], sorted, x, j);
  }

  /**
   * Shifts the elements of `a[..i]` whose key is below `a[i]`'s one place
   * right, leaving a gap at `j` where `a[i]` belongs.
   */
  method OpenGap(a: array<Transaction>, i: nat, sortBy: SortKey) returns (j: nat)
    requires i < a.Length
    modifies a
    ensures j <= i
    ensures forall m :: 0 <= m < j ==> a[m] == old(a[m])
    ensures forall m :: j < m <= i ==> a[m] == old(a[m - 1])
    ensures forall m :: i < m < a.Length ==> a[m] == old(a[m])
    ensures forall m :: j <= m < i ==> Key(old(a[m]), sortBy) < Key(old(a[i]), sortBy)
    ensures j > 0 ==> Key(old(a[j - 1]), sortBy) >= Key(old(a[i]), sortBy)
  {
    ghost var a0 := a[..];
    var x := a[i];
    j := i;
    while j > 0 && Key(a[j - 1], sortBy) < Key(x, sortBy)
      invariant 0 <= j <= i
      invariant forall m :: 0 <= m < j ==> a[m] == a0[m]
      invariant forall m :: j < m <= i ==> a[m] == a0[m - 1]
      invariant forall m :: i < m < a.Length ==> a[m] == a0[m]
      invariant forall m :: j <= m < i ==> Key(a0[m], sortBy) < Key(x, sortBy)
    {
      a[j] := a[j - 1];
      j := j - 1;
    }
  }

  /** The shifted prefix with `x` written into the gap is the insertion. */
  lemma {:induction false} GapFilled(b: seq<Transaction>, sorted: seq<Transaction>, x: Transaction, j: nat)
    requires |b| == |sorted| + 1 && j < |b|
    requires forall m :: 0 <= m < j ==> b[m] == sorted[m]
    requires b[j] == x
    requires forall m :: j < m < |b| ==> b[m] == sorted[m - 1]
    ensures b == sorted[..j] + [x] + sorted[j..]
  {
  }

  /** Where the shifting stops, every earlier key is at least `x`'s. */
  lemma {:induction false} InsertionPoint(sorted: seq<Transaction>, x: Transaction, sortBy: SortKey, j: nat)
    requires SortedDesc(sorted, sortBy) && j <= |sorted|
    requires j > 0 ==> Key(sorted[j - 1], sortBy) >= Key(x, sortBy)
    ensures forall m :: 0 <= m < j ==> Key(sorted[m], sortBy) >= Key(x, sortBy)
  {
  }

  /** `filteredTransactions`: filter into a fresh array, then sort that array. */
  method FilteredTransactions(ts: seq<Transaction>, f: TypeFilter, sortBy: SortKey) returns (r: seq<Transaction>)
    ensures r == SortDesc(FilterTransactions(ts, f), sortBy)
  {
    var kept := FilterTransactions(ts, f);
    var a := new Transaction[|kept|](i requires 0 <= i < |kept| => kept[i]);
    assert a[..] == kept;
    SortInPlace(a, sortBy);
    r := a[..];
  }

  /**
   * The view is the filtered transactions in another order, non-increasing
   * by the chosen key, with ties in their original order.
   */
  lemma {:induction false} ViewShape(ts: seq<Transaction>, f: TypeFilter, sortBy: SortKey, v: int)
    ensures multiset(SortDesc(FilterTransactions(ts, f), sortBy)) == multiset(FilterTransactions(ts, f))
    ensures forall i, j :: 0 <= i < j < |SortDesc(FilterTransactions(ts, f), sortBy)| ==>
      Key(SortDesc(FilterTransactions(ts, f), sortBy)[i], sortBy) >= Key(SortDesc(FilterTransactions(ts, f), sortBy)[j], sortBy)
    ensures WithKey(SortDesc(FilterTransactions(ts, f), sortBy), sortBy, v) == WithKey(FilterTransactions(ts, f), sortBy, v)
  {
    SortDescPermutation(FilterTransactions(ts, f), sortBy);
    SortDescSorted(FilterTransactions(ts, f), sortBy);
    SortDescStable(FilterTransactions(ts, f), sortBy, v);
  }

  /**
   * Filtering and picking one key's group commute: under a type filter the
   * transactions sharing a key keep the order they have in the input.
   */
  lemma {:induction false} FilteredTies(ts: seq<Transaction>, k: TxType, sortBy: SortKey, v: int)
    ensures WithKey(OfType(ts, k), sortBy, v) == OfType(WithKey(ts, sortBy, v), k)
  {
    if ts != [] {
      var p, t := ts[..|ts| - 1], ts[|ts| - 1];
      var lastOf := if t.kind == k then [t] else [];
      var lastKey := if Key(t, sortBy) == v then [t] else [];
      assert OfType(ts, k) == OfType(p, k) + lastOf;
      assert WithKey(ts, sortBy, v) == WithKey(p, sortBy, v) + lastKey;
      FilteredTies(p, k, sortBy, v);
      WithKeyAppend(OfType(p, k), lastOf, sortBy, v);
      WithKeyOne(t, sortBy, v);
      assert WithKey([], sortBy, v) == [];
      OfTypeAppend(WithKey(p, sortBy, v), lastKey, k);
      assert lastKey == [t] ==> OfType(lastKey, k) == lastOf by {
        assert [t][..0] == [];
      }
    }
  }

  /** With the filter `all`, every transaction is shown, once each. */
  lemma {:induction false} ViewAll(ts: seq<Transaction>, sortBy: SortKey)
    ensures |SortDesc(FilterTransactions(ts, All), sortBy)| == |ts|
    ensures multiset(SortDesc(FilterTransactions(ts, All), sortBy)) == multiset(ts)
  {
    SortDescPermutation(ts, sortBy);
  }

  /** With a type filter, the view shows exactly the transactions of that type. */
  lemma {:induction false} ViewOnly(ts: seq<Transaction>, k: TxType, sortBy: SortKey)
    ensures forall t :: t in SortDesc(FilterTransactions(ts, Only(k)), sortBy) <==> t in ts && t.kind == k
  {
    var r := SortDesc(FilterTransactions(ts, Only(k)), sortBy);
    SortDescPermutation(OfType(ts, k), sortBy);
    forall t ensures t in r <==> t in ts && t.kind == k {
      assert t in r <==> t in multiset(r);
      assert t in OfType(ts, k) <==> t in multiset(OfType(ts, k));
    }
  }

  /** The list's view state: the type filter and the sort order. */
  class ListView {
    var filter: TypeFilter
    var sortBy: SortKey

    /** The view opens on every transaction, newest first. */
    constructor ()
      ensures filter == All && sortBy == ByDate
    {
      filter := All;
      sortBy := ByDate;
    }

    method SetFilter(f: TypeFilter)
      modifies this
      ensures filter == f && sortBy == old(sortBy)
    {
      filter := f;
    }

    method SetSortBy(s: SortKey)
      modifies this
      ensures sortBy == s && filter == old(filter)
    {
      sortBy := s;
    }

    /** What the list shows for `transactions` in the current state. */
    method Shown(ts: seq<Transaction>) returns (r: seq<Transaction>)
      ensures r == SortDesc(FilterTransactions(ts, filter), sortBy)
    {
      r := FilteredTransactions(ts, filter, sortBy);
    }
  }
}
