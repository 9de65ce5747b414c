// Sequence helpers shared by the aggregations: the first-seen distinct
// elements of a sequence, which is the key order of a JavaScript `Map`
// filled by a left-to-right loop.
module Seqs {

  predicate Distinct<T(==)>(s: seq<T>)
  {
    forall i, j :: 0 <= i < j < |s| ==> s[i] != s[j]
  }

  /** Index of the first occurrence of `x` in `s`. */
  function FirstIndex<T(==)>(s: seq<T>, x: T): (i: nat)
    requires x in s
    ensures i < |s| && s[i] == x
    ensures forall j :: 0 <= j < i ==> s[j] != x
  {
    if s[0] == x then 0 else 1 + FirstIndex(s[1..], x)
  }

  /** The distinct elements of `s`, each kept at its first occurrence. */
  function Dedup<T(==,!new)>(s: seq<T>): (d: seq<T>)
    ensures Distinct(d)
    ensures forall x :: x in d <==> x in s
    ensures |d| <= |s|
  {
    if s == [] then []
    else
      var d := Dedup(s[..|s| - 1]);
      if s[|s| - 1] in d then d else d + [s[|s| - 1]]
  }

  lemma FirstIndexOfPrefix<T>(p: seq<T>, q: seq<T>, x: T)
    requires x in p
    ensures FirstIndex(p + q, x) == FirstIndex(p, x)
  {
    var i := FirstIndex(p, x);
    assert (p + q)[i] == x;
    var k := FirstIndex(p + q, x);
    assert k <= i;
    assert p[k] == (p + q)[k];
  }

  /** Entries of `Dedup(s)` appear in the order of their first occurrence in `s`. */
  lemma {:induction false} DedupFirstSeenOrder<T(!new)>(s: seq<T>, i: nat, j: nat)
    requires i < j < |Dedup(s)|
    ensures FirstIndex(s, Dedup(s)[i]) < FirstIndex(s, Dedup(s)[j])
  {
    var p, y := s[..|s| - 1], s[|s| - 1];
    assert s == p + [y];
    var d := Dedup(p);
    if j < |d| {
      DedupFirstSeenOrder(p, i, j);
      assert Dedup(s)[i] == d[i] && Dedup(s)[j] == d[j];
      FirstIndexOfPrefix(p, [y], d[i]);
      FirstIndexOfPrefix(p, [y], d[j]);
    } else {
      assert Dedup(s) == d + [y] && Dedup(s)[j] == y && y !in p;
      assert Dedup(s)[i] == d[i] && d[i] in p;
      FirstIndexOfPrefix(p, [y], d[i]);
      assert FirstIndex(s, y) == |p| by {
        assert s[|p|] == y;
        forall k | 0 <= k < |p| ensures s[k] != y {
          assert s[k] == p[k];
        }
      }
    }
  }

  /** Appending an element extends `Dedup` exactly when the element is new. */
  lemma DedupSnoc<T(!new)>(s: seq<T>, y: T)
    ensures Dedup(s + [y]) == if y in s then Dedup(s) else Dedup(s) + [y]
  {
    assert (s + [y])[..|s + [y]| - 1] == s;
  }

  lemma TakeSnoc<T>(s: seq<T>, i: nat)
    requires i < |s|
    ensures s[..i + 1] == s[..i] + [s[i]]
  {
  }
}
