/**
 * Generic operations on the in-memory tables: the filter a queryset applies,
 * the newest-first order and slicing of `order_by("-timestamp")[:n]`, and
 * lookups and uniqueness of primary keys.
 */
module Seqs {
  import opened Wrappers

  function Min(a: int, b: int): int { if a <= b then a else b }

  /** The rows of `s` that `keep` accepts, in table order (a queryset `filter`). */
  function Filter<T(==)>(s: seq<T>, keep: T -> bool): (r: seq<T>)
    ensures |r| <= |s|
    ensures forall i :: 0 <= i < |r| ==> keep(r[i])
  {
    if s == [] then []
    else if keep(s[0]) then [s[0]] + Filter(s[1..], keep)
    else Filter(s[1..], keep)
  }

  /** Exactly the accepted rows of `s` survive the filter. */
  lemma {:induction false} FilterMembers<T>(s: seq<T>, keep: T -> bool)
    ensures forall x :: x in Filter(s, keep) <==> x in s && keep(x)
    ensures forall i :: 0 <= i < |Filter(s, keep)| ==> Filter(s, keep)[i] in s
  {
    if s != [] {
      FilterMembers(s[1..], keep);
      assert forall x :: x in s <==> x == s[0] || x in s[1..];
    }
  }

  lemma {:induction false} FilterAppend<T>(a: seq<T>, b: seq<T>, keep: T -> bool)
    ensures Filter(a + b, keep) == Filter(a, keep) + Filter(b, keep)
  {
    if a == [] {
      assert a + b == b;
    } else {
      assert (a + b)[0] == a[0];
      assert (a + b)[1..] == a[1..] + b;
      FilterAppend(a[1..], b, keep);
    }
  }

  /** Filtering with two disjoint predicates splits a filter with their union. */
  lemma {:induction false} FilterSplitCount<T>(s: seq<T>, f: T -> bool, g: T -> bool, h: T -> bool)
    requires forall x :: x in s ==> h(x) == (f(x) || g(x)) && !(f(x) && g(x))
    ensures |Filter(s, f)| + |Filter(s, g)| == |Filter(s, h)|
  {
    if s != [] {
      assert s[0] in s;
      FilterSplitCount(s[1..], f, g, h);
    }
  }

  lemma {:induction false} FilterNone<T>(s: seq<T>, keep: T -> bool)
    requires forall i :: 0 <= i < |s| ==> !keep(s[i])
    ensures Filter(s, keep) == []
  {
    if s != [] {
      assert !keep(s[0]);
      FilterNone(s[1..], keep);
    }
  }

  /** A property every row has, every filtered row has. */
  lemma FilterAll<T>(s: seq<T>, keep: T -> bool, p: T -> bool)
    requires forall i :: 0 <= i < |s| ==> p(s[i])
    ensures forall i :: 0 <= i < |Filter(s, keep)| ==> p(Filter(s, keep)[i])
  {
    var r := Filter(s, keep);
    FilterMembers(s, keep);
    forall i | 0 <= i < |r| ensures p(r[i]) {
      assert r[i] in r;
    }
  }

  /** `a` is `b` with some elements left out, the others kept in order. */
  predicate IsSubsequence<T(==)>(a: seq<T>, b: seq<T>)
    decreases |b|
  {
    if a == [] then true
    else if b == [] then false
    else (a[0] == b[0] && IsSubsequence(a[1..], b[1..])) || IsSubsequence(a, b[1..])
  }

  lemma {:induction false} SubsequenceOfSelf<T>(s: seq<T>)
    ensures IsSubsequence(s, s)
  {
    if s != [] {
      SubsequenceOfSelf(s[1..]);
    }
  }

  lemma {:induction false} FilterIsSubsequence<T>(s: seq<T>, keep: T -> bool)
    ensures IsSubsequence(Filter(s, keep), s)
  {
    if s != [] {
      FilterIsSubsequence(s[1..], keep);
      if keep(s[0]) {
        assert ([s[0]] + Filter(s[1..], keep))[1..] == Filter(s[1..], keep);
      }
    }
  }

  /** The newest-first view of an insertion-ordered table. */
  function Reverse<T>(s: seq<T>): (r: seq<T>)
    ensures |r| == |s|
    ensures forall i :: 0 <= i < |s| ==> r[i] == s[|s| - 1 - i]
  {
    seq(|s|, i requires 0 <= i < |s| => s[|s| - 1 - i])
  }

  /** Reading the newest-first view backwards gives the table order again. */
  lemma ReverseReverse<T>(s: seq<T>)
    ensures Reverse(Reverse(s)) == s
  {
    var r := Reverse(Reverse(s));
    assert forall i :: 0 <= i < |s| ==> r[i] == s[i];
  }

  /** A queryset slice `[:n]`. */
  function Take<T>(s: seq<T>, n: nat): (r: seq<T>)
    ensures |r| == Min(n, |s|)
    ensures r == s[..|r|]
  {
    if |s| <= n then s else s[..n]
  }

  /** The first `n` of the newest-first view are the last `n` rows, in reverse. */
  lemma NewestAreLast<T>(s: seq<T>, n: nat)
    ensures Reverse(Take(Reverse(s), n)) == s[|s| - Min(n, |s|)..]
  {
    var k := Min(n, |s|);
    assert Take(Reverse(s), n) == Reverse(s)[..k];
    ReversePrefix(s, k);
  }

  lemma ReversePrefix<T>(s: seq<T>, k: nat)
    requires k <= |s|
    ensures Reverse(Reverse(s)[..k]) == s[|s| - k..]
  {
    var t := Reverse(s)[..k];
    var a := Reverse(t);
    var b := s[|s| - k..];
    forall i | 0 <= i < k ensures a[i] == b[i] {
      assert a[i] == t[k - 1 - i];
    }
  }

  /** The set of primary keys of a table. */
  function Keys<T>(s: seq<T>, key: T -> nat): set<nat>
  {
    set i | 0 <= i < |s| :: key(s[i])
  }

  /** No two rows share a primary key. */
  ghost predicate DistinctKeys<T>(s: seq<T>, key: T -> nat)
  {
    forall i, j :: 0 <= i < j < |s| ==> key(s[i]) != key(s[j])
  }

  /** The position of the row with primary key `k` (`objects.get(id=k)`). */
  function IndexOf<T>(s: seq<T>, key: T -> nat, k: nat): (r: Option<nat>)
    ensures r.Some? ==> r.value < |s| && key(s[r.value]) == k
    ensures r.None? <==> k !in Keys(s, key)
  {
    if s == [] then None
    else if key(s[0]) == k then Some(0)
    else
      var rest := IndexOf(s[1..], key, k);
      assert Keys(s, key) == {key(s[0])} + Keys(s[1..], key) by {
        forall x | x in Keys(s, key) ensures x in {key(s[0])} + Keys(s[1..], key) {
          var i :| 0 <= i < |s| && key(s[i]) == x;
          if i > 0 { assert key(s[1..][i - 1]) == x; }
        }
      }
      if rest.None? then None else Some(rest.value + 1)
  }

  lemma KeysAppend<T>(s: seq<T>, x: T, key: T -> nat)
    ensures Keys(s + [x], key) == Keys(s, key) + {key(x)}
  {
    forall y | y in Keys(s, key) ensures y in Keys(s + [x], key) {
      var i :| 0 <= i < |s| && key(s[i]) == y;
      assert (s + [x])[i] == s[i];
    }
    assert (s + [x])[|s|] == x;
  }

  lemma KeysUpdate<T>(s: seq<T>, i: nat, x: T, key: T -> nat)
    requires i < |s| && key(x) == key(s[i])
    ensures Keys(s[i := x], key) == Keys(s, key)
  {
    forall y | y in Keys(s, key) ensures y in Keys(s[i := x], key) {
      var j :| 0 <= j < |s| && key(s[j]) == y;
      assert key(s[i := x][j]) == y;
    }
  }

  lemma DistinctAppend<T>(s: seq<T>, x: T, key: T -> nat)
    requires DistinctKeys(s, key) && key(x) !in Keys(s, key)
    ensures DistinctKeys(s + [x], key)
  {
    forall i, j | 0 <= i < j < |s + [x]| ensures key((s + [x])[i]) != key((s + [x])[j]) {
      if j == |s| {
        assert key(s[i]) in Keys(s, key);
      }
    }
  }

  lemma DistinctUpdate<T>(s: seq<T>, i: nat, x: T, key: T -> nat)
    requires DistinctKeys(s, key) && i < |s| && key(x) == key(s[i])
    ensures DistinctKeys(s[i := x], key)
  {
  }

  /** Deleting rows keeps primary keys unique. */
  lemma {:induction false} DistinctFilter<T>(s: seq<T>, keep: T -> bool, key: T -> nat)
    requires DistinctKeys(s, key)
    ensures DistinctKeys(Filter(s, keep), key)
  {
    if s != [] {
      var t := Filter(s[1..], keep);
      DistinctFilter(s[1..], keep, key);
      if keep(s[0]) {
        var r := [s[0]] + t;
        FilterMembers(s[1..], keep);
        forall i, j | 0 <= i < j < |r| ensures key(r[i]) != key(r[j]) {
          if i == 0 {
            assert r[j] == t[j - 1] && t[j - 1] in s[1..];
            var k :| 0 <= k < |s[1..]| && s[1..][k] == r[j];
            assert s[k + 1] == r[j];
          } else {
            assert r[i] == t[i - 1] && r[j] == t[j - 1];
          }
        }
      }
    }
  }

  lemma KeysFilter<T>(s: seq<T>, keep: T -> bool, key: T -> nat, k: nat)
    requires exists i :: 0 <= i < |s| && key(s[i]) == k && keep(s[i])
    ensures k in Keys(Filter(s, keep), key)
  {
    var i :| 0 <= i < |s| && key(s[i]) == k && keep(s[i]);
    FilterMembers(s, keep);
    assert s[i] in Filter(s, keep);
    var j :| 0 <= j < |Filter(s, keep)| && Filter(s, keep)[j] == s[i];
  }

  /** With unique keys, looking a key up finds the one row that has it. */
  lemma IndexOfUnique<T>(s: seq<T>, key: T -> nat, i: nat)
    requires DistinctKeys(s, key) && i < |s|
    ensures IndexOf(s, key, key(s[i])) == Some(i)
  {
    var r := IndexOf(s, key, key(s[i]));
    assert key(s[i]) in Keys(s, key);
  }
}
