/** The list operations the handlers of src/v1/routes/ai.js chain together:
    `reduce((sum, x) => sum + f(x), 0)`, `filter`, and `sort` by a numeric
    comparator `(a, b) => key(a) - key(b)`. */
module Aggregate {

  // ---------------------------------------------------------------------------
  // reduce: sums
  // ---------------------------------------------------------------------------

  /** `xs.reduce((sum, x) => sum + f(x), 0)`, adding from the left. */
  function SumOf<T>(xs: seq<T>, f: T -> int): int
    decreases |xs|
  {
    if xs == [] then 0 else SumOf(xs[..|xs| - 1], f) + f(xs[|xs| - 1])
  }

  lemma {:induction false} SumOfAppend<T>(a: seq<T>, b: seq<T>, f: T -> int)
    ensures SumOf(a + b, f) == SumOf(a, f) + SumOf(b, f)
    decreases |b|
  {
    if b != [] {
      assert (a + b)[..|a + b| - 1] == a + b[..|b| - 1];
      assert (a + b)[|a + b| - 1] == b[|b| - 1];
      SumOfAppend(a, b[..|b| - 1], f);
      assert SumOf(a + b, f) == SumOf(a + b[..|b| - 1], f) + f(b[|b| - 1]);
    } else {
      assert a + b == a;
    }
  }

  /** A sum does not depend on the order of the items: sorting a list before
      totalling it leaves the total as it is. */
  lemma {:induction false} SumOfPermutation<T>(a: seq<T>, b: seq<T>, f: T -> int)
    requires multiset(a) == multiset(b)
    ensures SumOf(a, f) == SumOf(b, f)
    decreases |a|
  {
    if a != [] {
      var x := a[|a| - 1];
      var a' := a[..|a| - 1];
      assert a == a' + [x];
      assert x in multiset(b);
      var j :| 0 <= j < |b| && b[j] == x;
      var b' := b[..j] + b[j + 1..];
      assert multiset(a') == multiset(b') by {
        assert b == b[..j] + [x] + b[j + 1..];
        assert multiset(b) == multiset(b') + multiset{x};
        assert multiset(a) == multiset(a') + multiset{x};
        assert multiset(b') == multiset(b) - multiset{x};
        assert multiset(a') == multiset(a) - multiset{x};
      }
      SumOfPermutation(a', b', f);
      assert b == (b[..j] + [x]) + b[j + 1..];
      SumOfAppend(b[..j] + [x], b[j + 1..], f);
      SumOfAppend(b[..j], [x], f);
      SumOfAppend(b[..j], b[j + 1..], f);
      assert SumOf([x], f) == f(x) by {
        assert [x][..0] == [];
      }
    }
  }

  lemma SumOfOne<T>(x: T, f: T -> int)
    ensures SumOf([x], f) == f(x)
  {
    assert [x][..0] == [];
  }

  /** A sum of values that are all at least zero is at least each of them. */
  lemma {:induction false} SumOfBounds<T>(xs: seq<T>, f: T -> int, i: nat)
    requires i < |xs|
    requires forall x :: x in xs ==> f(x) >= 0
    ensures 0 <= f(xs[i]) <= SumOf(xs, f)
    decreases |xs|
  {
    var n := |xs| - 1;
    SumOfNonNegative(xs[..n], f);
    if i < n {
      assert xs[..n][i] == xs[i];
      SumOfBounds(xs[..n], f, i);
    }
  }

  lemma {:induction false} SumOfNonNegative<T>(xs: seq<T>, f: T -> int)
    requires forall x :: x in xs ==> f(x) >= 0
    ensures SumOf(xs, f) >= 0
    decreases |xs|
  {
    if xs != [] {
      assert xs[|xs| - 1] in xs;
      SumOfNonNegative(xs[..|xs| - 1], f);
    }
  }

  // ---------------------------------------------------------------------------
  // filter
  // ---------------------------------------------------------------------------

  /** `xs.filter(p)`: the items satisfying `p`, in order. */
  function Filter<T(!new)>(xs: seq<T>, p: T -> bool): (r: seq<T>)
    ensures |r| <= |xs|
    ensures forall x :: x in r <==> x in xs && p(x)
    decreases |xs|
  {
    if xs == [] then []
    else
      var last := xs[|xs| - 1];
      assert xs == xs[..|xs| - 1] + [last];
      Filter(xs[..|xs| - 1], p) + (if p(last) then [last] else [])
  }

  /** The complement of a filter condition. */
  function Not<T>(p: T -> bool): T -> bool {
    x => !p(x)
  }

  /** The items kept and the items dropped by a filter together make up the
      total. */
  lemma {:induction false} SumOfFilterSplit<T(!new)>(xs: seq<T>, p: T -> bool, f: T -> int)
    ensures SumOf(xs, f) == SumOf(Filter(xs, p), f) + SumOf(Filter(xs, Not(p)), f)
    decreases |xs|
  {
    if xs != [] {
      var init := xs[..|xs| - 1];
      var last := xs[|xs| - 1];
      SumOfFilterSplit(init, p, f);
      var kept := if p(last) then [last] else [];
      var dropped := if !p(last) then [last] else [];
      SumOfAppend(Filter(init, p), kept, f);
      SumOfAppend(Filter(init, Not(p)), dropped, f);
      assert SumOf([last], f) == f(last) by {
        assert [last][..0] == [];
      }
    }
  }

  /** Items outside the filter add nothing when the filter drops only zeros. */
  lemma {:induction false} SumOfFilterZeros<T(!new)>(xs: seq<T>, p: T -> bool, f: T -> int)
    requires forall x :: x in xs && !p(x) ==> f(x) == 0
    ensures SumOf(Filter(xs, p), f) == SumOf(xs, f)
    decreases |xs|
  {
    if xs != [] {
      var init := xs[..|xs| - 1];
      var last := xs[|xs| - 1];
      assert forall x :: x in init ==> x in xs;
      SumOfFilterZeros(init, p, f);
      var kept := if p(last) then [last] else [];
      SumOfAppend(Filter(init, p), kept, f);
      assert SumOf([last], f) == f(last) by {
        assert [last][..0] == [];
      }
    }
  }

  /** Over values that are all at least zero, a filtered sum lies between
      zero and the whole sum. */
  lemma SumOfFilterAtMost<T(!new)>(xs: seq<T>, p: T -> bool, f: T -> int)
    requires forall x :: x in xs ==> f(x) >= 0
    ensures 0 <= SumOf(Filter(xs, p), f) <= SumOf(xs, f)
  {
    SumOfFilterSplit(xs, p, f);
    SumOfNonNegative(Filter(xs, p), f);
    SumOfNonNegative(Filter(xs, Not(p)), f);
  }

  // ---------------------------------------------------------------------------
  // sort by a numeric key
  // ---------------------------------------------------------------------------

  /** Non-decreasing in `key`: the order `sort((a, b) => key(a) - key(b))`
      produces. */
  predicate SortedBy<T>(xs: seq<T>, key: T -> int) {
    forall i, j :: 0 <= i < j < |xs| ==> key(xs[i]) <= key(xs[j])
  }

  /** Two items of a sorted list: both come from the input, in key order. */
  lemma SortedPair<T>(xs: seq<T>, key: T -> int, i: nat, j: nat)
    requires i < j < |SortBy(xs, key)|
    ensures var s := SortBy(xs, key);
            && s[i] in xs && s[j] in xs && key(s[i]) <= key(s[j])
  {
    var s := SortBy(xs, key);
    assert s[i] in multiset(xs) && s[j] in multiset(xs);
  }

  /** `x` inserted into a sorted list after every item whose key is not
      greater. */
  function Insert<T>(x: T, xs: seq<T>, key: T -> int): (r: seq<T>)
    requires SortedBy(xs, key)
    ensures SortedBy(r, key)
    ensures multiset(r) == multiset(xs) + multiset{x}
    decreases |xs|
  {
    if xs == [] then [x]
    else if key(x) < key(xs[0]) then
      InsertFront(x, xs, key);
      [x] + xs
    else
      var rest := Insert(x, xs[1..], key);
      InsertLater(x, xs, rest, key);
      [xs[0]] + rest
  }

  lemma SortedCons<T>(y: T, ys: seq<T>, key: T -> int)
    requires SortedBy(ys, key)
    requires forall z :: z in multiset(ys) ==> key(y) <= key(z)
    ensures SortedBy([y] + ys, key)
  {
    forall j | 0 <= j < |ys|
      ensures key(y) <= key(ys[j])
    {
      assert ys[j] in multiset(ys);
    }
  }

  lemma InsertFront<T>(x: T, xs: seq<T>, key: T -> int)
    requires SortedBy(xs, key) && xs != [] && key(x) < key(xs[0])
    ensures SortedBy([x] + xs, key)
  {
    forall z | z in multiset(xs)
      ensures key(x) <= key(z)
    {
      var j :| 0 <= j < |xs| && xs[j] == z;
    }
    SortedCons(x, xs, key);
  }

  lemma InsertLater<T>(x: T, xs: seq<T>, rest: seq<T>, key: T -> int)
    requires SortedBy(xs, key) && xs != [] && key(xs[0]) <= key(x)
    requires SortedBy(rest, key) && multiset(rest) == multiset(xs[1..]) + multiset{x}
    ensures SortedBy([xs[0]] + rest, key)
    ensures multiset([xs[0]] + rest) == multiset(xs) + multiset{x}
  {
    forall z | z in multiset(rest)
      ensures key(xs[0]) <= key(z)
    {
      if z != x {
        assert z in multiset(xs[1..]);
        var j :| 0 <= j < |xs[1..]| && xs[1..][j] == z;
        assert xs[j + 1] == z;
      }
    }
    SortedCons(xs[0], rest, key);
    assert xs == [xs[0]] + xs[1..];
  }

  /** The list sorted by `key`: a permutation of it in ascending key order. */
  function SortBy<T>(xs: seq<T>, key: T -> int): (r: seq<T>)
    ensures SortedBy(r, key)
    ensures multiset(r) == multiset(xs)
    ensures |r| == |xs|
    decreases |xs|
  {
    if xs == [] then []
    else
      assert xs == xs[..|xs| - 1] + [xs[|xs| - 1]];
      var r := Insert(xs[|xs| - 1], SortBy(xs[..|xs| - 1], key), key);
      assert |r| == |multiset(r)|;
      r
  }

  function Min(a: int, b: int): int {
    if a <= b then a else b
  }

  /** `xs.sort((a, b) => key(a) - key(b)).slice(0, n)`: the `n` items with
      the smallest keys, in key order. */
  function TakeSmallest<T>(xs: seq<T>, key: T -> int, n: nat): (r: seq<T>)
    ensures |r| == Min(n, |xs|)
    ensures SortedBy(r, key)
    ensures multiset(r) <= multiset(xs)
  {
    var s := SortBy(xs, key);
    var k := Min(n, |s|);
    assert s == s[..k] + s[k..];
    s[..k]
  }

  /** Every item left out has a key at least as large as every item kept. */
  lemma TakeSmallestLeftOut<T>(xs: seq<T>, key: T -> int, n: nat)
    ensures var r := TakeSmallest(xs, key, n);
            forall x, i :: x in multiset(xs) - multiset(r) && 0 <= i < |r| ==> key(r[i]) <= key(x)
  {
    var s := SortBy(xs, key);
    var k := Min(n, |s|);
    assert s == s[..k] + s[k..];
    LeftOutNotSmaller(s, key, k);
  }

  /** An item with a smaller key than one that is kept is kept too. */
  lemma SmallerIsTaken<T>(xs: seq<T>, key: T -> int, n: nat, x: T, i: nat)
    requires x in xs
    requires i < |TakeSmallest(xs, key, n)| && key(x) < key(TakeSmallest(xs, key, n)[i])
    ensures x in TakeSmallest(xs, key, n)
  {
    var r := TakeSmallest(xs, key, n);
    TakeSmallestLeftOut(xs, key, n);
    if x !in multiset(r) {
      assert false;
    }
  }

  lemma LeftOutNotSmaller<T>(s: seq<T>, key: T -> int, k: nat)
    requires SortedBy(s, key) && k <= |s|
    ensures forall x, i :: x in multiset(s[k..]) && 0 <= i < k ==> key(s[i]) <= key(x)
  {
    forall x, i | x in multiset(s[k..]) && 0 <= i < k
      ensures key(s[i]) <= key(x)
    {
      var j :| 0 <= j < |s[k..]| && s[k..][j] == x;
      assert s[k + j] == x;
    }
  }
}
