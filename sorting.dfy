/** Python's `list.sort(key=..., reverse=True)`: a stable sort by decreasing key.
    Stability survives `reverse=True`, so elements with equal keys keep their order. */
module Sorting {

  ghost predicate SortedDesc<T>(xs: seq<T>, key: T -> int) {
    forall i, j :: 0 <= i < j < |xs| ==> key(xs[i]) >= key(xs[j])
  }

  /** The elements of `xs` whose key is `v`, in their order in `xs`. */
  function WithKey<T>(xs: seq<T>, key: T -> int, v: int): seq<T> {
    if xs == [] then []
    else (if key(xs[0]) == v then [xs[0]] else []) + WithKey(xs[1..], key, v)
  }

  /** `x` placed in the descending `xs` before the first element with a smaller key,
      so after every element with an equal key. */
  function InsertDesc<T>(x: T, xs: seq<T>, key: T -> int): seq<T> {
    if xs == [] then [x]
    else if key(xs[0]) < key(x) then [x] + xs
    else [xs[0]] + InsertDesc(x, xs[1..], key)
  }

  /** The sorted list, built by inserting the elements one by one in input order. */
  function SortDesc<T>(xs: seq<T>, key: T -> int): seq<T> {
    if xs == [] then [] else InsertDesc(xs[|xs| - 1], SortDesc(xs[..|xs| - 1], key), key)
  }

  lemma {:induction false} WithKeyAppend<T>(a: seq<T>, b: seq<T>, key: T -> int, v: int)
    ensures WithKey(a + b, key, v) == WithKey(a, key, v) + WithKey(b, key, v)
  {
    if a == [] {
      assert a + b == b;
    } else {
      var head: seq<T> := if key(a[0]) == v then [a[0]] else [];
      assert (a + b)[0] == a[0] && (a + b)[1..] == a[1..] + b;
      assert WithKey(a + b, key, v) == head + WithKey(a[1..] + b, key, v);
      WithKeyAppend(a[1..], b, key, v);
      assert WithKey(a, key, v) == head + WithKey(a[1..], key, v);
      assert head + (WithKey(a[1..], key, v) + WithKey(b, key, v))
          == (head + WithKey(a[1..], key, v)) + WithKey(b, key, v);
    }
  }

  lemma {:induction false} WithKeyNone<T>(xs: seq<T>, key: T -> int, v: int)
    requires forall i :: 0 <= i < |xs| ==> key(xs[i]) != v
    ensures WithKey(xs, key, v) == []
  {
    if xs != [] {
      WithKeyNone(xs[1..], key, v);
    }
  }

  ghost predicate AllAtMost<T>(xs: seq<T>, key: T -> int, bound: int) {
    forall i :: 0 <= i < |xs| ==> key(xs[i]) <= bound
  }

  lemma {:induction false} InsertDescBound<T>(x: T, xs: seq<T>, key: T -> int, bound: int)
    requires AllAtMost(xs, key, bound) && key(x) <= bound
    ensures AllAtMost(InsertDesc(x, xs, key), key, bound)
  {
    if xs != [] && key(xs[0]) >= key(x) {
      InsertDescBound(x, xs[1..], key, bound);
    }
  }

  lemma {:induction false} InsertDescSorted<T>(x: T, xs: seq<T>, key: T -> int)
    requires SortedDesc(xs, key)
    ensures SortedDesc(InsertDesc(x, xs, key), key)
  {
    if xs != [] && key(xs[0]) >= key(x) {
      var rest := InsertDesc(x, xs[1..], key);
      InsertDescSorted(x, xs[1..], key);
      InsertDescBound(x, xs[1..], key, key(xs[0]));
      var r := [xs[0]] + rest;
      assert forall j :: 1 <= j < |r| ==> r[j] == rest[j - 1];
    }
  }

  lemma {:induction false} InsertDescMultiset<T>(x: T, xs: seq<T>, key: T -> int)
    ensures multiset(InsertDesc(x, xs, key)) == multiset(xs) + multiset{x}
    ensures |InsertDesc(x, xs, key)| == |xs| + 1
  {
    if xs != [] {
      assert xs == [xs[0]] + xs[1..];
      if key(xs[0]) >= key(x) {
        InsertDescMultiset(x, xs[1..], key);
      }
    }
  }

  lemma SortedTail<T>(xs: seq<T>, key: T -> int)
    requires xs != [] && SortedDesc(xs, key)
    ensures SortedDesc(xs[1..], key) && AllAtMost(xs, key, key(xs[0]))
  {
    assert forall i :: 0 <= i < |xs| - 1 ==> xs[1..][i] == xs[i + 1];
  }

  lemma {:induction false} InsertDescWithKey<T>(x: T, xs: seq<T>, key: T -> int, v: int)
    requires SortedDesc(xs, key)
    ensures WithKey(InsertDesc(x, xs, key), key, v) == WithKey(xs, key, v) + (if key(x) == v then [x] else [])
  {
    var ex: seq<T> := if key(x) == v then [x] else [];
    if xs == [] {
      assert WithKey([x], key, v) == ex + WithKey([x][1..], key, v);
      assert [x][1..] == [];
    } else if key(xs[0]) < key(x) {
      var r := [x] + xs;
      assert r[0] == x && r[1..] == xs;
      assert WithKey(r, key, v) == ex + WithKey(xs, key, v);
      if key(x) == v {
        SortedTail(xs, key);
        WithKeyNone(xs, key, v);
      }
    } else {
      var rest := InsertDesc(x, xs[1..], key);
      SortedTail(xs, key);
      InsertDescWithKey(x, xs[1..], key, v);
      var r := [xs[0]] + rest;
      assert r[0] == xs[0] && r[1..] == rest;
      var e0: seq<T> := if key(xs[0]) == v then [xs[0]] else [];
      assert WithKey(r, key, v) == e0 + WithKey(rest, key, v);
      assert WithKey(xs, key, v) == e0 + WithKey(xs[1..], key, v);
    }
  }

  /** The sort orders by decreasing key. */
  lemma {:induction false} SortDescSorted<T>(xs: seq<T>, key: T -> int)
    ensures SortedDesc(SortDesc(xs, key), key)
    ensures multiset(SortDesc(xs, key)) == multiset(xs)
    ensures |SortDesc(xs, key)| == |xs|
  {
    if xs != [] {
      var prefix := xs[..|xs| - 1];
      SortDescSorted(prefix, key);
      InsertDescSorted(xs[|xs| - 1], SortDesc(prefix, key), key);
      InsertDescMultiset(xs[|xs| - 1], SortDesc(prefix, key), key);
      assert xs == prefix + [xs[|xs| - 1]];
    }
  }

  /** The sort is stable: for every key, the elements with that key come out in their
      input order. */
  lemma {:induction false} SortDescStable<T>(xs: seq<T>, key: T -> int, v: int)
    ensures WithKey(SortDesc(xs, key), key, v) == WithKey(xs, key, v)
  {
    if xs != [] {
      var prefix := xs[..|xs| - 1];
      var x := xs[|xs| - 1];
      SortDescStable(prefix, key, v);
      SortDescSorted(prefix, key);
      InsertDescWithKey(x, SortDesc(prefix, key), key, v);
      assert xs == prefix + [x];
      WithKeyAppend(prefix, [x], key, v);
      assert [x][1..] == [];
    }
  }

  // ---------------------------------------------------------------- sorted sets of strings

  /** Python's `<` on `str`: code point by code point, a proper prefix first. */
  predicate LexLess(a: string, b: string) {
    if a == [] then b != []
    else if b == [] then false
    else if a[0] != b[0] then a[0] < b[0]
    else LexLess(a[1..], b[1..])
  }

  lemma {:induction false} LexIrreflexive(a: string)
    ensures !LexLess(a, a)
  {
    if a != [] {
      LexIrreflexive(a[1..]);
    }
  }

  lemma {:induction false} LexTotal(a: string, b: string)
    requires a != b
    ensures LexLess(a, b) || LexLess(b, a)
  {
    if a != [] && b != [] && a[0] == b[0] {
      assert a == [a[0]] + a[1..] && b == [b[0]] + b[1..];
      LexTotal(a[1..], b[1..]);
    }
  }

  lemma {:induction false} LexTransitive(a: string, b: string, c: string)
    requires LexLess(a, b) && LexLess(b, c)
    ensures LexLess(a, c)
  {
    if a != [] && a[0] == b[0] && b[0] == c[0] {
      LexTransitive(a[1..], b[1..], c[1..]);
    }
  }

  /** Each element smaller than the next. */
  ghost predicate StrictlySorted(xs: seq<string>) {
    forall i :: 0 <= i < |xs| - 1 ==> LexLess(xs[i], xs[i + 1])
  }

  /** `x` added to the strictly sorted `xs` unless it is already there. */
  function InsertUnique(x: string, xs: seq<string>): seq<string> {
    if xs == [] then [x]
    else if x == xs[0] then xs
    else if LexLess(x, xs[0]) then [x] + xs
    else [xs[0]] + InsertUnique(x, xs[1..])
  }

  lemma {:induction false} InsertUniqueSorted(x: string, xs: seq<string>)
    requires StrictlySorted(xs)
    ensures StrictlySorted(InsertUnique(x, xs))
    ensures InsertUnique(x, xs) != []
    ensures InsertUnique(x, xs)[0] == x || (xs != [] && InsertUnique(x, xs)[0] == xs[0])
    ensures forall y :: y in InsertUnique(x, xs) <==> y == x || y in xs
  {
    if xs != [] && x != xs[0] && !LexLess(x, xs[0]) {
      var rest := InsertUnique(x, xs[1..]);
      assert StrictlySorted(xs[1..]) by {
        assert forall i :: 0 <= i < |xs| - 1 ==> xs[1..][i] == xs[i + 1];
      }
      InsertUniqueSorted(x, xs[1..]);
      LexTotal(x, xs[0]);
      var r := [xs[0]] + rest;
      assert forall i :: 1 <= i < |r| ==> r[i] == rest[i - 1];
      assert xs == [xs[0]] + xs[1..];
    }
  }

  /** `sorted(set(xs))`: the distinct elements of `xs` in increasing order. */
  function SortedUnique(xs: seq<string>): (r: seq<string>)
    ensures StrictlySorted(r)
    ensures forall y :: y in r <==> y in xs
  {
    if xs == [] then []
    else
      var prefix := xs[..|xs| - 1];
      var rest := SortedUnique(prefix);
      InsertUniqueSorted(xs[|xs| - 1], rest);
      assert xs == prefix + [xs[|xs| - 1]];
      InsertUnique(xs[|xs| - 1], rest)
  }

  /** A strictly sorted list holds no element twice. */
  lemma {:induction false} StrictlySortedDistinct(xs: seq<string>)
    requires StrictlySorted(xs)
    ensures forall i, j :: 0 <= i < j < |xs| ==> LexLess(xs[i], xs[j]) && xs[i] != xs[j]
  {
    if xs != [] {
      var t := xs[1..];
      assert StrictlySorted(t) by {
        assert forall i :: 0 <= i < |xs| - 1 ==> t[i] == xs[i + 1];
      }
      StrictlySortedDistinct(t);
      forall i, j | 0 <= i < j < |xs| ensures LexLess(xs[i], xs[j]) && xs[i] != xs[j] {
        if i == 0 {
          if j > 1 {
            assert xs[j] == t[j - 1] && xs[1] == t[0];
            LexTransitive(xs[0], xs[1], xs[j]);
          }
        } else {
          assert xs[i] == t[i - 1] && xs[j] == t[j - 1];
        }
        if xs[i] == xs[j] {
          LexIrreflexive(xs[i]);
        }
      }
    }
  }
}
