/** Order-preserving selection from a sequence: `IsSubsequence(sub, s)` holds when
    `sub` is obtained from `s` by deleting elements, not necessarily contiguous ones. */
module Seqs {

  predicate IsSubsequence<T(==)>(sub: seq<T>, s: seq<T>) {
    if sub == [] then true
    else if s == [] then false
    else if sub[0] == s[0] then IsSubsequence(sub[1..], s[1..])
    else IsSubsequence(sub, s[1..])
  }

  lemma {:induction false} SubsequenceDropHead<T>(sub: seq<T>, s: seq<T>)
    requires sub != [] && IsSubsequence(sub, s)
    ensures IsSubsequence(sub[1..], s)
    decreases |s|
  {
    if sub[0] == s[0] {
      SubsequenceSkip(sub[1..], s);
    } else {
      SubsequenceDropHead(sub, s[1..]);
      SubsequenceSkip(sub[1..], s);
    }
  }

  /** Deleting one more element of `s` keeps a subsequence a subsequence of `s`. */
  lemma {:induction false} SubsequenceSkip<T>(sub: seq<T>, s: seq<T>)
    requires s != [] && IsSubsequence(sub, s[1..])
    ensures IsSubsequence(sub, s)
    decreases |s|, 0
  {
    if sub != [] && sub[0] == s[0] {
      SubsequenceDropHead(sub, s[1..]);
    }
  }

  lemma {:induction false} SubsequenceCons<T>(x: T, sub: seq<T>, s: seq<T>)
    requires IsSubsequence(sub, s)
    ensures IsSubsequence([x] + sub, [x] + s)
  {
    assert ([x] + sub)[1..] == sub;
    assert ([x] + s)[1..] == s;
  }

  lemma {:induction false} SubsequenceRefl<T>(s: seq<T>)
    ensures IsSubsequence(s, s)
  {
    if s != [] {
      SubsequenceRefl(s[1..]);
    }
  }

  /** Appending the same element to both sides keeps the relation. */
  lemma {:induction false} SubsequenceSnoc<T>(sub: seq<T>, s: seq<T>, x: T)
    requires IsSubsequence(sub, s)
    ensures IsSubsequence(sub + [x], s + [x])
    decreases |s|
  {
    if sub == [] {
      if s == [] {
        assert IsSubsequence<T>([], []);
      } else {
        SubsequenceOfSingleton(s, x);
        assert sub + [x] == [x];
      }
    } else {
      assert s != [];
      assert (sub + [x])[0] == sub[0] && (sub + [x])[1..] == sub[1..] + [x];
      assert (s + [x])[0] == s[0] && (s + [x])[1..] == s[1..] + [x];
      if sub[0] == s[0] {
        SubsequenceSnoc(sub[1..], s[1..], x);
      } else {
        SubsequenceSnoc(sub, s[1..], x);
      }
    }
  }

  lemma {:induction false} SubsequenceOfSingleton<T>(s: seq<T>, x: T)
    ensures IsSubsequence([x], s + [x])
    decreases |s|
  {
    if s != [] {
      assert (s + [x])[1..] == s[1..] + [x];
      SubsequenceOfSingleton(s[1..], x);
      if x == s[0] {
        assert IsSubsequence<T>([], (s + [x])[1..]);
      }
    }
  }

  /** Appending an element to the larger side only keeps the relation. */
  lemma {:induction false} SubsequenceExtend<T>(sub: seq<T>, s: seq<T>, x: T)
    requires IsSubsequence(sub, s)
    ensures IsSubsequence(sub, s + [x])
    decreases |s|
  {
    if sub != [] {
      assert s != [];
      assert (s + [x])[0] == s[0] && (s + [x])[1..] == s[1..] + [x];
      if sub[0] == s[0] {
        SubsequenceExtend(sub[1..], s[1..], x);
      } else {
        SubsequenceExtend(sub, s[1..], x);
      }
    }
  }

  /** Everything in a subsequence comes from the sequence. */
  lemma {:induction false} SubsequenceMembers<T>(sub: seq<T>, s: seq<T>)
    requires IsSubsequence(sub, s)
    ensures forall x :: x in sub ==> x in s
    decreases |s|
  {
    if sub != [] {
      if sub[0] == s[0] {
        SubsequenceMembers(sub[1..], s[1..]);
        forall x | x in sub ensures x in s {
          if x != sub[0] {
            assert x in sub[1..];
          }
        }
      } else {
        SubsequenceMembers(sub, s[1..]);
      }
    }
  }

  /** The index of the first element satisfying `p`, or `|xs|` when there is none. */
  function FirstIndex<T>(xs: seq<T>, p: T -> bool): (i: nat)
    ensures i <= |xs|
    ensures i < |xs| ==> p(xs[i])
    ensures forall j :: 0 <= j < i ==> !p(xs[j])
  {
    if xs == [] then 0
    else if p(xs[0]) then 0
    else 1 + FirstIndex(xs[1..], p)
  }

  /** No two elements of `s` share their `f`-value. */
  ghost predicate DistinctBy<T, K>(s: seq<T>, f: T -> K) {
    forall i, j :: 0 <= i < j < |s| ==> f(s[i]) != f(s[j])
  }

  lemma {:induction false} SubsequenceDistinctBy<T, K>(sub: seq<T>, s: seq<T>, f: T -> K)
    requires IsSubsequence(sub, s) && DistinctBy(s, f)
    ensures DistinctBy(sub, f)
    decreases |s|
  {
    if sub != [] {
      assert forall i :: 0 <= i < |s| - 1 ==> s[1..][i] == s[i + 1];
      if sub[0] == s[0] {
        SubsequenceDistinctBy(sub[1..], s[1..], f);
        SubsequenceMembers(sub[1..], s[1..]);
        forall i, j | 0 <= i < j < |sub| ensures f(sub[i]) != f(sub[j]) {
          assert sub[j] == sub[1..][j - 1];
          if i == 0 {
            assert sub[j] in s[1..];
          } else {
            assert sub[i] == sub[1..][i - 1];
          }
        }
      } else {
        SubsequenceDistinctBy(sub, s[1..], f);
      }
    }
  }

  /** A slice of a slice is a slice. */
  lemma SliceOfSlice<T>(s: seq<T>, i: nat, j: nat, a: nat, b: nat)
    requires i <= j <= |s| && a <= b <= j - i
    ensures s[i..j][a..b] == s[i + a..i + b]
  {
    forall x | 0 <= x < b - a
      ensures s[i..j][a..b][x] == s[i + a..i + b][x]
    {
      assert s[i..j][a..b][x] == s[i..j][a + x] == s[i + a + x];
    }
  }

  /** A slice that falls inside the middle part of a concatenation. */
  lemma SliceInMiddle<T>(a: seq<T>, b: seq<T>, c: seq<T>, x: nat, n: nat)
    requires x + n <= |b|
    ensures (a + b + c)[|a| + x..|a| + x + n] == b[x..x + n]
  {
    var whole := a + b + c;
    assert whole[..|a| + |b|] == a + b;
    assert (a + b)[|a|..] == b;
    SliceOfSlice(whole, 0, |a| + |b|, |a|, |a| + |b|);
    SliceOfSlice(whole, |a|, |a| + |b|, x, x + n);
  }

  /** The concatenation of `f(x)` over the elements `x` of `xs`, in order. */
  function Flatten<T, U>(xs: seq<T>, f: T -> seq<U>): seq<U> {
    if xs == [] then []
    else Flatten(xs[..|xs| - 1], f) + f(xs[|xs| - 1])
  }

  /** Flattening a concatenation flattens its parts one after the other. */
  lemma {:induction false} FlattenAppend<T, U>(a: seq<T>, b: seq<T>, f: T -> seq<U>)
    ensures Flatten(a + b, f) == Flatten(a, f) + Flatten(b, f)
    decreases |b|
  {
    if b == [] {
      assert a + b == a;
    } else {
      var front := b[..|b| - 1];
      assert (a + b)[..|a + b| - 1] == a + front;
      assert (a + b)[|a + b| - 1] == b[|b| - 1];
      FlattenAppend(a, front, f);
    }
  }

  /** The flattening of `xs` holds `f(xs[i])` right after the flattening of the elements
      before it. */
  lemma FlattenAt<T, U>(xs: seq<T>, f: T -> seq<U>, i: nat)
    requires i < |xs|
    ensures Flatten(xs, f) == Flatten(xs[..i], f) + f(xs[i]) + Flatten(xs[i + 1..], f)
  {
    FlattenSplit(xs, f, i);
    var rest := xs[i..];
    FlattenCons(rest, f);
    assert rest[0] == xs[i] && rest[1..] == xs[i + 1..];
  }

  lemma FlattenSplit<T, U>(xs: seq<T>, f: T -> seq<U>, i: nat)
    requires i <= |xs|
    ensures Flatten(xs, f) == Flatten(xs[..i], f) + Flatten(xs[i..], f)
  {
    assert xs[..i] + xs[i..] == xs;
    FlattenAppend(xs[..i], xs[i..], f);
  }

  lemma FlattenCons<T, U>(xs: seq<T>, f: T -> seq<U>)
    requires xs != []
    ensures Flatten(xs, f) == f(xs[0]) + Flatten(xs[1..], f)
  {
    assert [xs[0]] + xs[1..] == xs;
    FlattenAppend([xs[0]], xs[1..], f);
    FlattenOne(xs[0], f);
  }

  /** Extending a prefix by one element extends its flattening by that element's part. */
  lemma FlattenPrefixStep<T, U>(xs: seq<T>, f: T -> seq<U>, i: nat)
    requires i < |xs|
    ensures Flatten(xs[..i + 1], f) == Flatten(xs[..i], f) + f(xs[i])
  {
    var p := xs[..i + 1];
    assert p[..|p| - 1] == xs[..i] && p[|p| - 1] == xs[i];
  }

  lemma FlattenOne<T, U>(x: T, f: T -> seq<U>)
    ensures Flatten([x], f) == f(x)
  {
    var one := [x];
    assert one[..|one| - 1] == [];
    assert Flatten(one, f) == Flatten([], f) + f(x);
  }
}
