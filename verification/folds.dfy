/** Sums over sequences, the shape of every `reduce((total, item) => total + f(item), 0)`
    in the storefront's cart code. */
module Folds {

  /** Left fold of `f` over `s` starting at 0, peeled from the last element
      so that appending is one unfolding. */
  function Sum<T>(s: seq<T>, f: T -> int): int
    decreases |s|
  {
    if |s| == 0 then 0 else Sum(s[..|s| - 1], f) + f(s[|s| - 1])
  }

  lemma {:induction false} SumAppend<T>(s: seq<T>, x: T, f: T -> int)
    ensures Sum(s + [x], f) == Sum(s, f) + f(x)
  {
    assert (s + [x])[..|s|] == s;
  }

  /** Summing a concatenation sums the parts. */
  lemma {:induction false} SumConcat<T>(a: seq<T>, b: seq<T>, f: T -> int)
    ensures Sum(a + b, f) == Sum(a, f) + Sum(b, f)
    decreases |b|
  {
    if |b| == 0 {
      assert a + b == a;
    } else {
      var init, last := b[..|b| - 1], b[|b| - 1];
      assert b == init + [last];
      assert a + b == (a + init) + [last];
      SumConcat(a, init, f);
      SumAppend(a + init, last, f);
      SumAppend(init, last, f);
    }
  }

  /** Dropping the element at `i` takes exactly its term out of the sum. */
  lemma SumRemoveAt<T>(s: seq<T>, i: int, f: T -> int)
    requires 0 <= i < |s|
    ensures Sum(s[..i] + s[i + 1..], f) == Sum(s, f) - f(s[i])
  {
    assert s == s[..i] + ([s[i]] + s[i + 1..]);
    SumConcat(s[..i], [s[i]] + s[i + 1..], f);
    SumConcat([s[i]], s[i + 1..], f);
    SumConcat(s[..i], s[i + 1..], f);
    assert Sum([s[i]], f) == f(s[i]) by {
      assert [s[i]] == [] + [s[i]];
      SumAppend([], s[i], f);
    }
  }

  /** Replacing the element at `i` changes the sum by that element's term
      alone: every other term is untouched. */
  lemma SumUpdate<T>(s: seq<T>, i: int, x: T, f: T -> int)
    requires 0 <= i < |s|
    ensures Sum(s[i := x], f) == Sum(s, f) - f(s[i]) + f(x)
  {
    var t := s[i := x];
    SumRemoveAt(s, i, f);
    SumRemoveAt(t, i, f);
    assert t[..i] + t[i + 1..] == s[..i] + s[i + 1..];
  }

  /** A sum of non-negative terms is non-negative. */
  lemma {:induction false} SumNonNegative<T>(s: seq<T>, f: T -> int)
    requires forall i :: 0 <= i < |s| ==> f(s[i]) >= 0
    ensures Sum(s, f) >= 0
    decreases |s|
  {
    if |s| > 0 {
      SumNonNegative(s[..|s| - 1], f);
    }
  }

  /** The running-total loop that `Array.prototype.reduce` performs. */
  method Reduce<T>(s: seq<T>, f: T -> int) returns (total: int)
    ensures total == Sum(s, f)
  {
    total := 0;
    var k := 0;
    while k < |s|
      invariant 0 <= k <= |s|
      invariant total == Sum(s[..k], f)
    {
      assert s[..k + 1] == s[..k] + [s[k]];
      SumAppend(s[..k], s[k], f);
      total := total + f(s[k]);
      k := k + 1;
    }
    assert s[..k] == s;
  }
}
