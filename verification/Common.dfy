/** Shared vocabulary: an optional value, and sums of multisets over sequences. */
module Common {
  datatype Option<+T> = None | Some(value: T)

  function Min(a: int, b: int): int {
    if a < b then a else b
  }

  /** `xs` without the element at position `i`. */
  function Without<T>(xs: seq<T>, i: nat): seq<T>
    requires i < |xs|
  {
    xs[..i] + xs[i + 1..]
  }

  /** `xs` with `x` put in at position `at`. */
  function InsertAt<T>(xs: seq<T>, at: nat, x: T): seq<T>
    requires at <= |xs|
  {
    xs[..at] + [x] + xs[at..]
  }

  lemma InsertAtMembers<T>(xs: seq<T>, at: nat, x: T)
    requires at <= |xs|
    ensures forall y :: y in InsertAt(xs, at, x) <==> y in xs || y == x
  {
    var ys := InsertAt(xs, at, x);
    assert ys[at] == x;
    forall y | y in xs ensures y in ys {
      var k :| 0 <= k < |xs| && xs[k] == y;
      assert ys[if k < at then k else k + 1] == y;
    }
  }

  /** Removing one of several different elements removes just that one. */
  lemma WithoutMembers<T>(xs: seq<T>, i: nat)
    requires i < |xs| && forall j, k :: 0 <= j < k < |xs| ==> xs[j] != xs[k]
    ensures forall y :: y in Without(xs, i) <==> y in xs && y != xs[i]
  {
    var ys := Without(xs, i);
    forall y | y in xs && y != xs[i] ensures y in ys {
      var k :| 0 <= k < |xs| && xs[k] == y;
      assert ys[if k < i then k else k - 1] == y;
    }
    forall y | y in ys ensures y in xs && y != xs[i] {
      var k :| 0 <= k < |ys| && ys[k] == y;
      assert y == xs[if k < i then k else k + 1];
    }
  }

  /** The sum of the weights of the elements of `xs`. */
  ghost function Sum<T(!new)>(weight: T -> multiset<nat>, xs: seq<T>): multiset<nat> {
    if xs == [] then multiset{} else Sum(weight, xs[..|xs| - 1]) + weight(xs[|xs| - 1])
  }

  lemma {:induction false} SumConcat<T(!new)>(weight: T -> multiset<nat>, xs: seq<T>, ys: seq<T>)
    ensures Sum(weight, xs + ys) == Sum(weight, xs) + Sum(weight, ys)
  {
    if ys == [] {
      assert xs + ys == xs;
    } else {
      var n := |ys| - 1;
      SumConcat(weight, xs, ys[..n]);
      assert (xs + ys)[..|xs + ys| - 1] == xs + ys[..n];
    }
  }

  lemma {:induction false} SumAppend<T(!new)>(weight: T -> multiset<nat>, xs: seq<T>, x: T)
    ensures Sum(weight, xs + [x]) == Sum(weight, xs) + weight(x)
  {
    assert (xs + [x])[..|xs|] == xs;
  }

  lemma {:induction false} SumWithout<T(!new)>(weight: T -> multiset<nat>, xs: seq<T>, i: nat)
    requires i < |xs|
    ensures Sum(weight, xs) == Sum(weight, Without(xs, i)) + weight(xs[i])
  {
    assert xs == xs[..i] + [xs[i]] + xs[i + 1..];
    SumConcat(weight, xs[..i] + [xs[i]], xs[i + 1..]);
    SumAppend(weight, xs[..i], xs[i]);
    SumConcat(weight, xs[..i], xs[i + 1..]);
  }

  lemma {:induction false} SumUpdate<T(!new)>(weight: T -> multiset<nat>, xs: seq<T>, i: nat, x: T)
    requires i < |xs|
    ensures Sum(weight, xs[i := x]) + weight(xs[i]) == Sum(weight, xs) + weight(x)
  {
    SumWithout(weight, xs, i);
    SumWithout(weight, xs[i := x], i);
    assert Without(xs[i := x], i) == Without(xs, i);
  }

  lemma {:induction false} SumElement<T(!new)>(weight: T -> multiset<nat>, xs: seq<T>, i: nat)
    requires i < |xs|
    ensures weight(xs[i]) <= Sum(weight, xs)
  {
    SumWithout(weight, xs, i);
  }

  lemma {:induction false} SumPair<T(!new)>(weight: T -> multiset<nat>, xs: seq<T>, i: nat, j: nat)
    requires i < j < |xs|
    ensures weight(xs[i]) + weight(xs[j]) <= Sum(weight, xs)
  {
    SumWithout(weight, xs, i);
    assert Without(xs, i)[j - 1] == xs[j];
    SumElement(weight, Without(xs, i), j - 1);
  }

  lemma {:induction false} SumZero<T(!new)>(weight: T -> multiset<nat>, xs: seq<T>)
    requires forall x :: x in xs ==> weight(x) == multiset{}
    ensures Sum(weight, xs) == multiset{}
  {
    if xs != [] {
      SumZero(weight, xs[..|xs| - 1]);
    }
  }
}
