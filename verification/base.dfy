/** Small shared vocabulary: optional values, results, duplicate-free
    sequences, and sums over sequences together with the facts about
    them (concatenation and permutation) that the traversal proofs use. */
module Base {

  datatype Option<+T> = None | Some(value: T)

  datatype Result<+R, +E> = Success(value: R) | Failure(error: E)

  /** No element occurs twice (the keys of a dictionary, in iteration order). */
  ghost predicate NoDup<T>(s: seq<T>)
  {
    forall i, j :: 0 <= i < j < |s| ==> s[i] != s[j]
  }

  function Min(a: int, b: int): int
  {
    if a < b then a else b
  }

  /** The sum of `f` over the elements of `s`, front to back. */
  function SumOver<T>(f: T -> nat, s: seq<T>): nat
  {
    if s == [] then 0 else f(s[0]) + SumOver(f, s[1..])
  }

  function Identity(n: nat): nat
  {
    n
  }

  /** Python's `sum` over a list of object sizes. */
  function Sum(s: seq<nat>): nat
  {
    SumOver(Identity, s)
  }

  lemma {:induction false} SumOverConcat<T>(f: T -> nat, a: seq<T>, b: seq<T>)
    ensures SumOver(f, a + b) == SumOver(f, a) + SumOver(f, b)
    decreases |a|
  {
    if a == [] {
      assert a + b == b;
    } else {
      assert (a + b)[1..] == a[1..] + b;
      SumOverConcat(f, a[1..], b);
    }
  }

  lemma SumConcat(a: seq<nat>, b: seq<nat>)
    ensures Sum(a + b) == Sum(a) + Sum(b)
  {
    SumOverConcat(Identity, a, b);
  }

  /** Taking one element out of the middle of a sequence. */
  lemma SumOverRemove<T>(f: T -> nat, s: seq<T>, i: nat)
    requires i < |s|
    ensures SumOver(f, s) == f(s[i]) + SumOver(f, s[..i] + s[i + 1..])
  {
    assert s == s[..i] + s[i..];
    SumOverConcat(f, s[..i], s[i..]);
    SumOverConcat(f, s[..i], s[i + 1..]);
  }

  /** Taking one element out of a sequence takes it out of its multiset. */
  lemma RemoveAt<T>(s: seq<T>, i: nat)
    requires i < |s|
    ensures multiset(s[..i] + s[i + 1..]) == multiset(s) - multiset{s[i]}
  {
    assert s == s[..i] + [s[i]] + s[i + 1..];
  }

  /** Where the first element of a sequence sits in a permutation of it;
      the rest of each is a permutation of the rest of the other. */
  lemma Pick<T>(a: seq<T>, b: seq<T>) returns (i: nat)
    requires multiset(a) == multiset(b) && a != []
    ensures i < |b| && b[i] == a[0]
    ensures multiset(a[1..]) == multiset(b[..i] + b[i + 1..])
  {
    assert a[0] in multiset(a);
    assert a[0] in b;
    i :| 0 <= i < |b| && b[i] == a[0];
    RemoveAt(b, i);
    assert a == [a[0]] + a[1..];
  }

  /** A sum does not depend on the order of its terms. */
  lemma {:induction false} SumOverPermutation<T>(f: T -> nat, a: seq<T>, b: seq<T>)
    requires multiset(a) == multiset(b)
    ensures SumOver(f, a) == SumOver(f, b)
    decreases |a|
  {
    if a == [] {
      assert |multiset(b)| == 0;
    } else {
      var i := Pick(a, b);
      SumOverPermutation(f, a[1..], b[..i] + b[i + 1..]);
      SumOverRemove(f, b, i);
    }
  }
}
