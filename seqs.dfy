/** Order-preserving sequence filtering, the model of JavaScript's
    `Array.prototype.filter`, with the facts the job store relies on. */
module Seqs {

  /** `r` can be obtained from `s` by deleting elements, keeping the order. */
  predicate IsSubsequence<T(==,!new)>(r: seq<T>, s: seq<T>)
    decreases |s|
  {
    if r == [] then true
    else if s == [] then false
    else if r[0] == s[0] then IsSubsequence(r[1..], s[1..])
    else IsSubsequence(r, s[1..])
  }

  /** No value occurs twice. */
  ghost predicate NoDup<T(!new)>(s: seq<T>)
  {
    forall x :: multiset(s)[x] <= 1
  }

  /** The elements of `s` that satisfy `p`, in their original order. The
      contract determines the result: it is a subsequence of `s`, it keeps
      every element satisfying `p` as often as `s` has it, and it keeps
      nothing else. */
  function Filter<T(==,!new)>(s: seq<T>, p: T -> bool): (r: seq<T>)
    ensures forall x {:trigger x in r} :: x in r <==> x in s && p(x)
    ensures forall x {:trigger multiset(r)[x]} :: p(x) ==> multiset(r)[x] == multiset(s)[x]
    ensures forall x {:trigger multiset(r)[x]} :: !p(x) ==> multiset(r)[x] == 0
    ensures IsSubsequence(r, s)
  {
    if s == [] then []
    else
      assert s == [s[0]] + s[1..];
      var rest := Filter(s[1..], p);
      if p(s[0]) then
        assert ([s[0]] + rest)[1..] == rest;
        [s[0]] + rest
      else rest
  }

  /** When every element passes, filtering changes nothing. */
  lemma {:induction false} FilterAll<T(!new)>(s: seq<T>, p: T -> bool)
    requires forall x :: x in s ==> p(x)
    ensures Filter(s, p) == s
  {
    if s != [] {
      assert s == [s[0]] + s[1..];
      FilterAll(s[1..], p);
    }
  }

  /** Filtering distributes over concatenation. */
  lemma {:induction false} FilterAppend<T(!new)>(a: seq<T>, b: seq<T>, p: T -> bool)
    ensures Filter(a + b, p) == Filter(a, p) + Filter(b, p)
  {
    if a == [] {
      assert a + b == b;
    } else {
      assert (a + b)[0] == a[0];
      assert (a + b)[1..] == a[1..] + b;
      FilterAppend(a[1..], b, p);
    }
  }

  /** Filtering keeps a sequence duplicate-free. */
  lemma FilterNoDup<T(!new)>(s: seq<T>, p: T -> bool)
    requires NoDup(s)
    ensures NoDup(Filter(s, p))
  {
    var r := Filter(s, p);
    forall x ensures multiset(r)[x] <= 1 {
      if p(x) { assert multiset(r)[x] == multiset(s)[x]; }
    }
  }

  /** Two predicates that agree on the elements give the same filter. */
  lemma {:induction false} FilterCongruent<T(!new)>(s: seq<T>, p: T -> bool, q: T -> bool)
    requires forall x :: x in s ==> p(x) == q(x)
    ensures Filter(s, p) == Filter(s, q)
  {
    if s != [] {
      assert forall x :: x in s[1..] ==> x in s;
      FilterCongruent(s[1..], p, q);
    }
  }
}
