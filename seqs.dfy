/** The array operations the pages use, as functions on sequences:
    `Array.prototype.filter`, the length of a filter (badge counts) and
    `slice(0, k)` with a "+N more" remainder. */
module Seqs {

  /** `s.filter(p)`: the elements satisfying `p`, in their original order. */
  function Filter<T>(s: seq<T>, p: T -> bool): (r: seq<T>)
    ensures |r| <= |s|
    ensures forall i :: 0 <= i < |r| ==> p(r[i])
  {
    if s == [] then []
    else if p(s[0]) then [s[0]] + Filter(s[1..], p)
    else Filter(s[1..], p)
  }

  /** An element is kept exactly when it occurs in the input and satisfies
      the predicate. */
  lemma {:induction false} FilterMembership<T>(s: seq<T>, p: T -> bool)
    ensures forall x :: x in Filter(s, p) <==> x in s && p(x)
  {
    if s != [] {
      FilterMembership(s[1..], p);
      assert forall x :: x in s <==> x == s[0] || x in s[1..];
    }
  }

  /** Filtering distributes over concatenation, so the order of the kept
      elements is the order of the input. */
  lemma {:induction false} FilterAppend<T>(a: seq<T>, b: seq<T>, p: T -> bool)
    ensures Filter(a + b, p) == Filter(a, p) + Filter(b, p)
  {
    if a != [] {
      assert (a + b)[0] == a[0] && (a + b)[1..] == a[1..] + b;
      FilterAppend(a[1..], b, p);
      if p(a[0]) {
        assert Filter(a + b, p) == [a[0]] + Filter(a[1..] + b, p);
        assert Filter(a, p) == [a[0]] + Filter(a[1..], p);
      } else {
        assert Filter(a + b, p) == Filter(a[1..] + b, p);
        assert Filter(a, p) == Filter(a[1..], p);
      }
    } else {
      assert a + b == b;
    }
  }

  /** A filter that every element passes keeps the whole sequence. */
  lemma {:induction false} FilterKeepsAll<T>(s: seq<T>, p: T -> bool)
    requires forall i :: 0 <= i < |s| ==> p(s[i])
    ensures Filter(s, p) == s
  {
    if s != [] {
      FilterKeepsAll(s[1..], p);
    }
  }

  /** A filter that rejects exactly one position deletes that element and
      keeps the others in order. */
  lemma {:induction false} FilterDropsOne<T>(s: seq<T>, p: T -> bool, k: nat)
    requires k < |s| && !p(s[k])
    requires forall i :: 0 <= i < |s| && i != k ==> p(s[i])
    ensures Filter(s, p) == s[..k] + s[k + 1..]
  {
    if k == 0 {
      FilterKeepsAll(s[1..], p);
      assert s[..k] + s[k + 1..] == s[1..];
    } else {
      FilterDropsOne(s[1..], p, k - 1);
      assert s[..k] == [s[0]] + s[1..][..k - 1];
      assert s[k + 1..] == s[1..][k..];
    }
  }

  /** Two filters whose predicates never hold together select, between them,
      no more elements than the sequence has. */
  lemma {:induction false} DisjointFiltersBounded<T>(s: seq<T>, p: T -> bool, q: T -> bool)
    requires forall i :: 0 <= i < |s| ==> !(p(s[i]) && q(s[i]))
    ensures |Filter(s, p)| + |Filter(s, q)| <= |s|
  {
    if s != [] {
      DisjointFiltersBounded(s[1..], p, q);
    }
  }

  /** The number of elements of `s` satisfying `p`, counted by the multiset of
      their images under `f` when `p` means "`f` gives `v`". */
  lemma {:induction false} FilterCountIsMultiplicity<T, U>(s: seq<T>, f: T -> U, v: U, p: T -> bool)
    requires forall x :: p(x) <==> f(x) == v
    ensures |Filter(s, p)| == multiset(Map(s, f))[v]
  {
    if s != [] {
      FilterCountIsMultiplicity(s[1..], f, v, p);
      assert Map(s, f) == [f(s[0])] + Map(s[1..], f);
    }
  }

  /** `s.map(f)`. */
  function Map<T, U>(s: seq<T>, f: T -> U): (r: seq<U>)
    ensures |r| == |s|
    ensures forall i :: 0 <= i < |s| ==> r[i] == f(s[i])
  {
    if s == [] then [] else [f(s[0])] + Map(s[1..], f)
  }

  /** A preview of a list: `s.slice(0, k)` and, when the list is longer, the
      number N of the "+N more" tag. */
  datatype Preview<T> = Preview(shown: seq<T>, more: int)

  function PreviewOf<T>(s: seq<T>, k: nat): (r: Preview<T>)
    ensures |r.shown| <= k && r.shown <= s
    ensures r.more > 0 <==> |s| > k
    ensures |r.shown| + r.more == |s|
    ensures |s| > k ==> r.shown == s[..k] && r.more == |s| - k
    ensures |s| <= k ==> r.shown == s && r.more == 0
  {
    if |s| > k then Preview(s[..k], |s| - k) else Preview(s, 0)
  }

  /** `s.indexOf(x)`: the first position of `x`, or -1 when absent. */
  function IndexOf<T(==)>(s: seq<T>, x: T): (r: int)
    ensures -1 <= r < |s|
    ensures r == -1 <==> x !in s
    ensures r >= 0 ==> s[r] == x && forall j :: 0 <= j < r ==> s[j] != x
  {
    if s == [] then -1
    else if s[0] == x then 0
    else
      var r := IndexOf(s[1..], x);
      if r == -1 then -1 else r + 1
  }
}
