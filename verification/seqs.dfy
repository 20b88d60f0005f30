/** The two array combinators the source leans on, `filter` and
    `findIndex`/`find`, over Dafny sequences. */
module Seqs {

  /** `xs.filter(p)`: the elements of `xs` satisfying `p`, in order (see
      `FilterCounts` for multiplicities and `FilterKeepsOrder` for order). */
  function Filter<T>(xs: seq<T>, p: T -> bool): (r: seq<T>)
    ensures |r| <= |xs|
    ensures forall i :: 0 <= i < |r| ==> p(r[i]) && r[i] in xs
    ensures forall i :: 0 <= i < |xs| && p(xs[i]) ==> xs[i] in r
  {
    if |xs| == 0 then []
    else
      var rest := Filter(xs[1..], p);
      assert forall i :: 1 <= i < |xs| ==> xs[i] == xs[1..][i - 1];
      if p(xs[0]) then [xs[0]] + rest else rest
  }

  /** `Filter` keeps every element satisfying `p` exactly as often as it
      occurs in the input, and drops every other element. */
  lemma {:induction false} FilterCounts<T>(xs: seq<T>, p: T -> bool)
    ensures forall x :: multiset(Filter(xs, p))[x] == if p(x) then multiset(xs)[x] else 0
  {
    if |xs| > 0 {
      FilterCounts(xs[1..], p);
      assert xs == [xs[0]] + xs[1..];
      assert multiset(xs) == multiset([xs[0]]) + multiset(xs[1..]);
      if p(xs[0]) {
        assert Filter(xs, p) == [xs[0]] + Filter(xs[1..], p);
        assert multiset(Filter(xs, p)) == multiset([xs[0]]) + multiset(Filter(xs[1..], p));
      } else {
        assert Filter(xs, p) == Filter(xs[1..], p);
      }
    }
  }

  /** Every element `Filter` keeps has a key above `bound` when every element
      of its input does. */
  lemma FilterKeysAbove<T>(xs: seq<T>, p: T -> bool, key: T -> int, bound: int)
    requires forall i :: 0 <= i < |xs| ==> bound < key(xs[i])
    ensures var r := Filter(xs, p);
      forall j :: 0 <= j < |r| ==> bound < key(r[j])
  {
    var r := Filter(xs, p);
    forall j | 0 <= j < |r|
      ensures bound < key(r[j])
    {
      var k :| 0 <= k < |xs| && xs[k] == r[j];
    }
  }

  /** Keys strictly increasing along a sequence. */
  ghost predicate Ascending<T>(xs: seq<T>, key: T -> int) {
    forall i, j :: 0 <= i < j < |xs| ==> key(xs[i]) < key(xs[j])
  }

  /** Filtering keeps the relative order of what it keeps: a sequence whose
      keys strictly increase still has strictly increasing keys afterwards. */
  lemma {:induction false} FilterKeepsOrder<T>(xs: seq<T>, p: T -> bool, key: T -> int)
    requires Ascending(xs, key)
    ensures Ascending(Filter(xs, p), key)
  {
    if |xs| > 0 {
      var tail := xs[1..];
      var rest := Filter(tail, p);
      assert Ascending(tail, key) by {
        forall i, j | 0 <= i < j < |tail|
          ensures key(tail[i]) < key(tail[j])
        {
          assert tail[i] == xs[i + 1] && tail[j] == xs[j + 1];
        }
      }
      FilterKeepsOrder(tail, p, key);
      if p(xs[0]) {
        assert forall i :: 0 <= i < |tail| ==> key(xs[0]) < key(tail[i]) by {
          forall i | 0 <= i < |tail|
            ensures key(xs[0]) < key(tail[i])
          {
            assert tail[i] == xs[i + 1];
          }
        }
        FilterKeysAbove(tail, p, key, key(xs[0]));
        var r := [xs[0]] + rest;
        assert Filter(xs, p) == r;
        forall i, j | 0 <= i < j < |r|
          ensures key(r[i]) < key(r[j])
        {
          assert r[j] == rest[j - 1];
          if i > 0 {
            assert r[i] == rest[i - 1];
          }
        }
      } else {
        assert Filter(xs, p) == rest;
      }
    }
  }

  /** `xs.findIndex(p)`: the position of the first element satisfying `p`,
      or -1 when there is none. */
  function FindFirst<T>(xs: seq<T>, p: T -> bool): (r: int)
    ensures -1 <= r < |xs|
    ensures r == -1 <==> forall i :: 0 <= i < |xs| ==> !p(xs[i])
    ensures 0 <= r ==> p(xs[r]) && forall i :: 0 <= i < r ==> !p(xs[i])
  {
    if |xs| == 0 then -1
    else if p(xs[0]) then 0
    else
      var k := FindFirst(xs[1..], p);
      assert forall i :: 1 <= i < |xs| ==> xs[i] == xs[1..][i - 1];
      if k == -1 then -1 else k + 1
  }
}
