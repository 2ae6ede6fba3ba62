/** `Array.prototype.filter` and the order-keeping facts the views rely on. */
module SeqUtil {

  /** `xs.filter(f)`: the elements satisfying `f`, in their original order. */
  function Filter<T>(f: T -> bool, xs: seq<T>): (r: seq<T>)
    ensures |r| <= |xs|
    ensures forall i :: 0 <= i < |r| ==> f(r[i])
  {
    if xs == [] then []
    else (if f(xs[0]) then [xs[0]] else []) + Filter(f, xs[1..])
  }

  /** The index `xs.find(p)` stops at: the first element satisfying `p`, or
      `|xs|` when there is none. */
  function FindIndex<T>(p: T -> bool, xs: seq<T>): (i: nat)
    ensures i <= |xs|
    ensures forall j :: 0 <= j < i ==> !p(xs[j])
    ensures i < |xs| ==> p(xs[i])
  {
    if xs == [] || p(xs[0]) then 0
    else
      var i := FindIndex(p, xs[1..]);
      assert forall j :: 1 <= j < i + 1 ==> xs[j] == xs[1..][j - 1];
      i + 1
  }

  /** `xs` occurs in `ys` in order, possibly with gaps (greedy matching). */
  predicate IsSubsequence<T(==)>(xs: seq<T>, ys: seq<T>) {
    if xs == [] then true
    else if ys == [] then false
    else if xs[0] == ys[0] then IsSubsequence(xs[1..], ys[1..])
    else IsSubsequence(xs, ys[1..])
  }

  /** An element is kept exactly when it satisfies the predicate, and the
      kept elements keep their relative order. */
  lemma {:induction false} FilterMembers<T>(f: T -> bool, xs: seq<T>)
    ensures forall x :: x in Filter(f, xs) <==> x in xs && f(x)
    ensures IsSubsequence(Filter(f, xs), xs)
  {
    if xs != [] {
      FilterMembers(f, xs[1..]);
      var rest := Filter(f, xs[1..]);
      if f(xs[0]) {
        assert Filter(f, xs) == [xs[0]] + rest;
        assert (Filter(f, xs))[1..] == rest;
      } else {
        assert Filter(f, xs) == rest;
        SubsequenceOfTail(rest, xs);
      }
      assert forall x :: x in xs <==> x == xs[0] || x in xs[1..];
    }
  }

  lemma {:induction false} SubsequenceOfTail<T>(xs: seq<T>, ys: seq<T>)
    requires ys != [] && IsSubsequence(xs, ys[1..])
    ensures IsSubsequence(xs, ys)
  {
    if xs != [] && xs[0] == ys[0] {
      var t := ys[1..];
      if t != [] && xs[0] == t[0] {
        SubsequenceOfTail(xs[1..], t);
      } else {
        assert t != [];
        SubsequenceDropHead(xs, t);
      }
    }
  }

  lemma {:induction false} SubsequenceDropHead<T>(xs: seq<T>, ys: seq<T>)
    requires xs != [] && IsSubsequence(xs, ys)
    ensures IsSubsequence(xs[1..], ys)
  {
    if ys != [] {
      if xs[0] == ys[0] {
        SubsequenceOfTail(xs[1..], ys);
      } else {
        SubsequenceDropHead(xs, ys[1..]);
        SubsequenceOfTail(xs[1..], ys);
      }
    }
  }

  /** Two filters with complementary predicates split the sequence: every
      element lands in exactly one side and the lengths add up. */
  lemma {:induction false} FilterPartition<T>(f: T -> bool, g: T -> bool, xs: seq<T>)
    requires forall x :: g(x) == !f(x)
    ensures multiset(Filter(f, xs)) + multiset(Filter(g, xs)) == multiset(xs)
    ensures |Filter(f, xs)| + |Filter(g, xs)| == |xs|
  {
    if xs != [] {
      FilterPartition(f, g, xs[1..]);
      assert xs == [xs[0]] + xs[1..];
      assert multiset(xs) == multiset{xs[0]} + multiset(xs[1..]);
    }
  }
}
