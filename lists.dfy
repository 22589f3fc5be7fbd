/** Python's list comprehension `[f(x) for x in xs if p(x)]`, as the two
    sequence operations it combines, and the laws the model relies on. */
module Lists {

  /** The elements of `xs` that satisfy `p`, in their original order. */
  function Filter<T>(p: T -> bool, xs: seq<T>): (r: seq<T>)
    ensures |r| <= |xs|
    ensures forall k :: 0 <= k < |r| ==> p(r[k])
  {
    if xs == [] then [] else (if p(xs[0]) then [xs[0]] else []) + Filter(p, xs[1..])
  }

  /** `f` applied to every element of `xs`, in order. */
  function Map<A, B>(f: A -> B, xs: seq<A>): (r: seq<B>)
    ensures |r| == |xs|
  {
    if xs == [] then [] else [f(xs[0])] + Map(f, xs[1..])
  }

  /** An element is kept exactly when it occurs in the input and satisfies `p`. */
  lemma {:induction false} FilterMembers<T>(p: T -> bool, xs: seq<T>, x: T)
    ensures x in Filter(p, xs) <==> x in xs && p(x)
  {
    if xs != [] {
      FilterMembers(p, xs[1..], x);
      assert xs == [xs[0]] + xs[1..];
    }
  }

  /** Filtering keeps order: filtering a concatenation is the concatenation of
      the filtered parts. */
  lemma {:induction false} FilterAppend<T>(p: T -> bool, xs: seq<T>, ys: seq<T>)
    ensures Filter(p, xs + ys) == Filter(p, xs) + Filter(p, ys)
  {
    if xs == [] {
      assert xs + ys == ys;
    } else {
      assert (xs + ys)[1..] == xs[1..] + ys;
      FilterAppend(p, xs[1..], ys);
    }
  }

  /** Filtering a non-empty sequence: the filtered prefix, then the last
      element if it satisfies `p`. */
  lemma FilterLast<T>(p: T -> bool, xs: seq<T>)
    requires xs != []
    ensures Filter(p, xs) == Filter(p, xs[..|xs| - 1]) + if p(xs[|xs| - 1]) then [xs[|xs| - 1]] else []
  {
    var init, x := xs[..|xs| - 1], xs[|xs| - 1];
    calc {
      Filter(p, xs);
      { assert xs == init + [x]; }
      Filter(p, init + [x]);
      { FilterAppend(p, init, [x]); }
      Filter(p, init) + Filter(p, [x]);
      { FilterOne(p, x); }
      Filter(p, init) + if p(x) then [x] else [];
    }
  }

  /** A single element is kept exactly when it satisfies `p`. */
  lemma FilterOne<T>(p: T -> bool, x: T)
    ensures Filter(p, [x]) == if p(x) then [x] else []
  {
    assert [x][1..] == [];
  }

  /** A prefix grows by the next element. */
  lemma TakeOneMore<T>(xs: seq<T>, i: nat)
    requires i < |xs|
    ensures xs[..i + 1] == xs[..i] + [xs[i]]
  {
  }

  /** A sequence is its prefix followed by the rest. */
  lemma TakeDrop<T>(xs: seq<T>, i: nat)
    requires i <= |xs|
    ensures xs[..i] + xs[i..] == xs
  {
  }

  /** `Map` is applied elementwise. */
  lemma {:induction false} MapAt<A, B>(f: A -> B, xs: seq<A>, k: nat)
    requires k < |xs|
    ensures Map(f, xs)[k] == f(xs[k])
  {
    if k > 0 {
      MapAt(f, xs[1..], k - 1);
    }
  }
}
