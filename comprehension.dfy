/** Python's filtered list comprehension `[make(x) for x in xs if keep(x)]`, and the facts
    about it the agents rely on. */
module Comprehension {

  /** `[make(x) for x in xs if keep(x)]`: the kept items, transformed, in order. */
  function FilterMap<S, T>(xs: seq<S>, keep: S -> bool, make: S -> T): (r: seq<T>)
    ensures |r| <= |xs|
  {
    if |xs| == 0 then []
    else (if keep(xs[0]) then [make(xs[0])] else []) + FilterMap(xs[1..], keep, make)
  }

  /** The comprehension over two lists glued together is the two comprehensions glued. */
  lemma {:induction false} FilterMapConcat<S, T>(a: seq<S>, b: seq<S>, keep: S -> bool, make: S -> T)
    ensures FilterMap(a + b, keep, make) == FilterMap(a, keep, make) + FilterMap(b, keep, make)
    decreases |a|
  {
    if |a| == 0 {
      assert a + b == b;
    } else {
      var h := if keep(a[0]) then [make(a[0])] else [];
      assert (a + b)[0] == a[0];
      assert (a + b)[1..] == a[1..] + b;
      FilterMapConcat(a[1..], b, keep, make);
      assert h + (FilterMap(a[1..], keep, make) + FilterMap(b, keep, make))
          == (h + FilterMap(a[1..], keep, make)) + FilterMap(b, keep, make);
    }
  }

  /** When every item is kept, each one is transformed in place. */
  lemma {:induction false} FilterMapAll<S, T>(xs: seq<S>, keep: S -> bool, make: S -> T)
    requires forall k :: 0 <= k < |xs| ==> keep(xs[k])
    ensures |FilterMap(xs, keep, make)| == |xs|
    ensures forall k :: 0 <= k < |xs| ==> FilterMap(xs, keep, make)[k] == make(xs[k])
    decreases |xs|
  {
    if |xs| > 0 {
      FilterMapAll(xs[1..], keep, make);
    }
  }

  /** When no item is kept the result is empty. */
  lemma {:induction false} FilterMapNone<S, T>(xs: seq<S>, keep: S -> bool, make: S -> T)
    requires forall k :: 0 <= k < |xs| ==> !keep(xs[k])
    ensures FilterMap(xs, keep, make) == []
    decreases |xs|
  {
    if |xs| > 0 {
      FilterMapNone(xs[1..], keep, make);
    }
  }

  /** A property that `make` gives every kept item holds of every result. */
  lemma {:induction false} FilterMapKeeps<S, T>(xs: seq<S>, keep: S -> bool, make: S -> T, p: T -> bool)
    requires forall x :: keep(x) ==> p(make(x))
    ensures forall k :: 0 <= k < |FilterMap(xs, keep, make)| ==> p(FilterMap(xs, keep, make)[k])
    decreases |xs|
  {
    if |xs| > 0 {
      FilterMapKeeps(xs[1..], keep, make, p);
      var rest := FilterMap(xs[1..], keep, make);
      var h := if keep(xs[0]) then [make(xs[0])] else [];
      assert FilterMap(xs, keep, make) == h + rest;
      assert forall k :: 0 <= k < |h| ==> p(h[k]);
    }
  }

  /** `[make(x) for x in xs]`: every item transformed, in order. */
  function Map<S, T>(xs: seq<S>, make: S -> T): (r: seq<T>)
    ensures |r| == |xs| && forall k :: 0 <= k < |xs| ==> r[k] == make(xs[k])
  {
    seq(|xs|, k requires 0 <= k < |xs| => make(xs[k]))
  }

  /** A loop that appends `make(x)` for each item builds the comprehension one item at a time. */
  lemma MapNext<S, T>(xs: seq<S>, make: S -> T, i: nat)
    requires i < |xs|
    ensures Map(xs[..i + 1], make) == Map(xs[..i], make) + [make(xs[i])]
  {
  }

  /** `for x in xs: out.append(make(x))`. */
  method AppendEach<S, T>(out: seq<T>, xs: seq<S>, make: S -> T) returns (r: seq<T>)
    ensures r == out + Map(xs, make)
  {
    r := out;
    for i := 0 to |xs|
      invariant r == out + Map(xs[..i], make)
    {
      MapNext(xs, make, i);
      r := r + [make(xs[i])];
    }
    assert xs[..|xs|] == xs;
  }

  /** A list of fixed lines followed by a comprehension: the fixed lines first, then one
      entry per item, in order. */
  lemma HeadThenMap<S, T>(head: seq<T>, xs: seq<S>, make: S -> T)
    ensures var s := head + Map(xs, make);
      && |s| == |head| + |xs| && s[..|head|] == head
      && forall k :: 0 <= k < |xs| ==> s[|head| + k] == make(xs[k])
  {
    var s := head + Map(xs, make);
    assert s[..|head|] == head;
  }

  /** Appending in two steps is appending the two pieces glued together. */
  lemma AppendTwice<T>(a: seq<T>, x: seq<T>, y: seq<T>)
    ensures a + x + y == a + (x + y)
  {
  }
}
