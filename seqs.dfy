/** The list shape shared by the transform and validation loops: walk the input
    once, and append a result for the records that survive, skipping the rest. */
module Seqs {
  import opened Common

  function Emit<U>(o: Option<U>): seq<U> {
    if o.Some? then [o.value] else []
  }

  /** Keeps, in input order, the values `f` produces: the list built by a loop
      that appends `f(x)` and `continue`s when `f` rejects `x`. */
  function FilterMap<T, U>(xs: seq<T>, f: T -> Option<U>): (r: seq<U>)
    ensures |r| <= |xs|
  {
    if xs == [] then []
    else FilterMap(xs[..|xs| - 1], f) + Emit(f(xs[|xs| - 1]))
  }

  /** The input positions whose values `FilterMap` keeps, in order. */
  function Kept<T, U>(xs: seq<T>, f: T -> Option<U>): seq<nat>
  {
    if xs == [] then []
    else Kept(xs[..|xs| - 1], f) + (if f(xs[|xs| - 1]).Some? then [|xs| - 1] else [])
  }

  /** One more loop iteration appends the value of the next element, if any. */
  lemma FilterMapStep<T, U>(xs: seq<T>, f: T -> Option<U>, i: nat)
    requires i < |xs|
    ensures FilterMap(xs[..i + 1], f) == FilterMap(xs[..i], f) + Emit(f(xs[i]))
  {
    assert xs[..i + 1][..i] == xs[..i];
  }

  /** `FilterMap` is an order-preserving selection: output `k` is `f` of input
      `Kept[k]`, the positions increase, and every input `f` accepts is kept. */
  lemma {:induction false} FilterMapSelection<T, U>(xs: seq<T>, f: T -> Option<U>)
    ensures |Kept(xs, f)| == |FilterMap(xs, f)|
    ensures forall k :: 0 <= k < |Kept(xs, f)| ==>
      Kept(xs, f)[k] < |xs| && f(xs[Kept(xs, f)[k]]) == Some(FilterMap(xs, f)[k])
    ensures forall k, l :: 0 <= k < l < |Kept(xs, f)| ==> Kept(xs, f)[k] < Kept(xs, f)[l]
    ensures forall i :: 0 <= i < |xs| && f(xs[i]).Some? ==> i in Kept(xs, f)
  {
    if xs != [] {
      var n := |xs| - 1;
      var p := xs[..n];
      FilterMapSelection(p, f);
      forall i | 0 <= i < n ensures xs[i] == p[i] { }
    }
  }

  /** Mapping distributes over concatenation. */
  lemma {:induction false} FilterMapAppend<T, U>(a: seq<T>, b: seq<T>, f: T -> Option<U>)
    ensures FilterMap(a + b, f) == FilterMap(a, f) + FilterMap(b, f)
    decreases |b|
  {
    if b == [] {
      assert a + b == a;
    } else {
      var n := |b| - 1;
      FilterMapAppend(a, b[..n], f);
      InitOfAppend(a, b);
      AppendAssoc(FilterMap(a, f), FilterMap(b[..n], f), Emit(f(b[n])));
    }
  }

  /** Dropping the last element of `a + b` drops the last element of `b`. */
  lemma InitOfAppend<T>(a: seq<T>, b: seq<T>)
    requires b != []
    ensures (a + b)[..|a + b| - 1] == a + b[..|b| - 1]
    ensures (a + b)[|a + b| - 1] == b[|b| - 1]
  {
  }

  lemma AppendAssoc<T>(a: seq<T>, b: seq<T>, c: seq<T>)
    ensures (a + b) + c == a + (b + c)
  {
  }

  /** A filter that passes elements through unchanged keeps exactly the elements
      it accepts. */
  lemma {:induction false} FilterMapMembers<T>(xs: seq<T>, f: T -> Option<T>)
    requires forall x :: f(x).Some? ==> f(x).value == x
    ensures forall i :: 0 <= i < |FilterMap(xs, f)| ==> FilterMap(xs, f)[i] in xs && f(FilterMap(xs, f)[i]).Some?
    ensures forall x :: x in xs && f(x).Some? ==> x in FilterMap(xs, f)
  {
    if xs != [] {
      var front := xs[..|xs| - 1];
      var last := xs[|xs| - 1];
      FilterMapMembers(front, f);
      var r := FilterMap(xs, f);
      assert r == FilterMap(front, f) + Emit(f(last));
      assert forall x :: x in xs ==> x in front || x == last;
      assert forall x :: x in front ==> x in xs;
    }
  }

  /** With a filter that keeps every element, nothing is lost. */
  lemma {:induction false} FilterMapKeepsAll<T, U>(xs: seq<T>, f: T -> Option<U>)
    requires forall i :: 0 <= i < |xs| ==> f(xs[i]).Some?
    ensures |FilterMap(xs, f)| == |xs|
  {
    if xs != [] {
      FilterMapKeepsAll(xs[..|xs| - 1], f);
    }
  }

  /** `r` is the subsequence of `xs` at the increasing positions `pos`, and those
      positions are exactly the ones whose element satisfies `p`. */
  predicate SelectsExactly<T(==)>(xs: seq<T>, r: seq<T>, pos: seq<nat>, p: T -> bool) {
    && |pos| == |r|
    && (forall k :: 0 <= k < |pos| ==> pos[k] < |xs| && xs[pos[k]] == r[k])
    && (forall k, l :: 0 <= k < l < |pos| ==> pos[k] < pos[l])
    && (forall i :: 0 <= i < |xs| ==> (p(xs[i]) <==> i in pos))
  }

  /** A loop that appends each element it accepts unchanged keeps exactly the
      accepted elements, in order. */
  lemma FilterMapSelectsExactly<T>(xs: seq<T>, f: T -> Option<T>, p: T -> bool)
    requires forall x :: f(x).Some? <==> p(x)
    requires forall x :: f(x).Some? ==> f(x).value == x
    ensures SelectsExactly(xs, FilterMap(xs, f), Kept(xs, f), p)
  {
    FilterMapSelection(xs, f);
    var pos := Kept(xs, f);
    forall i | 0 <= i < |xs| && i in pos ensures p(xs[i]) {
      var k :| 0 <= k < |pos| && pos[k] == i;
    }
  }
}
