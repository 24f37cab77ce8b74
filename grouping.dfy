/** The group-by the analytics reducers share: a dict from key to accumulator
    that is created on a key's first occurrence and updated on every occurrence,
    iterated in insertion order. */
module Grouping {
  import opened Common

  /** A dict as its keys in insertion order and the key -> accumulator map. */
  datatype Groups<K, A> = Groups(order: seq<K>, acc: map<K, A>)
  {
    /** Every key occurs once in the order, and the order lists exactly the keys
        of the map. */
    predicate WellFormed() {
      && (forall i, j :: 0 <= i < j < |order| ==> order[i] != order[j])
      && (forall k :: k in acc ==> k in order)
      && (forall k :: k in order ==> k in acc)
    }
  }

  function EmptyGroups<K, A>(): (g: Groups<K, A>)
    ensures g.WellFormed()
  {
    Groups([], map[])
  }

  /** `if k not in d: d[k] = zero`, then `d[k] = add(d[k], x)`. */
  function Insert<T, K, A>(g: Groups<K, A>, k: K, x: T, zero: A, add: (A, T) -> A): (r: Groups<K, A>)
    ensures g.WellFormed() ==> r.WellFormed()
    ensures k in r.acc && r.acc[k] == add(if k in g.acc then g.acc[k] else zero, x)
    ensures forall j :: j in r.acc ==> j == k || j in g.acc
    ensures forall j :: j in g.acc ==> j in r.acc && (j != k ==> r.acc[j] == g.acc[j])
    ensures r.order == if k in g.acc then g.order else g.order + [k]
  {
    if k in g.acc then Groups(g.order, g.acc[k := add(g.acc[k], x)])
    else Groups(g.order + [k], g.acc[k := add(zero, x)])
  }

  /** The loop `for x in xs: k = key(x); if k is None: continue; ...insert...`. */
  function GroupBy<T, K, A>(xs: seq<T>, key: T -> Option<K>, zero: A, add: (A, T) -> A): (g: Groups<K, A>)
    ensures g.WellFormed()
  {
    if xs == [] then EmptyGroups()
    else
      var g := GroupBy(xs[..|xs| - 1], key, zero, add);
      match key(xs[|xs| - 1])
      case None => g
      case Some(k) => Insert(g, k, xs[|xs| - 1], zero, add)
  }

  /** The elements of `xs` with key `k`, in order. */
  function Members<T, K(==)>(xs: seq<T>, key: T -> Option<K>, k: K): (r: seq<T>)
    ensures |r| <= |xs|
  {
    if xs == [] then []
    else Members(xs[..|xs| - 1], key, k) + (if key(xs[|xs| - 1]) == Some(k) then [xs[|xs| - 1]] else [])
  }

  /** `a = zero; for x in xs: a = add(a, x)` */
  function Fold<T, A>(zero: A, add: (A, T) -> A, xs: seq<T>): A {
    if xs == [] then zero else add(Fold(zero, add, xs[..|xs| - 1]), xs[|xs| - 1])
  }

  /** The elements of `xs` that have a key. */
  function Keyed<T, K>(xs: seq<T>, key: T -> Option<K>): (r: seq<T>)
    ensures |r| <= |xs|
  {
    if xs == [] then []
    else Keyed(xs[..|xs| - 1], key) + (if key(xs[|xs| - 1]).Some? then [xs[|xs| - 1]] else [])
  }

  /** A key has a group exactly when some element carries it, and that group's
      accumulator is the fold of `add` over the elements carrying it, in order. */
  lemma {:induction false} GroupContents<T, K, A>(xs: seq<T>, key: T -> Option<K>, zero: A, add: (A, T) -> A, k: K)
    ensures var g := GroupBy(xs, key, zero, add);
      && (k in g.acc <==> Members(xs, key, k) != [])
      && (k in g.acc ==> g.acc[k] == Fold(zero, add, Members(xs, key, k)))
  {
    if xs != [] {
      var front := xs[..|xs| - 1];
      var x := xs[|xs| - 1];
      GroupContents(front, key, zero, add, k);
      var g := GroupBy(front, key, zero, add);
      var ms := Members(front, key, k);
      if key(x) == Some(k) {
        assert Members(xs, key, k) == ms + [x];
        assert (ms + [x])[..|ms + [x]| - 1] == ms;
        if k !in g.acc {
          assert Fold(zero, add, ms + [x]) == add(zero, x);
        }
      } else {
        assert Members(xs, key, k) == ms;
      }
    }
  }

  /** Some element carries `k` exactly when `k` has members. */
  lemma {:induction false} MembersNonEmpty<T, K>(xs: seq<T>, key: T -> Option<K>, k: K)
    ensures Members(xs, key, k) != [] <==> exists i :: 0 <= i < |xs| && key(xs[i]) == Some(k)
  {
    if xs != [] {
      var front := xs[..|xs| - 1];
      MembersNonEmpty(front, key, k);
      if exists i :: 0 <= i < |front| && key(front[i]) == Some(k) {
        var i :| 0 <= i < |front| && key(front[i]) == Some(k);
        assert xs[i] == front[i];
      }
      if exists i :: 0 <= i < |xs| && key(xs[i]) == Some(k) {
        var i :| 0 <= i < |xs| && key(xs[i]) == Some(k);
        if i < |front| {
          assert front[i] == xs[i];
        }
      }
    }
  }

  /** The groups' keys are exactly the keys the elements carry. */
  lemma GroupKeys<T, K, A>(xs: seq<T>, key: T -> Option<K>, zero: A, add: (A, T) -> A, k: K)
    ensures k in GroupBy(xs, key, zero, add).order <==> exists i :: 0 <= i < |xs| && key(xs[i]) == Some(k)
  {
    GroupContents(xs, key, zero, add, k);
    MembersNonEmpty(xs, key, k);
  }

  // ---------------------------------------------------------------------------
  // Sums over the groups

  /** `sum(m(d[k]) for k in order)` */
  function SumOver<K, A>(order: seq<K>, acc: map<K, A>, m: A -> real): real {
    if order == [] then 0.0
    else
      var k := order[|order| - 1];
      SumOver(order[..|order| - 1], acc, m) + (if k in acc then m(acc[k]) else 0.0)
  }

  /** `sum(w(x) for x in xs)` */
  function SumOf<T>(xs: seq<T>, w: T -> real): real {
    if xs == [] then 0.0 else SumOf(xs[..|xs| - 1], w) + w(xs[|xs| - 1])
  }

  /** Changing the entry of a key that occurs once changes the sum by the difference. */
  lemma {:induction false} SumOverUpdate<K, A>(order: seq<K>, acc: map<K, A>, m: A -> real, k: K, a: A)
    requires k in acc
    requires forall i, j :: 0 <= i < j < |order| ==> order[i] != order[j]
    ensures SumOver(order, acc[k := a], m) ==
      SumOver(order, acc, m) + (if k in order then m(a) - m(acc[k]) else 0.0)
  {
    if order != [] {
      var front := order[..|order| - 1];
      SumOverUpdate(front, acc, m, k, a);
      if order[|order| - 1] == k {
        assert k !in front by {
          forall i | 0 <= i < |front| ensures front[i] != k {
            assert order[i] != order[|order| - 1];
          }
        }
      }
    }
  }

  /** Entries of keys outside the order do not count. */
  lemma {:induction false} SumOverFresh<K, A>(order: seq<K>, acc: map<K, A>, m: A -> real, k: K, a: A)
    requires k !in order
    ensures SumOver(order, acc[k := a], m) == SumOver(order, acc, m)
  {
    if order != [] {
      SumOverFresh(order[..|order| - 1], acc, m, k, a);
    }
  }

  /** One insertion replaces the key's old measure (none for a new key) by the new one. */
  lemma InsertSum<T, K, A>(g: Groups<K, A>, k: K, x: T, zero: A, add: (A, T) -> A, m: A -> real)
    requires g.WellFormed()
    ensures var r := Insert(g, k, x, zero, add);
      var before := if k in g.acc then g.acc[k] else zero;
      SumOver(r.order, r.acc, m) ==
        SumOver(g.order, g.acc, m) + m(add(before, x)) - (if k in g.acc then m(g.acc[k]) else 0.0)
  {
    if k in g.acc {
      SumOverUpdate(g.order, g.acc, m, k, add(g.acc[k], x));
    } else {
      var a := add(zero, x);
      SumOverAppendFresh(g.order, g.acc, m, k, a);
    }
  }

  lemma SumOverAppendFresh<K, A>(order: seq<K>, acc: map<K, A>, m: A -> real, k: K, a: A)
    requires k !in order
    ensures SumOver(order + [k], acc[k := a], m) == SumOver(order, acc, m) + m(a)
  {
    var o := order + [k];
    assert o[..|o| - 1] == order && o[|o| - 1] == k;
    assert SumOver(o, acc[k := a], m) == SumOver(order, acc[k := a], m) + m(a);
    SumOverFresh(order, acc, m, k, a);
  }

  /** The sum law of a group-by: when the measure starts at 0 and each `add` raises
      it by the element's weight, the measures of the groups add up to the total
      weight of the keyed elements. */
  lemma {:induction false} GroupSum<T, K, A>(xs: seq<T>, key: T -> Option<K>, zero: A, add: (A, T) -> A,
                                             m: A -> real, w: T -> real)
    requires m(zero) == 0.0
    requires forall a, x :: m(add(a, x)) == m(a) + w(x)
    ensures var g := GroupBy(xs, key, zero, add); SumOver(g.order, g.acc, m) == SumOf(Keyed(xs, key), w)
  {
    if xs != [] {
      var front := xs[..|xs| - 1];
      var x := xs[|xs| - 1];
      GroupSum(front, key, zero, add, m, w);
      var g := GroupBy(front, key, zero, add);
      var ks := Keyed(front, key);
      match key(x)
      case None =>
        assert GroupBy(xs, key, zero, add) == g;
        assert Keyed(xs, key) == ks;
      case Some(k) =>
        var r := Insert(g, k, x, zero, add);
        assert GroupBy(xs, key, zero, add) == r;
        InsertSum(g, k, x, zero, add, m);
        var before := if k in g.acc then g.acc[k] else zero;
        assert m(add(before, x)) == m(before) + w(x);
        assert SumOver(r.order, r.acc, m) == SumOver(g.order, g.acc, m) + w(x);
        assert Keyed(xs, key) == ks + [x];
        SumOfSnoc(ks, x, w);
    }
  }

  lemma SumOfSnoc<T>(xs: seq<T>, x: T, w: T -> real)
    ensures SumOf(xs + [x], w) == SumOf(xs, w) + w(x)
  {
    assert (xs + [x])[..|xs|] == xs;
  }

  /** The elements of `xs` without a key. */
  function Unkeyed<T, K>(xs: seq<T>, key: T -> Option<K>): seq<T> {
    if xs == [] then []
    else Unkeyed(xs[..|xs| - 1], key) + (if key(xs[|xs| - 1]).None? then [xs[|xs| - 1]] else [])
  }

  /** The keyed and the unkeyed elements together weigh as much as all of them. */
  lemma {:induction false} KeyedSplitSum<T, K>(xs: seq<T>, key: T -> Option<K>, w: T -> real)
    ensures SumOf(xs, w) == SumOf(Keyed(xs, key), w) + SumOf(Unkeyed(xs, key), w)
  {
    if xs != [] {
      var front := xs[..|xs| - 1];
      var x := xs[|xs| - 1];
      KeyedSplitSum(front, key, w);
      if key(x).Some? {
        assert Keyed(xs, key) == Keyed(front, key) + [x];
        assert Unkeyed(xs, key) == Unkeyed(front, key);
        SumOfSnoc(Keyed(front, key), x, w);
      } else {
        assert Keyed(xs, key) == Keyed(front, key);
        assert Unkeyed(xs, key) == Unkeyed(front, key) + [x];
        SumOfSnoc(Unkeyed(front, key), x, w);
      }
    }
  }

  /** When every element has a key, all of them are keyed. */
  lemma {:induction false} KeyedAll<T, K>(xs: seq<T>, key: T -> Option<K>)
    requires forall i :: 0 <= i < |xs| ==> key(xs[i]).Some?
    ensures Keyed(xs, key) == xs
  {
    if xs != [] {
      var front := xs[..|xs| - 1];
      assert forall i :: 0 <= i < |front| ==> front[i] == xs[i];
      KeyedAll(front, key);
    }
  }

  /** The number of elements with a key, summed as ones. */
  lemma {:induction false} SumOfOnes<T>(xs: seq<T>, w: T -> real)
    requires forall x :: w(x) == 1.0
    ensures SumOf(xs, w) == |xs| as real
  {
    if xs != [] {
      SumOfOnes(xs[..|xs| - 1], w);
    }
  }

  /** `sum` is additive over concatenation. */
  lemma {:induction false} SumOfAppend<T>(a: seq<T>, b: seq<T>, w: T -> real)
    ensures SumOf(a + b, w) == SumOf(a, w) + SumOf(b, w)
  {
    if b == [] {
      assert a + b == a;
    } else {
      var ab := a + b;
      assert ab[..|ab| - 1] == a + b[..|b| - 1];
      assert ab[|ab| - 1] == b[|b| - 1];
      assert SumOf(ab, w) == SumOf(ab[..|ab| - 1], w) + w(ab[|ab| - 1]);
      SumOfAppend(a, b[..|b| - 1], w);
    }
  }

  /** The dict-building loop of every reducer: for each element with a key, create
      the key's entry on first sight and fold the element into it. */
  method GroupInto<T, K, A>(xs: seq<T>, key: T -> Option<K>, zero: A, add: (A, T) -> A)
    returns (order: seq<K>, acc: map<K, A>)
    ensures Groups(order, acc) == GroupBy(xs, key, zero, add)
  {
    order, acc := [], map[];
    var i := 0;
    while i < |xs|
      invariant 0 <= i <= |xs|
      invariant Groups(order, acc) == GroupBy(xs[..i], key, zero, add)
    {
      assert xs[..i + 1][..i] == xs[..i];
      var k := key(xs[i]);
      if k.Some? {
        if k.value !in acc {
          order := order + [k.value];
          acc := acc[k.value := zero];
        }
        acc := acc[k.value := add(acc[k.value], xs[i])];
      }
      i := i + 1;
    }
    assert xs[..i] == xs;
  }
}
