/** Concatenating the results of a function over a list. */
module Sequences {

  function FlatMap<A, B>(xs: seq<A>, f: A -> seq<B>): seq<B> {
    if xs == [] then [] else FlatMap(xs[..|xs| - 1], f) + f(xs[|xs| - 1])
  }

  lemma Assoc<T>(a: seq<T>, b: seq<T>, c: seq<T>)
    ensures a + b + c == a + (b + c)
  {
  }

  lemma FlatMapPush<A, B>(xs: seq<A>, f: A -> seq<B>, x: A)
    ensures FlatMap(xs + [x], f) == FlatMap(xs, f) + f(x)
  {
    assert (xs + [x])[..|xs|] == xs;
  }

  lemma {:induction false} FlatMapConcat<A, B>(a: seq<A>, b: seq<A>, f: A -> seq<B>)
    ensures FlatMap(a + b, f) == FlatMap(a, f) + FlatMap(b, f)
    decreases |b|
  {
    if b == [] {
      assert a + b == a;
    } else {
      var front, last := b[..|b| - 1], b[|b| - 1];
      FlatMapConcat(a, front, f);
      FlatMapPush(a + front, f, last);
      assert a + front + [last] == a + b;
    }
  }

  lemma FlatMapFirst<A, B>(xs: seq<A>, f: A -> seq<B>)
    requires xs != []
    ensures FlatMap(xs, f) == f(xs[0]) + FlatMap(xs[1..], f)
  {
    assert xs == [xs[0]] + xs[1..];
    FlatMapConcat([xs[0]], xs[1..], f);
    FlatMapPush([], f, xs[0]);
    assert [] + [xs[0]] == [xs[0]];
  }

  lemma FlatMapOne<A, B>(f: A -> seq<B>, a: A)
    ensures FlatMap([a], f) == f(a)
  {
    FlatMapPush([], f, a);
    assert [] + [a] == [a];
  }

  lemma FlatMapTwo<A, B>(f: A -> seq<B>, a: A, b: A)
    ensures FlatMap([a, b], f) == f(a) + f(b)
  {
    FlatMapOne(f, a);
    FlatMapPush([a], f, b);
    assert [a] + [b] == [a, b];
  }

  lemma FlatMapThree<A, B>(f: A -> seq<B>, a: A, b: A, c: A)
    ensures FlatMap([a, b, c], f) == f(a) + f(b) + f(c)
  {
    FlatMapTwo(f, a, b);
    FlatMapPush([a, b], f, c);
    assert [a, b] + [c] == [a, b, c];
  }

  /** The step of a loop that has handled the first `i` elements. */
  lemma FlatMapStep<A, B>(xs: seq<A>, f: A -> seq<B>, i: nat)
    requires i < |xs|
    ensures FlatMap(xs[..i + 1], f) == FlatMap(xs[..i], f) + f(xs[i])
  {
    assert xs[..i + 1] == xs[..i] + [xs[i]];
    FlatMapPush(xs[..i], f, xs[i]);
  }

  lemma FlatMapWhole<A, B>(xs: seq<A>, f: A -> seq<B>)
    ensures FlatMap(xs[..|xs|], f) == FlatMap(xs, f)
  {
    assert xs[..|xs|] == xs;
  }

  lemma {:induction false} FlatMapSame<A(!new), B>(xs: seq<A>, f: A -> seq<B>, g: A -> seq<B>)
    requires forall x :: x in xs ==> f(x) == g(x)
    ensures FlatMap(xs, f) == FlatMap(xs, g)
  {
    if xs != [] {
      FlatMapSame(xs[..|xs| - 1], f, g);
    }
  }

  lemma {:induction false} FlatMapMember<A, B>(xs: seq<A>, f: A -> seq<B>, y: B)
    ensures y in FlatMap(xs, f) <==> exists x :: x in xs && y in f(x)
  {
    if xs != [] {
      var front, last := xs[..|xs| - 1], xs[|xs| - 1];
      FlatMapMember(front, f, y);
      assert xs == front + [last];
      assert last in xs;
      assert forall x :: x in xs <==> x in front || x == last;
    }
  }

  function Keys<A(==, !new), K>(xs: seq<A>, key: A -> K): set<K> {
    set x | x in xs :: key(x)
  }

  /** The elements of `xs` whose key no earlier element has. */
  function FirstOfEach<A(==, !new), K(==)>(xs: seq<A>, key: A -> K): seq<A> {
    if xs == [] then
      []
    else
      var front, last := xs[..|xs| - 1], xs[|xs| - 1];
      FirstOfEach(front, key) + (if key(last) in Keys(front, key) then [] else [last])
  }

  lemma FirstOfEachPush<A(!new), K>(xs: seq<A>, key: A -> K, x: A)
    ensures FirstOfEach(xs + [x], key) == FirstOfEach(xs, key) + (if key(x) in Keys(xs, key) then [] else [x])
    ensures Keys(xs + [x], key) == Keys(xs, key) + {key(x)}
  {
    assert (xs + [x])[..|xs|] == xs;
    assert forall y :: y in xs + [x] <==> y in xs || y == x;
    forall k ensures k in Keys(xs + [x], key) <==> k in Keys(xs, key) || k == key(x) {
      if k in Keys(xs, key) {
        var y :| y in xs && key(y) == k;
        assert y in xs + [x];
      }
      if k == key(x) {
        assert x in xs + [x];
      }
    }
  }

  /** Every key is kept once, and only elements of `xs` are kept. */
  lemma {:induction false} FirstOfEachDistinct<A(!new), K>(xs: seq<A>, key: A -> K)
    ensures Keys(FirstOfEach(xs, key), key) == Keys(xs, key)
    ensures forall x :: x in FirstOfEach(xs, key) ==> x in xs
    ensures forall i, j :: 0 <= i < j < |FirstOfEach(xs, key)| ==>
              key(FirstOfEach(xs, key)[i]) != key(FirstOfEach(xs, key)[j])
  {
    if xs != [] {
      var front, last := xs[..|xs| - 1], xs[|xs| - 1];
      FirstOfEachDistinct(front, key);
      FirstOfEachPush(front, key, last);
      assert front + [last] == xs;
      var kept := FirstOfEach(front, key);
      if key(last) !in Keys(front, key) {
        FirstOfEachPush(kept, key, last);
        forall i | 0 <= i < |kept| ensures key(kept[i]) != key(last) {
          assert kept[i] in kept;
          assert key(kept[i]) in Keys(kept, key);
        }
      }
    }
  }

  predicate Distinct<T(==)>(xs: seq<T>) {
    forall i, j :: 0 <= i < j < |xs| ==> xs[i] != xs[j]
  }

  /** The sum of a measure over a list. */
  function Total<A>(xs: seq<A>, f: A -> nat): nat {
    if xs == [] then 0 else Total(xs[..|xs| - 1], f) + f(xs[|xs| - 1])
  }

  lemma TotalPush<A>(xs: seq<A>, f: A -> nat, x: A)
    ensures Total(xs + [x], f) == Total(xs, f) + f(x)
  {
    assert (xs + [x])[..|xs|] == xs;
  }

  lemma {:induction false} TotalConcat<A>(a: seq<A>, b: seq<A>, f: A -> nat)
    ensures Total(a + b, f) == Total(a, f) + Total(b, f)
    decreases |b|
  {
    if b == [] {
      assert a + b == a;
    } else {
      var front, last := b[..|b| - 1], b[|b| - 1];
      TotalConcat(a, front, f);
      TotalPush(a + front, f, last);
      assert a + front + [last] == a + b;
    }
  }

  lemma {:induction false} TotalFlat<A, B>(xs: seq<A>, g: A -> seq<B>, f: B -> nat, h: A -> nat)
    requires forall x :: x in xs ==> Total(g(x), f) <= h(x)
    ensures Total(FlatMap(xs, g), f) <= Total(xs, h)
  {
    if xs != [] {
      var front, last := xs[..|xs| - 1], xs[|xs| - 1];
      TotalFlat(front, g, f, h);
      TotalConcat(FlatMap(front, g), g(last), f);
      assert last in xs;
    }
  }

  lemma {:induction false} TotalFlatAtLeast<A, B>(xs: seq<A>, g: A -> seq<B>, f: B -> nat, h: A -> nat)
    requires forall x :: x in xs ==> Total(g(x), f) >= h(x)
    ensures Total(FlatMap(xs, g), f) >= Total(xs, h)
  {
    if xs != [] {
      var front, last := xs[..|xs| - 1], xs[|xs| - 1];
      TotalFlatAtLeast(front, g, f, h);
      TotalConcat(FlatMap(front, g), g(last), f);
      assert last in xs;
    }
  }

  /** A smaller measure has a smaller sum, strictly so if it is smaller wherever the other is positive, and the other is somewhere. */
  lemma {:induction false} TotalLess<A>(xs: seq<A>, f: A -> nat, g: A -> nat)
    requires forall x :: x in xs ==> f(x) <= g(x) && (g(x) > 0 ==> f(x) < g(x))
    ensures Total(xs, f) <= Total(xs, g) && (Total(xs, g) > 0 ==> Total(xs, f) < Total(xs, g))
  {
    if xs != [] {
      assert xs[|xs| - 1] in xs;
      TotalLess(xs[..|xs| - 1], f, g);
    }
  }

  lemma {:induction false} TotalZero<A>(xs: seq<A>, f: A -> nat)
    ensures Total(xs, f) == 0 <==> forall x :: x in xs ==> f(x) == 0
  {
    if xs != [] {
      var front, last := xs[..|xs| - 1], xs[|xs| - 1];
      TotalZero(front, f);
      assert forall x :: x in xs <==> x in front || x == last;
    }
  }

  /** A list without repetitions meets a key at most once. */
  lemma {:induction false} TotalAt<K(!new)>(keys: seq<K>, f: K -> nat, g: K -> nat, k: K, v: nat)
    requires Distinct(keys) && forall x :: g(x) <= f(x) + (if x == k then v else 0)
    ensures Total(keys, g) <= Total(keys, f) + (if k in keys then v else 0)
  {
    if keys != [] {
      var front, last := keys[..|keys| - 1], keys[|keys| - 1];
      TotalAt(front, f, g, k, v);
      assert k in keys <==> k in front || k == last;
      assert k == last ==> k !in front;
    }
  }

  /** What is sorted by keys is not more than there was. */
  lemma {:induction false} TotalByKey<A, K(!new), V>(xs: seq<A>, key: A -> K, value: A -> V, keys: seq<K>, f: V -> nat, g: A -> nat)
    requires Distinct(keys) && forall x :: x in xs ==> f(value(x)) <= g(x)
    ensures Total(keys, (k: K) => Total(ValuesAt(xs, key, value, k), f)) <= Total(xs, g)
  {
    var all := (k: K) => Total(ValuesAt(xs, key, value, k), f);
    if xs == [] {
      TotalZero(keys, all);
    } else {
      var front, last := xs[..|xs| - 1], xs[|xs| - 1];
      var some := (k: K) => Total(ValuesAt(front, key, value, k), f);
      TotalByKey(front, key, value, keys, f, g);
      assert last in xs;
      forall k ensures all(k) <= some(k) + (if k == key(last) then f(value(last)) else 0) {
        TotalPush(ValuesAt(front, key, value, k), f, value(last));
        assert ValuesAt(front, key, value, k) + [] == ValuesAt(front, key, value, k);
      }
      TotalAt(keys, some, all, key(last), f(value(last)));
    }
  }

  /** What a map holds for a key; like Go, an absent key holds the empty list. */
  function Held<K, V>(m: map<K, seq<V>>, k: K): seq<V> {
    if k in m then m[k] else []
  }

  function Put<K, V>(m: map<K, seq<V>>, k: K, v: V): map<K, seq<V>> {
    m[k := Held(m, k) + [v]]
  }

  /** `m` after appending the value of each element to the list of its key. */
  function Group<A, K, V>(m: map<K, seq<V>>, xs: seq<A>, key: A -> K, value: A -> V): map<K, seq<V>> {
    if xs == [] then
      m
    else
      var last := xs[|xs| - 1];
      Put(Group(m, xs[..|xs| - 1], key, value), key(last), value(last))
  }

  lemma GroupPush<A, K, V>(m: map<K, seq<V>>, xs: seq<A>, key: A -> K, value: A -> V, x: A)
    ensures Group(m, xs + [x], key, value) == Put(Group(m, xs, key, value), key(x), value(x))
  {
    assert (xs + [x])[..|xs|] == xs;
  }

  /** The values of the elements with one key, in order. */
  function ValuesAt<A, K(==), V>(xs: seq<A>, key: A -> K, value: A -> V, k: K): seq<V> {
    if xs == [] then
      []
    else
      var last := xs[|xs| - 1];
      ValuesAt(xs[..|xs| - 1], key, value, k) + (if key(last) == k then [value(last)] else [])
  }

  lemma {:induction false} GroupHolds<A(!new), K, V>(m: map<K, seq<V>>, xs: seq<A>, key: A -> K, value: A -> V, k: K)
    ensures Held(Group(m, xs, key, value), k) == Held(m, k) + ValuesAt(xs, key, value, k)
    ensures k in Group(m, xs, key, value) <==> k in m || exists x :: x in xs && key(x) == k
  {
    if xs != [] {
      var front, last := xs[..|xs| - 1], xs[|xs| - 1];
      GroupHolds(m, front, key, value, k);
      assert last in xs;
      assert xs == front + [last];
      assert forall x :: x in xs <==> x in front || x == last;
    }
  }
}
