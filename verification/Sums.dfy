/** Options, and sums of integer weights over sequences and over the values of finite maps. */
module Sums {

  datatype Option<+T> = None | Some(value: T)

  /** Sets and Go maps are visited in no particular order. */
  method AnyOf<T>(s: set<T>) returns (x: T)
    requires s != {}
    ensures x in s
  {
    x :| x in s;
  }

  ghost function SeqSum<T>(s: seq<T>, f: T -> int): int {
    if s == [] then 0 else SeqSum(s[..|s| - 1], f) + f(s[|s| - 1])
  }

  lemma SeqSumSnoc<T>(s: seq<T>, x: T, f: T -> int)
    ensures SeqSum(s + [x], f) == SeqSum(s, f) + f(x)
  {
    assert (s + [x])[..|s|] == s;
  }

  /** Pointwise smaller terms give a smaller sum, and equal sums only when every term is equal. */
  lemma {:induction false} SeqSumCompare<T>(s: seq<T>, f: T -> int, g: T -> int)
    requires forall x :: x in s ==> f(x) <= g(x)
    ensures SeqSum(s, f) <= SeqSum(s, g)
    ensures SeqSum(s, f) == SeqSum(s, g) <==> forall x :: x in s ==> f(x) == g(x)
  {
    if s != [] {
      SeqSumCompare(s[..|s| - 1], f, g);
      assert s == s[..|s| - 1] + [s[|s| - 1]];
    }
  }

  lemma {:induction false} SeqSumAdd<T>(s: seq<T>, f: T -> int, g: T -> int, h: T -> int)
    requires forall x :: x in s ==> h(x) == f(x) + g(x)
    ensures SeqSum(s, h) == SeqSum(s, f) + SeqSum(s, g)
  {
    if s != [] { SeqSumAdd(s[..|s| - 1], f, g, h); }
  }

  /** The sum of f over the values of m; the order of summation does not matter (SumRemove). */
  ghost function Sum<K, V>(m: map<K, V>, f: V -> int): int
    decreases |m|
  {
    if m == map[] then 0
    else
      assert m.Keys != {};
      var k :| k in m;
      f(m[k]) + Sum(m - {k}, f)
  }

  /** Any key may be taken out first. */
  lemma {:induction false} SumRemove<K, V>(m: map<K, V>, f: V -> int, k: K)
    requires k in m
    ensures Sum(m, f) == f(m[k]) + Sum(m - {k}, f)
    decreases |m|
  {
    var c: K :| c in m && Sum(m, f) == f(m[c]) + Sum(m - {c}, f);
    if c != k {
      SumRemove(m - {c}, f, k);
      SumRemove(m - {k}, f, c);
      assert m - {c} - {k} == m - {k} - {c};
    }
  }

  ghost function At<K, V>(m: map<K, V>, f: V -> int, k: K): int {
    if k in m then f(m[k]) else 0
  }

  /** Writing one entry changes the sum by the change of that entry's weight. */
  lemma SumWrite<K, V>(m: map<K, V>, f: V -> int, k: K, v: V)
    ensures Sum(m[k := v], f) == Sum(m, f) + f(v) - At(m, f, k)
  {
    SumRemove(m[k := v], f, k);
    if k in m {
      SumRemove(m, f, k);
      assert m[k := v] - {k} == m - {k};
    } else {
      assert m[k := v] - {k} == m;
    }
  }

  /** Two weights that together stay below a third on every value do so in sum. */
  lemma {:induction false} SumLe<K, V>(m: map<K, V>, f: V -> int, g: V -> int, h: V -> int)
    requires forall k :: k in m ==> f(m[k]) + g(m[k]) <= h(m[k])
    ensures Sum(m, f) + Sum(m, g) <= Sum(m, h)
    decreases |m|
  {
    if m != map[] {
      var k :| k in m;
      SumRemove(m, f, k);
      SumRemove(m, g, k);
      SumRemove(m, h, k);
      SumLe(m - {k}, f, g, h);
    }
  }

  lemma {:induction false} SumAdd<K, V>(m: map<K, V>, f: V -> int, g: V -> int, h: V -> int)
    requires forall k :: k in m ==> f(m[k]) + g(m[k]) == h(m[k])
    ensures Sum(m, f) + Sum(m, g) == Sum(m, h)
    decreases |m|
  {
    if m != map[] {
      var k :| k in m;
      SumRemove(m, f, k);
      SumRemove(m, g, k);
      SumRemove(m, h, k);
      SumAdd(m - {k}, f, g, h);
    }
  }

  lemma {:induction false} SumZero<K, V>(m: map<K, V>, f: V -> int)
    requires forall k :: k in m ==> f(m[k]) == 0
    ensures Sum(m, f) == 0
    decreases |m|
  {
    if m != map[] {
      var k :| k in m;
      SumRemove(m, f, k);
      SumZero(m - {k}, f);
    }
  }

  lemma {:induction false} SumScale<K, V>(m: map<K, V>, f: V -> int, g: V -> int, c: int)
    requires forall k :: k in m ==> g(m[k]) == c * f(m[k])
    ensures Sum(m, g) == c * Sum(m, f)
    decreases |m|
  {
    if m != map[] {
      var k :| k in m;
      SumRemove(m, f, k);
      SumRemove(m, g, k);
      SumScale(m - {k}, f, g, c);
      Distribute(c, f(m[k]), Sum(m - {k}, f));
    }
  }

  /** Weights within a distance on every value are within the summed distance. */
  lemma {:induction false} SumWithin<K, V>(m: map<K, V>, f: V -> int, g: V -> int, h: V -> int)
    requires forall k :: k in m ==> g(m[k]) - h(m[k]) <= f(m[k]) <= g(m[k]) + h(m[k])
    ensures Sum(m, g) - Sum(m, h) <= Sum(m, f) <= Sum(m, g) + Sum(m, h)
    decreases |m|
  {
    if m != map[] {
      var k :| k in m;
      SumRemove(m, f, k);
      SumRemove(m, g, k);
      SumRemove(m, h, k);
      SumWithin(m - {k}, f, g, h);
    }
  }

  lemma {:induction false} SumConst<K, V>(m: map<K, V>, f: V -> int, c: int)
    requires forall k :: k in m ==> f(m[k]) == c
    ensures Sum(m, f) == c * |m|
    decreases |m|
  {
    if m != map[] {
      var k :| k in m;
      SumRemove(m, f, k);
      SumConst(m - {k}, f, c);
      Distribute(c, |m| - 1, 1);
    }
  }

  lemma Distribute(c: int, x: int, y: int)
    ensures c * (x + y) == c * x + c * y
  {
  }

  lemma SumTwo<K, V>(m: map<K, V>, f: V -> int, a: K, b: K)
    requires a != b && m.Keys == {a, b}
    ensures Sum(m, f) == f(m[a]) + f(m[b])
  {
    SumRemove(m, f, a);
    SumRemove(m - {a}, f, b);
    assert m - {a} - {b} == map[];
  }

  lemma SumThree<K, V>(m: map<K, V>, f: V -> int, a: K, b: K, c: K)
    requires a != b && b != c && c != a && m.Keys == {a, b, c}
    ensures Sum(m, f) == f(m[a]) + f(m[b]) + f(m[c])
  {
    SumRemove(m, f, a);
    SumRemove(m - {a}, f, b);
    SumRemove(m - {a} - {b}, f, c);
    assert m - {a} - {b} - {c} == map[];
  }
}
