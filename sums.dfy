/** Finite sums over sequences of keys.

    The fitness score is a sum of terms indexed by slots, rooms, facilitators
    or assignments. The program visits those keys in whatever order its
    dictionaries and sets happen to hold them; the lemmas here say that the
    order does not matter, and that a sum of a two-valued indicator counts
    the keys that satisfy it. */
module Sums {

  /** No key occurs twice. */
  predicate NoDup<K(==)>(xs: seq<K>) {
    forall i, j :: 0 <= i < j < |xs| ==> xs[i] != xs[j]
  }

  /** f summed over keys, from the first key to the last. */
  function Sum<K>(keys: seq<K>, f: K -> real): real {
    if keys == [] then 0.0 else Sum(keys[..|keys| - 1], f) + f(keys[|keys| - 1])
  }

  lemma {:induction false} SumAppend<K>(a: seq<K>, b: seq<K>, f: K -> real)
    ensures Sum(a + b, f) == Sum(a, f) + Sum(b, f)
  {
    if b == [] {
      assert a + b == a;
    } else {
      var n := |b| - 1;
      assert (a + b)[..|a + b| - 1] == a + b[..n];
      SumAppend(a, b[..n], f);
    }
  }

  /** Taking one key out of the sum. */
  lemma {:induction false} SumRemoveAt<K>(xs: seq<K>, i: nat, f: K -> real)
    requires i < |xs|
    ensures Sum(xs, f) == Sum(xs[..i] + xs[i + 1..], f) + f(xs[i])
  {
    var a, b := xs[..i], xs[i + 1..];
    SplitAt(xs, i);
    SumSnoc(a, xs[i], f);
    SumAppend(a + [xs[i]], b, f);
    SumAppend(a, b, f);
  }

  lemma {:induction false} SplitAt<K>(xs: seq<K>, i: nat)
    requires i < |xs|
    ensures xs == (xs[..i] + [xs[i]]) + xs[i + 1..]
  {
  }

  lemma {:induction false} SumSnoc<K>(a: seq<K>, x: K, f: K -> real)
    ensures Sum(a + [x], f) == Sum(a, f) + f(x)
  {
    assert (a + [x])[..|a|] == a;
  }

  /** xs with its i-th key taken out. */
  function Without<K>(xs: seq<K>, i: nat): seq<K>
    requires i < |xs|
  {
    xs[..i] + xs[i + 1..]
  }

  lemma {:induction false} WithoutKeys<K>(xs: seq<K>, i: nat)
    requires i < |xs| && NoDup(xs)
    ensures NoDup(Without(xs, i))
    ensures forall k :: k in Without(xs, i) <==> k in xs && k != xs[i]
  {
    var w := Without(xs, i);
    assert |w| == |xs| - 1;
    assert forall j :: 0 <= j < |w| ==> w[j] == xs[if j < i then j else j + 1];
    forall k ensures k in w <==> k in xs && k != xs[i] {
      if k in xs && k != xs[i] {
        var j :| 0 <= j < |xs| && xs[j] == k;
        assert w[if j < i then j else j - 1] == k;
      }
    }
  }

  /** A sum over a duplicate-free list equals the sum over any duplicate-free
      list containing it, when f vanishes on the extra keys. In particular two
      duplicate-free lists of the same keys, in any order, have the same sum. */
  lemma {:induction false} SumSupport<K>(xs: seq<K>, ys: seq<K>, f: K -> real)
    requires NoDup(xs) && NoDup(ys)
    requires forall k :: k in xs ==> k in ys
    requires forall k :: k in ys && k !in xs ==> f(k) == 0.0
    ensures Sum(xs, f) == Sum(ys, f)
    decreases |xs|
  {
    if xs == [] {
      SumZero(ys, f);
    } else {
      var n := |xs| - 1;
      var x := xs[n];
      var xs' := xs[..n];
      assert xs == xs' + [x];
      assert forall j :: 0 <= j < n ==> xs'[j] != x;
      assert x in ys;
      var i :| 0 <= i < |ys| && ys[i] == x;
      var ys' := Without(ys, i);
      WithoutKeys(ys, i);
      SumSupport(xs', ys', f);
      SumRemoveAt(ys, i, f);
    }
  }

  /** The number of keys where P holds. */
  function Count<K>(keys: seq<K>, P: K -> bool): nat {
    if keys == [] then 0 else Count(keys[..|keys| - 1], P) + if P(keys[|keys| - 1]) then 1 else 0
  }

  /** Over a duplicate-free list, the keys where P holds are counted by the
      size of any set that holds exactly them. */
  lemma {:induction false} CountIs<K>(keys: seq<K>, P: K -> bool, S: set<K>)
    requires NoDup(keys)
    requires forall k :: k in S <==> k in keys && P(k)
    ensures Count(keys, P) == |S|
  {
    if keys == [] {
      assert S == {};
    } else {
      var n := |keys| - 1;
      var y := keys[n];
      var S' := S - {y};
      forall k ensures k in S' <==> k in keys[..n] && P(k) {
        if k in keys[..n] {
          var i :| 0 <= i < n && keys[..n][i] == k;
          assert keys[i] == k && i != n;
        }
        if k in keys && k != y {
          var i :| 0 <= i < |keys| && keys[i] == k;
          assert keys[..n][i] == k;
        }
      }
      CountIs(keys[..n], P, S');
      if P(y) {
        assert S == S' + {y};
      } else {
        assert S == S';
      }
    }
  }

  /** A sum of a term that is c where P holds and 0 elsewhere is c times the
      number of keys where P holds. */
  lemma {:induction false} SumOfIndicator<K>(keys: seq<K>, f: K -> real, P: K -> bool, c: real)
    requires forall k :: k in keys ==> f(k) == if P(k) then c else 0.0
    ensures Sum(keys, f) == c * (Count(keys, P) as real)
  {
    if keys != [] {
      var n := |keys| - 1;
      assert forall k :: k in keys[..n] ==> k in keys;
      SumOfIndicator(keys[..n], f, P, c);
      assert keys[n] in keys;
      ScaleStep(c, Count(keys[..n], P), Count(keys, P), P(keys[n]));
    }
  }

  /** A sum of a term that is c on the keys of S and 0 on the other keys
      of a duplicate-free list is c times the size of S. */
  lemma {:induction false} IndicatorSum<K>(keys: seq<K>, f: K -> real, P: K -> bool, c: real, S: set<K>)
    requires NoDup(keys)
    requires forall k :: k in keys ==> f(k) == if P(k) then c else 0.0
    requires forall k :: k in S <==> k in keys && P(k)
    ensures Sum(keys, f) == c * (|S| as real)
  {
    SumOfIndicator(keys, f, P, c);
    CountIs(keys, P, S);
  }

  lemma {:induction false} ScaleStep(c: real, m: nat, total: nat, b: bool)
    requires total == m + if b then 1 else 0
    ensures c * (total as real) == c * (m as real) + if b then c else 0.0
  {
  }

  /** Sums are additive in the summed term. */
  lemma {:induction false} SumAdd<K>(keys: seq<K>, f: K -> real, g: K -> real, h: K -> real)
    requires forall k :: k in keys ==> h(k) == f(k) + g(k)
    ensures Sum(keys, h) == Sum(keys, f) + Sum(keys, g)
  {
    if keys != [] {
      var n := |keys| - 1;
      assert forall k :: k in keys[..n] ==> k in keys;
      SumAdd(keys[..n], f, g, h);
    }
  }

  /** A term that vanishes on every key sums to zero. */
  lemma {:induction false} SumZero<K>(keys: seq<K>, f: K -> real)
    requires forall k :: k in keys ==> f(k) == 0.0
    ensures Sum(keys, f) == 0.0
  {
    if keys != [] {
      var n := |keys| - 1;
      assert forall k :: k in keys[..n] ==> k in keys;
      SumZero(keys[..n], f);
    }
  }
}
