/** Python's `sorted` on a list of integers, and the collapse of runs of
    equal neighbours that turns a sorted list into the sorted set of its
    values. */
module Sorting {

  predicate Ascending(xs: seq<int>) {
    forall i, j :: 0 <= i < j < |xs| ==> xs[i] <= xs[j]
  }

  predicate StrictlyAscending(xs: seq<int>) {
    forall i, j :: 0 <= i < j < |xs| ==> xs[i] < xs[j]
  }

  /** x placed into the ascending list xs. */
  function Insert(x: int, xs: seq<int>): (r: seq<int>)
    requires Ascending(xs)
    ensures Ascending(r)
    ensures multiset(r) == multiset(xs) + multiset{x}
  {
    if xs == [] || x <= xs[0] then
      assert forall i :: 0 <= i < |xs| ==> xs[0] <= xs[i];
      [x] + xs
    else
      var rest := Insert(x, xs[1..]);
      assert xs == [xs[0]] + xs[1..];
      AscendingCons(xs[0], xs[1..], x, rest);
      [xs[0]] + rest
  }

  /** Placing x, larger than the head h, into the tail keeps h first. */
  lemma {:induction false} AscendingCons(h: int, tail: seq<int>, x: int, rest: seq<int>)
    requires Ascending([h] + tail) && h < x
    requires Ascending(rest) && multiset(rest) == multiset(tail) + multiset{x}
    ensures Ascending([h] + rest)
  {
    forall i | 0 <= i < |rest| ensures h <= rest[i] {
      assert rest[i] in multiset(rest);
      if rest[i] != x {
        assert rest[i] in multiset(tail);
        var j :| 0 <= j < |tail| && tail[j] == rest[i];
        assert ([h] + tail)[0] == h && ([h] + tail)[j + 1] == tail[j];
      }
    }
    forall i, j | 0 <= i < j < |[h] + rest| ensures ([h] + rest)[i] <= ([h] + rest)[j] {
      if i > 0 {
        assert ([h] + rest)[i] == rest[i - 1];
      }
    }
  }

  /** The ascending rearrangement of xs, as `sorted(xs)` returns it. */
  function Sort(xs: seq<int>): (r: seq<int>)
    ensures Ascending(r)
    ensures multiset(r) == multiset(xs)
  {
    if xs == [] then []
    else
      assert xs == xs[..|xs| - 1] + [xs[|xs| - 1]];
      Insert(xs[|xs| - 1], Sort(xs[..|xs| - 1]))
  }

  /** An ascending list is determined by its multiset of values, so sorting
      any rearrangement of xs gives the same list. */
  lemma {:induction false} AscendingUnique(a: seq<int>, b: seq<int>)
    requires Ascending(a) && Ascending(b)
    requires multiset(a) == multiset(b)
    ensures a == b
  {
    assert |a| == |multiset(a)| == |multiset(b)| == |b|;
    if a != [] {
      SameHead(a, b);
      DropHead(a);
      DropHead(b);
      AscendingUnique(a[1..], b[1..]);
      assert a == [a[0]] + a[1..] && b == [b[0]] + b[1..];
    }
  }

  /** Two ascending lists with the same values start with the same least value. */
  lemma {:induction false} SameHead(a: seq<int>, b: seq<int>)
    requires Ascending(a) && Ascending(b)
    requires multiset(a) == multiset(b) && a != [] && b != []
    ensures a[0] == b[0]
  {
    assert a[0] in multiset(b) && b[0] in multiset(a);
    var i :| 0 <= i < |b| && b[i] == a[0];
    var j :| 0 <= j < |a| && a[j] == b[0];
    assert b[0] <= b[i];
    assert a[0] <= a[j];
  }

  lemma {:induction false} DropHead(a: seq<int>)
    requires a != []
    ensures multiset(a[1..]) == multiset(a) - multiset{a[0]}
  {
    assert a == [a[0]] + a[1..];
  }

  /** Sorting depends only on the multiset of values sorted. */
  lemma {:induction false} SortPermutation(xs: seq<int>, ys: seq<int>)
    requires multiset(xs) == multiset(ys)
    ensures Sort(xs) == Sort(ys)
  {
    AscendingUnique(Sort(xs), Sort(ys));
  }

  /** xs with every run of equal neighbours reduced to one element. */
  function Collapse(xs: seq<int>): (r: seq<int>)
    ensures |r| <= |xs|
    ensures |xs| > 0 ==> |r| > 0 && r[|r| - 1] == xs[|xs| - 1]
  {
    if |xs| < 2 then xs
    else
      var n := |xs| - 1;
      var c := Collapse(xs[..n]);
      if xs[n] == xs[n - 1] then c else c + [xs[n]]
  }

  /** Collapsing keeps exactly the values of xs. */
  lemma {:induction false} CollapseMembers(xs: seq<int>)
    ensures forall y :: y in Collapse(xs) <==> y in xs
  {
    if |xs| >= 2 {
      var n := |xs| - 1;
      CollapseMembers(xs[..n]);
      assert xs == xs[..n] + [xs[n]];
      assert xs[n - 1] in xs[..n];
    }
  }

  /** Collapsing an ascending list leaves a strictly ascending one. */
  lemma {:induction false} CollapseStrict(xs: seq<int>)
    requires Ascending(xs)
    ensures StrictlyAscending(Collapse(xs))
  {
    if |xs| >= 2 {
      var n := |xs| - 1;
      var c := Collapse(xs[..n]);
      CollapseStrict(xs[..n]);
      CollapseMembers(xs[..n]);
      if xs[n] != xs[n - 1] {
        forall i | 0 <= i < |c| ensures c[i] < xs[n] {
          assert c[i] in xs[..n];
          var j :| 0 <= j < n && xs[j] == c[i];
          assert xs[j] <= xs[n - 1];
        }
      }
    }
  }
}
