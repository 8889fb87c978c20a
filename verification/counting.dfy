/** `.filter(p).count()` over a finite sequence, where evaluating `p` may
    panic: the count of elements `p` keeps, or a panic if `p` panics on any
    element (the count consumes the whole iterator). */
module Counting {
  import opened Outcomes

  /** What one element adds to the count: one when `p` keeps it. */
  function Indicator(keep: bool): nat
  {
    if keep then 1 else 0
  }

  function CountWhere<T>(xs: seq<T>, p: T -> Outcome<bool>): (r: Outcome<nat>)
    ensures r == Panic <==> exists i :: 0 <= i < |xs| && p(xs[i]) == Panic
    ensures r.Done? ==> r.value <= |xs|
    decreases |xs|
  {
    if |xs| == 0 then Done(0)
    else
      match p(xs[0])
      case Panic => Panic
      case Done(keep) =>
        var rest := CountWhere(xs[1..], p);
        assert forall i :: 0 < i < |xs| ==> xs[i] == xs[1..][i - 1];
        AddCounts(Done(Indicator(keep)), rest)
  }

  /** Counting over a concatenation adds the two counts. */
  lemma {:induction false} CountWhereAppend<T>(a: seq<T>, b: seq<T>, p: T -> Outcome<bool>)
    ensures CountWhere(a + b, p) == AddCounts(CountWhere(a, p), CountWhere(b, p))
    decreases |a|
  {
    if |a| == 0 {
      assert a + b == b;
    } else {
      assert (a + b)[0] == a[0];
      assert (a + b)[1..] == a[1..] + b;
      CountWhereAppend(a[1..], b, p);
      match p(a[0])
      case Panic =>
      case Done(keep) =>
        AddCountsAssociates(Done(Indicator(keep)), CountWhere(a[1..], p), CountWhere(b, p));
    }
  }

  /** The count does not depend on the order of the elements. */
  lemma {:induction false} CountWherePermutation<T>(a: seq<T>, b: seq<T>, p: T -> Outcome<bool>)
    requires multiset(a) == multiset(b)
    ensures CountWhere(a, p) == CountWhere(b, p)
    decreases |a|
  {
    if |a| == 0 {
      assert |multiset(b)| == 0;
    } else {
      var x := a[0];
      assert x in multiset(b);
      var j :| 0 <= j < |b| && b[j] == x;
      var b1, b2 := b[..j], b[j + 1..];
      assert b == b1 + [x] + b2;
      assert a == [x] + a[1..];
      assert multiset(a[1..]) == multiset(b1 + b2) by {
        calc {
          multiset(a[1..]) + multiset{x};
          multiset(a);
          multiset(b);
          multiset(b1 + [x] + b2);
          multiset(b1) + multiset{x} + multiset(b2);
          multiset(b1 + b2) + multiset{x};
        }
        assert multiset(a[1..]) == multiset(a[1..]) + multiset{x} - multiset{x};
        assert multiset(b1 + b2) == multiset(b1 + b2) + multiset{x} - multiset{x};
      }
      CountWherePermutation(a[1..], b1 + b2, p);
      CountWhereAppend([x], a[1..], p);
      CountWhereAppend(b1, b2, p);
      CountWhereAppend(b1 + [x], b2, p);
      CountWhereAppend(b1, [x], p);
      AddCountsAssociates(CountWhere(b1, p), CountWhere([x], p), CountWhere(b2, p));
      AddCountsAssociates(CountWhere([x], p), CountWhere(b1, p), CountWhere(b2, p));
      AddCountsCommutes(CountWhere(b1, p), CountWhere([x], p));
    }
  }

  /** Reference: the positions whose element `p` keeps. */
  function KeptPositions<T>(xs: seq<T>, p: T -> Outcome<bool>): set<nat>
  {
    set i: nat | i < |xs| && p(xs[i]) == Done(true)
  }

  lemma KeptPositionsSnoc<T>(init: seq<T>, x: T, p: T -> Outcome<bool>)
    ensures KeptPositions(init + [x], p) ==
      if p(x) == Done(true) then KeptPositions(init, p) + {|init|} else KeptPositions(init, p)
  {
    var xs := init + [x];
    forall i: nat | i < |init| ensures xs[i] == init[i] { }
    assert xs[|init|] == x;
  }

  lemma CountWhereSingle<T>(x: T, p: T -> Outcome<bool>)
    ensures CountWhere([x], p) ==
      match p(x) case Panic => Panic case Done(keep) => Done(Indicator(keep))
  {
    assert [x][1..] == [];
  }

  /** One more element adds one to the count when `p` keeps it. */
  lemma CountWhereSnoc<T>(xs: seq<T>, x: T, p: T -> Outcome<bool>, n: nat, keep: bool)
    requires CountWhere(xs, p) == Done(n) && p(x) == Done(keep)
    ensures CountWhere(xs + [x], p) == Done(if keep then n + 1 else n)
  {
    var k := Indicator(keep);
    CountWhereSingle(x, p);
    CountWhereAppend(xs, [x], p);
    AddCountsDone(n, k);
  }

  /** When nothing panics, the count is the number of kept positions. */
  lemma {:induction false} CountWhereIsCardinality<T>(xs: seq<T>, p: T -> Outcome<bool>)
    requires CountWhere(xs, p).Done?
    ensures CountWhere(xs, p).value == |KeptPositions(xs, p)|
    decreases |xs|
  {
    if |xs| > 0 {
      var m := |xs| - 1;
      var init, x := xs[..m], xs[m];
      assert xs == init + [x];
      CountWhereAppend(init, [x], p);
      CountWhereSingle(x, p);
      var c0 := CountWhere(init, p);
      assert c0.Done?;
      CountWhereIsCardinality(init, p);
      KeptPositionsSnoc(init, x, p);
      var k0 := KeptPositions(init, p);
      assert m !in k0;
      if p(x) == Done(true) {
        assert |k0 + {m}| == |k0| + 1;
      }
    } else {
      assert KeptPositions(xs, p) == {};
    }
  }

  /** The keys of the kept elements. */
  function KeptKeys<T, K(==)>(xs: seq<T>, p: T -> Outcome<bool>, key: T -> K): set<K>
  {
    set i | 0 <= i < |xs| && p(xs[i]) == Done(true) :: key(xs[i])
  }

  /** No two kept elements share a key. */
  predicate DistinctKeptKeys<T, K(==)>(xs: seq<T>, p: T -> Outcome<bool>, key: T -> K)
  {
    forall i, j :: 0 <= i < j < |xs| && p(xs[i]) == Done(true) && p(xs[j]) == Done(true)
      ==> key(xs[i]) != key(xs[j])
  }

  lemma InKeptKeys<T, K>(xs: seq<T>, p: T -> Outcome<bool>, key: T -> K, k: K)
    ensures k in KeptKeys(xs, p, key) <==>
      exists i :: 0 <= i < |xs| && p(xs[i]) == Done(true) && key(xs[i]) == k
  {
  }

  lemma KeptKeysSnoc<T, K>(init: seq<T>, x: T, p: T -> Outcome<bool>, key: T -> K)
    ensures KeptKeys(init + [x], p, key) ==
      if p(x) == Done(true) then KeptKeys(init, p, key) + {key(x)} else KeptKeys(init, p, key)
  {
    var xs := init + [x];
    forall i | 0 <= i < |init| ensures xs[i] == init[i] { }
    assert xs[|init|] == x;
  }

  /** With distinct keys, there are as many keys as kept elements. */
  lemma {:induction false} KeptKeysCount<T, K>(xs: seq<T>, p: T -> Outcome<bool>, key: T -> K)
    requires DistinctKeptKeys(xs, p, key)
    ensures |KeptKeys(xs, p, key)| == |KeptPositions(xs, p)|
    decreases |xs|
  {
    if |xs| == 0 {
      assert KeptKeys(xs, p, key) == {};
      assert KeptPositions(xs, p) == {};
    } else {
      var m := |xs| - 1;
      var init, x := xs[..m], xs[m];
      assert xs == init + [x];
      assert DistinctKeptKeys(init, p, key) by {
        forall i, j | 0 <= i < j < |init| ensures init[i] == xs[i] && init[j] == xs[j] { }
      }
      KeptKeysCount(init, p, key);
      KeptKeysSnoc(init, x, p, key);
      KeptPositionsSnoc(init, x, p);
      var keys0, kept0 := KeptKeys(init, p, key), KeptPositions(init, p);
      assert m !in kept0;
      if p(x) == Done(true) {
        forall i | 0 <= i < |init| && p(init[i]) == Done(true) ensures key(init[i]) != key(x) {
          assert xs[i] == init[i];
        }
        assert key(x) !in keys0;
        assert |keys0 + {key(x)}| == |keys0| + 1;
        assert |kept0 + {m}| == |kept0| + 1;
      }
    }
  }
}
