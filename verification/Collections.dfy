/** Lists and finite sets as the simulator uses them: duplicate-free lists, removal of one
    element, and the counting facts that turn list lengths into set sizes. */
module Collections {
  datatype Option<+T> = None | Some(value: T)

  /** No element is listed twice. */
  ghost predicate NoDup<T(!new)>(q: seq<T>) {
    forall x {:trigger multiset(q)[x]} :: multiset(q)[x] <= 1
  }

  /** `list.remove(x)`: drops the first occurrence. */
  function Without<T(==)>(q: seq<T>, x: T): (r: seq<T>)
    ensures multiset(r) == multiset(q) - multiset{x}
    ensures x !in q ==> r == q
  {
    if q == [] then []
    else
      assert q == [q[0]] + q[1..];
      if q[0] == x then q[1..] else [q[0]] + Without(q[1..], x)
  }

  lemma WithoutMeaning<T(!new)>(q: seq<T>, x: T)
    requires NoDup(q)
    ensures NoDup(Without(q, x)) && x !in Without(q, x)
    ensures forall y :: y in Without(q, x) <==> y in q && y != x
    ensures |Without(q, x)| == |q| - if x in q then 1 else 0
  {
    var r := Without(q, x);
    assert forall y :: y in q <==> y in multiset(q);
    assert forall y :: y in r <==> y in multiset(r);
    assert |r| == |multiset(r)| && |q| == |multiset(q)|;
  }

  function SetOf<T(!new)>(q: seq<T>): (r: set<T>)
    ensures forall x :: x in r <==> x in q
  {
    set x | x in q
  }

  lemma {:induction false} CountDistinct<T(!new)>(q: seq<T>)
    requires NoDup(q)
    ensures |SetOf(q)| == |q|
  {
    if q != [] {
      var n := |q| - 1;
      var init := q[..n];
      assert q == init + [q[n]];
      assert multiset(q) == multiset(init) + multiset{q[n]};
      assert NoDup(init) by {
        forall x ensures multiset(init)[x] <= 1 { assert multiset(q)[x] <= 1; }
      }
      CountDistinct(init);
      assert SetOf(q) == SetOf(init) + {q[n]};
      assert multiset(q)[q[n]] <= 1;
    }
  }

  lemma {:induction false} SubsetSize<T>(a: set<T>, b: set<T>)
    requires a <= b
    ensures |a| <= |b|
  {
    if a != {} {
      var x :| x in a;
      SubsetSize(a - {x}, b - {x});
    }
  }

  /** An injection between finite sets bounds their sizes. */
  lemma {:induction false} InjectionBound<A, B>(dom: set<A>, f: map<A, B>, cod: set<B>)
    requires forall a :: a in dom ==> a in f && f[a] in cod
    requires forall a, b :: a in dom && b in dom && a != b ==> f[a] != f[b]
    ensures |dom| <= |cod|
  {
    if dom != {} {
      var x :| x in dom;
      InjectionBound(dom - {x}, f, cod - {f[x]});
    }
  }

  /** Two sets that differ at most in `x`. */
  lemma SwapCount<T(!new)>(a: set<T>, b: set<T>, x: T)
    requires forall y :: y != x ==> (y in a <==> y in b)
    ensures |b| == |a| - (if x in a then 1 else 0) + (if x in b then 1 else 0)
  {
    assert a - {x} == b - {x};
    assert |a - {x}| == |a| - if x in a then 1 else 0;
    assert |b - {x}| == |b| - if x in b then 1 else 0;
  }

  lemma NoDupIndex<T(!new)>(q: seq<T>, i: nat, k: nat)
    requires NoDup(q) && i < k < |q|
    ensures q[i] != q[k]
  {
    assert q == q[..k] + [q[k]] + q[k + 1..];
    assert q[i] in multiset(q[..k]);
    assert multiset(q)[q[k]] <= 1;
  }

  lemma NotEarlier<T(!new)>(ids: seq<T>, i: nat)
    requires NoDup(ids) && i < |ids|
    ensures ids[i] !in ids[..i] && ids[i] !in SetOf(ids[..i]) && SetOf(ids[..i + 1]) == SetOf(ids[..i]) + {ids[i]}
  {
    if ids[i] in ids[..i] {
      var k :| 0 <= k < i && ids[k] == ids[i];
      NoDupIndex(ids, k, i);
    }
  }

  lemma TakeOneMore<T>(q: seq<T>, n: nat)
    requires n < |q|
    ensures q[..n + 1] == q[..n] + [q[n]]
  {
  }

  lemma NoDupAppend<T(!new)>(q: seq<T>, x: T)
    requires NoDup(q) && x !in q
    ensures NoDup(q + [x])
  {
    assert x !in multiset(q);
  }

  /** Lists that are permutations of each other. */
  lemma SameMembers<T(!new)>(p: seq<T>, q: seq<T>)
    requires multiset(q) == multiset(p)
    ensures |q| == |p| && SetOf(q) == SetOf(p) && (NoDup(p) ==> NoDup(q))
  {
    assert |q| == |multiset(q)| && |p| == |multiset(p)|;
    forall x ensures x in q <==> x in p { assert x in q <==> x in multiset(q); }
  }
}
