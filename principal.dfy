/** Principal stresses: the smallest and largest eigenvalue of every stress
    tensor, visiting the time keys in ascending order (the collectors and the
    core runner) or in insertion order (the legacy runner).  The eigenvalue
    solver is a parameter: only its three values are used. */
module Principal {
  import opened Groups
  import opened Extract

  /** Python's `sorted` on the time keys. */
  predicate Ascending(xs: seq<real>)
  {
    forall i, j :: 0 <= i < j < |xs| ==> xs[i] <= xs[j]
  }

  function Insert(x: real, xs: seq<real>): (r: seq<real>)
    ensures multiset(r) == multiset(xs) + multiset{x}
    ensures r[0] == x || (xs != [] && r[0] == xs[0])
  {
    if xs == [] then [x]
    else if x <= xs[0] then [x] + xs
    else
      assert xs == [xs[0]] + xs[1..];
      [xs[0]] + Insert(x, xs[1..])
  }

  lemma {:induction false} InsertAscending(x: real, xs: seq<real>)
    requires Ascending(xs)
    ensures Ascending(Insert(x, xs))
  {
    if xs != [] && x > xs[0] {
      var rest := Insert(x, xs[1..]);
      InsertAscending(x, xs[1..]);
      assert xs[0] <= rest[0];
      assert Insert(x, xs) == [xs[0]] + rest;
    }
  }

  function SortReals(xs: seq<real>): (r: seq<real>)
    ensures Ascending(r)
    ensures multiset(r) == multiset(xs)
  {
    if xs == [] then []
    else
      assert xs == xs[..|xs| - 1] + [xs[|xs| - 1]];
      var init := SortReals(xs[..|xs| - 1]);
      InsertAscending(xs[|xs| - 1], init);
      Insert(xs[|xs| - 1], init)
  }

  /** The smaller of three, as `np.min` over the eigenvalues. */
  function Min3(e: (real, real, real)): (m: real)
    ensures m <= e.0 && m <= e.1 && m <= e.2
    ensures m == e.0 || m == e.1 || m == e.2
  {
    if e.0 <= e.1 && e.0 <= e.2 then e.0 else if e.1 <= e.2 then e.1 else e.2
  }

  /** The larger of three, as `np.max` over the eigenvalues. */
  function Max3(e: (real, real, real)): (m: real)
    ensures m >= e.0 && m >= e.1 && m >= e.2
    ensures m == e.0 || m == e.1 || m == e.2
  {
    if e.0 >= e.1 && e.0 >= e.2 then e.0 else if e.1 >= e.2 then e.1 else e.2
  }

  /** The tensors in the order the loops visit them: key by key, and within
      a key in list order. */
  function InKeyOrder(g: Groups<Matrix>, keys: seq<real>): seq<Matrix>
  {
    if keys == [] then [] else InKeyOrder(g, keys[..|keys| - 1]) + Get(g, keys[|keys| - 1])
  }

  lemma {:induction false} InKeyOrderAppend(g: Groups<Matrix>, a: seq<real>, b: seq<real>)
    ensures InKeyOrder(g, a + b) == InKeyOrder(g, a) + InKeyOrder(g, b)
  {
    if b == [] {
      assert a + b == a;
    } else {
      assert (a + b)[..|a + b| - 1] == a + b[..|b| - 1];
      InKeyOrderAppend(g, a, b[..|b| - 1]);
    }
  }

  lemma {:induction false} MultisetCancel(m1: multiset<real>, m2: multiset<real>, x: real)
    requires m1 + multiset{x} == m2 + multiset{x}
    ensures m1 == m2
  {
    forall y
      ensures m1[y] == m2[y]
    {
      assert (m1 + multiset{x})[y] == (m2 + multiset{x})[y];
    }
  }

  /** Removing one occurrence of `x` from a key sequence that holds it. */
  lemma {:induction false} SplitAt(keys1: seq<real>, keys2: seq<real>) returns (a: seq<real>, b: seq<real>)
    requires keys1 != [] && multiset(keys1) == multiset(keys2)
    ensures keys2 == a + [keys1[|keys1| - 1]] + b
    ensures multiset(keys1[..|keys1| - 1]) == multiset(a + b)
  {
    var init, x := keys1[..|keys1| - 1], keys1[|keys1| - 1];
    assert keys1 == init + [x];
    assert x in multiset(keys2);
    var p :| 0 <= p < |keys2| && keys2[p] == x;
    a, b := keys2[..p], keys2[p + 1..];
    assert keys2 == a + [x] + b;
    MultisetCancel(multiset(init), multiset(a + b), x);
  }

  /** Visiting the same keys in another order visits the same tensors, so
      sorting the keys neither loses nor repeats a tensor. */
  lemma {:induction false} InKeyOrderPermutation(g: Groups<Matrix>, keys1: seq<real>, keys2: seq<real>)
    requires multiset(keys1) == multiset(keys2)
    ensures multiset(InKeyOrder(g, keys1)) == multiset(InKeyOrder(g, keys2))
  {
    if keys1 != [] {
      var init, x := keys1[..|keys1| - 1], keys1[|keys1| - 1];
      var a, b := SplitAt(keys1, keys2);
      InKeyOrderPermutation(g, init, a + b);
      InKeyOrderAppend(g, a + [x], b);
      InKeyOrderAppend(g, a, [x]);
      InKeyOrderAppend(g, a, b);
      assert InKeyOrder(g, [x]) == Get(g, x);
    } else {
      assert keys2 == [];
    }
  }

  function Mins(ms: seq<Matrix>, eigh: Matrix -> (real, real, real)): (r: seq<real>)
    ensures |r| == |ms|
    ensures forall k :: 0 <= k < |ms| ==> r[k] == Min3(eigh(ms[k]))
  {
    seq(|ms|, k requires 0 <= k < |ms| => Min3(eigh(ms[k])))
  }

  function Maxs(ms: seq<Matrix>, eigh: Matrix -> (real, real, real)): (r: seq<real>)
    ensures |r| == |ms|
    ensures forall k :: 0 <= k < |ms| ==> r[k] == Max3(eigh(ms[k]))
  {
    seq(|ms|, k requires 0 <= k < |ms| => Max3(eigh(ms[k])))
  }

  /** The loop nest shared by both orders: one (σ1, σ3) pair per tensor, in
      visiting order, σ1 the smallest and σ3 the largest eigenvalue. */
  method PrincipalStressesInOrder(tensors: Groups<Matrix>, keys: seq<real>, eigh: Matrix -> (real, real, real))
    returns (sigma1: seq<real>, sigma3: seq<real>)
    ensures sigma1 == Mins(InKeyOrder(tensors, keys), eigh)
    ensures sigma3 == Maxs(InKeyOrder(tensors, keys), eigh)
    ensures |sigma1| == |sigma3| == |InKeyOrder(tensors, keys)|
    ensures forall k :: 0 <= k < |sigma1| ==> sigma1[k] <= sigma3[k]
  {
    sigma1, sigma3 := [], [];
    var i := 0;
    while i < |keys|
      invariant 0 <= i <= |keys|
      invariant sigma1 == Mins(InKeyOrder(tensors, keys[..i]), eigh)
      invariant sigma3 == Maxs(InKeyOrder(tensors, keys[..i]), eigh)
    {
      var atTime := Get(tensors, keys[i]);
      ghost var before := InKeyOrder(tensors, keys[..i]);
      var j := 0;
      while j < |atTime|
        invariant 0 <= j <= |atTime|
        invariant sigma1 == Mins(before + atTime[..j], eigh)
        invariant sigma3 == Maxs(before + atTime[..j], eigh)
      {
        var eigenvalues := eigh(atTime[j]);
        assert (before + atTime[..j + 1]) == (before + atTime[..j]) + [atTime[j]];
        sigma1 := sigma1 + [Min3(eigenvalues)];
        sigma3 := sigma3 + [Max3(eigenvalues)];
        j := j + 1;
      }
      assert atTime[..j] == atTime;
      assert keys[..i + 1][..i] == keys[..i];
      i := i + 1;
    }
    assert keys[..i] == keys;
  }

  /** `_calculate_principal_stresses`: keys in ascending time order; every
      tensor of the dictionary yields exactly one pair. */
  method CalculatePrincipalStresses(tensors: Groups<Matrix>, eigh: Matrix -> (real, real, real))
    returns (sigma1: seq<real>, sigma3: seq<real>)
    ensures sigma1 == Mins(InKeyOrder(tensors, SortReals(tensors.order)), eigh)
    ensures sigma3 == Maxs(InKeyOrder(tensors, SortReals(tensors.order)), eigh)
    ensures Ascending(SortReals(tensors.order))
    ensures multiset(InKeyOrder(tensors, SortReals(tensors.order))) == multiset(InKeyOrder(tensors, tensors.order))
    ensures |sigma1| == |sigma3| == |InKeyOrder(tensors, tensors.order)|
    ensures forall k :: 0 <= k < |sigma1| ==> sigma1[k] <= sigma3[k]
  {
    var keys := SortReals(tensors.order);
    InKeyOrderPermutation(tensors, keys, tensors.order);
    sigma1, sigma3 := PrincipalStressesInOrder(tensors, keys, eigh);
    assert |multiset(InKeyOrder(tensors, keys))| == |multiset(InKeyOrder(tensors, tensors.order))|;
  }

  /** The legacy `calculate_principal_stresses`: keys in insertion order. */
  method CalculatePrincipalStressesLegacy(tensors: Groups<Matrix>, eigh: Matrix -> (real, real, real))
    returns (sigma1: seq<real>, sigma3: seq<real>)
    ensures sigma1 == Mins(InKeyOrder(tensors, tensors.order), eigh)
    ensures sigma3 == Maxs(InKeyOrder(tensors, tensors.order), eigh)
    ensures forall k :: 0 <= k < |sigma1| ==> sigma1[k] <= sigma3[k]
  {
    sigma1, sigma3 := PrincipalStressesInOrder(tensors, tensors.order, eigh);
  }
}
