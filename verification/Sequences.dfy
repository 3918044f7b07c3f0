/** Sequences with elements left out. */
module Sequences {

  lemma Associate<T>(a: seq<T>, b: seq<T>, c: seq<T>)
    ensures (a + b) + c == a + (b + c)
  {
  }

  /** a is b with some elements left out. */
  predicate Within<T(==)>(a: seq<T>, b: seq<T>) {
    if a == [] then true
    else if b == [] then false
    else (a[|a| - 1] == b[|b| - 1] && Within(a[..|a| - 1], b[..|b| - 1])) || Within(a, b[..|b| - 1])
  }

  lemma {:induction false} WithinSkips<T>(a: seq<T>, b: seq<T>, more: seq<T>)
    requires Within(a, b)
    ensures Within(a, b + more)
    decreases |more|
  {
    if more == [] {
      assert b + more == b;
    } else {
      WithinSkips(a, b, more[..|more| - 1]);
      assert (b + more)[..|b + more| - 1] == b + more[..|more| - 1];
    }
  }

  lemma {:induction false} WithinConcat<T>(a: seq<T>, b: seq<T>, c: seq<T>, d: seq<T>)
    requires Within(a, b) && Within(c, d)
    ensures Within(a + c, b + d)
    decreases |d|
  {
    if c == [] {
      assert a + c == a;
      WithinSkips(a, b, d);
    } else {
      var c', d' := c[..|c| - 1], d[..|d| - 1];
      assert (b + d)[..|b + d| - 1] == b + d';
      assert (a + c)[..|a + c| - 1] == a + c';
      if c[|c| - 1] == d[|d| - 1] && Within(c', d') {
        WithinConcat(a, b, c', d');
      } else {
        WithinConcat(a, b, c, d');
      }
    }
  }

  lemma {:induction false} WithinSelf<T>(a: seq<T>)
    ensures Within(a, a)
  {
    if a != [] {
      WithinSelf(a[..|a| - 1]);
    }
  }

  lemma {:induction false} WithinLength<T>(a: seq<T>, b: seq<T>)
    requires Within(a, b)
    ensures |a| <= |b|
    decreases |b|
  {
    if a != [] {
      if a[|a| - 1] == b[|b| - 1] && Within(a[..|a| - 1], b[..|b| - 1]) {
        WithinLength(a[..|a| - 1], b[..|b| - 1]);
      } else {
        WithinLength(a, b[..|b| - 1]);
      }
    }
  }

  lemma WithinSnoc<T>(a: seq<T>, b: seq<T>, x: T)
    requires Within(a, b)
    ensures Within(a, b + [x]) && Within(a + [x], b + [x])
  {
    assert (b + [x])[..|b + [x]| - 1] == b;
    assert (a + [x])[..|a + [x]| - 1] == a;
  }

  lemma {:induction false} WithinPrefix<T>(a: seq<T>, n: nat, b: seq<T>)
    requires n <= |a| && Within(a, b)
    ensures Within(a[..n], b)
    decreases |b|
  {
    if n == 0 || n == |a| {
      assert n == |a| ==> a[..n] == a;
    } else {
      var b' := b[..|b| - 1];
      if a[|a| - 1] == b[|b| - 1] && Within(a[..|a| - 1], b') {
        WithinPrefix(a[..|a| - 1], n, b');
        assert a[..|a| - 1][..n] == a[..n];
      } else {
        WithinPrefix(a, n, b');
      }
      assert b == b' + [b[|b| - 1]];
      WithinSnoc(a[..n], b', b[|b| - 1]);
    }
  }
}
