/** The array operations the application relies on: findIndex, filter and membership toggling. */
module Lists {

  /** Position of the first occurrence of `x`, or -1 (Array.prototype.findIndex / indexOf). */
  function IndexOf<T(==)>(xs: seq<T>, x: T): (r: int)
    ensures -1 <= r < |xs|
    ensures r == -1 <==> x !in xs
    ensures 0 <= r ==> xs[r] == x && x !in xs[..r]
  {
    if |xs| == 0 then -1
    else if xs[0] == x then 0
    else
      var k := IndexOf(xs[1..], x);
      if k == -1 then -1
      else
        assert xs[..k + 1] == [xs[0]] + xs[1..][..k];
        k + 1
  }

  /** The elements satisfying `keep`, in their original order (Array.prototype.filter). */
  function Filter<T(!new)>(xs: seq<T>, keep: T -> bool): (r: seq<T>)
    ensures |r| <= |xs|
    ensures forall y :: y in r <==> y in xs && keep(y)
    ensures |r| == |xs| <==> forall i :: 0 <= i < |xs| ==> keep(xs[i])
  {
    if |xs| == 0 then []
    else
      var init := Filter(xs[..|xs| - 1], keep);
      var last := xs[|xs| - 1];
      assert xs == xs[..|xs| - 1] + [last];
      if keep(last) then init + [last] else init
  }

  /** Filtering distributes over concatenation, so the kept elements stay in order. */
  lemma {:induction false} FilterConcat<T(!new)>(a: seq<T>, b: seq<T>, keep: T -> bool)
    ensures Filter(a + b, keep) == Filter(a, keep) + Filter(b, keep)
  {
    if |b| == 0 {
      assert a + b == a;
    } else {
      var b' := b[..|b| - 1];
      assert (a + b)[..|a + b| - 1] == a + b';
      FilterConcat(a, b', keep);
    }
  }

  /** One more element at the end is kept or dropped on its own. */
  lemma FilterPrefixStep<T(!new)>(xs: seq<T>, keep: T -> bool, m: nat)
    requires 0 < m <= |xs|
    ensures keep(xs[m - 1]) ==> Filter(xs[..m], keep) == Filter(xs[..m - 1], keep) + [xs[m - 1]]
    ensures !keep(xs[m - 1]) ==> Filter(xs[..m], keep) == Filter(xs[..m - 1], keep)
  {
    assert xs[..m][..m - 1] == xs[..m - 1];
  }

  /** A filter that keeps everything returns its input unchanged. */
  lemma {:induction false} FilterAll<T(!new)>(xs: seq<T>, keep: T -> bool)
    requires forall i :: 0 <= i < |xs| ==> keep(xs[i])
    ensures Filter(xs, keep) == xs
  {
    if |xs| > 0 {
      FilterAll(xs[..|xs| - 1], keep);
      assert xs == xs[..|xs| - 1] + [xs[|xs| - 1]];
    }
  }

  /** The test `y => y !== x`. */
  function Differs<T(==)>(x: T): T -> bool {
    (y: T) => y != x
  }

  /** `xs` without any occurrence of `x` (`xs.filter(y => y !== x)`). */
  function Without<T(==,!new)>(xs: seq<T>, x: T): (r: seq<T>)
    ensures x !in r
    ensures forall y :: y != x ==> (y in r <==> y in xs)
    ensures x !in xs ==> r == xs
  {
    if x !in xs then FilterAll(xs, Differs(x)); Filter(xs, Differs(x))
    else Filter(xs, Differs(x))
  }

  /** Removing `x` from a list where it occurs once drops exactly that element and keeps the rest in order. */
  lemma WithoutOne<T(!new)>(a: seq<T>, b: seq<T>, x: T)
    requires x !in a && x !in b
    ensures Without(a + [x] + b, x) == a + b
  {
    FilterConcat(a + [x], b, Differs(x));
    FilterConcat(a, [x], Differs(x));
    FilterAll(a, Differs(x));
    FilterAll(b, Differs(x));
    assert [x][..0] == [];
    assert Filter([x], Differs(x)) == [];
  }

  /**
   * Membership toggle: remove `x` if present, otherwise append it
   * (`prev.includes(id) ? prev.filter(i => i !== id) : [...prev, id]`).
   */
  function Toggle<T(==,!new)>(xs: seq<T>, x: T): (r: seq<T>)
    ensures x in r <==> x !in xs
    ensures forall y :: y != x ==> (y in r <==> y in xs)
    ensures x !in xs ==> r == xs + [x]
  {
    if x in xs then Without(xs, x) else xs + [x]
  }

  /** No value occurs twice. */
  predicate Distinct<T(==)>(xs: seq<T>) {
    forall i, j :: 0 <= i < j < |xs| ==> xs[i] != xs[j]
  }
}
