/**
 * Python's `list.remove`, as used on the servers' lists of missing
 * sequence numbers, and the guarded `if x in xs: xs.remove(x)` loop over
 * several values.
 */
module Lists {

  /** `xs.remove(v)` when `v` is present: the first occurrence goes; otherwise `xs` is unchanged. */
  function RemoveFirst<T(==)>(xs: seq<T>, v: T): (r: seq<T>)
    ensures v in xs ==> |r| == |xs| - 1
    ensures v !in xs ==> r == xs
    decreases |xs|
  {
    if xs == [] then []
    else if xs[0] == v then xs[1..]
    else [xs[0]] + RemoveFirst(xs[1..], v)
  }

  /** Removing a value takes exactly one occurrence of it out of the multiset, if there is one. */
  lemma {:induction false} RemoveFirstMultiset<T>(xs: seq<T>, v: T)
    ensures multiset(RemoveFirst(xs, v)) == multiset(xs) - multiset{v}
    decreases |xs|
  {
    if xs != [] {
      assert xs == [xs[0]] + xs[1..];
      if xs[0] != v {
        RemoveFirstMultiset(xs[1..], v);
      }
    }
  }

  /** `for v in vs: if v in xs: xs.remove(v)`. */
  function RemoveEach<T(==)>(xs: seq<T>, vs: seq<T>): seq<T>
    decreases |vs|
  {
    if vs == [] then xs else RemoveEach(RemoveFirst(xs, vs[0]), vs[1..])
  }

  /**
   * Removing several values one at a time is multiset difference: each
   * value takes out one occurrence per time it is listed, as far as there
   * are occurrences to take.
   */
  lemma {:induction false} RemoveEachMultiset<T>(xs: seq<T>, vs: seq<T>)
    ensures multiset(RemoveEach(xs, vs)) == multiset(xs) - multiset(vs)
    decreases |vs|
  {
    if vs != [] {
      RemoveFirstMultiset(xs, vs[0]);
      RemoveEachMultiset(RemoveFirst(xs, vs[0]), vs[1..]);
      assert vs == [vs[0]] + vs[1..];
      assert multiset(vs) == multiset{vs[0]} + multiset(vs[1..]);
      MultisetDifferenceTwice(multiset(xs), multiset{vs[0]}, multiset(vs[1..]));
    }
  }

  /** Taking away `b` and then `c` is taking away `b + c`. */
  lemma {:induction false} MultisetDifferenceTwice<T>(a: multiset<T>, b: multiset<T>, c: multiset<T>)
    ensures (a - b) - c == a - (b + c)
  {
    assert forall x :: ((a - b) - c)[x] == (a - (b + c))[x];
  }

  /** Removing values never makes the list longer. */
  lemma {:induction false} RemoveEachShrinks<T>(xs: seq<T>, vs: seq<T>)
    ensures |RemoveEach(xs, vs)| <= |xs|
    decreases |vs|
  {
    if vs != [] {
      RemoveEachShrinks(RemoveFirst(xs, vs[0]), vs[1..]);
    }
  }
}
