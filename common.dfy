/**
 * Small value types shared by every module of the model: optional values,
 * results with an error, bytes, and exact fractions used where the source
 * computes a floating-point ratio (goodput).
 */
module Common {

  datatype Option<T> = None | Some(value: T)

  datatype Result<T, E> = Ok(value: T) | Err(error: E)

  /** One octet on the wire. */
  newtype byte = x: int | 0 <= x < 256

  /**
   * A ratio `num / den` kept exactly. The source divides two counters and
   * stores a float; the model keeps the two counters instead.
   */
  datatype Ratio = Ratio(num: nat, den: nat)

  /**
   * The ratio lies in [0, 1]. A zero denominator only occurs with a zero
   * numerator, which the source reports as the value 0.
   */
  predicate InUnitInterval(r: Ratio)
  {
    r.num <= r.den
  }

  /** Concatenation is associative. */
  lemma {:induction false} AppendAssoc<T>(a: seq<T>, b: seq<T>, c: seq<T>)
    ensures a + (b + c) == (a + b) + c
  {
  }

  /**
   * A non-empty set has a member. Loops that visit the keys of a dictionary
   * one at a time call this before choosing the next key.
   */
  lemma {:induction false} NonEmptyHasMember<T>(s: set<T>)
    requires s != {}
    ensures exists x :: x in s
  {
    assert (forall x :: x !in s) ==> s == {};
  }

  /** Some member of a non-empty set: the next key visited by an iteration over a dictionary. */
  method Choose<T>(s: set<T>) returns (x: T)
    requires s != {}
    ensures x in s
  {
    NonEmptyHasMember(s);
    x :| x in s;
  }

  /** Moving one visited key from the keys still to visit to the keys visited keeps the two apart and their union the same. */
  lemma {:induction false} MoveVisited<T>(todo: set<T>, done: set<T>, x: T)
    requires x in todo && todo !! done
    ensures (todo - {x}) !! (done + {x})
    ensures (todo - {x}) + (done + {x}) == todo + done
  {
  }

  /** No element occurs twice. */
  predicate Distinct<T(==)>(order: seq<T>)
  {
    forall i, j :: 0 <= i < j < |order| ==> order[i] != order[j]
  }

  /** The order in which an iteration over a dictionary visits its keys: every key exactly once. */
  ghost predicate KeyOrder<K(!new), V>(order: seq<K>, d: map<K, V>)
  {
    Distinct(order) && forall k :: k in d <==> k in order
  }
}
