/**
 * Sequence-number arithmetic shared by the Python clients and servers:
 * 16-bit serial numbers compared with the half-modulus rule of section 3.2
 * of RFC 1982 (SERIAL_BITS = 16).
 */
module SeqSpace {

  /** Sequence numbers wrap around at this value. */
  const Modulus: int := 65536

  /** Half the sequence space: the largest gap still read as "ahead". */
  const Half: int := 32768

  predicate InRange(s: int)
  {
    0 <= s < Modulus
  }

  /** Python's `x % 65536`; Dafny's `%` agrees with it for a positive modulus. */
  function Wrap(x: int): (r: int)
    ensures InRange(r)
  {
    x % Modulus
  }

  /** The forward distance `(b - a) mod 65536` from `a` to `b`. */
  function Distance(a: int, b: int): (d: int)
    ensures InRange(d)
  {
    Wrap(b - a)
  }

  /**
   * `is_sequence_before(a, b)` / `seq_before(a, b)`: `a` precedes `b` in
   * circular order.
   */
  predicate Before(a: int, b: int)
  {
    0 < Distance(a, b) < Half
  }

  /** The successor of a sequence number, `(s + 1) % 65536`. */
  function Next(s: int): (r: int)
    ensures InRange(r)
  {
    Wrap(s + 1)
  }

  /** The successor is one more, except that the last number wraps to 0. */
  lemma {:induction false} NextValue(sn: int)
    ensures InRange(sn) && sn < Modulus - 1 ==> Next(sn) == sn + 1
    ensures sn == Modulus - 1 ==> Next(sn) == 0
  {
  }

  /** Wrapping an intermediate sum does not change the final residue. */
  lemma {:induction false} WrapAdd(x: int, k: int)
    ensures Wrap(Wrap(x) + k) == Wrap(x + k)
  {
    var q := x / Modulus;
    assert x == q * Modulus + Wrap(x);
    ModUnique(x + k, q + (Wrap(x) + k) / Modulus, Wrap(Wrap(x) + k));
  }

  /** The sequence number `k` successors after `n`. */
  function Advance(n: int, k: nat): int
    decreases k
  {
    if k == 0 then n else Advance(Next(n), k - 1)
  }

  /** Taking one successor first leaves one step fewer to take. */
  lemma {:induction false} AdvanceStep(n: int, n1: int, m: nat, k: nat)
    requires n1 == Next(n) && m == k + 1
    ensures Advance(n, m) == Advance(n1, k)
  {
  }

  /** `k` successors of a sequence number are `n + k` wrapped once. */
  lemma {:induction false} AdvanceWraps(n: int, k: nat)
    requires InRange(n)
    ensures Advance(n, k) == Wrap(n + k)
    decreases k
  {
    if k == 0 {
      ModUnique(n, 0, n);
    } else {
      AdvanceWraps(Next(n), k - 1);
      WrapAdd(n + 1, k - 1);
    }
  }

  /** Nothing precedes itself. */
  lemma {:induction false} BeforeIrreflexive(a: int)
    ensures !Before(a, a)
  {
  }

  /** The forward distances between two numbers in both directions add up to the modulus. */
  lemma {:induction false} DistanceOpposite(a: int, b: int)
    requires Distance(a, b) != 0
    ensures Distance(a, b) + Distance(b, a) == Modulus
  {
    var k := (b - a) / Modulus;
    assert b - a == k * Modulus + Distance(a, b);
    assert a - b == (-k - 1) * Modulus + (Modulus - Distance(a, b));
    ModUnique(a - b, -k - 1, Modulus - Distance(a, b));
  }

  /** The remainder of `x` is the unique `r` in range with `x - r` a multiple of the modulus. */
  lemma {:induction false} ModUnique(x: int, q: int, r: int)
    requires InRange(r)
    requires x == q * Modulus + r
    ensures x % Modulus == r
  {
    var q' := x / Modulus;
    var r' := x % Modulus;
    assert x == q' * Modulus + r';
    assert (q - q') * Modulus == r' - r;
  }

  /** The relation is asymmetric: two numbers are never each before the other. */
  lemma {:induction false} BeforeAsymmetric(a: int, b: int)
    ensures Before(a, b) ==> !Before(b, a)
  {
    if Before(a, b) {
      DistanceOpposite(a, b);
    }
  }

  /**
   * Any two numbers that are neither equal modulo 65536 nor exactly half the
   * space apart are ordered one way or the other.
   */
  lemma {:induction false} BeforeTotal(a: int, b: int)
    requires Distance(a, b) != 0 && Distance(a, b) != Half
    ensures Before(a, b) != Before(b, a)
  {
    DistanceOpposite(a, b);
  }

  /** The last number of the space precedes 0: the wrap-around is a forward step. */
  lemma {:induction false} BeforeAcrossWrap()
    ensures Before(Modulus - 1, 0)
  {
  }

  /** Every number precedes its successor. */
  lemma {:induction false} BeforeNext(a: int)
    ensures Before(a, Next(a))
    ensures Distance(a, Next(a)) == 1
  {
    var k := (a + 1) / Modulus;
    assert Next(a) - a == 1 - k * Modulus;
    ModUnique(Next(a) - a, -k, 1);
  }

  /** Only residues matter: shifting either argument by whole laps changes nothing. */
  lemma {:induction false} BeforeShift(a: int, b: int, k: int)
    ensures Before(a + k * Modulus, b) == Before(a, b)
    ensures Before(a, b + k * Modulus) == Before(a, b)
  {
    var q := (b - a) / Modulus;
    assert b - a == q * Modulus + Distance(a, b);
    ModUnique(b - (a + k * Modulus), q - k, Distance(a, b));
    ModUnique((b + k * Modulus) - a, q + k, Distance(a, b));
  }

  /**
   * The half-modulus rule agrees with the comparison written out in
   * section 3.2 of RFC 1982 for numbers in range:
   * `(i1 < i2 and i2 - i1 < 2^15) or (i1 > i2 and i1 - i2 > 2^15)`.
   */
  lemma {:induction false} BeforeMatchesSerialComparison(a: int, b: int)
    requires InRange(a) && InRange(b)
    ensures Before(a, b) <==> ((a < b && b - a < Half) || (a > b && a - b > Half))
  {
    if a <= b {
      ModUnique(b - a, 0, b - a);
    } else {
      ModUnique(b - a, -1, b - a + Modulus);
    }
  }
}
