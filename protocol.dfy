/**
 * The shared Go types of protocol/types.go: the sliding-window record
 * built by `NewSlidingWindow` and the sequence-number successor
 * `IncrementSeq`, which works on `uint16` and reduces modulo
 * `MaxSequenceNumber = 65535` (not 2^16, despite the comment beside it).
 */
module Protocol {

  /** The modulus the file uses for sequence numbers. */
  const MaxSequenceNumber: int := 65535

  /** The unsigned 16-bit integers. */
  newtype uint16 = x: int | 0 <= x < 0x1_0000

  /** The Go `uint16` sum, which wraps around at 2^16. */
  function Add16(a: uint16, b: uint16): (r: uint16)
    ensures a as int + b as int < 0x1_0000 ==> r as int == a as int + b as int
    ensures a as int + b as int >= 0x1_0000 ==> r as int == a as int + b as int - 0x1_0000
  {
    ((a as int + b as int) % 0x1_0000) as uint16
  }

  /** `IncrementSeq(seq)`: `(seq + 1) % MaxSequenceNumber` evaluated in `uint16`. */
  function IncrementSeq(s: uint16): uint16
  {
    (Add16(s, 1) as int % MaxSequenceNumber) as uint16
  }

  /**
   * The successor never reaches 65535, is `s + 1` below 65534, and both
   * 65534 and 65535 (the latter through the `uint16` overflow of `s + 1`)
   * go to 0.
   */
  lemma {:induction false} IncrementSeqValues(s: uint16)
    ensures IncrementSeq(s) as int < MaxSequenceNumber
    ensures s as int < MaxSequenceNumber - 1 ==> IncrementSeq(s) as int == s as int + 1
    ensures s as int >= MaxSequenceNumber - 1 ==> IncrementSeq(s) == 0
  {
  }

  /** `IncrementSeq` applied `n` times. */
  function Iterate(s: uint16, n: nat): uint16
    decreases n
  {
    if n == 0 then s else IncrementSeq(Iterate(s, n - 1))
  }

  /** From 0, the first `n` steps count up one by one while `n` stays below 65535. */
  lemma {:induction false} IterateFromZero(n: nat)
    requires n < MaxSequenceNumber
    ensures Iterate(0, n) as int == n
    decreases n
  {
    if n > 0 {
      IterateFromZero(n - 1);
      IncrementSeqValues(Iterate(0, n - 1));
    }
  }

  /**
   * The cycle through 0 has period 65535: iterating from 0 is back at 0
   * after exactly 65535 steps and at no earlier positive step, so the
   * number 65535 is never produced.
   */
  lemma {:induction false} IncrementSeqPeriod()
    ensures Iterate(0, MaxSequenceNumber) == 0
    ensures forall n :: 0 < n < MaxSequenceNumber ==> Iterate(0, n) != 0
  {
    IterateFromZero(MaxSequenceNumber - 1);
    IncrementSeqValues(Iterate(0, MaxSequenceNumber - 1));
    forall n | 0 < n < MaxSequenceNumber
      ensures Iterate(0, n) != 0
    {
      IterateFromZero(n);
    }
  }

  /** The `SlidingWindow` struct. */
  datatype SlidingWindow = SlidingWindow(base: uint16, nextSeqNum: uint16, size: int, outstanding: map<uint16, bool>)

  /** `NewSlidingWindow(size)`: base and next sequence number 0, the given size, nothing outstanding. */
  function NewSlidingWindow(size: int): (w: SlidingWindow)
    ensures w.base == 0 && w.nextSeqNum == 0 && w.size == size && w.outstanding == map[]
  {
    SlidingWindow(0, 0, size, map[])
  }
}
