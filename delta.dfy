/**
 * The delta encoder of workspace/main.py: the first number of a list is
 * packed as a big-endian unsigned 16-bit value (`struct.pack('>H', ...)`),
 * then each difference to the previous number as one unsigned byte
 * (`struct.pack('>B', ...)`). An empty list raises `IndexError`, a value
 * that does not fit its field raises `struct.error`.
 */
module Delta {
  import opened Common

  datatype EncodeError = IndexError | StructError

  /** The difference between element `i` and its predecessor. */
  function DeltaAt(s: seq<int>, i: int): int
    requires 1 <= i < |s|
  {
    s[i] - s[i - 1]
  }

  /** The first element fits in two bytes and every difference in one. */
  predicate Encodable(s: seq<int>)
  {
    |s| > 0 && 0 <= s[0] < 0x1_0000
    && forall i :: 1 <= i < |s| ==> 0 <= DeltaAt(s, i) < 256
  }

  /**
   * `encode_delta(sequence)`, accumulating `encoded += ...` one difference
   * at a time. On success the output has one byte more than the input: the
   * first two bytes are the first number in big-endian order and byte
   * `i + 1` is the difference `sequence[i] - sequence[i-1]`. It fails with
   * `IndexError` exactly on the empty list and with `struct.error` exactly
   * when a field overflows.
   */
  method EncodeDelta(s: seq<int>) returns (r: Result<seq<byte>, EncodeError>)
    ensures r.Ok? <==> Encodable(s)
    ensures s == [] ==> r == Err(IndexError)
    ensures s != [] && !Encodable(s) ==> r == Err(StructError)
    ensures r.Ok? ==>
      && |r.value| == |s| + 1
      && r.value[0] as int * 256 + r.value[1] as int == s[0]
      && (forall i :: 1 <= i < |s| ==> r.value[i + 1] as int == DeltaAt(s, i))
  {
    if |s| == 0 {
      return Err(IndexError);
    }
    if !(0 <= s[0] < 0x1_0000) {
      return Err(StructError);
    }
    var encoded: seq<byte> := [(s[0] / 256) as byte, (s[0] % 256) as byte];
    var i := 1;
    while i < |s|
      invariant 1 <= i <= |s|
      invariant |encoded| == i + 1
      invariant encoded[0] as int * 256 + encoded[1] as int == s[0]
      invariant forall j :: 1 <= j < i ==> 0 <= DeltaAt(s, j) < 256 && encoded[j + 1] as int == DeltaAt(s, j)
    {
      var delta := s[i] - s[i - 1];
      if !(0 <= delta < 256) {
        assert !(0 <= DeltaAt(s, i) < 256);
        return Err(StructError);
      }
      encoded := encoded + [delta as byte];
      i := i + 1;
    }
    return Ok(encoded);
  }

  /** The inverse: the first value from two bytes, then running sums of the differences. */
  function Decode(b: seq<byte>): (s: seq<int>)
    requires |b| >= 2
    ensures |s| == |b| - 1
    decreases |b|
  {
    if |b| == 2 then [b[0] as int * 256 + b[1] as int]
    else
      var prefix := Decode(b[..|b| - 1]);
      prefix + [prefix[|prefix| - 1] + b[|b| - 1] as int]
  }

  /**
   * Prefix-summing the differences from the first value gives the encoded
   * list back: any byte string of the shape `EncodeDelta` promises decodes
   * to the list it came from.
   */
  lemma {:induction false} DecodeEncoded(s: seq<int>, b: seq<byte>)
    requires |s| > 0 && |b| == |s| + 1
    requires b[0] as int * 256 + b[1] as int == s[0]
    requires forall i :: 1 <= i < |s| ==> b[i + 1] as int == DeltaAt(s, i)
    ensures Decode(b) == s
    decreases |s|
  {
    if |s| > 1 {
      var s', b' := s[..|s| - 1], b[..|b| - 1];
      forall i | 1 <= i < |s'|
        ensures b'[i + 1] as int == DeltaAt(s', i)
      {
        assert b[i + 1] as int == DeltaAt(s, i);
        assert b'[i + 1] == b[i + 1] && s'[i] == s[i] && s'[i - 1] == s[i - 1];
      }
      DecodeEncoded(s', b');
      assert b[|b| - 1] as int == DeltaAt(s, |s| - 1);
      assert s == s' + [s[|s| - 1]];
    }
  }

  /** The worked example beside the encoder: six numbers take seven bytes and decode back. */
  method Example() returns (r: Result<seq<byte>, EncodeError>)
    ensures r.Ok? && |r.value| == 7 && Decode(r.value) == [1, 2, 3, 5, 6, 8]
  {
    var s := [1, 2, 3, 5, 6, 8];
    assert forall i :: 1 <= i < |s| ==> 0 <= DeltaAt(s, i) < 256;
    r := EncodeDelta(s);
    DecodeEncoded(s, r.value);
  }
}
