/**
 * Bytes on the wire of the block protocol (server.py,
 * workspace/binary_server.py, workspace/binary_client.py): ASCII text
 * encoded and decoded byte for byte, and lists of big-endian unsigned 16-bit
 * integers as packed by `struct.pack("!{n}H", ...)` and unpacked by
 * `struct.unpack`.
 */
module Bytes {
  import opened Common

  predicate IsAscii(s: string)
  {
    forall i :: 0 <= i < |s| ==> s[i] as int < 128
  }

  /** `s.encode()` for ASCII text: one byte per character. */
  function Encode(s: string): (b: seq<byte>)
    requires IsAscii(s)
    ensures |b| == |s|
    ensures forall i :: 0 <= i < |s| ==> b[i] as int == s[i] as int
  {
    if s == [] then [] else [s[0] as int as byte] + Encode(s[1..])
  }

  /**
   * `data.decode()` restricted to ASCII: any byte of 128 or more is treated
   * as a decoding error.
   */
  function Decode(b: seq<byte>): (r: Option<string>)
    ensures r.Some? <==> forall i :: 0 <= i < |b| ==> b[i] < 128
    ensures r.Some? ==> |r.value| == |b| && IsAscii(r.value)
    ensures r.Some? ==> forall i :: 0 <= i < |b| ==> r.value[i] as int == b[i] as int
  {
    if b == [] then Some([])
    else if b[0] >= 128 then None
    else match Decode(b[1..])
      case None => None
      case Some(t) => Some([b[0] as int as char] + t)
  }

  /** Decoding what was encoded gives the text back. */
  lemma {:induction false} DecodeEncode(s: string)
    requires IsAscii(s)
    ensures Decode(Encode(s)) == Some(s)
    decreases |s|
  {
    if s != [] {
      assert Encode(s)[1..] == Encode(s[1..]);
      DecodeEncode(s[1..]);
      assert [s[0]] + s[1..] == s;
    }
  }

  /** The value of the big-endian pair `hi, lo`. */
  function U16(hi: byte, lo: byte): (v: int)
    ensures 0 <= v < 65536
  {
    hi as int * 256 + lo as int
  }

  /**
   * `struct.unpack(f"!{n}H", data[:n*2])` with `n = len(data) // 2`: the
   * values of the consecutive byte pairs; an odd trailing byte is ignored.
   */
  function UnpackU16(b: seq<byte>): (vs: seq<int>)
    ensures |vs| == |b| / 2
    ensures forall i :: 0 <= i < |vs| ==> vs[i] == U16(b[2 * i], b[2 * i + 1])
    decreases |b|
  {
    if |b| < 2 then [] else [U16(b[0], b[1])] + UnpackU16(b[2..])
  }

  /** `struct.pack(f"!{n}H", *values)` for values in [0, 65535]. */
  function PackU16(vs: seq<int>): (b: seq<byte>)
    requires forall i :: 0 <= i < |vs| ==> 0 <= vs[i] < 65536
    ensures |b| == 2 * |vs|
    decreases |vs|
  {
    if vs == [] then [] else [(vs[0] / 256) as byte, (vs[0] % 256) as byte] + PackU16(vs[1..])
  }

  /** Packing and unpacking again gives the values back. */
  lemma {:induction false} UnpackPack(vs: seq<int>)
    requires forall i :: 0 <= i < |vs| ==> 0 <= vs[i] < 65536
    ensures UnpackU16(PackU16(vs)) == vs
    decreases |vs|
  {
    if vs != [] {
      var b := PackU16(vs);
      assert b[2..] == PackU16(vs[1..]);
      UnpackPack(vs[1..]);
    }
  }

  /** An odd trailing byte does not change what is unpacked. */
  lemma {:induction false} OddByteIgnored(b: seq<byte>, x: byte)
    requires |b| % 2 == 0
    ensures UnpackU16(b + [x]) == UnpackU16(b)
  {
    var l := UnpackU16(b + [x]);
    var r := UnpackU16(b);
    assert |l| == |r|;
    forall i | 0 <= i < |l|
      ensures l[i] == r[i]
    {
      assert (b + [x])[2 * i] == b[2 * i] && (b + [x])[2 * i + 1] == b[2 * i + 1];
    }
  }
}
