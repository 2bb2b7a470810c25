/**
 * The string handling the servers and clients lean on: stripping
 * whitespace, splitting on a separator character and joining back,
 * integer parsing as done by Python's `int()` / Go's `strconv.Atoi` on
 * plain decimal text, and decimal printing as done by `str()` / `f"{n}"` /
 * `strconv.Itoa`.
 */
module Text {
  import opened Common

  /**
   * The whitespace the model strips: the space and the five control
   * characters from tab (9) to carriage return (13). On ASCII text this is
   * what `strings.TrimSpace` removes; `str.strip()` also removes the
   * separators 28 to 31, and both remove U+0085, U+00A0 and the other
   * Unicode spaces, which the model keeps.
   */
  predicate IsSpace(c: char)
  {
    c == ' ' || '\t' <= c <= '\r'
  }

  function TrimLeft(s: string): (r: string)
    ensures |r| <= |s|
    decreases |s|
  {
    if s != [] && IsSpace(s[0]) then TrimLeft(s[1..]) else s
  }

  function TrimRight(s: string): (r: string)
    ensures |r| <= |s|
    decreases |s|
  {
    if s != [] && IsSpace(s[|s| - 1]) then TrimRight(s[..|s| - 1]) else s
  }

  /** `s.strip()` / `strings.TrimSpace(s)`. */
  function Strip(s: string): string
  {
    TrimRight(TrimLeft(s))
  }

  /**
   * Stripping removes whitespace at both ends and nothing else: the result
   * is the slice `s[i..j]`, everything outside it is whitespace, and the
   * slice neither starts nor ends with whitespace.
   */
  lemma {:induction false} StripShape(s: string) returns (i: nat, j: nat)
    ensures i <= j <= |s| && Strip(s) == s[i..j]
    ensures forall k :: 0 <= k < i ==> IsSpace(s[k])
    ensures forall k :: j <= k < |s| ==> IsSpace(s[k])
    ensures i < j ==> !IsSpace(s[i]) && !IsSpace(s[j - 1])
  {
    i := TrimLeftShape(s);
    var l := s[i..];
    var n := TrimRightShape(l);
    j := i + n;
    SuffixIndex(s, i, n);
    calc {
      Strip(s);
      TrimRight(l);
      l[..n];
      s[i..j];
    }
    forall k | j <= k < |s|
      ensures IsSpace(s[k])
    {
      assert s[k] == l[k - i];
    }
  }

  /** Positions in a suffix `s[i..]` are those of `s` moved by `i`. */
  lemma {:induction false} SuffixIndex<T>(s: seq<T>, i: nat, n: nat)
    requires i + n <= |s|
    ensures s[i..][..n] == s[i..i + n]
    ensures forall k :: i <= k < |s| ==> s[i..][k - i] == s[k]
  {
  }

  /** `TrimLeft(s)` is the suffix of `s` after its leading whitespace. */
  lemma {:induction false} TrimLeftShape(s: string) returns (i: nat)
    ensures i <= |s| && TrimLeft(s) == s[i..]
    ensures forall k :: 0 <= k < i ==> IsSpace(s[k])
    ensures i < |s| ==> !IsSpace(s[i])
    decreases |s|
  {
    if s != [] && IsSpace(s[0]) {
      var i' := TrimLeftShape(s[1..]);
      i := i' + 1;
      assert s[1..][i'..] == s[i..];
      forall k | 0 <= k < i
        ensures IsSpace(s[k])
      {
        if k > 0 {
          assert s[k] == s[1..][k - 1];
        }
      }
      if i < |s| {
        assert s[i] == s[1..][i'];
      }
    } else {
      i := 0;
    }
  }

  /** `TrimRight(l)` is the prefix of `l` before its trailing whitespace. */
  lemma {:induction false} TrimRightShape(l: string) returns (n: nat)
    ensures n <= |l| && TrimRight(l) == l[..n]
    ensures forall k :: n <= k < |l| ==> IsSpace(l[k])
    ensures n > 0 ==> !IsSpace(l[n - 1])
    decreases |l|
  {
    if l != [] && IsSpace(l[|l| - 1]) {
      var p := l[..|l| - 1];
      n := TrimRightShape(p);
      assert p[..n] == l[..n];
      forall k | n <= k < |l|
        ensures IsSpace(l[k])
      {
        if k < |l| - 1 {
          assert l[k] == p[k];
        }
      }
      if n > 0 {
        assert l[n - 1] == p[n - 1];
      }
    } else {
      n := |l|;
    }
  }

  /** A string without whitespace at either end is its own stripped form. */
  lemma {:induction false} StripNoSpace(s: string)
    requires s == [] || (!IsSpace(s[0]) && !IsSpace(s[|s| - 1]))
    ensures Strip(s) == s
  {
  }

  /** A leading whitespace character makes no difference to the stripped text. */
  lemma {:induction false} StripLeadingSpace(c: char, s: string)
    requires IsSpace(c)
    ensures Strip([c] + s) == Strip(s)
  {
    assert ([c] + s)[1..] == s;
  }

  /** `s.split(sep)` for a one-character separator: always at least one field. */
  function Split(s: string, sep: char): (parts: seq<string>)
    ensures |parts| >= 1
    decreases |s|
  {
    if s == [] then [[]]
    else
      var rest := Split(s[1..], sep);
      if s[0] == sep then [[]] + rest
      else [[s[0]] + rest[0]] + rest[1..]
  }

  /** `sep.join(parts)` / `strings.Join(parts, sep)` for a non-empty list. */
  function Join(parts: seq<string>, sep: char): string
    requires |parts| >= 1
    decreases |parts|
  {
    if |parts| == 1 then parts[0] else parts[0] + [sep] + Join(parts[1..], sep)
  }

  /** Splitting and joining back on the same separator gives the original text. */
  lemma {:induction false} JoinSplit(s: string, sep: char)
    ensures Join(Split(s, sep), sep) == s
    decreases |s|
  {
    if s != [] {
      JoinSplit(s[1..], sep);
      var rest := Split(s[1..], sep);
      if s[0] != sep {
        if |rest| == 1 {
          assert Join(Split(s, sep), sep) == [s[0]] + rest[0];
        } else {
          assert Split(s, sep)[1..] == rest[1..];
          assert Join(Split(s, sep), sep) == ([s[0]] + rest[0]) + [sep] + Join(rest[1..], sep);
        }
      } else {
        assert Split(s, sep)[1..] == rest;
      }
    }
  }

  /** No field of a split holds the separator. */
  lemma {:induction false} SplitFieldsNoSep(s: string, sep: char)
    ensures forall i :: 0 <= i < |Split(s, sep)| ==> sep !in Split(s, sep)[i]
    decreases |s|
  {
    if s != [] {
      SplitFieldsNoSep(s[1..], sep);
      var rest := Split(s[1..], sep);
      if s[0] != sep {
        forall i | 0 <= i < |Split(s, sep)|
          ensures sep !in Split(s, sep)[i]
        {
          if i > 0 {
            assert Split(s, sep)[i] == rest[i];
          }
        }
      }
    }
  }

  /** A text without the separator is a single field. */
  lemma {:induction false} SplitNoSep(w: string, sep: char)
    requires sep !in w
    ensures Split(w, sep) == [w]
    decreases |w|
  {
    if w != [] {
      SplitNoSep(w[1..], sep);
      assert [w[0]] + w[1..] == w;
    }
  }

  /** A field followed by the separator splits off as the first field. */
  lemma {:induction false} SplitFirstField(w: string, sep: char, t: string)
    requires sep !in w
    ensures Split(w + [sep] + t, sep) == [w] + Split(t, sep)
    decreases |w|
  {
    if w == [] {
      assert w + [sep] + t == [sep] + t;
      assert ([sep] + t)[1..] == t;
    } else {
      assert (w + [sep] + t)[1..] == w[1..] + [sep] + t;
      SplitFirstField(w[1..], sep, t);
      assert [w[0]] + w[1..] == w;
    }
  }

  /** Joining fields that do not contain the separator and splitting again gives the fields back. */
  lemma {:induction false} SplitJoin(parts: seq<string>, sep: char)
    requires |parts| >= 1
    requires forall i :: 0 <= i < |parts| ==> sep !in parts[i]
    ensures Split(Join(parts, sep), sep) == parts
    decreases |parts|
  {
    if |parts| == 1 {
      SplitNoSep(parts[0], sep);
    } else {
      SplitJoin(parts[1..], sep);
      SplitFirstField(parts[0], sep, Join(parts[1..], sep));
      assert [parts[0]] + parts[1..] == parts;
    }
  }

  predicate StartsWith(s: string, prefix: string)
  {
    |prefix| <= |s| && s[..|prefix|] == prefix
  }

  predicate IsDigit(c: char)
  {
    '0' <= c <= '9'
  }

  predicate AllDigits(s: string)
  {
    forall i :: 0 <= i < |s| ==> IsDigit(s[i])
  }

  function DigitValue(c: char): (d: nat)
    requires IsDigit(c)
    ensures d < 10
  {
    (c as int) - ('0' as int)
  }

  function DigitChar(d: nat): (c: char)
    requires d < 10
    ensures IsDigit(c) && DigitValue(c) == d
  {
    (('0' as int) + d) as char
  }

  /** The value of a string of decimal digits, most significant first. */
  function DigitsValue(ds: string): nat
    requires AllDigits(ds)
    decreases |ds|
  {
    if ds == [] then 0 else DigitsValue(ds[..|ds| - 1]) * 10 + DigitValue(ds[|ds| - 1])
  }

  /** A non-empty run of decimal digits read as a natural number. */
  function ParseNat(s: string): Option<nat>
  {
    if s != [] && AllDigits(s) then Some(DigitsValue(s)) else None
  }

  /**
   * `int(s)` / `strconv.Atoi(s)` on text made of an optional sign and decimal
   * digits; anything else is a parse error (`ValueError` / a non-nil error).
   */
  function ParseInt(s: string): Option<int>
  {
    if s != [] && (s[0] == '-' || s[0] == '+') then
      var n := ParseNat(s[1..]);
      if n.None? then None else Some(if s[0] == '-' then 0 - n.value as int else n.value as int)
    else
      var n := ParseNat(s);
      if n.None? then None else Some(n.value as int)
  }

  /** Python's `int(s)` on text: surrounding whitespace is allowed, then an optional sign and digits. */
  function PyInt(s: string): Option<int>
  {
    ParseInt(Strip(s))
  }

  /** The decimal digits of a natural number, without leading zeros. */
  function NatToDecimal(n: nat): (s: string)
    ensures s != [] && AllDigits(s)
    decreases n
  {
    if n < 10 then [DigitChar(n)] else NatToDecimal(n / 10) + [DigitChar(n % 10)]
  }

  /** `str(n)` / `f"{n}"` / `strconv.Itoa(n)`. */
  function IntToDecimal(n: int): (s: string)
    ensures s != []
    ensures forall i :: 0 <= i < |s| ==> IsDigit(s[i]) || s[i] == '-'
  {
    if n < 0 then "-" + NatToDecimal(-n) else NatToDecimal(n)
  }

  /** Reading back the printed digits of `n` gives `n`. */
  lemma {:induction false} DigitsOfDecimal(n: nat)
    ensures DigitsValue(NatToDecimal(n)) == n
    decreases n
  {
    if n >= 10 {
      DigitsOfDecimal(n / 10);
      var s := NatToDecimal(n);
      assert s[..|s| - 1] == NatToDecimal(n / 10);
    }
  }

  /** Printing an integer and parsing it back is the identity. */
  lemma {:induction false} ParseDecimal(n: int)
    ensures ParseInt(IntToDecimal(n)) == Some(n)
  {
    if n < 0 {
      DigitsOfDecimal(-n);
      assert IntToDecimal(n)[1..] == NatToDecimal(-n);
    } else {
      DigitsOfDecimal(n);
    }
  }

  /** Printed integers contain no whitespace and none of the separators the wire formats use. */
  lemma {:induction false} DecimalHasNoSeparator(n: int)
    ensures forall i :: 0 <= i < |IntToDecimal(n)| ==>
      !IsSpace(IntToDecimal(n)[i]) && IntToDecimal(n)[i] !in {',', ':', ' ', '\n'}
  {
  }

  /** Printed integers have no surrounding whitespace, so `int()` reads them back as well. */
  lemma {:induction false} PyIntDecimal(n: int)
    ensures PyInt(IntToDecimal(n)) == Some(n)
  {
    var s := IntToDecimal(n);
    StripNoSpace(s);
    ParseDecimal(n);
  }
}
