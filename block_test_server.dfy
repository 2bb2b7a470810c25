/**
 * The test server of workspace/server_test.py. Each message has a header
 * line `start: <n>` and a line of 1000 bits, one per sequence number from
 * `n`. The server looks for the first bit that is not `1`, records its
 * sequence number as missing (at most one per block), and answers
 * `ack: <n + 1000>` whatever the bits say. A malformed message is reported
 * and skipped: no reply, no change.
 */
module BlockTestServer {
  import opened Common
  import opened Text

  const BlockLength: nat := 1000
  const Header: string := "start:"

  /** The outcome of the checks on one message. */
  datatype Verdict =
    | TooFewLines
    | BadHeader
    | BadNumber
    | BadLength
    | Accepted(start: int, bits: string)

  /**
   * The checks of the message loop, in their order: two lines after
   * `strip().splitlines()`, the `start:` prefix, `int()` of the field after
   * the first colon (a `ValueError` the `except` swallows), and a bit
   * string of exactly 1000 characters after `strip()`.
   */
  function Check(text: string): Verdict
  {
    var lines := Split(Strip(text), '\n');
    if |lines| < 2 then TooFewLines
    else if !StartsWith(lines[0], Header) then BadHeader
    else
      var fields := Split(lines[0], ':');
      if |fields| < 2 then BadHeader
      else match PyInt(fields[1])
        case None => BadNumber
        case Some(start) =>
          var bits := Strip(lines[1]);
          if |bits| != BlockLength then BadLength else Accepted(start, bits)
  }

  /** The index of the first bit that is not `1`, if any. */
  function FirstGap(bits: string): (r: Option<nat>)
    ensures r.Some? ==> (r.value < |bits| && bits[r.value] != '1'
      && forall j :: 0 <= j < r.value ==> bits[j] == '1')
    ensures r.None? ==> forall j :: 0 <= j < |bits| ==> bits[j] == '1'
    decreases |bits|
  {
    if bits == [] then None
    else if bits[0] != '1' then Some(0)
    else match FirstGap(bits[1..])
      case None => None
      case Some(i) => Some(i + 1)
  }

  /** The acknowledgement text. */
  function AckText(n: int): string
  {
    "ack: " + IntToDecimal(n)
  }

  /** What one message does to `missing_numbers`, and the reply if any. */
  datatype Handled = Handled(missing: seq<int>, reply: Option<string>)

  function Handle(missing: seq<int>, text: string): Handled
  {
    var v := Check(text);
    if !v.Accepted? then Handled(missing, None)
    else
      var gap := FirstGap(v.bits);
      Handled(missing + (if gap.Some? then [v.start + gap.value] else []), Some(AckText(v.start + BlockLength)))
  }

  /**
   * A rejected message changes nothing and gets no reply; an accepted one
   * adds at most one missing number, the sequence number of the first bit
   * that is not `1` (inside the block), and is answered with
   * `ack: start + 1000`.
   */
  lemma {:induction false} HandleEffect(missing: seq<int>, text: string)
    ensures var h := Handle(missing, text);
      && (!Check(text).Accepted? ==> h == Handled(missing, None))
      && (Check(text).Accepted? ==>
            var v := Check(text);
            && h.reply == Some(AckText(v.start + BlockLength))
            && |missing| <= |h.missing| <= |missing| + 1
            && h.missing[..|missing|] == missing
            && (|h.missing| == |missing| + 1 <==> exists j :: 0 <= j < |v.bits| && v.bits[j] != '1')
            && (|h.missing| == |missing| + 1 ==>
                  var m := h.missing[|missing|];
                  && v.start <= m < v.start + BlockLength
                  && v.bits[m - v.start] != '1'
                  && forall j :: 0 <= j < m - v.start ==> v.bits[j] == '1'))
  {
    if Check(text).Accepted? {
      var v := Check(text);
      var gap := FirstGap(v.bits);
      var h := Handle(missing, text);
      assert h.missing[..|missing|] == missing;
      if gap.Some? {
        assert h.missing[|missing|] == v.start + gap.value;
      }
    }
  }

  /**
   * The reply does not depend on the bits: two accepted blocks with the
   * same start are acknowledged alike, even when one of them drops its
   * first packet.
   */
  lemma {:induction false} AckIgnoresDrops(missing: seq<int>, a: string, b: string)
    requires Check(a).Accepted? && Check(b).Accepted? && Check(a).start == Check(b).start
    ensures Handle(missing, a).reply == Handle(missing, b).reply
  {
  }

  /** The message text of the matching test client: the header line, a newline, and the bits. */
  function BlockMessage(start: int, bits: string): string
  {
    "start: " + IntToDecimal(start) + "\n" + bits
  }

  predicate IsBits(bits: string)
  {
    forall i :: 0 <= i < |bits| ==> bits[i] == '0' || bits[i] == '1'
  }

  /**
   * The checks accept exactly what the matching client sends: a block of
   * 1000 bits under its start header passes with that start and those
   * bits.
   */
  lemma {:induction false} BlockMessageAccepted(start: int, bits: string)
    requires |bits| == BlockLength && IsBits(bits)
    ensures Check(BlockMessage(start, bits)) == Accepted(start, bits)
  {
    var head := "start: " + IntToDecimal(start);
    var lines := Split(Strip(BlockMessage(start, bits)), '\n');
    BlockMessageLines(start, bits);
    assert lines[0] == head && lines[1] == bits;
    assert StartsWith(head, Header) by {
      assert head[..|Header|] == Header;
    }
    HeaderNumber(start);
    assert Strip(bits) == bits by {
      assert !IsSpace(bits[0]) && !IsSpace(bits[|bits| - 1]);
      StripNoSpace(bits);
    }
  }

  /** The header line and the bits come back as the two lines of the message. */
  lemma {:induction false} BlockMessageLines(start: int, bits: string)
    requires |bits| == BlockLength && IsBits(bits)
    ensures Split(Strip(BlockMessage(start, bits)), '\n') == ["start: " + IntToDecimal(start), bits]
  {
    var n := IntToDecimal(start);
    DecimalHasNoSeparator(start);
    var head := "start: " + n;
    var text := BlockMessage(start, bits);
    assert text == head + ['\n'] + bits;
    assert !IsSpace(text[0]);
    assert text[|text| - 1] == bits[|bits| - 1];
    StripNoSpace(text);
    assert '\n' !in head by {
      assert forall i :: 0 <= i < |n| ==> head[7 + i] == n[i];
    }
    assert '\n' !in bits;
    SplitFirstField(head, '\n', bits);
    SplitNoSep(bits, '\n');
  }

  /** The field after the colon of the header line parses back to the start. */
  lemma {:induction false} HeaderNumber(start: int)
    ensures var fields := Split("start: " + IntToDecimal(start), ':');
      |fields| == 2 && PyInt(fields[1]) == Some(start)
  {
    var n := IntToDecimal(start);
    DecimalHasNoSeparator(start);
    var head := "start: " + n;
    assert ':' !in " " + n by {
      assert forall i :: 0 <= i < |n| ==> (" " + n)[1 + i] == n[i];
    }
    assert head == "start" + [':'] + (" " + n);
    SplitFirstField("start", ':', " " + n);
    SplitNoSep(" " + n, ':');
    assert " " + n == [' '] + n;
    StripLeadingSpace(' ', n);
    PyIntDecimal(start);
  }

  /**
   * One pass of the message loop of `main`: the checks, then the `for`
   * loop over the bits that counts leading `1`s and records the first
   * drop; returns the new `missing_numbers` and the reply.
   */
  method HandleMessage(missing: seq<int>, text: string) returns (missing': seq<int>, reply: Option<string>)
    ensures Handled(missing', reply) == Handle(missing, text)
  {
    var v := CheckMessage(text);
    if !v.Accepted? {
      return missing, None;
    }
    missing', reply := ScanBits(missing, v.start, v.bits);
  }

  /** The checks of the message loop, returning on the first that fails. */
  method CheckMessage(text: string) returns (v: Verdict)
    ensures v == Check(text)
  {
    var lines := Split(Strip(text), '\n');
    if |lines| < 2 {
      return TooFewLines;
    }
    var startLine := lines[0];
    var bits := Strip(lines[1]);
    if !StartsWith(startLine, Header) {
      return BadHeader;
    }
    var fields := Split(startLine, ':');
    if |fields| < 2 {
      return BadHeader;
    }
    var parsed := PyInt(fields[1]);
    if parsed.None? {
      return BadNumber;
    }
    if |bits| != BlockLength {
      return BadLength;
    }
    v := Accepted(parsed.value, bits);
  }

  /**
   * The `for` loop over the bits of an accepted block: it counts leading
   * `1`s, records the first drop and stops there; the reply is sent either way.
   */
  method ScanBits(missing: seq<int>, start: int, bits: string) returns (missing': seq<int>, reply: Option<string>)
    requires |bits| == BlockLength
    ensures var gap := FirstGap(bits);
      missing' == missing + (if gap.Some? then [start + gap.value] else [])
    ensures reply == Some(AckText(start + BlockLength))
  {
    missing' := missing;
    var ackCount := 0;
    var i := 0;
    while i < |bits|
      invariant 0 <= i <= |bits| && ackCount == i
      invariant forall j :: 0 <= j < i ==> bits[j] == '1'
      invariant missing' == missing
    {
      if bits[i] == '1' {
        ackCount := ackCount + 1;
      } else {
        missing' := missing' + [start + ackCount];
        FirstGapAt(bits, i);
        return missing', Some(AckText(start + BlockLength));
      }
      i := i + 1;
    }
    FirstGapNone(bits);
    reply := Some(AckText(start + |bits|));
  }

  lemma {:induction false} FirstGapAt(bits: string, i: nat)
    requires i < |bits| && bits[i] != '1' && forall j :: 0 <= j < i ==> bits[j] == '1'
    ensures FirstGap(bits) == Some(i)
  {
  }

  lemma {:induction false} FirstGapNone(bits: string)
    requires forall j :: 0 <= j < |bits| ==> bits[j] == '1'
    ensures FirstGap(bits) == None
  {
  }

  /** What a whole connection leaves: the missing numbers and the replies sent. */
  datatype Session = Session(missing: seq<int>, replies: seq<string>)

  /** The message loop of `main` over the received messages; an empty one is the closed connection. */
  function Serve(missing: seq<int>, messages: seq<string>): Session
    decreases |messages|
  {
    if messages == [] || messages[0] == [] then Session(missing, [])
    else
      var h := Handle(missing, messages[0]);
      var rest := Serve(h.missing, messages[1..]);
      Session(rest.missing, (if h.reply.Some? then [h.reply.value] else []) + rest.replies)
  }

  /**
   * Over a whole connection, at most one missing number is recorded and at
   * most one reply is sent per message, and earlier records are kept.
   */
  lemma {:induction false} ServeBound(missing: seq<int>, messages: seq<string>)
    ensures var r := Serve(missing, messages);
      && |missing| <= |r.missing| <= |missing| + |messages|
      && r.missing[..|missing|] == missing
      && |r.replies| <= |messages|
    decreases |messages|
  {
    if messages != [] && messages[0] != [] {
      var h := Handle(missing, messages[0]);
      HandleEffect(missing, messages[0]);
      ServeBound(h.missing, messages[1..]);
      var r := Serve(h.missing, messages[1..]);
      assert r.missing[..|missing|] == r.missing[..|h.missing|][..|missing|];
    }
  }

  /** One message of the loop, seen from position `i` of the connection. */
  lemma {:induction false} ServeStep(missing: seq<int>, messages: seq<string>, i: nat)
    requires i < |messages| && messages[i] != []
    ensures var h := Handle(missing, messages[i]);
      var rest := Serve(h.missing, messages[i + 1..]);
      && (h.reply.Some? ==> Serve(missing, messages[i..]) == Session(rest.missing, [h.reply.value] + rest.replies))
      && (h.reply.None? ==> Serve(missing, messages[i..]) == Session(rest.missing, rest.replies))
  {
    assert messages[i..][1..] == messages[i + 1..];
    var rest := Serve(Handle(missing, messages[i]).missing, messages[i + 1..]);
    assert [] + rest.replies == rest.replies;
  }

  /** The `while True` loop of `main` for one connection, from an empty `missing_numbers`. */
  method ServeLoop(messages: seq<string>) returns (missing: seq<int>, replies: seq<string>)
    ensures Session(missing, replies) == Serve([], messages)
  {
    missing, replies := [], [];
    var i := 0;
    while i < |messages|
      invariant i <= |messages|
      invariant Serve([], messages) == Session(Serve(missing, messages[i..]).missing, replies + Serve(missing, messages[i..]).replies)
    {
      if messages[i] == [] {
        ServeStops(missing, messages, i);
        break;
      }
      ServeStep(missing, messages, i);
      ghost var h := Handle(missing, messages[i]);
      ghost var rest := Serve(h.missing, messages[i + 1..]);
      var reply;
      missing, reply := HandleMessage(missing, messages[i]);
      assert Handled(missing, reply) == h;
      if reply.Some? {
        AppendAssoc(replies, [reply.value], rest.replies);
        replies := replies + [reply.value];
      }
      i := i + 1;
    }
    if i == |messages| {
      ServeStops(missing, messages, i);
    }
  }

  /** The loop stops at the end of the messages or at the empty one. */
  lemma {:induction false} ServeStops(missing: seq<int>, messages: seq<string>, i: nat)
    requires i == |messages| || (i < |messages| && messages[i] == [])
    ensures Serve(missing, messages[i..]) == Session(missing, [])
  {
  }
}
