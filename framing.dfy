/**
 * The newline framer of the stream servers (the inner loop of `run` in
 * tcp/{gpt,claude,grok}/server.py): received text is appended to a buffer, every complete
 * line is taken off the front with `buffer.split("\n", 1)`, and the
 * trailing fragment stays in the buffer for the next receive.
 *
 * The complete lines and the fragment are exactly the fields of
 * `buffer.split("\n")`: all but the last are lines, the last is the
 * fragment. How the stream is cut into receives does not change the lines.
 */
module Framing {
  import opened Text

  /** The index of the first `c` in `s`, or -1: `s.find(c)`. */
  function IndexOf(s: string, c: char): (i: int)
    ensures -1 <= i < |s|
    ensures i >= 0 ==> s[i] == c && c !in s[..i]
    ensures i < 0 <==> c !in s
    decreases |s|
  {
    if s == [] then -1
    else if s[0] == c then 0
    else
      var j := IndexOf(s[1..], c);
      assert s[1..][..if j < 0 then 0 else j] == s[1..1 + if j < 0 then 0 else j];
      if j < 0 then -1 else j + 1
  }

  /** The first occurrence is the one with none before it. */
  lemma {:induction false} IndexOfFirst(s: string, c: char, i: int)
    requires 0 <= i < |s| && s[i] == c && c !in s[..i]
    ensures IndexOf(s, c) == i
  {
  }

  /** The complete, newline-terminated lines in a buffer, in order, without their newline. */
  function Lines(buffer: string): seq<string>
  {
    var parts := Split(buffer, '\n');
    parts[..|parts| - 1]
  }

  /** The fragment after the last newline, kept for the next receive. */
  function Rest(buffer: string): (r: string)
    ensures '\n' !in r
  {
    var parts := Split(buffer, '\n');
    SplitFieldsNoSep(buffer, '\n');
    parts[|parts| - 1]
  }

  /** Lines and fragment rebuild the buffer: nothing is lost or invented. */
  lemma {:induction false} Rebuild(buffer: string)
    ensures Join(Lines(buffer) + [Rest(buffer)], '\n') == buffer
  {
    var parts := Split(buffer, '\n');
    assert Lines(buffer) + [Rest(buffer)] == parts;
    JoinSplit(buffer, '\n');
  }

  /** No complete line contains a newline. */
  lemma {:induction false} LinesHaveNoNewline(buffer: string)
    ensures forall i :: 0 <= i < |Lines(buffer)| ==> '\n' !in Lines(buffer)[i]
  {
    SplitFieldsNoSep(buffer, '\n');
  }

  /** A buffer without a newline holds no complete line and is kept whole. */
  lemma {:induction false} NoNewline(buffer: string)
    requires '\n' !in buffer
    ensures Lines(buffer) == [] && Rest(buffer) == buffer
  {
    SplitNoSep(buffer, '\n');
  }

  /**
   * One step of the framing loop: when the buffer holds a newline,
   * `buffer.split("\n", 1)` takes off the first line, and the remaining
   * lines and the fragment are those of what is left.
   */
  lemma {:induction false} TakeFirstLine(buffer: string)
    requires '\n' in buffer
    ensures var i := IndexOf(buffer, '\n');
      Lines(buffer) == [buffer[..i]] + Lines(buffer[i + 1..])
      && Rest(buffer) == Rest(buffer[i + 1..])
  {
    var i := IndexOf(buffer, '\n');
    assert buffer == buffer[..i] + ['\n'] + buffer[i + 1..];
    SplitFirstField(buffer[..i], '\n', buffer[i + 1..]);
    var parts := Split(buffer, '\n');
    var tail := Split(buffer[i + 1..], '\n');
    assert parts == [buffer[..i]] + tail;
    assert parts[..|parts| - 1] == [buffer[..i]] + tail[..|tail| - 1];
  }

  /**
   * The framing loop's invariant carried over one step: what has been
   * taken off plus what the buffer still holds are the lines of the whole
   * text, and the fragment is the same.
   */
  lemma {:induction false} TakeFirstLineOf(whole: string, done: seq<string>, buffer: string)
    requires '\n' in buffer
    requires Lines(whole) == done + Lines(buffer) && Rest(whole) == Rest(buffer)
    ensures var i := IndexOf(buffer, '\n');
      Lines(whole) == (done + [buffer[..i]]) + Lines(buffer[i + 1..])
      && Rest(whole) == Rest(buffer[i + 1..])
  {
    TakeFirstLine(buffer);
    var i := IndexOf(buffer, '\n');
    assert done + ([buffer[..i]] + Lines(buffer[i + 1..])) == (done + [buffer[..i]]) + Lines(buffer[i + 1..]);
  }

  /**
   * Receiving `b` and then `c` frames the same lines as receiving `b + c`
   * at once: the lines of `b`, then those of `b`'s fragment extended by
   * `c`, and the same fragment in the end.
   */
  lemma {:induction false} Chunking(b: string, c: string)
    ensures Lines(b + c) == Lines(b) + Lines(Rest(b) + c)
    ensures Rest(b + c) == Rest(Rest(b) + c)
    decreases |b|
  {
    if '\n' !in b {
      NoNewline(b);
    } else {
      var i := IndexOf(b, '\n');
      TakeFirstLine(b);
      assert (b + c)[..i] == b[..i];
      assert (b + c)[i + 1..] == b[i + 1..] + c;
      IndexOfFirst(b + c, '\n', i);
      TakeFirstLine(b + c);
      Chunking(b[i + 1..], c);
    }
  }
}
