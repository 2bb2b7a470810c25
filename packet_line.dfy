/**
 * The packet line of the stream protocol in tcp/{gpt,claude,grok}/: the clients send
 * `f"{seq},{window},{retransmissions}\n"` and the servers' `process_packet`
 * splits the stripped line on ',' and needs exactly three integer fields.
 */
module PacketLine {
  import opened Common
  import opened Text

  datatype Packet = Packet(sn: int, window: int, retransmissions: int)

  /** The line a client sends for a packet, without its terminating newline. */
  function Format(p: Packet): string
  {
    IntToDecimal(p.sn) + [','] + IntToDecimal(p.window) + [','] + IntToDecimal(p.retransmissions)
  }

  /**
   * `seq_str, win_str, rtx_str = packet.split(',')` followed by three
   * `int()` calls: any other number of fields, or a field that is not an
   * integer, is the `ValueError` path.
   */
  function Parse(line: string): Option<Packet>
  {
    var f := Split(line, ',');
    if |f| != 3 then None
    else
      var a, b, c := PyInt(f[0]), PyInt(f[1]), PyInt(f[2]);
      if a.Some? && b.Some? && c.Some? then Some(Packet(a.value, b.value, c.value)) else None
  }

  /** The server reads back exactly the packet the client formatted. */
  lemma {:induction false} ParseFormat(p: Packet)
    ensures Parse(Format(p)) == Some(p)
  {
    var fields := [IntToDecimal(p.sn), IntToDecimal(p.window), IntToDecimal(p.retransmissions)];
    assert fields[1..][1..] == [IntToDecimal(p.retransmissions)];
    assert Join(fields[1..], ',') == IntToDecimal(p.window) + [','] + IntToDecimal(p.retransmissions);
    assert Join(fields, ',') == Format(p);
    DecimalHasNoSeparator(p.sn);
    DecimalHasNoSeparator(p.window);
    DecimalHasNoSeparator(p.retransmissions);
    SplitJoin(fields, ',');
    PyIntDecimal(p.sn);
    PyIntDecimal(p.window);
    PyIntDecimal(p.retransmissions);
  }

  /** Three comma-free fields joined by commas split back into those three fields. */
  lemma {:induction false} SplitThree(a: string, b: string, c: string)
    requires ',' !in a && ',' !in b && ',' !in c
    ensures Split(a + [','] + b + [','] + c, ',') == [a, b, c]
  {
    SplitNoSep(c, ',');
    SplitFirstField(b, ',', c);
    SplitFirstField(a, ',', b + [','] + c);
    assert a + [','] + b + [','] + c == a + [','] + (b + [','] + c);
  }

  /** A line with two fields, or with four, is rejected whatever the fields hold. */
  lemma {:induction false} ParseRejectsFieldCount(a: string, b: string, c: string, d: string)
    requires ',' !in a && ',' !in b && ',' !in c && ',' !in d
    ensures Parse(a + [','] + b) == None
    ensures Parse(a + [','] + b + [','] + c + [','] + d) == None
  {
    SplitNoSep(b, ',');
    SplitFirstField(a, ',', b);
    assert Split(a + [','] + b, ',') == [a, b];
    FourFields(a, b, c, d);
  }

  /** Four comma-free fields joined by commas split into four fields. */
  lemma {:induction false} FourFields(a: string, b: string, c: string, d: string)
    requires ',' !in a && ',' !in b && ',' !in c && ',' !in d
    ensures |Split(a + [','] + b + [','] + c + [','] + d, ',')| == 4
  {
    var l := a + [','];
    var t1 := b + [','];
    var t2 := t1 + c;
    var t3 := t2 + [','];
    var tail := t3 + d;
    AppendAssoc(l, b, [',']);
    AppendAssoc(l, t1, c);
    AppendAssoc(l, t2, [',']);
    AppendAssoc(l, t3, d);
    SplitThree(b, c, d);
    SplitFirstField(a, ',', tail);
  }

  /**
   * A line of three fields is accepted exactly when every field is an
   * integer, and then it carries those integers.
   */
  lemma {:induction false} ParseFields(a: string, b: string, c: string)
    requires ',' !in a && ',' !in b && ',' !in c
    ensures Parse(a + [','] + b + [','] + c) ==
      if PyInt(a).Some? && PyInt(b).Some? && PyInt(c).Some?
      then Some(Packet(PyInt(a).value, PyInt(b).value, PyInt(c).value))
      else None
  {
    SplitThree(a, b, c);
  }
}
