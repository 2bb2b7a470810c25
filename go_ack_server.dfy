/**
 * The cumulative-ack server of cmd/server/server.go. Each line is trimmed
 * and dispatched: `network` is answered with `success`, `finish` with
 * `goodbye` and the end of the connection, a line starting with `SEQ`
 * records the number in its second space-separated field and is answered
 * with `ACK <lastAck>`, where `lastAck` has been moved up to the highest
 * number below which every positive number has been received; anything
 * else is ignored.
 *
 * The map `map[int]bool` is a set here. Go's `strconv.Atoi` range limit
 * is not modelled.
 */
module GoAckServer {
  import opened Common
  import opened Text

  const Hello: string := "network"
  const Welcome: string := "success\n"
  const Finish: string := "finish"
  const Goodbye: string := "goodbye\n"
  const SeqPrefix: string := "SEQ"

  /** The connection's `receivedPackets` and `lastAck`. */
  datatype Conn = Conn(received: set<int>, lastAck: int)

  function Initial(): Conn
  {
    Conn({}, 0)
  }

  /** The received numbers above `a`. */
  function Above(received: set<int>, a: int): set<int>
  {
    set x | x in received && x > a
  }

  /** The `for receivedPackets[lastAck+1]` loop: move `a` up while the next number has been received. */
  function Advance(received: set<int>, a: int): (r: int)
    ensures a <= r && r + 1 !in received
    ensures forall k :: a < k <= r ==> k in received
    decreases |Above(received, a)|
  {
    if a + 1 in received then
      AboveShrinks(received, a);
      Advance(received, a + 1)
    else a
  }

  lemma {:induction false} AboveShrinks(received: set<int>, a: int)
    requires a + 1 in received
    ensures |Above(received, a + 1)| < |Above(received, a)|
  {
    assert Above(received, a + 1) == Above(received, a) - {a + 1};
  }

  /** `lastAck` is the top of an unbroken run of received numbers from 1, and the number after it is missing. */
  ghost predicate Valid(c: Conn)
  {
    && c.lastAck >= 0
    && (forall k :: 0 < k <= c.lastAck ==> k in c.received)
    && c.lastAck + 1 !in c.received
  }

  lemma {:induction false} InitialValid()
    ensures Valid(Initial())
  {
  }

  /**
   * In a valid state, `lastAck` is exactly the largest `k` such that every
   * number in 1..k has been received.
   */
  lemma {:induction false} ValidCharacterises(c: Conn, k: int)
    requires Valid(c) && k >= 0
    ensures k <= c.lastAck <==> forall j :: 0 < j <= k ==> j in c.received
  {
    if k > c.lastAck {
      assert 0 < c.lastAck + 1 <= k;
    }
  }

  /** `strings.HasPrefix(data, "SEQ")`, then the second field of `strings.Split(data, " ")` through `strconv.Atoi`. */
  function SeqNumber(data: string): Option<int>
    requires StartsWith(data, SeqPrefix)
  {
    var parts := Split(data, ' ');
    if |parts| < 2 then None else ParseInt(parts[1])
  }

  /** Recording a received number. */
  function Record(c: Conn, sn: int): Conn
  {
    var received := c.received + {sn};
    Conn(received, Advance(received, c.lastAck))
  }

  function AckText(n: int): string
  {
    "ACK " + IntToDecimal(n) + "\n"
  }

  /** What one line does: the new state, the reply if any, and whether the connection ends. */
  datatype Stepped = Stepped(conn: Conn, reply: Option<string>, done: bool)

  function Step(c: Conn, line: string): Stepped
  {
    var data := Strip(line);
    if data == Hello then Stepped(c, Some(Welcome), false)
    else if data == Finish then Stepped(c, Some(Goodbye), true)
    else if StartsWith(data, SeqPrefix) then
      match SeqNumber(data)
        case None => Stepped(c, None, false)
        case Some(sn) =>
          var next := Record(c, sn);
          Stepped(next, Some(AckText(next.lastAck)), false)
    else Stepped(c, None, false)
  }

  /**
   * A well-formed `SEQ` adds its number to the received set, never moves
   * `lastAck` down, keeps the state valid and is answered with the new
   * `lastAck`; a malformed one, and every other line, leaves the state as
   * it was.
   */
  lemma {:induction false} StepEffect(c: Conn, line: string)
    requires Valid(c)
    ensures var r := Step(c, line);
      && Valid(r.conn)
      && r.conn.lastAck >= c.lastAck
      && c.received <= r.conn.received
      && (r.done <==> Strip(line) == Finish)
      && (var data := Strip(line);
          if data != Hello && data != Finish && StartsWith(data, SeqPrefix) && SeqNumber(data).Some? then
            && r.conn.received == c.received + {SeqNumber(data).value}
            && r.reply == Some(AckText(r.conn.lastAck))
          else r.conn == c)
  {
  }

  /**
   * Receiving the number right after `lastAck` moves `lastAck` past it and
   * past every number already held beyond it; any other number leaves
   * `lastAck` where it was.
   */
  lemma {:induction false} RecordMoves(c: Conn, sn: int)
    requires Valid(c)
    ensures sn != c.lastAck + 1 ==> Record(c, sn).lastAck == c.lastAck
    ensures sn == c.lastAck + 1 ==> Record(c, sn).lastAck > c.lastAck
  {
  }

  /** The replies and final state of a connection. */
  datatype Served = Served(conn: Conn, replies: seq<string>)

  function Serve(c: Conn, lines: seq<string>): Served
    decreases |lines|
  {
    if lines == [] then Served(c, [])
    else
      var s := Step(c, lines[0]);
      var out := if s.reply.Some? then [s.reply.value] else [];
      if s.done then Served(s.conn, out)
      else
        var rest := Serve(s.conn, lines[1..]);
        Served(rest.conn, out + rest.replies)
  }

  /** A connection keeps the state valid, `lastAck` never goes down, and there is at most one reply per line. */
  lemma {:induction false} ServeValid(c: Conn, lines: seq<string>)
    requires Valid(c)
    ensures var r := Serve(c, lines);
      Valid(r.conn) && r.conn.lastAck >= c.lastAck && |r.replies| <= |lines|
    decreases |lines|
  {
    if lines != [] {
      StepEffect(c, lines[0]);
      ServeValid(Step(c, lines[0]).conn, lines[1..]);
    }
  }

  /** `finish` ends the connection with `goodbye`, whatever follows. */
  lemma {:induction false} FinishEnds(c: Conn, lines: seq<string>)
    requires lines != [] && Strip(lines[0]) == Finish
    ensures Serve(c, lines) == Served(c, [Goodbye])
  {
  }

  /** One line of the loop, unfolded. */
  lemma {:induction false} ServeStep(c: Conn, lines: seq<string>)
    requires lines != []
    ensures var s := Step(c, lines[0]);
      var out := if s.reply.Some? then [s.reply.value] else [];
      && (s.done ==> Serve(c, lines) == Served(s.conn, out))
      && (!s.done ==> Serve(c, lines) == Served(Serve(s.conn, lines[1..]).conn, out + Serve(s.conn, lines[1..]).replies))
  {
  }

  /** `handleConnection` over the lines the scanner yields. */
  method HandleConnection(lines: seq<string>) returns (replies: seq<string>)
    ensures replies == Serve(Initial(), lines).replies
  {
    var received: set<int> := {};
    var lastAck := 0;
    replies := [];
    var i := 0;
    while i < |lines|
      invariant i <= |lines|
      invariant var r := Serve(Conn(received, lastAck), lines[i..]);
        Serve(Initial(), lines) == Served(r.conn, replies + r.replies)
    {
      ghost var before := Conn(received, lastAck);
      ServeStep(before, lines[i..]);
      assert lines[i..][1..] == lines[i + 1..];
      var reply, done;
      received, lastAck, reply, done := HandleLine(received, lastAck, lines[i]);
      var out := if reply.Some? then [reply.value] else [];
      ghost var rest := Serve(Conn(received, lastAck), lines[i + 1..]);
      if done {
        assert Serve(before, lines[i..]) == Served(Conn(received, lastAck), out);
        replies := replies + out;
        return;
      }
      assert Serve(before, lines[i..]) == Served(rest.conn, out + rest.replies);
      AppendAssoc(replies, out, rest.replies);
      replies := replies + out;
      i := i + 1;
    }
  }

  /** One pass of the `switch` in the scanner loop. */
  method HandleLine(received: set<int>, lastAck: int, line: string)
    returns (received': set<int>, lastAck': int, reply: Option<string>, done: bool)
    ensures Stepped(Conn(received', lastAck'), reply, done) == Step(Conn(received, lastAck), line)
  {
    received', lastAck', reply, done := received, lastAck, None, false;
    var data := Strip(line);
    if data == Hello {
      reply := Some(Welcome);
    } else if data == Finish {
      reply, done := Some(Goodbye), true;
    } else if StartsWith(data, SeqPrefix) {
      var parts := Split(data, ' ');
      if |parts| >= 2 {
        var parsed := ParseInt(parts[1]);
        if parsed.Some? {
          received' := received + {parsed.value};
          lastAck' := AdvanceLoop(received', lastAck);
          reply := Some(AckText(lastAck'));
        }
      }
    }
  }

  /** The `for receivedPackets[lastAck+1] { lastAck++ }` loop. */
  method AdvanceLoop(received: set<int>, lastAck: int) returns (a: int)
    ensures a == Advance(received, lastAck)
  {
    a := lastAck;
    while a + 1 in received
      invariant lastAck <= a && Advance(received, a) == Advance(received, lastAck)
      decreases |Above(received, a)|
    {
      AboveShrinks(received, a);
      a := a + 1;
    }
  }
}
