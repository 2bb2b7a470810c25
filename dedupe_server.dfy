/**
 * The de-duplicating server of cmd/server/server_side.py. A client must
 * greet with `network` (after `strip()`); it is answered with `success`
 * and each following message is one sequence number. Every number counts
 * as expected; a number not seen before joins the received set and counts
 * as received and towards the report interval; the reply is the number
 * plus one, with no wrap-around. The counters live in the server object
 * and carry over from one connection to the next.
 *
 * Each `recv(1024)` is one message here. Goodput is an exact ratio.
 */
module DedupeServer {
  import opened Common
  import opened Text

  const Hello: string := "network"
  const Welcome: string := "success"
  const ReportInterval: nat := 1000

  datatype Server = Server(received: set<int>, totalReceived: nat, totalExpected: nat, packetCount: nat)

  function Initial(): Server
  {
    Server({}, 0, 0, 0)
  }

  /** `calculate_goodput`: 0 before any packet, else received over expected. */
  function Goodput(s: Server): (r: Ratio)
    ensures s.totalExpected == 0 ==> r.num == 0
    ensures s.totalReceived <= s.totalExpected ==> InUnitInterval(r)
    ensures s.totalExpected > 0 ==> (r.num == r.den <==> s.totalReceived == s.totalExpected)
    ensures s.totalExpected > 0 ==> r.den == s.totalExpected && r.num * s.totalExpected == s.totalReceived * r.den
  {
    if s.totalExpected == 0 then Ratio(0, 1) else Ratio(s.totalReceived, s.totalExpected)
  }

  /** One sequence number, including the reset of the report counter. */
  function Received(s: Server, sn: int): Server
  {
    var isNew := sn !in s.received;
    var count := if isNew then s.packetCount + 1 else s.packetCount;
    Server(s.received + {sn}, if isNew then s.totalReceived + 1 else s.totalReceived, s.totalExpected + 1,
           if count >= ReportInterval then 0 else count)
  }

  function AckText(sn: int): string
  {
    IntToDecimal(sn + 1)
  }

  /** `total_received` counts the distinct numbers held, which never exceed the numbers expected. */
  ghost predicate Valid(s: Server)
  {
    s.totalReceived == |s.received| <= s.totalExpected && s.packetCount < ReportInterval
  }

  lemma {:induction false} InitialValid()
    ensures Valid(Initial())
  {
  }

  /**
   * Every number adds one to `total_expected`; a new one is added to the
   * set and counted as received, a duplicate changes nothing else; the
   * report counter stays below 1000; and so the goodput stays in [0, 1].
   */
  lemma {:induction false} ReceivedEffect(s: Server, sn: int)
    requires Valid(s)
    ensures var r := Received(s, sn);
      && Valid(r)
      && InUnitInterval(Goodput(r))
      && r.totalExpected == s.totalExpected + 1
      && r.received == s.received + {sn}
      && (sn in s.received ==> r == s.(totalExpected := s.totalExpected + 1))
      && (sn !in s.received ==> r.totalReceived == s.totalReceived + 1)
      && (sn in s.received ==> r.packetCount == s.packetCount)
      && (sn !in s.received ==> r.packetCount == (s.packetCount + 1) % ReportInterval)
  {
  }

  datatype Served = Served(server: Server, replies: seq<string>, failed: bool)

  /**
   * The receive loop: an empty message ends it; a non-integer raises the
   * `ValueError` that ends the connection.
   */
  function Serve(s: Server, messages: seq<string>): Served
    decreases |messages|
  {
    if messages == [] || messages[0] == "" then Served(s, [], false)
    else match PyInt(messages[0])
      case None => Served(s, [], true)
      case Some(sn) =>
        var rest := Serve(Received(s, sn), messages[1..]);
        Served(rest.server, [AckText(sn)] + rest.replies, rest.failed)
  }

  /** One connection: a greeting other than `network` closes it with no reply and no change. */
  function Connection(s: Server, messages: seq<string>): Served
  {
    if messages == [] || Strip(messages[0]) != Hello then Served(s, [], false)
    else
      var r := Serve(s, messages[1..]);
      Served(r.server, [Welcome] + r.replies, r.failed)
  }

  /** The numbers read, in order, before the loop stops. */
  function Accepted(messages: seq<string>): (r: seq<int>)
    decreases |messages|
  {
    if messages == [] || messages[0] == "" then []
    else match PyInt(messages[0])
      case None => []
      case Some(sn) => [sn] + Accepted(messages[1..])
  }

  /**
   * A connection keeps the server valid, counts each number it reads as
   * expected and adds exactly those numbers to the received set.
   */
  lemma {:induction false} ServeEffect(s: Server, messages: seq<string>)
    requires Valid(s)
    ensures var r := Serve(s, messages);
      && Valid(r.server)
      && r.server.totalExpected == s.totalExpected + |Accepted(messages)|
      && r.server.received == s.received + set x | x in Accepted(messages)
    decreases |messages|
  {
    if messages != [] && messages[0] != "" && PyInt(messages[0]).Some? {
      var sn := PyInt(messages[0]).value;
      ReceivedEffect(s, sn);
      ServeEffect(Received(s, sn), messages[1..]);
      ServeStep(s, messages);
      var r := Serve(s, messages);
      var rest := Serve(Received(s, sn), messages[1..]);
      assert r.server == rest.server;
      MembersCons(sn, Accepted(messages[1..]));
    } else {
      assert Serve(s, messages).server == s;
      assert Accepted(messages) == [];
    }
  }

  lemma {:induction false} MembersCons(x: int, xs: seq<int>)
    ensures (set y | y in [x] + xs) == {x} + set y | y in xs
  {
  }

  /** A connection answers the numbers it reads, in order, each with its successor. */
  lemma {:induction false} ServeReplies(s: Server, messages: seq<string>)
    ensures var r := Serve(s, messages);
      && |r.replies| == |Accepted(messages)|
      && (forall i :: 0 <= i < |r.replies| ==> r.replies[i] == AckText(Accepted(messages)[i]))
    decreases |messages|
  {
    if messages != [] && messages[0] != "" && PyInt(messages[0]).Some? {
      var sn := PyInt(messages[0]).value;
      ServeReplies(Received(s, sn), messages[1..]);
      ServeStep(s, messages);
      var r := Serve(s, messages);
      var rest := Serve(Received(s, sn), messages[1..]);
      var acc := Accepted(messages);
      forall i | 0 <= i < |r.replies|
        ensures r.replies[i] == AckText(acc[i])
      {
        if i > 0 {
          assert r.replies[i] == rest.replies[i - 1];
        }
      }
    }
  }

  /** One step of the receive loop, unfolded. */
  lemma {:induction false} ServeStep(s: Server, messages: seq<string>)
    requires messages != [] && messages[0] != "" && PyInt(messages[0]).Some?
    ensures var sn := PyInt(messages[0]).value;
      var rest := Serve(Received(s, sn), messages[1..]);
      && Serve(s, messages) == Served(rest.server, [AckText(sn)] + rest.replies, rest.failed)
      && Accepted(messages) == [sn] + Accepted(messages[1..])
  {
  }

  /** A wrong greeting leaves the server as it was. */
  lemma {:induction false} BadGreeting(s: Server, messages: seq<string>)
    requires messages != [] && Strip(messages[0]) != Hello
    ensures Connection(s, messages) == Served(s, [], false)
  {
  }

  /** The `TCPServer` object. */
  class TcpServer {
    var received: set<int>
    var totalReceived: nat
    var totalExpected: nat
    var packetCount: nat

    function Snap(): Server
      reads this
    {
      Server(received, totalReceived, totalExpected, packetCount)
    }

    constructor ()
      ensures Snap() == Initial()
    {
      received, totalReceived, totalExpected, packetCount := {}, 0, 0, 0;
    }

    /** The body of the receive loop for one number; returns the reply. */
    method Receive(sn: int) returns (ack: string)
      modifies this
      ensures Snap() == Received(old(Snap()), sn)
      ensures ack == AckText(sn)
    {
      totalExpected := totalExpected + 1;
      if sn !in received {
        received := received + {sn};
        totalReceived := totalReceived + 1;
        packetCount := packetCount + 1;
      }
      ack := AckText(sn);
      if packetCount >= ReportInterval {
        packetCount := 0;
      }
    }
  }

  /** The receive loop of `start`; returns the replies and whether it ended on an error. */
  method ServeLoop(server: TcpServer, messages: seq<string>) returns (replies: seq<string>, failed: bool)
    modifies server
    ensures Served(server.Snap(), replies, failed) == Serve(old(server.Snap()), messages)
  {
    ghost var goal := Serve(server.Snap(), messages);
    replies, failed := [], false;
    var i := 0;
    while i < |messages|
      invariant i <= |messages|
      invariant var r := Serve(server.Snap(), messages[i..]); goal == Served(r.server, replies + r.replies, r.failed)
    {
      var ack, stop := ServeOne(server, messages[i..]);
      if ack.None? {
        return replies, stop;
      }
      assert messages[i..][1..] == messages[i + 1..];
      ghost var rest := Serve(server.Snap(), messages[i + 1..]);
      AppendAssoc(replies, [ack.value], rest.replies);
      replies := replies + [ack.value];
      i := i + 1;
    }
  }

  /**
   * One pass of the receive loop: an empty message ends the loop, one that
   * does not parse ends it on an error, any other is received and answered.
   */
  method ServeOne(server: TcpServer, messages: seq<string>) returns (ack: Option<string>, failed: bool)
    requires messages != []
    modifies server
    ensures ack.None? ==> server.Snap() == old(server.Snap()) && Serve(old(server.Snap()), messages) == Served(server.Snap(), [], failed)
    ensures ack.Some? ==> var rest := Serve(server.Snap(), messages[1..]);
      Serve(old(server.Snap()), messages) == Served(rest.server, [ack.value] + rest.replies, rest.failed)
  {
    if messages[0] == "" {
      return None, false;
    }
    var parsed := PyInt(messages[0]);
    if parsed.None? {
      return None, true;
    }
    ServeStep(server.Snap(), messages);
    var text := server.Receive(parsed.value);
    ack, failed := Some(text), false;
  }

  /** One connection of `start`: the greeting, then the receive loop. */
  method HandleClient(server: TcpServer, messages: seq<string>) returns (replies: seq<string>, failed: bool)
    modifies server
    ensures Served(server.Snap(), replies, failed) == Connection(old(server.Snap()), messages)
  {
    if messages == [] || Strip(messages[0]) != Hello {
      return [], false;
    }
    var rest;
    rest, failed := ServeLoop(server, messages[1..]);
    replies := [Welcome] + rest;
  }
}
