/**
 * The set-based server of cmd/server/main.py. After an optional `network`
 * greeting (answered with `success`, but any other first message is let
 * through), each message is one sequence number: it is counted as sent,
 * added to the set of received numbers, the missing set is recomputed as
 * every integer between the smallest and the largest received number that
 * has not been received, and the reply is the number plus one, with no
 * wrap-around. Whenever the received set reaches a multiple of 1000
 * members, the goodput (received over sent) is recorded. A message that
 * is empty or not an integer ends the connection.
 *
 * Each `recv(1024)` is one message here; how TCP splits or joins them is
 * not modelled. Goodput values are exact ratios.
 */
module SetServer {
  import opened Common
  import opened Text

  const Hello: string := "network"
  const Welcome: string := "success"
  const GoodputEvery: nat := 1000

  datatype Server = Server(received: set<int>, missing: set<int>, totalReceived: nat, totalSent: nat, goodputs: seq<Ratio>)

  function Initial(): Server
  {
    Server({}, {}, 0, 0, [])
  }

  /** The smallest member of a non-empty set. */
  ghost function SetMin(s: set<int>): (m: int)
    requires s != {}
    ensures m in s && forall y :: y in s ==> m <= y
    decreases |s|
  {
    assert (forall y :: y !in s) ==> s == {};
    var x :| x in s;
    if s == {x} then
      assert forall y :: y in s ==> y == x;
      x
    else
      var r := SetMin(s - {x});
      assert forall y :: y in s ==> y == x || y in s - {x};
      if x <= r then x else r
  }

  /** The largest member of a non-empty set. */
  ghost function SetMax(s: set<int>): (m: int)
    requires s != {}
    ensures m in s && forall y :: y in s ==> y <= m
    decreases |s|
  {
    assert (forall y :: y !in s) ==> s == {};
    var x :| x in s;
    if s == {x} then
      assert forall y :: y in s ==> y == x;
      x
    else
      var r := SetMax(s - {x});
      assert forall y :: y in s ==> y == x || y in s - {x};
      if x >= r then x else r
  }

  /** `set(range(lo, hi + 1)) - received`. */
  function Gaps(received: set<int>, lo: int, hi: int): set<int>
  {
    set x | lo <= x <= hi && x !in received
  }

  /** One sequence number: count it, record it, recompute the missing set, and maybe record the goodput. */
  ghost function Received(s: Server, sn: int): Server
  {
    var received := s.received + {sn};
    var sent := s.totalSent + 1;
    s.(received := received, missing := Gaps(received, SetMin(received), SetMax(received)), totalSent := sent,
       goodputs := s.goodputs + if |received| % GoodputEvery == 0 then [Ratio(|received|, sent)] else [])
  }

  function AckText(sn: int): string
  {
    IntToDecimal(sn + 1)
  }

  /**
   * No more distinct numbers are held than messages were counted, the
   * missing set lies between the extremes of the received set and is
   * disjoint from it, and every recorded goodput lies in [0, 1].
   */
  ghost predicate Valid(s: Server)
  {
    && |s.received| <= s.totalSent
    && s.missing !! s.received
    && (s.received == {} ==> s.missing == {})
    && (s.received != {} ==>
          forall x :: SetMin(s.received) <= x <= SetMax(s.received) ==> (x in s.missing <==> x !in s.received))
    && (forall i :: 0 <= i < |s.goodputs| ==> InUnitInterval(s.goodputs[i]))
  }

  lemma {:induction false} InitialValid()
    ensures Valid(Initial())
  {
  }

  /**
   * Each number adds one to the sent count and joins the received set; the
   * missing set becomes exactly the unreceived numbers between the
   * smallest and largest received, so a number that arrives late stops
   * being missing; one goodput is recorded exactly when the received set's
   * size is a multiple of 1000.
   */
  lemma {:induction false} ReceivedEffect(s: Server, sn: int)
    requires Valid(s)
    ensures var r := Received(s, sn);
      && Valid(r)
      && r.totalSent == s.totalSent + 1
      && r.received == s.received + {sn}
      && sn !in r.missing
      && (forall x :: x in r.missing <==> (x !in r.received && SetMin(r.received) <= x <= SetMax(r.received)))
      && (|r.received| % GoodputEvery == 0 <==> |r.goodputs| == |s.goodputs| + 1)
      && r.goodputs[..|s.goodputs|] == s.goodputs
  {
    var r := Received(s, sn);
    assert |r.received| <= |s.received| + 1 by {
      CardUnion(s.received, {sn});
    }
    assert r.goodputs[..|s.goodputs|] == s.goodputs;
  }

  lemma {:induction false} CardUnion(a: set<int>, b: set<int>)
    ensures |a + b| <= |a| + |b|
  {
    if a * b != {} {
      assert |a + b| == |a| + |b| - |a * b|;
    }
  }

  /** A duplicate counts as sent again, so the goodput can fall below 1. */
  lemma {:induction false} DuplicateLowersGoodput(s: Server, sn: int)
    requires Valid(s) && sn in s.received
    ensures Received(s, sn).received == s.received
    ensures Received(s, sn).totalSent == s.totalSent + 1
  {
    assert s.received + {sn} == s.received;
  }

  datatype Served = Served(server: Server, replies: seq<string>)

  /** The receive loop: an empty message or a non-integer ends it. */
  ghost function Serve(s: Server, messages: seq<string>): Served
    decreases |messages|
  {
    if messages == [] || messages[0] == "" then Served(s, [])
    else match PyInt(messages[0])
      case None => Served(s, [])
      case Some(sn) =>
        var rest := Serve(Received(s, sn), messages[1..]);
        Served(rest.server, [AckText(sn)] + rest.replies)
  }

  /** `start` for its one connection: the greeting is answered only when it is exactly `network`, and the loop runs either way. */
  ghost function Connection(messages: seq<string>): Served
  {
    if messages == [] then Served(Initial(), [])
    else
      var r := Serve(Initial(), messages[1..]);
      Served(r.server, (if messages[0] == Hello then [Welcome] else []) + r.replies)
  }

  /**
   * The loop keeps the server valid and answers each number in turn with
   * its successor; it never answers more messages than it received.
   */
  lemma {:induction false} ServeValid(s: Server, messages: seq<string>)
    requires Valid(s)
    ensures var r := Serve(s, messages);
      && Valid(r.server)
      && |r.replies| <= |messages|
      && (forall i :: 0 <= i < |r.replies| ==> PyInt(messages[i]).Some? && r.replies[i] == AckText(PyInt(messages[i]).value))
    decreases |messages|
  {
    if messages != [] && messages[0] != "" && PyInt(messages[0]).Some? {
      var sn := PyInt(messages[0]).value;
      ReceivedEffect(s, sn);
      ServeValid(Received(s, sn), messages[1..]);
      var r := Serve(s, messages);
      var rest := Serve(Received(s, sn), messages[1..]);
      forall i | 0 <= i < |r.replies|
        ensures PyInt(messages[i]).Some? && r.replies[i] == AckText(PyInt(messages[i]).value)
      {
        if i > 0 {
          assert r.replies[i] == rest.replies[i - 1];
          assert messages[i] == messages[1..][i - 1];
        }
      }
    }
  }

  /** The handshake is not enforced: a wrong greeting gets no reply but the numbers after it are still served. */
  lemma {:induction false} HandshakeNotEnforced(messages: seq<string>)
    requires messages != [] && messages[0] != Hello
    ensures Connection(messages) == Serve(Initial(), messages[1..])
  {
  }

  /** The `TCPServer` object. */
  class TcpServer {
    var received: set<int>
    var missing: set<int>
    var totalReceived: nat
    var totalSent: nat
    var goodputs: seq<Ratio>

    ghost function Snap(): Server
      reads this
    {
      Server(received, missing, totalReceived, totalSent, goodputs)
    }

    constructor ()
      ensures Snap() == Initial()
    {
      received, missing, totalReceived, totalSent, goodputs := {}, {}, 0, 0, [];
    }

    /** The body of the receive loop for one number; returns the reply. */
    method Receive(sn: int) returns (ack: string)
      modifies this
      ensures Snap() == Received(old(Snap()), sn)
      ensures ack == AckText(sn)
    {
      totalSent := totalSent + 1;
      received := received + {sn};
      var lo, hi := MinMax(received);
      missing := Gaps(received, lo, hi);
      ack := AckText(sn);
      if |received| % GoodputEvery == 0 {
        goodputs := goodputs + [Ratio(|received|, totalSent)];
      }
    }
  }

  /** `min(s)` and `max(s)`, one pass over the set. */
  method MinMax(s: set<int>) returns (lo: int, hi: int)
    requires s != {}
    ensures lo == SetMin(s) && hi == SetMax(s)
  {
    var first := Choose(s);
    lo, hi := first, first;
    var rest := s - {first};
    while rest != {}
      invariant rest <= s && lo in s && hi in s
      invariant forall y :: y in s && y !in rest ==> lo <= y <= hi
      decreases |rest|
    {
      var y := Choose(rest);
      if y < lo {
        lo := y;
      }
      if y > hi {
        hi := y;
      }
      rest := rest - {y};
    }
  }

  /** The receive loop of `start`; returns the replies sent. */
  method ServeLoop(server: TcpServer, messages: seq<string>) returns (replies: seq<string>)
    modifies server
    ensures Served(server.Snap(), replies) == Serve(old(server.Snap()), messages)
  {
    ghost var goal := Serve(server.Snap(), messages);
    replies := [];
    var i := 0;
    while i < |messages|
      invariant i <= |messages|
      invariant var r := Serve(server.Snap(), messages[i..]); goal == Served(r.server, replies + r.replies)
    {
      if messages[i] == "" {
        return;
      }
      var parsed := PyInt(messages[i]);
      if parsed.None? {
        return;
      }
      ghost var before := server.Snap();
      assert messages[i..][1..] == messages[i + 1..];
      var ack := server.Receive(parsed.value);
      ghost var rest := Serve(server.Snap(), messages[i + 1..]);
      assert Serve(before, messages[i..]) == Served(rest.server, [ack] + rest.replies);
      AppendAssoc(replies, [ack], rest.replies);
      replies := replies + [ack];
      i := i + 1;
    }
  }

  /** `start` for one connection: the greeting, then the receive loop. */
  method Start(messages: seq<string>) returns (server: TcpServer, replies: seq<string>)
    ensures fresh(server)
    ensures Served(server.Snap(), replies) == Connection(messages)
  {
    server := new TcpServer();
    if messages == [] {
      return server, [];
    }
    replies := if messages[0] == Hello then [Welcome] else [];
    var rest := ServeLoop(server, messages[1..]);
    replies := replies + rest;
  }
}
