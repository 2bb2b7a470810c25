/**
 * The gap-marking server of cmd/server/main.go. The server keeps the set
 * of sequence numbers received and the set marked missing, shared by every
 * connection. Each number received is added to the first set and counted
 * both as received and as expected; then every number from `lastReported`
 * (which stays 0) up to the new one that has not been received yet is
 * marked missing. Marks are never cleared. The reply is `ACK <seq>`.
 *
 * The maps `map[int]bool` are sets here (a key is present exactly when it
 * maps to true). The lock and the report printing are not modelled.
 */
module GoGapServer {
  import opened Common
  import opened Text

  const ReportInterval: nat := 1000
  const Hello: string := "network"

  datatype Server = Server(received: set<int>, missing: set<int>, totalReceived: nat, totalExpected: nat, lastReported: int)

  /** `NewServer`. */
  function NewServer(): Server
  {
    Server({}, {}, 0, 0, 0)
  }

  /** The numbers in [lo, hi) that are not in `received`. */
  function Unreceived(received: set<int>, lo: int, hi: int): set<int>
  {
    set j | lo <= j < hi && j !in received
  }

  /** `handleSequenceNumber(seq)`, without the reply. */
  function Handled(s: Server, sn: int): Server
  {
    var received := s.received + {sn};
    s.(received := received, missing := s.missing + Unreceived(received, s.lastReported, sn),
       totalReceived := s.totalReceived + 1, totalExpected := s.totalExpected + 1)
  }

  /** The acknowledgement for `seq`. */
  function AckText(sn: int): string
  {
    "ACK " + IntToDecimal(sn) + "\n"
  }

  /** The counters always agree and `lastReported` stays 0. */
  ghost predicate Valid(s: Server)
  {
    s.totalReceived == s.totalExpected && s.lastReported == 0 && |s.received| <= s.totalReceived
  }

  lemma {:induction false} NewServerValid()
    ensures Valid(NewServer())
  {
  }

  /**
   * Each number is counted once as received and once as expected, so the
   * two counters stay equal and the goodput they report is always 1; the
   * number joins the received set; earlier missing marks are all kept,
   * and afterwards every number in [0, seq) is received or marked missing.
   */
  lemma {:induction false} HandledEffect(s: Server, sn: int)
    requires Valid(s)
    ensures var r := Handled(s, sn);
      && Valid(r)
      && r.totalReceived == s.totalReceived + 1
      && r.received == s.received + {sn}
      && s.missing <= r.missing
      && (forall j :: 0 <= j < sn ==> j in r.received || j in r.missing)
      && (forall j :: j in r.missing - s.missing ==> 0 <= j < sn && j !in r.received)
  {
    var r := Handled(s, sn);
    assert |r.received| <= |s.received| + 1 by {
      CardUnion(s.received, {sn});
    }
  }

  lemma {:induction false} CardUnion(a: set<int>, b: set<int>)
    ensures |a + b| <= |a| + |b|
  {
    if a * b == {} {
    } else {
      assert |a + b| == |a| + |b| - |a * b|;
    }
  }

  /**
   * A number marked missing stays marked even when it arrives later: after
   * 2 then 1 on a fresh server, 1 is both received and missing.
   */
  lemma {:induction false} LateArrivalStaysMissing()
    ensures var r := Handled(Handled(NewServer(), 2), 1);
      1 in r.received && 1 in r.missing
  {
    var a := Handled(NewServer(), 2);
    assert 1 in Unreceived(a.received - {1} + {2}, 0, 2) by {
      assert 1 !in {2};
    }
    assert 1 in a.missing;
  }

  /** The lines after the handshake: non-integers are skipped, each number is handled and acknowledged. */
  datatype Served = Served(server: Server, replies: seq<string>)

  function Serve(s: Server, lines: seq<string>): Served
    decreases |lines|
  {
    if lines == [] then Served(s, [])
    else match ParseInt(Strip(lines[0]))
      case None => Serve(s, lines[1..])
      case Some(sn) =>
        var rest := Serve(Handled(s, sn), lines[1..]);
        Served(rest.server, [AckText(sn)] + rest.replies)
  }

  /** `handleConnection`: a first line other than `network` closes the connection with no reply. */
  function Connection(s: Server, lines: seq<string>): Served
  {
    if lines == [] || Strip(lines[0]) != Hello then Served(s, [])
    else
      var r := Serve(s, lines[1..]);
      Served(r.server, ["success\n"] + r.replies)
  }

  /** The integers among the lines, in order. */
  function Numbers(lines: seq<string>): seq<int>
    decreases |lines|
  {
    if lines == [] then []
    else match ParseInt(Strip(lines[0]))
      case None => Numbers(lines[1..])
      case Some(sn) => [sn] + Numbers(lines[1..])
  }

  /**
   * A connection answers each integer line with its `ACK`, in order, and
   * keeps the server valid; the counters grow by the number of integer
   * lines.
   */
  lemma {:induction false} ServeAcks(s: Server, lines: seq<string>)
    requires Valid(s)
    ensures var r := Serve(s, lines);
      && Valid(r.server)
      && |r.replies| == |Numbers(lines)|
      && (forall i :: 0 <= i < |r.replies| ==> r.replies[i] == AckText(Numbers(lines)[i]))
      && r.server.totalReceived == s.totalReceived + |Numbers(lines)|
      && s.missing <= r.server.missing && s.received <= r.server.received
    decreases |lines|
  {
    if lines != [] {
      match ParseInt(Strip(lines[0])) {
        case None =>
          ServeAcks(s, lines[1..]);
        case Some(sn) =>
          HandledEffect(s, sn);
          ServeAcks(Handled(s, sn), lines[1..]);
          var r := Serve(s, lines);
          var rest := Serve(Handled(s, sn), lines[1..]);
          forall i | 0 <= i < |r.replies|
            ensures r.replies[i] == AckText(Numbers(lines)[i])
          {
            if i > 0 {
              assert r.replies[i] == rest.replies[i - 1];
            }
          }
      }
    }
  }

  /** One line of the loop, unfolded. */
  lemma {:induction false} ServeStep(s: Server, lines: seq<string>)
    requires lines != []
    ensures ParseInt(Strip(lines[0])).None? ==> Serve(s, lines) == Serve(s, lines[1..])
    ensures ParseInt(Strip(lines[0])).Some? ==>
      var sn := ParseInt(Strip(lines[0])).value;
      var rest := Serve(Handled(s, sn), lines[1..]);
      Serve(s, lines) == Served(rest.server, [AckText(sn)] + rest.replies)
  {
  }

  /** The wrong handshake closes the connection with nothing changed. */
  lemma {:induction false} BadHandshake(s: Server, lines: seq<string>)
    requires lines != [] && Strip(lines[0]) != Hello
    ensures Connection(s, lines) == Served(s, [])
  {
  }

  /** The server object; its state outlives each connection. */
  class GapServer {
    var received: set<int>
    var missing: set<int>
    var totalReceived: nat
    var totalExpected: nat
    var lastReported: int

    function Snap(): Server
      reads this
    {
      Server(received, missing, totalReceived, totalExpected, lastReported)
    }

    constructor ()
      ensures Snap() == NewServer()
    {
      received, missing, totalReceived, totalExpected, lastReported := {}, {}, 0, 0, 0;
    }

    /** `handleSequenceNumber`: the marking loop, then the reply. */
    method HandleSequenceNumber(sn: int) returns (ack: string)
      modifies this
      ensures Snap() == Handled(old(Snap()), sn)
      ensures ack == AckText(sn)
    {
      received := received + {sn};
      totalReceived := totalReceived + 1;
      totalExpected := totalExpected + 1;
      var i := lastReported;
      while i < sn
        invariant lastReported == old(lastReported) && received == old(received) + {sn}
        invariant totalReceived == old(totalReceived) + 1 && totalExpected == old(totalExpected) + 1
        invariant lastReported <= sn ==> i <= sn
        invariant lastReported > sn ==> i == lastReported
        invariant missing == old(missing) + Unreceived(received, lastReported, i)
        decreases sn - i
      {
        if i !in received {
          missing := missing + {i};
        }
        i := i + 1;
      }
      assert Unreceived(received, lastReported, i) == Unreceived(received, lastReported, sn);
      ack := AckText(sn);
    }
  }

  /** `handleConnection` over the complete lines read, on the shared server. */
  method HandleConnection(server: GapServer, lines: seq<string>) returns (replies: seq<string>)
    modifies server
    ensures Served(server.Snap(), replies) == Connection(old(server.Snap()), lines)
  {
    if lines == [] || Strip(lines[0]) != Hello {
      return [];
    }
    ghost var goal := Connection(server.Snap(), lines);
    replies := ["success\n"];
    var i := 1;
    assert goal == Served(Serve(server.Snap(), lines[1..]).server, replies + Serve(server.Snap(), lines[1..]).replies);
    while i < |lines|
      invariant 1 <= i <= |lines|
      invariant var r := Serve(server.Snap(), lines[i..]); goal == Served(r.server, replies + r.replies)
    {
      assert lines[i..][1..] == lines[i + 1..];
      ghost var s := server.Snap();
      ServeStep(s, lines[i..]);
      var parsed := ParseInt(Strip(lines[i]));
      if parsed.Some? {
        var ack := server.HandleSequenceNumber(parsed.value);
        assert server.Snap() == Handled(s, parsed.value);
        AppendAssoc(replies, [ack], Serve(server.Snap(), lines[i + 1..]).replies);
        replies := replies + [ack];
      } else {
        assert Serve(s, lines[i..]) == Serve(s, lines[i + 1..]);
      }
      i := i + 1;
    }
  }
}
