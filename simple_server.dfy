/**
 * The receiver of simple_server/server_side.py. After the `network` /
 * `success` handshake every received packet `seq,window,retransmissions`
 * is timestamped into three series kept in lockstep; a retransmitted
 * packet also bumps its bucket in a histogram that only has buckets 1..4
 * and is recorded as a drop; each packet is answered with
 * `(seq + 1) mod 65536`. Any exception (a malformed packet, a count
 * without a bucket) ends the connection, keeping what was already
 * appended. The state outlives a connection: the accept loop serves the
 * next client with the same series.
 *
 * The clock is a parameter (`now`, in whole units); plotting and the CSV
 * table are not part of this model.
 */
module SimpleServer {
  import opened Common
  import opened SeqSpace
  import opened Text
  import PacketLine

  const Hello: string := "network"
  const Welcome: string := "success"

  datatype Server = Server(
    totalReceived: nat,
    timePoints: seq<int>,
    seqNumbers: seq<int>,
    windowSizes: seq<int>,
    droppedTimes: seq<int>,
    droppedSeqs: seq<int>,
    histogram: map<int, int>)

  /** `__init__`: empty series and the four histogram buckets at 0. */
  function Initial(): Server
  {
    Server(0, [], [], [], [], [], map[1 := 0, 2 := 0, 3 := 0, 4 := 0])
  }

  /** The reply to one packet, the state after it, and whether the connection goes on. */
  datatype Received = Received(server: Server, reply: Option<string>, running: bool)

  /** `str((seq_num + 1) % self.max_sequence)`. */
  function AckText(sn: int): string
  {
    IntToDecimal(Wrap(sn + 1))
  }

  /**
   * One pass of the receive loop over `data`: parse (a `ValueError` ends
   * the connection), append to the three series, count a retransmission in
   * its bucket (a `KeyError` for a count without one ends the connection
   * after the appends), then acknowledge and count the packet.
   */
  function Receive(s: Server, data: string, now: int): Received
  {
    var parsed := PacketLine.Parse(data);
    if parsed.None? then Received(s, None, false)
    else
        var p := parsed.value;
        var t := s.(timePoints := s.timePoints + [now], seqNumbers := s.seqNumbers + [p.sn],
                    windowSizes := s.windowSizes + [p.window]);
        if p.retransmissions > 0 && p.retransmissions !in t.histogram then Received(t, None, false)
        else
          var u := if p.retransmissions > 0 then
                     t.(histogram := t.histogram[p.retransmissions := t.histogram[p.retransmissions] + 1],
                        droppedTimes := t.droppedTimes + [now], droppedSeqs := t.droppedSeqs + [p.sn])
                   else t;
          Received(u.(totalReceived := u.totalReceived + 1), Some(AckText(p.sn)), true)
  }

  /** The sum of the four histogram buckets. */
  function BucketTotal(h: map<int, int>): int
    requires 1 in h && 2 in h && 3 in h && 4 in h
  {
    h[1] + h[2] + h[3] + h[4]
  }

  /**
   * The series stay in lockstep, the histogram keeps exactly its four
   * buckets and they add up to the recorded drops, and no more packets are
   * counted as received than were recorded.
   */
  predicate Valid(s: Server)
  {
    && |s.timePoints| == |s.seqNumbers| == |s.windowSizes|
    && |s.droppedTimes| == |s.droppedSeqs| <= s.totalReceived <= |s.seqNumbers|
    && s.histogram.Keys == {1, 2, 3, 4}
    && BucketTotal(s.histogram) == |s.droppedSeqs|
    && forall b :: b in s.histogram ==> s.histogram[b] >= 0
  }

  lemma {:induction false} InitialValid()
    ensures Valid(Initial())
  {
  }

  /** Every pass of the receive loop keeps the invariant. */
  lemma {:induction false} ReceiveValid(s: Server, data: string, now: int)
    requires Valid(s)
    ensures Valid(Receive(s, data, now).server)
  {
    var parsed := PacketLine.Parse(data);
    if parsed.Some? {
      var p := parsed.value;
      var t := s.(timePoints := s.timePoints + [now], seqNumbers := s.seqNumbers + [p.sn],
                  windowSizes := s.windowSizes + [p.window]);
      assert Valid(t);
      if 1 <= p.retransmissions <= 4 {
        var r := p.retransmissions;
        var h := s.histogram[r := s.histogram[r] + 1];
        assert h.Keys == s.histogram.Keys;
        assert BucketTotal(h) == BucketTotal(s.histogram) + 1;
      }
    }
  }

  /**
   * A well-formed packet with a count in 0..4 is recorded and answered with
   * `(seq + 1) mod 65536`; a retransmission among them is also recorded as
   * a drop and counted in its bucket. A count above 4 (or negative is
   * fine: only positive counts look up a bucket) ends the connection after
   * the series grew, with no reply and nothing counted as received.
   */
  lemma {:induction false} ReceiveEffect(s: Server, data: string, now: int)
    requires Valid(s)
    ensures var r := Receive(s, data, now);
      var parsed := PacketLine.Parse(data);
      && (parsed.None? ==> r == Received(s, None, false))
      && (parsed.Some? ==>
          var p := parsed.value;
          && r.server.seqNumbers == s.seqNumbers + [p.sn]
          && r.server.timePoints == s.timePoints + [now]
          && r.server.windowSizes == s.windowSizes + [p.window]
          && (p.retransmissions > 4 ==> !r.running && r.reply == None && r.server.totalReceived == s.totalReceived)
          && (p.retransmissions <= 4 ==>
                && r.running && r.reply == Some(AckText(p.sn))
                && r.server.totalReceived == s.totalReceived + 1
                && (p.retransmissions > 0 <==> r.server.droppedSeqs == s.droppedSeqs + [p.sn])
                && (p.retransmissions > 0 ==> r.server.histogram[p.retransmissions] == s.histogram[p.retransmissions] + 1)))
  {
  }

  /** A packet that parsed, with a count that has a bucket, is acked, counted and kept in the histogram. */
  lemma {:induction false} ReceiveRetransmission(s: Server, data: string, p: PacketLine.Packet, now: int)
    requires Valid(s) && PacketLine.Parse(data) == Some(p) && 1 <= p.retransmissions <= 4
    ensures var r := Receive(s, data, now);
      && r.running && r.reply == Some(AckText(p.sn))
      && r.server.histogram[p.retransmissions] == s.histogram[p.retransmissions] + 1
      && r.server.droppedSeqs == s.droppedSeqs + [p.sn]
  {
    assert p.retransmissions in s.histogram;
  }

  /** The acknowledgement parses back to the successor of the sequence number, modulo 65536. */
  lemma {:induction false} AckIsSuccessor(sn: int)
    ensures PyInt(AckText(sn)) == Some(Next(sn))
    ensures InRange(sn) && sn < Modulus - 1 ==> PyInt(AckText(sn)) == Some(sn + 1)
    ensures sn == Modulus - 1 ==> PyInt(AckText(sn)) == Some(0)
  {
    PyIntDecimal(Wrap(sn + 1));
    NextValue(sn);
  }

  /** One received chunk, with the time it arrived; an empty chunk is the closed connection. */
  datatype Event = Event(data: string, now: int)

  datatype Served = Served(server: Server, replies: seq<string>)

  /** The inner receive loop over the chunks of one connection. */
  function Loop(s: Server, events: seq<Event>): Served
    decreases |events|
  {
    if events == [] || events[0].data == [] then Served(s, [])
    else
      var r := Receive(s, events[0].data, events[0].now);
      if !r.running then Served(r.server, [])
      else
        var rest := Loop(r.server, events[1..]);
        Served(rest.server, [r.reply.value] + rest.replies)
  }

  /** One chunk of the loop, seen from position `i` of the connection. */
  lemma {:induction false} LoopStep(s: Server, events: seq<Event>, i: nat)
    requires i < |events| && events[i].data != []
    ensures var r := Receive(s, events[i].data, events[i].now);
      && (!r.running ==> Loop(s, events[i..]) == Served(r.server, []))
      && (r.running ==>
            var rest := Loop(r.server, events[i + 1..]);
            Loop(s, events[i..]) == Served(rest.server, [r.reply.value] + rest.replies))
  {
    assert events[i..][1..] == events[i + 1..];
  }

  /** One connection: the handshake, then the receive loop if it succeeded. */
  function Connection(s: Server, hello: string, events: seq<Event>): Served
  {
    if Strip(hello) != Hello then Served(s, [])
    else
      var l := Loop(s, events);
      Served(l.server, [Welcome] + l.replies)
  }

  /** Any connection leaves the invariant in place, and answers at most once per chunk plus the handshake. */
  lemma {:induction false} LoopValid(s: Server, events: seq<Event>)
    requires Valid(s)
    ensures Valid(Loop(s, events).server)
    ensures |Loop(s, events).replies| <= |events|
    ensures Loop(s, events).server.totalReceived - s.totalReceived == |Loop(s, events).replies|
    decreases |events|
  {
    if events != [] && events[0].data != [] {
      ReceiveValid(s, events[0].data, events[0].now);
      ReceiveEffect(s, events[0].data, events[0].now);
      var r := Receive(s, events[0].data, events[0].now);
      if r.running {
        LoopValid(r.server, events[1..]);
      }
    }
  }

  lemma {:induction false} ConnectionValid(s: Server, hello: string, events: seq<Event>)
    requires Valid(s)
    ensures Valid(Connection(s, hello, events).server)
    ensures Strip(hello) != Hello ==> Connection(s, hello, events) == Served(s, [])
  {
    if Strip(hello) == Hello {
      LoopValid(s, events);
    }
  }

  /** The `TCPServer` object. */
  class TcpServer {
    var totalReceived: nat
    var timePoints: seq<int>
    var seqNumbers: seq<int>
    var windowSizes: seq<int>
    var droppedTimes: seq<int>
    var droppedSeqs: seq<int>
    var histogram: map<int, int>

    function Snap(): Server
      reads this
    {
      Server(totalReceived, timePoints, seqNumbers, windowSizes, droppedTimes, droppedSeqs, histogram)
    }

    constructor ()
      ensures Snap() == Initial()
    {
      totalReceived := 0;
      timePoints, seqNumbers, windowSizes, droppedTimes, droppedSeqs := [], [], [], [], [];
      histogram := map[1 := 0, 2 := 0, 3 := 0, 4 := 0];
    }

    /** The body of the receive loop; `running` is false where the source raises. */
    method HandlePacket(data: string, now: int) returns (reply: Option<string>, running: bool)
      modifies this
      ensures Receive(old(Snap()), data, now) == Received(Snap(), reply, running)
    {
      var parsed := PacketLine.Parse(data);
      if parsed.None? {
        return None, false;
      }
      var p := parsed.value;
      RecordSeries(p, now);
      running := CountRetransmission(p, now);
      if !running {
        return None, false;
      }
      reply := Some(AckText(p.sn));
      totalReceived := totalReceived + 1;
    }

    /** The three appends of the receive loop. */
    method RecordSeries(p: PacketLine.Packet, now: int)
      modifies this`timePoints, this`seqNumbers, this`windowSizes
      ensures Snap() == old(Snap()).(timePoints := old(timePoints) + [now], seqNumbers := old(seqNumbers) + [p.sn],
                                     windowSizes := old(windowSizes) + [p.window])
    {
      timePoints := timePoints + [now];
      seqNumbers := seqNumbers + [p.sn];
      windowSizes := windowSizes + [p.window];
    }

    /** The retransmission branch; false where the bucket lookup raises `KeyError`. */
    method CountRetransmission(p: PacketLine.Packet, now: int) returns (ok: bool)
      modifies this`histogram, this`droppedTimes, this`droppedSeqs
      ensures ok <==> !(p.retransmissions > 0 && p.retransmissions !in old(histogram))
      ensures ok && p.retransmissions > 0 ==>
        Snap() == old(Snap()).(histogram := old(histogram)[p.retransmissions := old(histogram)[p.retransmissions] + 1],
                               droppedTimes := old(droppedTimes) + [now], droppedSeqs := old(droppedSeqs) + [p.sn])
      ensures !(ok && p.retransmissions > 0) ==> Snap() == old(Snap())
    {
      if p.retransmissions > 0 {
        if p.retransmissions !in histogram {
          return false;
        }
        histogram := histogram[p.retransmissions := histogram[p.retransmissions] + 1];
        droppedTimes := droppedTimes + [now];
        droppedSeqs := droppedSeqs + [p.sn];
      }
      return true;
    }

    /** One connection of the accept loop: handshake, then the receive loop. */
    method Serve(hello: string, events: seq<Event>) returns (replies: seq<string>)
      modifies this
      ensures Connection(old(Snap()), hello, events) == Served(Snap(), replies)
    {
      if Strip(hello) != Hello {
        return [];
      }
      replies := [Welcome];
      var i := 0;
      while i < |events|
        invariant i <= |events|
        invariant var l := Loop(Snap(), events[i..]);
          Connection(old(Snap()), hello, events) == Served(l.server, replies + l.replies)
      {
        if events[i].data == [] {
          break;
        }
        LoopStep(Snap(), events, i);
        ghost var r := Receive(Snap(), events[i].data, events[i].now);
        var reply, running := HandlePacket(events[i].data, events[i].now);
        if !running {
          break;
        }
        AppendAssoc(replies, [reply.value], Loop(r.server, events[i + 1..]).replies);
        replies := replies + [reply.value];
        i := i + 1;
      }
    }
  }
}
