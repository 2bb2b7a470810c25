/**
 * The sender of simple_server/client_side.py. Each iteration of `start`
 * sends the packet `seq,4,0` for `sequence_number mod 65536`, or, when the
 * loss simulation fires, records the number in `dropped_packets` with
 * count 1 and bumps `retransmission_counter`. Once that counter reaches
 * 100, the next iteration first runs `_handle_retransmission` over the
 * dictionary's keys: an entry at count 4 is given up, a re-drop, a wrong
 * ack or a failed exchange bumps the count by one, and the expected ack
 * `(seq + 1) mod 65536` removes the entry.
 *
 * The loss simulation and the server's answers are parameters; the order
 * of the dictionary's keys (its insertion order) is a parameter listing
 * each key once.
 */
module SimpleClient {
  import opened Common
  import opened SeqSpace
  import PacketLine
  import SimpleServer
  import Text

  const WindowSize: int := 4
  const PassThreshold: nat := 100
  const MaxAttempts: int := 4

  /**
   * What happens to one retransmission: dropped again, answered with an
   * ack, `send` raising (nothing goes out), or the reply failing after the
   * packet went out (`recv` or `int()` raising).
   */
  datatype Attempt = Redropped | Replied(ack: int) | SendFailed | ReplyFailed

  datatype Client = Client(sequenceNumber: nat, dropped: map<int, int>)

  function Initial(): Client
  {
    Client(0, map[])
  }

  /** The ack that confirms a retransmission of `sn`. */
  predicate Delivered(sn: int, a: Attempt)
  {
    a.Replied? && a.ack == Next(sn)
  }

  /** One key of the retransmission pass. */
  function PassStep(d: map<int, int>, sn: int, a: Attempt): map<int, int>
  {
    if sn !in d then d
    else if d[sn] >= MaxAttempts then d - {sn}
    else if Delivered(sn, a) then d - {sn}
    else d[sn := d[sn] + 1]
  }

  /** The packet a retransmission sends, if it sends one: not when dropped again or when `send` raises. */
  function PassPacket(d: map<int, int>, sn: int, a: Attempt): seq<PacketLine.Packet>
  {
    if sn in d && d[sn] < MaxAttempts && (a.Replied? || a.ReplyFailed?) then [PacketLine.Packet(sn, WindowSize, d[sn])] else []
  }

  /**
   * The two exceptions of a retransmission bump the count alike, but only
   * the one raised after `send` has put the packet on the wire.
   */
  lemma {:induction false} FailuresDiffer(d: map<int, int>, sn: int)
    requires sn in d && d[sn] < MaxAttempts
    ensures PassStep(d, sn, SendFailed) == PassStep(d, sn, ReplyFailed) == d[sn := d[sn] + 1]
    ensures PassPacket(d, sn, SendFailed) == []
    ensures PassPacket(d, sn, ReplyFailed) == [PacketLine.Packet(sn, WindowSize, d[sn])]
  {
  }

  /** `_handle_retransmission` over the keys in `order`, one attempt per key. */
  function Pass(d: map<int, int>, order: seq<int>, attempts: seq<Attempt>): map<int, int>
    requires |attempts| == |order|
    decreases |order|
  {
    if order == [] then d
    else
      var n := |order| - 1;
      PassStep(Pass(d, order[..n], attempts[..n]), order[n], attempts[n])
  }

  /** The packets the pass sends, in order. */
  function PassSent(d: map<int, int>, order: seq<int>, attempts: seq<Attempt>): seq<PacketLine.Packet>
    requires |attempts| == |order|
    decreases |order|
  {
    if order == [] then []
    else
      var n := |order| - 1;
      PassSent(d, order[..n], attempts[..n]) + PassPacket(Pass(d, order[..n], attempts[..n]), order[n], attempts[n])
  }

  /** Whether an entry at count `count` survives its retransmission. */
  predicate Keeps(count: int, sn: int, a: Attempt)
  {
    count < MaxAttempts && !Delivered(sn, a)
  }

  /**
   * The pass decides every entry on its own: a key outside `order` is
   * untouched; a listed key stays exactly when its count is below 4 and
   * the attempt did not bring the expected ack, and then its count is one
   * higher. No key is added.
   */
  lemma {:induction false} PassEntry(d: map<int, int>, order: seq<int>, attempts: seq<Attempt>)
    requires |attempts| == |order| && Distinct(order)
    ensures var r := Pass(d, order, attempts);
      && (forall sn :: sn in r ==> sn in d)
      && (forall sn :: sn in d && sn !in order ==> sn in r && r[sn] == d[sn])
      && (forall i :: 0 <= i < |order| && order[i] in d ==>
            (order[i] in r <==> Keeps(d[order[i]], order[i], attempts[i]))
            && (order[i] in r ==> r[order[i]] == d[order[i]] + 1))
    decreases |order|
  {
    if order != [] {
      var n := |order| - 1;
      var init := order[..n];
      PassEntry(d, init, attempts[..n]);
      var p := Pass(d, init, attempts[..n]);
      var r := Pass(d, order, attempts);
      forall sn | sn in d && sn !in order
        ensures sn in r && r[sn] == d[sn]
      {
        assert sn !in init;
      }
      forall i | 0 <= i < |order| && order[i] in d
        ensures (order[i] in r <==> Keeps(d[order[i]], order[i], attempts[i]))
          && (order[i] in r ==> r[order[i]] == d[order[i]] + 1)
      {
        if i < n {
          assert init[i] == order[i] && attempts[..n][i] == attempts[i];
          assert order[i] != order[n];
        } else {
          assert order[n] !in init by {
            forall j | 0 <= j < n
              ensures init[j] != order[n]
            {
              assert order[j] != order[n];
            }
          }
        }
      }
    }
  }

  /** Counts are kept between 1 and 4 by a pass over every key. */
  lemma {:induction false} PassKeepsRange(d: map<int, int>, order: seq<int>, attempts: seq<Attempt>)
    requires |attempts| == |order| && KeyOrder(order, d)
    requires forall sn :: sn in d ==> 1 <= d[sn] <= MaxAttempts
    ensures var r := Pass(d, order, attempts);
      forall sn :: sn in r ==> 1 <= r[sn] <= MaxAttempts
  {
    PassEntry(d, order, attempts);
    var r := Pass(d, order, attempts);
    forall sn | sn in r
      ensures 1 <= r[sn] <= MaxAttempts
    {
      var i :| 0 <= i < |order| && order[i] == sn;
    }
  }

  /**
   * Every packet a pass sends carries a key's count from before the pass,
   * which is below 4: given counts in 1..4, it is a retransmission count
   * of 1, 2 or 3.
   */
  lemma {:induction false} PassSentCounts(d: map<int, int>, order: seq<int>, attempts: seq<Attempt>)
    requires |attempts| == |order| && Distinct(order)
    requires forall sn :: sn in d ==> 1 <= d[sn] <= MaxAttempts
    ensures forall p :: p in PassSent(d, order, attempts) ==>
      p.sn in d && p.retransmissions == d[p.sn] && 1 <= p.retransmissions < MaxAttempts && p.window == WindowSize
    decreases |order|
  {
    if order != [] {
      var n := |order| - 1;
      PassSentCounts(d, order[..n], attempts[..n]);
      PassEntry(d, order[..n], attempts[..n]);
      var p := Pass(d, order[..n], attempts[..n]);
      var k := order[n];
      if k in p {
        assert k !in order[..n] by {
          forall j | 0 <= j < n
            ensures order[..n][j] != k
          {
            assert order[j] != order[n];
          }
        }
        assert p[k] == d[k];
      }
    }
  }

  /**
   * Cross-file property: the server of simple_server/server_side.py
   * answers every packet of a pass with the ack that removes its entry.
   */
  lemma {:induction false} ServerAckDelivers(sn: int)
    ensures var a := Text.PyInt(SimpleServer.AckText(sn));
      a.Some? && Delivered(sn, Replied(a.value)) && forall c :: !Keeps(c, sn, Replied(a.value))
  {
    SimpleServer.AckIsSuccessor(sn);
  }

  /**
   * Cross-file property: the server accepts every packet a pass sends
   * without the `KeyError` of its histogram, acks it, and records it in
   * the bucket of its count.
   */
  lemma {:induction false} ServerAcceptsPass(s: SimpleServer.Server, d: map<int, int>, order: seq<int>, attempts: seq<Attempt>, now: int)
    requires |attempts| == |order| && Distinct(order) && SimpleServer.Valid(s)
    requires forall sn :: sn in d ==> 1 <= d[sn] <= MaxAttempts
    ensures forall p :: p in PassSent(d, order, attempts) ==>
      var r := SimpleServer.Receive(s, PacketLine.Format(p), now);
      r.running && r.reply == Some(SimpleServer.AckText(p.sn))
      && p.retransmissions in s.histogram && p.retransmissions in r.server.histogram
      && r.server.histogram[p.retransmissions] == s.histogram[p.retransmissions] + 1
  {
    PassSentCounts(d, order, attempts);
    forall p | p in PassSent(d, order, attempts)
      ensures var r := SimpleServer.Receive(s, PacketLine.Format(p), now);
        r.running && r.reply == Some(SimpleServer.AckText(p.sn))
        && p.retransmissions in s.histogram && p.retransmissions in r.server.histogram
        && r.server.histogram[p.retransmissions] == s.histogram[p.retransmissions] + 1
    {
      ServerAcceptsPacket(s, p, now);
    }
  }

  lemma {:induction false} ServerAcceptsPacket(s: SimpleServer.Server, p: PacketLine.Packet, now: int)
    requires SimpleServer.Valid(s) && 1 <= p.retransmissions < MaxAttempts
    ensures var r := SimpleServer.Receive(s, PacketLine.Format(p), now);
      r.running && r.reply == Some(SimpleServer.AckText(p.sn))
      && p.retransmissions in s.histogram && p.retransmissions in r.server.histogram
      && r.server.histogram[p.retransmissions] == s.histogram[p.retransmissions] + 1
  {
    PacketLine.ParseFormat(p);
    SimpleServer.ReceiveRetransmission(s, PacketLine.Format(p), p, now);
  }

  /** What one iteration of the `start` loop gets from outside: the loss roll, and the pass's key order and attempts. */
  datatype Round = Round(drop: bool, order: seq<int>, attempts: seq<Attempt>)

  /** The state of `start`: the client, `packets_sent` and `retransmission_counter`. */
  datatype Sender = Sender(client: Client, sent: nat, counter: nat)

  /** One iteration of the `start` loop, with the packets it sends. */
  datatype Iterated = Iterated(sender: Sender, packets: seq<PacketLine.Packet>)

  function Iteration(s: Sender, r: Round): Iterated
    requires |r.attempts| == |r.order|
  {
    var c := s.client;
    var current := Wrap(c.sequenceNumber);
    var pass := s.counter >= PassThreshold;
    var d := if pass then Pass(c.dropped, r.order, r.attempts) else c.dropped;
    var counter := if pass then 0 else s.counter;
    var retransmitted := if pass then PassSent(c.dropped, r.order, r.attempts) else [];
    var next := Client(c.sequenceNumber + 1, if r.drop then d[current := 1] else d);
    Iterated(Sender(next, s.sent + 1, if r.drop then counter + 1 else counter),
             retransmitted + if r.drop then [] else [PacketLine.Packet(current, WindowSize, 0)])
  }

  /** Counts lie in 1..4, keys are sequence numbers, and the counter never passes 100. */
  predicate Valid(s: Sender)
  {
    && s.counter <= PassThreshold
    && forall sn :: sn in s.client.dropped ==> InRange(sn) && 1 <= s.client.dropped[sn] <= MaxAttempts
  }

  /**
   * An iteration keeps the invariant (given the pass visits every key), a
   * new drop enters with count 1, the regular packet is `seq mod 65536`
   * with window 4 and count 0, and `sequence_number` grows by one without
   * wrapping.
   */
  lemma {:induction false} IterationValid(s: Sender, r: Round)
    requires Valid(s) && |r.attempts| == |r.order|
    requires s.counter >= PassThreshold ==> KeyOrder(r.order, s.client.dropped)
    ensures var t := Iteration(s, r);
      && Valid(t.sender)
      && t.sender.client.sequenceNumber == s.client.sequenceNumber + 1
      && t.sender.sent == s.sent + 1
      && (r.drop ==> t.sender.client.dropped[Wrap(s.client.sequenceNumber)] == 1)
      && (!r.drop ==> t.packets[|t.packets| - 1] == PacketLine.Packet(Wrap(s.client.sequenceNumber), WindowSize, 0))
      && (s.counter < PassThreshold ==> t.sender.counter == s.counter + if r.drop then 1 else 0)
      && (s.counter >= PassThreshold ==> t.sender.counter == if r.drop then 1 else 0)
  {
    if s.counter >= PassThreshold {
      PassKeepsRange(s.client.dropped, r.order, r.attempts);
      PassEntry(s.client.dropped, r.order, r.attempts);
    }
  }

  /** The iterations of `start` over the rounds given. */
  function Run(s: Sender, rounds: seq<Round>): Sender
    requires forall i :: 0 <= i < |rounds| ==> |rounds[i].attempts| == |rounds[i].order|
    decreases |rounds|
  {
    if rounds == [] then s else Run(Iteration(s, rounds[0]).sender, rounds[1..])
  }

  function Drops(rounds: seq<Round>): nat
    decreases |rounds|
  {
    if rounds == [] then 0 else (if rounds[0].drop then 1 else 0) + Drops(rounds[1..])
  }

  /**
   * `retransmission_counter` counts drops only: as long as fewer than 100
   * drops have happened since the last pass, no pass runs and the counter
   * is the number of drops.
   */
  lemma {:induction false} CounterCountsDrops(s: Sender, rounds: seq<Round>)
    requires forall i :: 0 <= i < |rounds| ==> |rounds[i].attempts| == |rounds[i].order|
    requires s.counter + Drops(rounds) <= PassThreshold
    requires |rounds| > 0 ==> s.counter + Drops(rounds[..|rounds| - 1]) < PassThreshold
    ensures Run(s, rounds).counter == s.counter + Drops(rounds)
    ensures Run(s, rounds).client.dropped.Keys >= s.client.dropped.Keys
    decreases |rounds|
  {
    if rounds != [] {
      var t := Iteration(s, rounds[0]).sender;
      var rest := rounds[1..];
      if |rest| > 0 {
        assert rounds[..|rounds| - 1] == [rounds[0]] + rest[..|rest| - 1];
        DropsPrefix(rounds[0], rest[..|rest| - 1]);
      }
      CounterCountsDrops(t, rest);
    }
  }

  lemma {:induction false} DropsPrefix(r: Round, rest: seq<Round>)
    ensures Drops([r] + rest) == (if r.drop then 1 else 0) + Drops(rest)
  {
    assert ([r] + rest)[1..] == rest;
  }

  /** The `TCPClient` object. */
  class TcpClient {
    var sequenceNumber: nat
    var dropped: map<int, int>

    function Snap(): Client
      reads this
    {
      Client(sequenceNumber, dropped)
    }

    constructor ()
      ensures Snap() == Initial()
    {
      sequenceNumber := 0;
      dropped := map[];
    }

    /** `_handle_retransmission`, returning the packets it sends. */
    method HandleRetransmission(order: seq<int>, attempts: seq<Attempt>) returns (sent: seq<PacketLine.Packet>)
      requires |attempts| == |order| && KeyOrder(order, dropped)
      modifies this`dropped
      ensures dropped == Pass(old(dropped), order, attempts)
      ensures sent == PassSent(old(dropped), order, attempts)
    {
      sent := [];
      var i := 0;
      while i < |order|
        invariant i <= |order|
        invariant dropped == Pass(old(dropped), order[..i], attempts[..i])
        invariant sent == PassSent(old(dropped), order[..i], attempts[..i])
      {
        assert order[..i + 1][..i] == order[..i] && attempts[..i + 1][..i] == attempts[..i];
        var sn := order[i];
        PassEntry(old(dropped), order[..i], attempts[..i]);
        assert sn !in order[..i] by {
          forall j | 0 <= j < i
            ensures order[..i][j] != sn
          {
            assert order[j] != order[i];
          }
        }
        assert sn in dropped;
        var pkt := RetransmitOne(sn, attempts[i]);
        sent := sent + pkt;
        i := i + 1;
      }
      assert order[..i] == order && attempts[..i] == attempts;
    }

    /** One key of `_handle_retransmission`: the entry updated or removed, and the packet sent if any. */
    method RetransmitOne(sn: int, a: Attempt) returns (pkt: seq<PacketLine.Packet>)
      requires sn in dropped
      modifies this`dropped
      ensures dropped == PassStep(old(dropped), sn, a)
      ensures pkt == PassPacket(old(dropped), sn, a)
    {
      pkt := [];
      var count := dropped[sn];
      if count >= MaxAttempts {
        dropped := dropped - {sn};
      } else {
        match a {
          case Redropped =>
            dropped := dropped[sn := count + 1];
          case Replied(ack) =>
            pkt := [PacketLine.Packet(sn, WindowSize, count)];
            if ack == (sn + 1) % Modulus {
              dropped := dropped - {sn};
            } else {
              dropped := dropped[sn := count + 1];
            }
          case SendFailed =>
            dropped := dropped[sn := count + 1];
          case ReplyFailed =>
            pkt := [PacketLine.Packet(sn, WindowSize, count)];
            dropped := dropped[sn := count + 1];
        }
      }
    }

    /**
     * One iteration of the `start` loop; `counter` is
     * `retransmission_counter`. Returns the new counter and the packets sent.
     */
    method Iterate(counter: nat, r: Round) returns (counter': nat, packets: seq<PacketLine.Packet>)
      requires |r.attempts| == |r.order|
      requires counter >= PassThreshold ==> KeyOrder(r.order, dropped)
      modifies this
      ensures var t := Iteration(Sender(old(Snap()), 0, counter), r);
        Snap() == t.sender.client && counter' == t.sender.counter && packets == t.packets
    {
      var current := sequenceNumber % Modulus;
      counter' := counter;
      packets := [];
      if counter' >= PassThreshold {
        packets := HandleRetransmission(r.order, r.attempts);
        counter' := 0;
      }
      if r.drop {
        dropped := dropped[current := 1];
        counter' := counter' + 1;
      } else {
        packets := packets + [PacketLine.Packet(current, WindowSize, 0)];
      }
      sequenceNumber := sequenceNumber + 1;
    }
  }
}
