/**
 * The two-map client of cmd/client/main_rewrite.go. Packets sent and
 * awaiting an acknowledgement are in `sentPackets`; packets the simulation
 * dropped are in `droppedPackets`. `handleRetransmissions` retries every
 * dropped packet that has waited 100 ms: one that gets through moves to
 * `sentPackets` and goes into the message; one dropped again stays, with
 * one more attempt. `cleanupOldPackets` forgets every packet not marked
 * `wrapped` once the sequence numbers have wrapped at least once.
 *
 * The clock is the parameter `now`, in milliseconds; each random draw is an
 * input `bool`; the order of each `range` over a map is an input sequence
 * holding every key once. A map of pointers is a map of values here: every
 * packet is held by one map at a time, so no update is seen through a
 * second reference.
 */
module GoRewriteClient {
  import opened Common
  import GoWindowClient
  import Text

  const RetransmitAfter: int := 100

  datatype Packet = Packet(sequenceNumber: int, sendTime: int, attempts: int, wrapped: bool)

  datatype Client = Client(sentPackets: map<int, Packet>, droppedPackets: map<int, Packet>, totalSent: int,
                           totalDropped: int, currentSequence: int, wrapCount: int)

  /** `NewClient`: both maps empty and every counter zero. */
  function NewClient(): Client
  {
    Client(map[], map[], 0, 0, 0, 0)
  }

  // ---- cleanupOldPackets ----

  /** The `range` loop of `cleanupOldPackets` over one map, visiting its keys in `order`. */
  function CleanupRun(m: map<int, Packet>, order: seq<int>, wrapCount: int): map<int, Packet>
    decreases |order|
  {
    if order == [] then m
    else
      var n := |order| - 1;
      var r := CleanupRun(m, order[..n], wrapCount);
      var k := order[n];
      if k in r && !r[k].wrapped && wrapCount > 0 then r - {k} else r
  }

  /** The entries of `m` marked `wrapped`. */
  function WrappedOnly(m: map<int, Packet>): map<int, Packet>
  {
    map k | k in m && m[k].wrapped :: m[k]
  }

  /**
   * The pass over a map's keys keeps exactly the entries it has not
   * visited and the visited ones marked `wrapped` (or all of them before
   * the first wrap), each unchanged.
   */
  lemma {:induction false} CleanupRunEffect(m: map<int, Packet>, order: seq<int>, wrapCount: int)
    requires Distinct(order)
    ensures var r := CleanupRun(m, order, wrapCount);
      && (forall k :: k in r <==> k in m && (k !in order || m[k].wrapped || wrapCount <= 0))
      && (forall k :: k in r ==> r[k] == m[k])
    decreases |order|
  {
    if order != [] {
      var n := |order| - 1;
      CleanupRunEffect(m, order[..n], wrapCount);
      assert order[n] !in order[..n] by {
        forall j | 0 <= j < n ensures order[..n][j] != order[n] {
          assert order[j] != order[n];
        }
      }
      assert forall k :: k in order <==> k in order[..n] || k == order[n];
    }
  }

  /**
   * `cleanupOldPackets` over a whole map: before the first wrap nothing
   * changes; after it, exactly the entries marked `wrapped` are kept.
   */
  lemma {:induction false} CleanupWhole(m: map<int, Packet>, order: seq<int>, wrapCount: int)
    requires KeyOrder(order, m)
    ensures wrapCount <= 0 ==> CleanupRun(m, order, wrapCount) == m
    ensures wrapCount > 0 ==> CleanupRun(m, order, wrapCount) == WrappedOnly(m)
  {
    CleanupRunEffect(m, order, wrapCount);
    var r := CleanupRun(m, order, wrapCount);
    var expected := if wrapCount <= 0 then m else WrappedOnly(m);
    assert forall k :: k in r <==> k in expected;
    assert forall k :: k in r ==> r[k] == expected[k];
    assert r == expected;
  }

  /** `cleanupOldPackets`, both loops. */
  function Cleanup(c: Client, sentOrder: seq<int>, droppedOrder: seq<int>): Client
  {
    c.(sentPackets := CleanupRun(c.sentPackets, sentOrder, c.wrapCount),
       droppedPackets := CleanupRun(c.droppedPackets, droppedOrder, c.wrapCount))
  }

  // ---- handleRetransmissions ----

  predicate Due(p: Packet, now: int)
  {
    now - p.sendTime >= RetransmitAfter
  }

  /** The two maps after the pass, the numbers resent in order, and the re-drops counted. */
  datatype Retransmitting = Retransmitting(sent: map<int, Packet>, dropped: map<int, Packet>, seqs: seq<int>, redropped: nat)

  /** One key of the `range c.droppedPackets` loop; `drop` is the draw. */
  function RetransmitStep(r: Retransmitting, k: int, drop: bool, now: int): Retransmitting
  {
    if k in r.dropped && Due(r.dropped[k], now) then
      var p := r.dropped[k];
      if !drop then Retransmitting(r.sent[k := p.(sendTime := now)], r.dropped - {k}, r.seqs + [k], r.redropped)
      else r.(dropped := r.dropped[k := p.(attempts := p.attempts + 1, sendTime := now)], redropped := r.redropped + 1)
    else r
  }

  function RetransmitRun(sent: map<int, Packet>, dropped: map<int, Packet>, order: seq<int>, drops: seq<bool>, now: int): Retransmitting
    requires |drops| == |order|
    decreases |order|
  {
    if order == [] then Retransmitting(sent, dropped, [], 0)
    else
      var n := |order| - 1;
      RetransmitStep(RetransmitRun(sent, dropped, order[..n], drops[..n], now), order[n], drops[n], now)
  }

  /**
   * What the pass does to the dropped map: a visited due packet whose
   * draw lets it through leaves it; one dropped again stays with one more
   * attempt and the new send time; a packet not yet due, or not visited,
   * stays as it was. No key is added.
   */
  lemma {:induction false} RetransmitDropped(sent: map<int, Packet>, dropped: map<int, Packet>, order: seq<int>, drops: seq<bool>, now: int)
    requires |drops| == |order| && Distinct(order)
    ensures var r := RetransmitRun(sent, dropped, order, drops, now);
      && (forall k :: k in r.dropped ==> k in dropped)
      && (forall i :: 0 <= i < |order| && order[i] in dropped ==>
            var p := dropped[order[i]];
            if !Due(p, now) then order[i] in r.dropped && r.dropped[order[i]] == p
            else if drops[i] then order[i] in r.dropped && r.dropped[order[i]] == p.(attempts := p.attempts + 1, sendTime := now)
            else order[i] !in r.dropped)
      && (forall k :: k in dropped && k !in order ==> k in r.dropped && r.dropped[k] == dropped[k])
    decreases |order|
  {
    if order != [] {
      var n := |order| - 1;
      RetransmitDropped(sent, dropped, order[..n], drops[..n], now);
      var k := order[n];
      assert k !in order[..n] by {
        forall j | 0 <= j < n ensures order[..n][j] != k {
          assert order[j] != k;
        }
      }
      var q := RetransmitRun(sent, dropped, order[..n], drops[..n], now);
      var r := RetransmitRun(sent, dropped, order, drops, now);
      assert k in dropped ==> k in q.dropped && q.dropped[k] == dropped[k];
      forall j | j != k
        ensures j in r.dropped <==> j in q.dropped
        ensures j in r.dropped ==> r.dropped[j] == q.dropped[j]
      {
      }
      forall i | 0 <= i < |order| && order[i] in dropped
        ensures var p := dropped[order[i]];
          if !Due(p, now) then order[i] in r.dropped && r.dropped[order[i]] == p
          else if drops[i] then order[i] in r.dropped && r.dropped[order[i]] == p.(attempts := p.attempts + 1, sendTime := now)
          else order[i] !in r.dropped
      {
        if i < n {
          assert order[..n][i] == order[i] && drops[..n][i] == drops[i];
          assert order[i] != k;
        }
      }
      forall j | j in dropped && j !in order
        ensures j in r.dropped && r.dropped[j] == dropped[j]
      {
        assert j !in order[..n];
      }
    }
  }

  /**
   * What the pass does to the sent map and the message: exactly the
   * visited packets that were dropped, due, and let through by their draw
   * are resent; each is then in the sent map with the new send time and
   * its attempts unchanged, and no longer among the dropped; every other
   * sent packet is untouched; each re-drop is counted once.
   */
  lemma {:induction false} RetransmitSent(sent: map<int, Packet>, dropped: map<int, Packet>, order: seq<int>, drops: seq<bool>, now: int)
    requires |drops| == |order| && Distinct(order)
    ensures var r := RetransmitRun(sent, dropped, order, drops, now);
      && Distinct(r.seqs)
      && |r.seqs| + r.redropped <= |order|
      && (forall i :: 0 <= i < |order| ==>
            (order[i] in r.seqs <==> order[i] in dropped && Due(dropped[order[i]], now) && !drops[i]))
      && (forall k :: k in r.seqs ==>
            k in order && k in r.sent && k !in r.dropped && k in dropped && r.sent[k] == dropped[k].(sendTime := now))
      && (forall k :: k in r.sent <==> k in sent || k in r.seqs)
      && (forall k :: k in sent && k !in r.seqs ==> r.sent[k] == sent[k])
    decreases |order|
  {
    if order != [] {
      var n := |order| - 1;
      RetransmitSent(sent, dropped, order[..n], drops[..n], now);
      RetransmitDropped(sent, dropped, order[..n], drops[..n], now);
      var q := RetransmitRun(sent, dropped, order[..n], drops[..n], now);
      var k := order[n];
      assert k !in order[..n] by {
        forall j | 0 <= j < n ensures order[..n][j] != k {
          assert order[j] != k;
        }
      }
      forall i | 0 <= i < n
        ensures order[..n][i] == order[i] && drops[..n][i] == drops[i]
      {
      }
      assert k in dropped ==> k in q.dropped && q.dropped[k] == dropped[k];
      assert k !in q.seqs;
      var r := RetransmitRun(sent, dropped, order, drops, now);
      var resend := k in q.dropped && Due(q.dropped[k], now) && !drops[n];
      assert r.sent == (if resend then q.sent[k := q.dropped[k].(sendTime := now)] else q.sent);
      assert r.seqs == (if resend then q.seqs + [k] else q.seqs);
      assert resend ==> r.dropped == q.dropped - {k};
      forall i | 0 <= i < |order|
        ensures order[i] in r.seqs <==> order[i] in dropped && Due(dropped[order[i]], now) && !drops[i]
      {
        if i < n {
          assert order[..n][i] == order[i] && drops[..n][i] == drops[i];
          assert order[i] != k;
          assert order[i] in r.seqs <==> order[i] in q.seqs;
        } else {
          assert k in r.seqs <==> resend;
        }
      }
      forall j | j in r.seqs
        ensures j in order && j in r.sent && j !in r.dropped && j in dropped && r.sent[j] == dropped[j].(sendTime := now)
      {
        if j != k {
          assert j in q.seqs;
        }
      }
      forall j | j in sent && j !in r.seqs
        ensures r.sent[j] == sent[j]
      {
        assert j !in q.seqs;
      }
    }
  }

  /** `handleRetransmissions`: the new client and the message written, if any. */
  function Retransmitted(c: Client, order: seq<int>, drops: seq<bool>, now: int): (Client, Option<string>)
    requires |drops| == |order|
  {
    var r := RetransmitRun(c.sentPackets, c.droppedPackets, order, drops, now);
    (c.(sentPackets := r.sent, droppedPackets := r.dropped, totalDropped := c.totalDropped + r.redropped),
     GoWindowClient.Message(r.seqs))
  }

  /**
   * Over the whole dropped map, a packet is in the message exactly when it
   * was due and its draw let it through; the message, when there is one,
   * lists those numbers in the text `strings.Join(seqs, ",") + "\n"`.
   */
  lemma {:induction false} RetransmittedMessage(c: Client, order: seq<int>, drops: seq<bool>, now: int)
    requires KeyOrder(order, c.droppedPackets) && |drops| == |order|
    ensures var r := RetransmitRun(c.sentPackets, c.droppedPackets, order, drops, now);
      && (forall k :: k in r.seqs <==> exists i :: 0 <= i < |order| && order[i] == k && Due(c.droppedPackets[k], now) && !drops[i])
      && (Retransmitted(c, order, drops, now).1.None? <==> r.seqs == [])
  {
    RetransmitSent(c.sentPackets, c.droppedPackets, order, drops, now);
  }

  // ---- the client object ----

  /** The `Client` object, without its connection and lock. */
  class RewriteClient {
    var sentPackets: map<int, Packet>
    var droppedPackets: map<int, Packet>
    var totalSent: int
    var totalDropped: int
    var currentSequence: int
    var wrapCount: int

    function Snap(): Client
      reads this
    {
      Client(sentPackets, droppedPackets, totalSent, totalDropped, currentSequence, wrapCount)
    }

    constructor ()
      ensures Snap() == NewClient()
    {
      sentPackets, droppedPackets := map[], map[];
      totalSent, totalDropped, currentSequence, wrapCount := 0, 0, 0, 0;
    }

    method CleanupOldPackets(sentOrder: seq<int>, droppedOrder: seq<int>)
      modifies this
      ensures Snap() == Cleanup(old(Snap()), sentOrder, droppedOrder)
    {
      sentPackets := CleanupLoop(sentPackets, sentOrder, wrapCount);
      droppedPackets := CleanupLoop(droppedPackets, droppedOrder, wrapCount);
    }

    method HandleRetransmissions(order: seq<int>, drops: seq<bool>, now: int) returns (message: Option<string>)
      requires |drops| == |order|
      modifies this
      ensures (Snap(), message) == Retransmitted(old(Snap()), order, drops, now)
    {
      var r := RetransmitLoop(sentPackets, droppedPackets, order, drops, now);
      sentPackets, droppedPackets, totalDropped := r.sent, r.dropped, totalDropped + r.redropped;
      message := None;
      if |r.seqs| > 0 {
        message := Some(Text.Join(GoWindowClient.Decimals(r.seqs), ',') + "\n");
      }
    }
  }

  /** One `for seq, packet := range` loop of `cleanupOldPackets`. */
  method CleanupLoop(m: map<int, Packet>, order: seq<int>, wrapCount: int) returns (r: map<int, Packet>)
    ensures r == CleanupRun(m, order, wrapCount)
  {
    r := m;
    var i := 0;
    while i < |order|
      invariant i <= |order| && r == CleanupRun(m, order[..i], wrapCount)
    {
      assert order[..i + 1][..i] == order[..i];
      var k := order[i];
      if k in r && !r[k].wrapped && wrapCount > 0 {
        r := r - {k};
      }
      i := i + 1;
    }
    assert order[..i] == order;
  }

  /** The `for seq, packet := range c.droppedPackets` loop of `handleRetransmissions`. */
  method RetransmitLoop(sent: map<int, Packet>, dropped: map<int, Packet>, order: seq<int>, drops: seq<bool>, now: int)
    returns (r: Retransmitting)
    requires |drops| == |order|
    ensures r == RetransmitRun(sent, dropped, order, drops, now)
  {
    r := Retransmitting(sent, dropped, [], 0);
    var i := 0;
    while i < |order|
      invariant i <= |order| && r == RetransmitRun(sent, dropped, order[..i], drops[..i], now)
    {
      assert order[..i + 1][..i] == order[..i] && drops[..i + 1][..i] == drops[..i];
      var k := order[i];
      if k in r.dropped && now - r.dropped[k].sendTime >= RetransmitAfter {
        var p := r.dropped[k];
        if !drops[i] {
          r := Retransmitting(r.sent[k := p.(sendTime := now)], r.dropped - {k}, r.seqs + [k], r.redropped);
        } else {
          r := r.(dropped := r.dropped[k := p.(attempts := p.attempts + 1, sendTime := now)], redropped := r.redropped + 1);
        }
      }
      i := i + 1;
    }
    assert order[..i] == order && drops[..i] == drops;
  }
}
