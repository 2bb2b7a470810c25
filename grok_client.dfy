/**
 * The sender of tcp/grok/client.py. Its window is one dictionary from
 * sequence number to `(retransmit_count, send_time)`: a packet enters it
 * when first sent (even when the loss simulation then drops it), every
 * resend raises its count, and a resend past the fourth retry deletes it.
 * An ack removes only the entry whose key equals the ack, and the window
 * size grows by one when the window empties and halves when some entry has
 * been retried four times.
 *
 * The loss simulation and the outcome of `sendall` are parameters, and the
 * clock is the parameter `now`, in milliseconds.
 */
module GrokClient {
  import opened Common
  import opened SeqSpace
  import opened Text
  import PacketLine

  const InitialWindowSize: int := 10
  const MaxWindowSize: int := 100
  const MinWindowSize: int := 1
  const MaxRetries: int := 4
  const TotalPackets: int := 10000

  /** A window entry: the retransmission count and the send time. */
  datatype Entry = Entry(count: int, sentAt: int)

  /** The state of a `SlidingWindowClient`, with the text written to the socket. */
  datatype Client = Client(
    windowSize: int,
    baseSeq: int,
    nextSeq: int,
    window: map<int, Entry>,
    totalSent: nat,
    uniqueSent: nat,
    wire: seq<string>)

  function Initial(): Client
  {
    Client(InitialWindowSize, 0, 0, map[], 0, 0, [])
  }

  /** The count a send of `sn` carries: one more than the stored count, or 0 for a new packet. */
  function RetransmitCount(window: map<int, Entry>, sn: int): int
  {
    if sn in window then window[sn].count + 1 else 0
  }

  /** The text of one packet: `f"{seq},{self.window_size},{retransmit_count}\n"`. */
  function PacketText(sn: int, windowSize: int, count: int): string
  {
    PacketLine.Format(PacketLine.Packet(sn, windowSize, count)) + "\n"
  }

  /** The outcome of `send_packet`: the new state and the returned flag. */
  datatype Sent = Sent(client: Client, ok: bool)

  /**
   * `send_packet(seq, force_send)`. `drop` is the loss simulation (ignored
   * when `force` is set) and `sendOk` whether `sendall` succeeds.
   */
  function AfterSend(c: Client, sn: int, force: bool, drop: bool, sendOk: bool, now: int): Sent
  {
    var count := RetransmitCount(c.window, sn);
    if count > MaxRetries then Sent(c.(window := c.window - {sn}), false)
    else
      var stored := c.(window := c.window[sn := Entry(count, now)],
                       uniqueSent := if count == 0 then c.uniqueSent + 1 else c.uniqueSent);
      if !force && drop then Sent(stored, true)
      else if sendOk then
        Sent(stored.(totalSent := stored.totalSent + 1, wire := stored.wire + [PacketText(sn, c.windowSize, count)]), true)
      else Sent(stored, false)
  }

  /**
   * Retry counting in `send_packet`: a new sequence number enters the
   * window with count 0 and counts as unique; a tracked one is stored with
   * its count raised by one; one already retried four times is deleted and
   * the call fails. No other entry changes.
   */
  lemma {:induction false} SendCounting(c: Client, sn: int, force: bool, drop: bool, sendOk: bool, now: int)
    ensures var r := AfterSend(c, sn, force, drop, sendOk, now).client;
      (sn !in c.window ==> sn in r.window && r.window[sn].count == 0 && r.uniqueSent == c.uniqueSent + 1)
      && (sn in c.window && 0 <= c.window[sn].count < MaxRetries ==>
            sn in r.window && r.window[sn].count == c.window[sn].count + 1 && r.uniqueSent == c.uniqueSent)
      && (sn in c.window && c.window[sn].count >= MaxRetries ==>
            sn !in r.window && r.uniqueSent == c.uniqueSent && !AfterSend(c, sn, force, drop, sendOk, now).ok)
      && (forall k :: k != sn ==> (k in r.window <==> k in c.window))
      && (forall k :: k != sn && k in c.window ==> r.window[k] == c.window[k])
  {
  }

  /**
   * The entry is stored before the loss simulation: a dropped packet still
   * occupies the window, and only a successful `sendall` counts in
   * `total_sent` and writes the packet to the socket.
   */
  lemma {:induction false} DroppedStillOccupiesWindow(c: Client, sn: int, force: bool, drop: bool, sendOk: bool, now: int)
    requires RetransmitCount(c.window, sn) <= MaxRetries
    ensures var r := AfterSend(c, sn, force, drop, sendOk, now);
      sn in r.client.window
      && (r.client.totalSent == c.totalSent + 1 <==> (force || !drop) && sendOk)
      && (r.client.totalSent == c.totalSent + 1 ==>
            r.client.wire == c.wire + [PacketText(sn, c.windowSize, RetransmitCount(c.window, sn))])
      && (r.client.totalSent == c.totalSent ==> r.client.wire == c.wire)
      && (r.ok <==> (!force && drop) || sendOk)
  {
  }

  /** `adjust_window_size`. */
  function Adjusted(c: Client): Client
  {
    if |c.window| == 0 then c.(windowSize := if c.windowSize + 1 < MaxWindowSize then c.windowSize + 1 else MaxWindowSize)
    else if exists k :: k in c.window && c.window[k].count == MaxRetries then
      c.(windowSize := if c.windowSize / 2 > MinWindowSize then c.windowSize / 2 else MinWindowSize)
    else c
  }

  /**
   * The window grows by one (up to 100) when the window is empty, halves
   * (down to 1) when some entry has been retried four times, and otherwise
   * stays; from the initial 10 it stays within [1, 100].
   */
  lemma {:induction false} AdjustedBounds(c: Client)
    requires MinWindowSize <= c.windowSize <= MaxWindowSize
    ensures var w := Adjusted(c).windowSize;
      MinWindowSize <= w <= MaxWindowSize
      && (|c.window| == 0 ==> w == c.windowSize + 1 || w == c.windowSize == MaxWindowSize)
      && (|c.window| != 0 && (exists k :: k in c.window && c.window[k].count == MaxRetries) ==>
            w <= c.windowSize && w >= c.windowSize / 2 && (w == MinWindowSize || w * 2 <= c.windowSize))
      && ((forall k :: k in c.window ==> c.window[k].count != MaxRetries) && |c.window| != 0 ==> w == c.windowSize)
      && Adjusted(c).window == c.window
  {
  }

  /** The dictionary comprehension of `receive_acks`: keep the keys `k` with `(k - ack) % 65536 > 0`. */
  function Filtered(window: map<int, Entry>, ack: int): map<int, Entry>
  {
    map k | k in window && (k - ack) % Modulus > 0 :: window[k]
  }

  /**
   * Despite its comment, the ack filter removes only the entry whose key is
   * the ack itself (modulo 65536): every earlier sequence number stays.
   */
  lemma {:induction false} FilterRemovesOnlyAck(window: map<int, Entry>, ack: int)
    requires forall k :: k in window ==> InRange(k)
    requires InRange(ack)
    ensures Filtered(window, ack) == window - {ack}
  {
    forall k | k in window && k != ack
      ensures (k - ack) % Modulus > 0
    {
      if (k - ack) % Modulus == 0 {
        ModUnique(k - ack, (k - ack) / Modulus, 0);
        ModUnique(k - ack, 0, k - ack);
        assert false;
      }
    }
  }

  /** The locked section of `receive_acks` for one integer ack. */
  function AfterAck(c: Client, ack: int): Client
  {
    Adjusted(c.(baseSeq := ack, window := Filtered(c.window, ack)))
  }

  /** What one receive in `receive_acks` does. */
  datatype AckOutcome = Disconnected | Invalid | Acked(client: Client)

  /**
   * One receive in `receive_acks`: empty text after stripping means the
   * server disconnected, text that `int()` rejects is reported and
   * ignored, and an integer is applied as the ack.
   */
  function ReceiveAck(c: Client, data: string): (r: AckOutcome)
    ensures Strip(data) == [] <==> r == Disconnected
    ensures r == Invalid <==> Strip(data) != [] && PyInt(data).None?
    ensures r.Acked? ==> r.client == AfterAck(c, PyInt(data).value)
  {
    if Strip(data) == [] then Disconnected
    else match PyInt(data)
      case None => Invalid
      case Some(ack) => Acked(AfterAck(c, ack))
  }

  /**
   * The admission step of `run`: while fewer than `window_size` packets are
   * in the window and `next_seq` is below `TOTAL_PACKETS`, send `next_seq`
   * and advance it modulo 65536.
   */
  function AfterAdmit(c: Client, drop: bool, sendOk: bool, now: int): Client
  {
    if |c.window| < c.windowSize && c.nextSeq < TotalPackets then
      AfterSend(c, c.nextSeq, false, drop, sendOk, now).client.(nextSeq := (c.nextSeq + 1) % Modulus)
    else c
  }

  /** `TIMEOUT = 5.0` seconds, in the milliseconds of `now`. */
  const TimeoutMillis: int := 5000

  /** `current_time - send_time > TIMEOUT`. */
  predicate TimedOut(e: Entry, now: int)
  {
    now - e.sentAt > TimeoutMillis
  }

  /** Whether an entry is still in the window after the timeout pass. */
  predicate Kept(e: Entry, now: int)
  {
    !TimedOut(e, now) || e.count + 1 <= MaxRetries
  }

  /** The entry after the timeout pass, where it is kept: a timed-out one is resent with its count raised. */
  function Swept(e: Entry, now: int): Entry
  {
    if TimedOut(e, now) then Entry(e.count + 1, now) else e
  }

  /**
   * The timeout pass of `run` over `list(self.window.items())`: the
   * snapshot `snapshot`, whose keys `order` lists in dictionary order.
   * Each key whose snapshot entry has timed out is resent with
   * `force_send=True`; `sendOk[i]` is whether that `sendall` succeeds.
   */
  function AfterSweep(c: Client, snapshot: map<int, Entry>, order: seq<int>, sendOk: seq<bool>, now: int): Client
    requires |sendOk| == |order|
    decreases |order|
  {
    if order == [] then c
    else
      var k := order[0];
      var next := if k in snapshot && TimedOut(snapshot[k], now) then AfterSend(c, k, true, false, sendOk[0], now).client else c;
      AfterSweep(next, snapshot, order[1..], sendOk[1..], now)
  }

  /**
   * The timeout pass touches only the keys of `order`, each of which the
   * window holds as in the snapshot when the pass starts: a key that has
   * not timed out keeps its entry, a timed-out one is stored again with
   * its count raised, or deleted past the fourth retry.
   */
  lemma {:induction false} SweepEntries(c: Client, snapshot: map<int, Entry>, order: seq<int>, sendOk: seq<bool>, now: int)
    requires |sendOk| == |order| && Distinct(order)
    requires forall k :: k in order ==> (k in c.window <==> k in snapshot)
    requires forall k :: k in order && k in snapshot ==> c.window[k] == snapshot[k]
    ensures var r := AfterSweep(c, snapshot, order, sendOk, now);
      (forall k :: k !in order ==> (k in r.window <==> k in c.window))
      && (forall k :: k !in order && k in c.window ==> r.window[k] == c.window[k])
      && (forall k :: k in order ==> (k in r.window <==> k in snapshot && Kept(snapshot[k], now)))
      && (forall k :: k in order && k in r.window ==> r.window[k] == Swept(snapshot[k], now))
      && r.windowSize == c.windowSize && r.baseSeq == c.baseSeq && r.nextSeq == c.nextSeq
    decreases |order|
  {
    if order != [] {
      var k := order[0];
      var next := if k in snapshot && TimedOut(snapshot[k], now) then AfterSend(c, k, true, false, sendOk[0], now).client else c;
      SendCounting(c, k, true, false, sendOk[0], now);
      assert forall j :: j in order[1..] ==> j in order && j != k by {
        forall j | j in order[1..]
          ensures j in order && j != k
        {
          var i :| 0 <= i < |order[1..]| && order[1..][i] == j;
          assert order[i + 1] == j;
        }
      }
      assert Distinct(order[1..]) by {
        forall i, j | 0 <= i < j < |order[1..]|
          ensures order[1..][i] != order[1..][j]
        {
          assert order[i + 1] != order[j + 1];
        }
      }
      SweepEntries(next, snapshot, order[1..], sendOk[1..], now);
      forall j | j in order
        ensures j == k || j in order[1..]
      {
        var i :| 0 <= i < |order| && order[i] == j;
        if i > 0 {
          assert order[1..][i - 1] == j;
        }
      }
    }
  }

  /**
   * Over a snapshot of the whole window, listed key by key: after the pass
   * the window holds exactly the entries that did not time out, unchanged,
   * and the timed-out ones below the retry limit, resent at `now`.
   */
  lemma {:induction false} SweepWindow(c: Client, order: seq<int>, sendOk: seq<bool>, now: int)
    requires KeyOrder(order, c.window) && |sendOk| == |order|
    ensures var r := AfterSweep(c, c.window, order, sendOk, now);
      (forall k :: k in r.window <==> k in c.window && Kept(c.window[k], now))
      && (forall k :: k in r.window ==> r.window[k] == Swept(c.window[k], now))
  {
    SweepEntries(c, c.window, order, sendOk, now);
  }

  /** The invariant the client keeps: window size in [1, 100], counts in [0, 4], `next_seq` in [0, 10000]. */
  predicate Valid(c: Client)
  {
    MinWindowSize <= c.windowSize <= MaxWindowSize
    && 0 <= c.nextSeq <= TotalPackets
    && forall k :: k in c.window ==> 0 <= c.window[k].count <= MaxRetries
  }

  lemma {:induction false} InitialValid()
    ensures Valid(Initial()) && Initial().window == map[] && Initial().windowSize == 10
  {
  }

  /** A send keeps counts within [0, 4]: a fifth retry deletes the entry instead of storing count 5. */
  lemma {:induction false} SendValid(c: Client, sn: int, force: bool, drop: bool, sendOk: bool, now: int)
    requires Valid(c)
    ensures Valid(AfterSend(c, sn, force, drop, sendOk, now).client)
  {
  }

  /** Processing an ack keeps the invariant. */
  lemma {:induction false} AckValid(c: Client, ack: int)
    requires Valid(c)
    ensures Valid(AfterAck(c, ack))
  {
    AdjustedBounds(c.(baseSeq := ack, window := Filtered(c.window, ack)));
  }

  /**
   * Admission keeps the invariant; it sends `next_seq` only while the
   * window has room and `next_seq` is below 10000, and then moves
   * `next_seq` on by exactly one.
   */
  lemma {:induction false} AdmitValid(c: Client, drop: bool, sendOk: bool, now: int)
    requires Valid(c)
    ensures var r := AfterAdmit(c, drop, sendOk, now);
      Valid(r)
      && (|c.window| < c.windowSize && c.nextSeq < TotalPackets ==> r.nextSeq == c.nextSeq + 1)
      && (|c.window| >= c.windowSize || c.nextSeq >= TotalPackets ==> r == c)
  {
    SendValid(c, c.nextSeq, false, drop, sendOk, now);
  }

  /** The timeout pass keeps the invariant. */
  lemma {:induction false} SweepValid(c: Client, snapshot: map<int, Entry>, order: seq<int>, sendOk: seq<bool>, now: int)
    requires Valid(c) && |sendOk| == |order|
    ensures Valid(AfterSweep(c, snapshot, order, sendOk, now))
    decreases |order|
  {
    if order != [] {
      var k := order[0];
      var next := if k in snapshot && TimedOut(snapshot[k], now) then AfterSend(c, k, true, false, sendOk[0], now).client else c;
      SendValid(c, k, true, false, sendOk[0], now);
      SweepValid(next, snapshot, order[1..], sendOk[1..], now);
    }
  }

  /** A packet is sent at most five times: after its fourth retry the next resend deletes it. */
  lemma {:induction false} FifthResendDeletes(c: Client, sn: int, now: int, ok1: bool, ok2: bool)
    requires sn in c.window && c.window[sn].count == MaxRetries - 1
    ensures var once := AfterSend(c, sn, true, false, ok1, now).client;
      once.window[sn].count == MaxRetries
      && sn !in AfterSend(once, sn, true, false, ok2, now).client.window
  {
  }

  /** The `SlidingWindowClient` object. */
  class SlidingWindowClient {
    var windowSize: int
    var baseSeq: int
    var nextSeq: int
    var window: map<int, Entry>
    var totalSent: nat
    var uniqueSent: nat
    var wire: seq<string>

    function Snap(): Client
      reads this
    {
      Client(windowSize, baseSeq, nextSeq, window, totalSent, uniqueSent, wire)
    }

    constructor ()
      ensures Snap() == Initial()
    {
      windowSize, baseSeq, nextSeq := InitialWindowSize, 0, 0;
      window := map[];
      totalSent, uniqueSent := 0, 0;
      wire := [];
    }

    /** `send_packet`. */
    method SendPacket(sn: int, force: bool, drop: bool, sendOk: bool, now: int) returns (ok: bool)
      modifies this
      ensures var r := AfterSend(old(Snap()), sn, force, drop, sendOk, now);
        Snap() == r.client && ok == r.ok
    {
      var count := if sn in window then window[sn].count + 1 else 0;
      if count > MaxRetries {
        window := window - {sn};
        return false;
      }
      if count == 0 {
        uniqueSent := uniqueSent + 1;
      }
      window := window[sn := Entry(count, now)];
      if !force && drop {
        return true;
      }
      if sendOk {
        wire := wire + [PacketText(sn, windowSize, count)];
        totalSent := totalSent + 1;
        return true;
      }
      return false;
    }

    /** `adjust_window_size`. */
    method AdjustWindowSize()
      modifies this`windowSize
      ensures Snap() == Adjusted(old(Snap()))
    {
      if |window| == 0 {
        windowSize := if windowSize + 1 < MaxWindowSize then windowSize + 1 else MaxWindowSize;
      } else if exists k :: k in window && window[k].count == MaxRetries {
        windowSize := if windowSize / 2 > MinWindowSize then windowSize / 2 else MinWindowSize;
      }
    }

    /** One receive in `receive_acks`; returns whether the loop keeps running. */
    method ReceiveAcks(data: string) returns (running: bool)
      modifies this`baseSeq, this`window, this`windowSize
      ensures var r := ReceiveAck(old(Snap()), data);
        running == (r != Disconnected) && Snap() == if r.Acked? then r.client else old(Snap())
    {
      var text := Strip(data);
      if text == [] {
        return false;
      }
      var parsed := PyInt(data);
      running := true;
      if parsed.Some? {
        var ack := parsed.value;
        baseSeq := ack;
        window := map k | k in window && (k - ack) % Modulus > 0 :: window[k];
        AdjustWindowSize();
      }
    }

    /** The admission step of `run`. */
    method Admit(drop: bool, sendOk: bool, now: int)
      modifies this
      ensures Snap() == AfterAdmit(old(Snap()), drop, sendOk, now)
    {
      if |window| < windowSize && nextSeq < TotalPackets {
        var _ := SendPacket(nextSeq, false, drop, sendOk, now);
        nextSeq := (nextSeq + 1) % Modulus;
      }
    }

    /** The timeout pass of `run`, over a snapshot of the window listed in `order`. */
    method RetransmitTimedOut(order: seq<int>, sendOk: seq<bool>, now: int)
      requires KeyOrder(order, window) && |sendOk| == |order|
      modifies this
      ensures Snap() == AfterSweep(old(Snap()), old(window), order, sendOk, now)
    {
      var snapshot := window;
      var i := 0;
      while i < |order|
        invariant i <= |order|
        invariant AfterSweep(Snap(), snapshot, order[i..], sendOk[i..], now) == AfterSweep(old(Snap()), snapshot, order, sendOk, now)
        decreases |order| - i
      {
        assert order[i..][1..] == order[i + 1..];
        assert sendOk[i..][1..] == sendOk[i + 1..];
        var k := order[i];
        if k in snapshot && TimedOut(snapshot[k], now) {
          var _ := SendPacket(k, true, false, sendOk[i], now);
        }
        i := i + 1;
      }
    }
  }
}
