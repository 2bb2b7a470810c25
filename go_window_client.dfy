/**
 * The adaptive-window client of cmd/client/new_client.go. The client keeps
 * its unacknowledged packets in `window`, keyed by sequence number
 * (`nextSequence` modulo 65536). `sendNewPackets` fills the free part of
 * the window, `handleRetransmissions` resends the packets that have waited
 * 100 ms, `processAcks` deletes the acknowledged ones and moves
 * `windowStart`, and `adjustWindow` grows the window by one while
 * acknowledgements are fresh and halves it (down to 10) when they are not.
 *
 * The clock is the parameter `now`, in milliseconds. Each random draw that
 * decides a drop (`rand.Float64() <= 0.01`) is an input `bool`; the order
 * in which `range` visits the window is the input `order`. The tickers,
 * goroutines and the lock that serialise these calls are not modelled.
 */
module GoWindowClient {
  import opened Common
  import opened SeqSpace
  import opened Text
  import GoStatsServer

  const MinWindowSize: int := 10
  const MaxWindowSize: int := 1000
  /** `retransmitAfter`, and the freshness limit of `adjustWindow`, in milliseconds. */
  const RetransmitAfter: int := 100
  const AckFresh: int := 100
  const TargetPackets: nat := 500000

  datatype Packet = Packet(sequenceNumber: int, sendTime: int, attempts: nat)

  datatype Client = Client(window: map<int, Packet>, windowStart: int, windowSize: int, nextSequence: nat,
                           totalSent: nat, totalDropped: nat, lastAckTime: int)

  /** `NewClient`. */
  function NewClient(now: int): Client
  {
    Client(map[], 0, MinWindowSize, 0, 0, 0, now)
  }

  /**
   * The window size stays in [10, 1000], the window's keys are sequence
   * numbers each naming its own packet, sent at least once, and a sequence
   * number is drawn for every packet counted as sent.
   */
  ghost predicate Valid(c: Client)
  {
    && MinWindowSize <= c.windowSize <= MaxWindowSize
    && InRange(c.windowStart)
    && c.nextSequence == c.totalSent <= TargetPackets
    && forall k :: k in c.window ==> InRange(k) && c.window[k].sequenceNumber == k && c.window[k].attempts >= 1
  }

  lemma {:induction false} NewClientValid(now: int)
    ensures Valid(NewClient(now))
  {
  }

  /** Go's `/` on `int`, which truncates toward zero. */
  function GoDiv(a: int, b: int): int
    requires b > 0
  {
    if a >= 0 then a / b else -((-a) / b)
  }

  /** Go's `%` on `int`, whose result takes the sign of the dividend. */
  function GoRem(a: int, b: int): int
    requires b > 0
  {
    if a >= 0 then a % b else -((-a) % b)
  }

  function Min(a: int, b: int): int
  {
    if a < b then a else b
  }

  function Max(a: int, b: int): int
  {
    if a > b then a else b
  }

  /** `adjustWindow`: the new window size. */
  function AdjustedSize(c: Client, now: int): int
  {
    if now - c.lastAckTime < AckFresh then
      if |c.window| < c.windowSize && c.windowSize < MaxWindowSize then Min(c.windowSize + 1, MaxWindowSize)
      else c.windowSize
    else Max(GoDiv(c.windowSize, 2), MinWindowSize)
  }

  /**
   * With a recent acknowledgement the window grows by exactly one when it
   * is not full and below 1000, and otherwise stays; with a stale one it
   * halves, but not below 10. Either way it stays in [10, 1000].
   */
  lemma {:induction false} AdjustWindowEffect(c: Client, now: int)
    requires MinWindowSize <= c.windowSize <= MaxWindowSize
    ensures var w := AdjustedSize(c, now);
      && MinWindowSize <= w <= MaxWindowSize
      && (now - c.lastAckTime < AckFresh && |c.window| < c.windowSize && c.windowSize < MaxWindowSize ==>
            w == c.windowSize + 1)
      && (now - c.lastAckTime < AckFresh && !(|c.window| < c.windowSize && c.windowSize < MaxWindowSize) ==>
            w == c.windowSize)
      && (now - c.lastAckTime >= AckFresh ==>
            w <= c.windowSize && w >= c.windowSize / 2 && (w == MinWindowSize || 2 * w <= c.windowSize))
  {
  }

  // ---- sendNewPackets ----

  /** The number of iterations of the send loop: none when the window is full or the target is reached. */
  function SendCount(c: Client): nat
  {
    if |c.window| >= c.windowSize || c.totalSent >= TargetPackets then 0
    else Min(c.windowSize - |c.window|, TargetPackets - c.totalSent)
  }

  /** The client as the send loop leaves it, and the numbers it put in the message. */
  datatype Sending = Sending(client: Client, toSend: seq<int>)

  /** One iteration of the send loop; `drop` is the outcome of the random draw. */
  function SendStep(s: Sending, drop: bool, now: int): Sending
  {
    var c := s.client;
    var sn := c.nextSequence % Modulus;
    var next := c.(nextSequence := c.nextSequence + 1, totalSent := c.totalSent + 1);
    if !drop then Sending(next.(window := c.window[sn := Packet(sn, now, 1)]), s.toSend + [sn])
    else Sending(next.(totalDropped := c.totalDropped + 1), s.toSend)
  }

  /** The send loop over the given draws. */
  function SendRun(c: Client, drops: seq<bool>, now: int): Sending
    decreases |drops|
  {
    if drops == [] then Sending(c, []) else SendStep(SendRun(c, drops[..|drops| - 1], now), drops[|drops| - 1], now)
  }

  /** How many draws let the packet through. */
  function Kept(drops: seq<bool>): nat
    decreases |drops|
  {
    if drops == [] then 0 else Kept(drops[..|drops| - 1]) + if drops[|drops| - 1] then 0 else 1
  }

  /**
   * Every iteration draws the next sequence number and counts one packet
   * sent; a kept packet enters the window with one attempt and goes into
   * the message, a dropped one is only counted; packets already in the
   * window keep their entries unless their number is drawn again.
   */
  lemma {:induction false} SendRunEffect(c: Client, drops: seq<bool>, now: int)
    ensures var r := SendRun(c, drops, now);
      && r.client.nextSequence == c.nextSequence + |drops|
      && r.client.totalSent == c.totalSent + |drops|
      && |r.toSend| == Kept(drops)
      && r.client.totalDropped == c.totalDropped + (|drops| - Kept(drops))
      && r.client.windowSize == c.windowSize && r.client.windowStart == c.windowStart
      && r.client.lastAckTime == c.lastAckTime
      && (forall k :: k in r.client.window <==> k in c.window || k in r.toSend)
      && (forall x :: x in r.toSend ==> InRange(x) && r.client.window[x] == Packet(x, now, 1))
      && (forall k :: k in c.window && k !in r.toSend ==> r.client.window[k] == c.window[k])
    decreases |drops|
  {
    if drops != [] {
      var init := drops[..|drops| - 1];
      SendRunEffect(c, init, now);
      var s := SendRun(c, init, now);
      var sn := s.client.nextSequence % Modulus;
      var r := SendRun(c, drops, now);
      if !drops[|drops| - 1] {
        assert r.toSend == s.toSend + [sn];
        assert r.client.window == s.client.window[sn := Packet(sn, now, 1)];
        assert forall x :: x in r.toSend ==> x in s.toSend || x == sn;
      } else {
        assert r.toSend == s.toSend && r.client.window == s.client.window;
      }
    }
  }

  /** The send loop admits no packet when the window is full. */
  lemma {:induction false} SendWhenFull(c: Client)
    requires |c.window| >= c.windowSize
    ensures SendCount(c) == 0
  {
  }

  /** The send loop never counts more than the target, nor more than the free room in the window. */
  lemma {:induction false} SendCountBounds(c: Client)
    requires c.totalSent <= TargetPackets
    ensures c.totalSent + SendCount(c) <= TargetPackets
    ensures |c.window| < c.windowSize ==> SendCount(c) <= c.windowSize - |c.window|
  {
  }

  /** The decimal text of each number. */
  function Decimals(xs: seq<int>): (r: seq<string>)
    ensures |r| == |xs| && forall i :: 0 <= i < |xs| ==> r[i] == IntToDecimal(xs[i])
  {
    seq(|xs|, i requires 0 <= i < |xs| => IntToDecimal(xs[i]))
  }

  /** `strings.Join(numbers, ",") + "\n"`, written only when there is a number. */
  function Message(xs: seq<int>): Option<string>
  {
    if xs == [] then None else Some(Join(Decimals(xs), ',') + "\n")
  }

  /** `sendNewPackets`: the new client and the message written, if any. */
  function Sent(c: Client, drops: seq<bool>, now: int): (Client, Option<string>)
    requires |drops| == SendCount(c)
  {
    var s := SendRun(c, drops, now);
    (s.client, Message(s.toSend))
  }

  lemma {:induction false} SendNewPacketsValid(c: Client, drops: seq<bool>, now: int)
    requires Valid(c) && |drops| == SendCount(c)
    ensures Valid(Sent(c, drops, now).0)
  {
    SendRunEffect(c, drops, now);
    SendCountBounds(c);
    var r := SendRun(c, drops, now);
    forall k | k in r.client.window
      ensures InRange(k) && r.client.window[k].sequenceNumber == k && r.client.window[k].attempts >= 1
    {
      if k !in r.toSend {
        assert k in c.window;
      }
    }
  }

  // ---- handleRetransmissions ----

  /** The window after the retransmission pass, the numbers resent, and the re-drops counted. */
  datatype Retransmitting = Retransmitting(window: map<int, Packet>, toRetransmit: seq<int>, dropped: nat)

  /** A packet is due once 100 ms have passed since it was sent. */
  predicate Due(p: Packet, now: int)
  {
    now - p.sendTime >= RetransmitAfter
  }

  function Resent(p: Packet, now: int): Packet
  {
    p.(sendTime := now, attempts := p.attempts + 1)
  }

  /** The pass over the window in `order`; `drops[i]` is the draw for `order[i]` when it is due. */
  function RetransmitRun(window: map<int, Packet>, order: seq<int>, drops: seq<bool>, now: int): Retransmitting
    requires |drops| == |order|
    decreases |order|
  {
    if order == [] then Retransmitting(window, [], 0)
    else
      var n := |order| - 1;
      var r := RetransmitRun(window, order[..n], drops[..n], now);
      var k := order[n];
      if k in r.window && Due(r.window[k], now) then
        if !drops[n] then Retransmitting(r.window[k := Resent(r.window[k], now)], r.toRetransmit + [k], r.dropped)
        else r.(dropped := r.dropped + 1)
      else r
  }

  /**
   * The pass removes no entry and adds none; a key visited so far that was
   * due and whose draw kept it is resent with one more attempt and the new
   * send time, and is in the message; every other entry is unchanged and
   * not in the message. At most one re-drop is counted per key visited.
   */
  lemma {:induction false} RetransmitRunEffect(window: map<int, Packet>, order: seq<int>, drops: seq<bool>, now: int)
    requires |drops| == |order| && Distinct(order)
    ensures var r := RetransmitRun(window, order, drops, now);
      && r.window.Keys == window.Keys
      && r.dropped + |r.toRetransmit| <= |order|
      && (forall i :: 0 <= i < |order| && order[i] in window ==>
            && r.window[order[i]] == (if Due(window[order[i]], now) && !drops[i] then Resent(window[order[i]], now) else window[order[i]])
            && (order[i] in r.toRetransmit <==> Due(window[order[i]], now) && !drops[i]))
      && (forall k :: k in window && k !in order ==> r.window[k] == window[k] && k !in r.toRetransmit)
      && (forall k :: k in r.toRetransmit ==> k in order)
    decreases |order|
  {
    if order != [] {
      var n := |order| - 1;
      RetransmitRunEffect(window, order[..n], drops[..n], now);
      var p := RetransmitRun(window, order[..n], drops[..n], now);
      var k := order[n];
      assert k !in order[..n] by {
        forall j | 0 <= j < n ensures order[..n][j] != k {
          assert order[j] != order[n];
        }
      }
      var r := RetransmitRun(window, order, drops, now);
      var resend := k in p.window && Due(p.window[k], now) && !drops[n];
      assert r.window == (if resend then p.window[k := Resent(p.window[k], now)] else p.window);
      assert r.toRetransmit == (if resend then p.toRetransmit + [k] else p.toRetransmit);
      assert k in window ==> p.window[k] == window[k];
      if k in window {
        assert k !in p.toRetransmit;
        assert r.window[k] == (if Due(window[k], now) && !drops[n] then Resent(window[k], now) else window[k]);
        assert k in r.toRetransmit <==> Due(window[k], now) && !drops[n];
      }
      forall i | 0 <= i < |order| && order[i] in window
        ensures r.window[order[i]] == (if Due(window[order[i]], now) && !drops[i] then Resent(window[order[i]], now) else window[order[i]])
        ensures order[i] in r.toRetransmit <==> Due(window[order[i]], now) && !drops[i]
      {
        if i < n {
          assert order[..n][i] == order[i] && drops[..n][i] == drops[i];
          assert order[i] != k;
          assert r.window[order[i]] == p.window[order[i]];
        }
      }
      forall j | j in window && j !in order
        ensures r.window[j] == window[j] && j !in r.toRetransmit
      {
        assert j !in order[..n];
      }
      forall j | j in r.toRetransmit
        ensures j in order
      {
        if j != k {
          assert j in p.toRetransmit;
        }
      }
    }
  }

  /** `handleRetransmissions`: the new client and the message written, if any. */
  function Retransmitted(c: Client, order: seq<int>, drops: seq<bool>, now: int): (Client, Option<string>)
    requires |drops| == |order|
  {
    var r := RetransmitRun(c.window, order, drops, now);
    (c.(window := r.window, totalDropped := c.totalDropped + r.dropped), Message(r.toRetransmit))
  }

  lemma {:induction false} HandleRetransmissionsValid(c: Client, order: seq<int>, drops: seq<bool>, now: int)
    requires Valid(c) && KeyOrder(order, c.window) && |drops| == |order|
    ensures Valid(Retransmitted(c, order, drops, now).0)
  {
    RetransmitRunEffect(c.window, order, drops, now);
    var r := RetransmitRun(c.window, order, drops, now);
    forall k | k in r.window
      ensures InRange(k) && r.window[k].sequenceNumber == k && r.window[k].attempts >= 1
    {
      var i :| 0 <= i < |order| && order[i] == k;
    }
  }

  // ---- processAcks ----

  /** The `for c.windowStart == seq` loop: it runs at most once and moves the start past `sn`. */
  function AdvanceStart(start: int, sn: int): int
  {
    if start == sn then GoRem(start + 1, Modulus) else start
  }

  /** One token of `processAcks`: `strconv.Atoi` without trimming; a number deletes its entry. */
  function AckOne(c: Client, token: string, now: int): Client
  {
    match ParseInt(token)
      case None => c
      case Some(sn) => c.(window := c.window - {sn}, lastAckTime := now, windowStart := AdvanceStart(c.windowStart, sn))
  }

  function Acked(c: Client, acks: seq<string>, now: int): Client
    decreases |acks|
  {
    if acks == [] then c else AckOne(Acked(c, acks[..|acks| - 1], now), acks[|acks| - 1], now)
  }

  /** The integer tokens, in order. */
  function AckNumbers(acks: seq<string>): seq<int>
    decreases |acks|
  {
    if acks == [] then []
    else
      var last := ParseInt(acks[|acks| - 1]);
      AckNumbers(acks[..|acks| - 1]) + if last.Some? then [last.value] else []
  }

  /**
   * The start of a valid window moves on by exactly one, modulo 65536,
   * when the acknowledged number is the start, and stays otherwise.
   */
  lemma {:induction false} AdvanceStartEffect(start: int, sn: int)
    requires InRange(start)
    ensures InRange(AdvanceStart(start, sn))
    ensures sn == start ==> AdvanceStart(start, sn) == Next(start)
    ensures sn != start ==> AdvanceStart(start, sn) == start
  {
  }

  /**
   * Acknowledgements delete exactly the entries named by integer tokens,
   * leave the others as they were, refresh `lastAckTime` when there was
   * at least one integer, and touch nothing but the window, its start and
   * the ack time.
   */
  lemma {:induction false} ProcessAcksEffect(c: Client, acks: seq<string>, now: int)
    ensures var r := Acked(c, acks, now);
      && (forall k :: k in r.window <==> k in c.window && k !in AckNumbers(acks))
      && (forall k :: k in r.window ==> r.window[k] == c.window[k])
      && (AckNumbers(acks) != [] ==> r.lastAckTime == now)
      && (AckNumbers(acks) == [] ==> r == c)
      && r.windowSize == c.windowSize && r.nextSequence == c.nextSequence
      && r.totalSent == c.totalSent && r.totalDropped == c.totalDropped
      && (InRange(c.windowStart) ==> InRange(r.windowStart))
    decreases |acks|
  {
    if acks != [] {
      var init := acks[..|acks| - 1];
      ProcessAcksEffect(c, init, now);
      var p := Acked(c, init, now);
      match ParseInt(acks[|acks| - 1]) {
        case None =>
        case Some(sn) =>
          assert AckNumbers(acks) == AckNumbers(init) + [sn];
          if InRange(p.windowStart) {
            AdvanceStartEffect(p.windowStart, sn);
          }
      }
    }
  }

  lemma {:induction false} ProcessAcksValid(c: Client, acks: seq<string>, now: int)
    requires Valid(c)
    ensures Valid(Acked(c, acks, now))
  {
    ProcessAcksEffect(c, acks, now);
  }

  /**
   * A message the client writes reaches the statistics server as exactly
   * the numbers it lists, and the server's echo of it, read back by
   * `processAcks`, acknowledges exactly those numbers.
   */
  lemma {:induction false} MessageRoundTrip(xs: seq<int>)
    requires xs != []
    ensures var line := Join(Decimals(xs), ',');
      && Message(xs) == Some(line + "\n")
      && GoStatsServer.Numbers(Split(line, ',')) == xs
      && AckNumbers(Split(line, ',')) == xs
  {
    var ds := Decimals(xs);
    forall i | 0 <= i < |ds| ensures ',' !in ds[i] {
      DecimalHasNoSeparator(xs[i]);
    }
    SplitJoin(ds, ',');
    DecimalsParse(xs);
    DecimalsAcked(xs);
  }

  lemma {:induction false} DecimalsParse(xs: seq<int>)
    ensures GoStatsServer.Numbers(Decimals(xs)) == xs
    decreases |xs|
  {
    if xs != [] {
      var init := xs[..|xs| - 1];
      assert xs == init + [xs[|xs| - 1]];
      DecimalsParse(init);
      var ds := Decimals(xs);
      var n := |xs| - 1;
      assert ds[..n] == Decimals(init);
      assert ds[..n + 1] == ds;
      PyIntDecimal(xs[n]);
      GoStatsServer.NumbersStep(ds, n);
    }
  }

  lemma {:induction false} DecimalsAcked(xs: seq<int>)
    ensures AckNumbers(Decimals(xs)) == xs
    decreases |xs|
  {
    if xs != [] {
      var init := xs[..|xs| - 1];
      DecimalsAcked(init);
      var ds := Decimals(xs);
      assert ds[..|xs| - 1] == Decimals(init);
      ParseDecimal(xs[|xs| - 1]);
      assert ParseInt(ds[|ds| - 1]) == Some(xs[|xs| - 1]);
      assert xs == init + [xs[|xs| - 1]];
    }
  }

  // ---- the client object ----

  /** The `Client` object. */
  class GoClient {
    var window: map<int, Packet>
    var windowStart: int
    var windowSize: int
    var nextSequence: nat
    var totalSent: nat
    var totalDropped: nat
    var lastAckTime: int

    function Snap(): Client
      reads this
    {
      Client(window, windowStart, windowSize, nextSequence, totalSent, totalDropped, lastAckTime)
    }

    constructor (now: int)
      ensures Snap() == NewClient(now)
    {
      window, windowStart, windowSize := map[], 0, MinWindowSize;
      nextSequence, totalSent, totalDropped, lastAckTime := 0, 0, 0, now;
    }

    method AdjustWindow(now: int)
      modifies this
      ensures Snap() == old(Snap()).(windowSize := AdjustedSize(old(Snap()), now))
    {
      if now - lastAckTime < AckFresh {
        if |window| < windowSize && windowSize < MaxWindowSize {
          windowSize := Min(windowSize + 1, MaxWindowSize);
        }
      } else {
        windowSize := Max(GoDiv(windowSize, 2), MinWindowSize);
      }
    }

    method SendNewPackets(drops: seq<bool>, now: int) returns (message: Option<string>)
      requires |drops| == SendCount(Snap())
      modifies this
      ensures (Snap(), message) == Sent(old(Snap()), drops, now)
    {
      if |window| >= windowSize {
        return None;
      }
      var s := SendLoop(Snap(), drops, now);
      window, nextSequence, totalSent, totalDropped := s.client.window, s.client.nextSequence, s.client.totalSent, s.client.totalDropped;
      SendRunEffect(old(Snap()), drops, now);
      message := None;
      if |s.toSend| > 0 {
        message := Some(Join(Decimals(s.toSend), ',') + "\n");
      }
    }

    method HandleRetransmissions(order: seq<int>, drops: seq<bool>, now: int) returns (message: Option<string>)
      requires KeyOrder(order, window) && |drops| == |order|
      modifies this
      ensures (Snap(), message) == Retransmitted(old(Snap()), order, drops, now)
    {
      ghost var c0 := Snap();
      var r := RetransmitLoop(window, order, drops, now);
      window, totalDropped := r.window, totalDropped + r.dropped;
      assert Snap() == Retransmitted(c0, order, drops, now).0;
      message := None;
      if |r.toRetransmit| > 0 {
        message := Some(Join(Decimals(r.toRetransmit), ',') + "\n");
      }
      assert message == Message(r.toRetransmit);
    }

    method ProcessAcks(acks: seq<string>, now: int)
      modifies this
      ensures Snap() == Acked(old(Snap()), acks, now)
    {
      var c := AckLoop(Snap(), acks, now);
      window, windowStart, lastAckTime := c.window, c.windowStart, c.lastAckTime;
      ProcessAcksEffect(old(Snap()), acks, now);
    }
  }

  /** The `for i := 0; i < available && c.totalSent < targetPackets; i++` loop. */
  method SendLoop(c: Client, drops: seq<bool>, now: int) returns (s: Sending)
    requires |drops| == SendCount(c) && |c.window| < c.windowSize
    ensures s == SendRun(c, drops, now)
  {
    var available := c.windowSize - |c.window|;
    s := Sending(c, []);
    var i := 0;
    while i < available && s.client.totalSent < TargetPackets
      invariant 0 <= i <= |drops| && s == SendRun(c, drops[..i], now)
      invariant s.client.totalSent == c.totalSent + i
    {
      assert drops[..i + 1][..i] == drops[..i];
      var sn := s.client.nextSequence % Modulus;
      var next := s.client.(nextSequence := s.client.nextSequence + 1, totalSent := s.client.totalSent + 1);
      if !drops[i] {
        s := Sending(next.(window := s.client.window[sn := Packet(sn, now, 1)]), s.toSend + [sn]);
      } else {
        s := Sending(next.(totalDropped := s.client.totalDropped + 1), s.toSend);
      }
      i := i + 1;
      SendRunCount(c, drops[..i], now);
    }
    assert drops[..i] == drops;
  }

  lemma {:induction false} SendRunCount(c: Client, drops: seq<bool>, now: int)
    ensures SendRun(c, drops, now).client.totalSent == c.totalSent + |drops|
    decreases |drops|
  {
    if drops != [] {
      SendRunCount(c, drops[..|drops| - 1], now);
    }
  }

  /** The `for seq, packet := range c.window` loop, visiting the keys in `order`. */
  method RetransmitLoop(window: map<int, Packet>, order: seq<int>, drops: seq<bool>, now: int) returns (r: Retransmitting)
    requires |drops| == |order|
    ensures r == RetransmitRun(window, order, drops, now)
  {
    r := Retransmitting(window, [], 0);
    var i := 0;
    while i < |order|
      invariant i <= |order| && r == RetransmitRun(window, order[..i], drops[..i], now)
    {
      assert order[..i + 1][..i] == order[..i] && drops[..i + 1][..i] == drops[..i];
      var k := order[i];
      if k in r.window && now - r.window[k].sendTime >= RetransmitAfter {
        if !drops[i] {
          r := Retransmitting(r.window[k := Resent(r.window[k], now)], r.toRetransmit + [k], r.dropped);
        } else {
          r := r.(dropped := r.dropped + 1);
        }
      }
      i := i + 1;
    }
    assert order[..i] == order && drops[..i] == drops;
  }

  /** The `for _, ackStr := range acks` loop with its inner `for c.windowStart == seq` loop. */
  method AckLoop(c: Client, acks: seq<string>, now: int) returns (r: Client)
    ensures r == Acked(c, acks, now)
  {
    r := c;
    var i := 0;
    while i < |acks|
      invariant i <= |acks| && r == Acked(c, acks[..i], now)
    {
      assert acks[..i + 1][..i] == acks[..i];
      var parsed := ParseInt(acks[i]);
      if parsed.Some? {
        var sn := parsed.value;
        r := r.(window := r.window - {sn}, lastAckTime := now);
        var start := r.windowStart;
        while start == sn
          invariant start == sn ==> start == r.windowStart
          invariant start != sn ==> start == AdvanceStart(r.windowStart, sn)
          decreases if start == sn then 1 else 0
        {
          start := GoRem(start + 1, Modulus);
          assert start != sn;
          if start !in r.window {
            break;
          }
        }
        r := r.(windowStart := start);
      }
      i := i + 1;
    }
    assert acks[..i] == acks;
  }
}
