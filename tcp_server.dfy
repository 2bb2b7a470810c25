/**
 * The receivers of tcp/gpt/server.py, tcp/claude/server.py and
 * tcp/grok/server.py. The three files share one design: `NetworkStatistics`
 * counts every packet, keeps an `expected_seq` frontier that jumps over
 * forward gaps (and counts them as missing), records a goodput sample on a
 * cadence, and the server acks every well-formed packet with the frontier.
 * They differ only in the goodput cadence (every 1000 unique packets for
 * gpt and claude, every 1000 packets in total for grok) and in whether a
 * receive timeout ends the loop (grok carries on).
 *
 * The wall clock is the parameter `now`, read once per received chunk.
 */
module TcpServer {
  import opened Common
  import opened SeqSpace
  import opened Text
  import opened Framing
  import opened PacketLine
  import SenderRules

  /** A goodput sample is recorded when a counter reaches a multiple of this. */
  const GoodputInterval: nat := 1000

  /** Only retransmission counts 1 to 4 have a histogram bucket. */
  const TrackedRetransmissions: int := 4

  /** Which counter drives the goodput samples. */
  datatype Cadence = EveryThousandUnique | EveryThousandTotal

  /** The tracking part of `NetworkStatistics`: next expected number, packets counted once, numbers skipped. */
  datatype Frontier = Frontier(expected: int, unique: nat, missing: nat)

  /**
   * `update_sequence_tracking` on the counters: the expected packet
   * advances the frontier by one; a packet ahead by 0 < d < 32768 counts
   * the d skipped numbers as missing and moves the frontier past it; any
   * other packet (a duplicate, a stale one, one too far ahead) changes
   * nothing.
   */
  function Advance(f: Frontier, sn: int): Frontier
  {
    if sn == f.expected then f.(unique := f.unique + 1, expected := Next(f.expected))
    else if Before(f.expected, sn) then Frontier(Next(sn), f.unique + 1, f.missing + Distance(f.expected, sn))
    else f
  }

  /** The frontier after a run of packets, in arrival order. */
  function AdvanceAll(f: Frontier, sns: seq<int>): Frontier
    decreases |sns|
  {
    if sns == [] then f else Advance(AdvanceAll(f, sns[..|sns| - 1]), sns[|sns| - 1])
  }

  /**
   * The frontier is always the number of packets counted plus the number
   * skipped, modulo 65536: every number below it was either received or
   * declared missing, exactly once.
   */
  predicate Consistent(f: Frontier)
  {
    f.expected == Wrap(f.unique + f.missing)
  }

  lemma {:induction false} AdvanceConsistent(f: Frontier, sn: int)
    requires Consistent(f)
    ensures Consistent(Advance(f, sn))
  {
    var n := f.unique + f.missing;
    if sn == f.expected {
      WrapAdd(n, 1);
    } else if Before(f.expected, sn) {
      var d := Distance(f.expected, sn);
      WrapAdd(n, d + 1);
      WrapAdd(sn - f.expected, f.expected + 1);
    }
  }

  /** From the initial frontier, any run of packets keeps the frontier consistent. */
  lemma {:induction false} AdvanceAllConsistent(f: Frontier, sns: seq<int>)
    requires Consistent(f)
    ensures Consistent(AdvanceAll(f, sns))
    decreases |sns|
  {
    if sns != [] {
      AdvanceAllConsistent(f, sns[..|sns| - 1]);
      AdvanceConsistent(AdvanceAll(f, sns[..|sns| - 1]), sns[|sns| - 1]);
    }
  }

  /**
   * A packet that is counted moves the frontier to its successor, so the
   * cumulative ack sent back is after it in sequence order; a packet that
   * is not counted leaves the frontier alone.
   */
  lemma {:induction false} AdvanceAcksPacket(f: Frontier, sn: int)
    ensures var g := Advance(f, sn);
      (g.unique == f.unique + 1 && g.expected == Next(sn) && Before(sn, g.expected)) || g == f
  {
    BeforeNext(sn);
  }

  /** Receiving the same packet twice in a row counts it once. */
  lemma {:induction false} AdvanceIdempotent(f: Frontier, sn: int)
    requires InRange(sn)
    ensures Advance(Advance(f, sn), sn) == Advance(f, sn)
  {
    var g := Advance(f, sn);
    if g != f {
      AdvanceAcksPacket(f, sn);
      BeforeNext(sn);
      BeforeAsymmetric(sn, Next(sn));
      assert sn != Next(sn) by {
        if sn == Modulus - 1 {
          assert Next(sn) == 0;
        } else {
          ModUnique(sn + 1, 0, sn + 1);
        }
      }
    }
  }

  /** The wrapped numbers 0, 1, ..., n - 1: what a loss-free client sends. */
  function InOrder(n: nat): (r: seq<int>)
    ensures |r| == n
  {
    if n == 0 then [] else InOrder(n - 1) + [Wrap(n - 1)]
  }

  /** A loss-free stream of n packets leaves n counted, none missing, and the frontier at n mod 65536. */
  lemma {:induction false} InOrderStream(n: nat)
    ensures AdvanceAll(Frontier(0, 0, 0), InOrder(n)) == Frontier(Wrap(n), n, 0)
  {
    if n > 0 {
      InOrderStream(n - 1);
      assert InOrder(n)[..n - 1] == InOrder(n - 1);
      WrapAdd(n - 1, 1);
    }
  }

  /**
   * The receiver jumps over gaps: after 0, 1, 2, 4, 5 the frontier (and so
   * the ack) is 6 with one number missing, not 3.
   */
  lemma {:induction false} GapIsSkipped()
    ensures AdvanceAll(Frontier(0, 0, 0), [0, 1, 2, 4, 5]) == Frontier(6, 5, 1)
    ensures AdvanceAll(Frontier(0, 0, 0), [0, 1, 2, 4]) == Frontier(5, 4, 1)
  {
    var s := [0, 1, 2, 4, 5];
    assert s[..4] == [0, 1, 2, 4];
    assert s[..4][..3] == [0, 1, 2];
    assert s[..4][..3][..2] == [0, 1];
    assert s[..4][..3][..2][..1] == [0];
    assert AdvanceAll(Frontier(0, 0, 0), [0]) == Frontier(1, 1, 0);
    assert AdvanceAll(Frontier(0, 0, 0), [0, 1]) == Frontier(2, 2, 0);
    assert AdvanceAll(Frontier(0, 0, 0), [0, 1, 2]) == Frontier(3, 3, 0);
    assert Distance(3, 4) == 1;
  }

  /**
   * `[(t, m % 65536) for m in range(expected, seq)]`: the entries appended
   * to `dropped_packets` for a forward gap. `range` counts up in plain
   * integers, so the list is empty when the gap crosses the wrap.
   */
  function DroppedRange(lo: int, hi: int, now: int): seq<(int, int)>
    decreases hi - lo
  {
    if hi <= lo then [] else DroppedRange(lo, hi - 1, now) + [(now, Wrap(hi - 1))]
  }

  /** Without a wrap, the gap's entries are exactly the skipped numbers, one each, in order. */
  lemma {:induction false} DroppedRangeNoWrap(lo: int, hi: int, now: int)
    requires 0 <= lo <= hi < Modulus
    ensures |DroppedRange(lo, hi, now)| == hi - lo == Distance(lo, hi)
    ensures forall i :: 0 <= i < hi - lo ==> (DroppedRange(lo, hi, now)[i] == (now, lo + i))
    decreases hi - lo
  {
    ModUnique(hi - lo, 0, hi - lo);
    if lo < hi {
      DroppedRangeNoWrap(lo, hi - 1, now);
      ModUnique(hi - 1, 0, hi - 1);
      var r := DroppedRange(lo, hi, now);
      assert r == DroppedRange(lo, hi - 1, now) + [(now, hi - 1)];
      forall i | 0 <= i < hi - lo
        ensures r[i] == (now, lo + i)
      {
        if i < hi - 1 - lo {
          assert r[i] == DroppedRange(lo, hi - 1, now)[i];
        }
      }
    }
  }

  /** The record of one received packet. */
  datatype Stats = Stats(
    total: nat,
    frontier: Frontier,
    retransmissions: map<int, int>,
    times: seq<int>,
    windows: seq<int>,
    seqs: seq<int>,
    dropped: seq<(int, int)>,
    goodput: seq<(int, Ratio)>)

  /** A fresh `NetworkStatistics`. */
  function Initial(): Stats
  {
    Stats(0, Frontier(0, 0, 0), map[], [], [], [], [], [])
  }

  /** A bucket of the `defaultdict(int)` histogram. */
  function Bucket(m: map<int, int>, k: int): int
  {
    if k in m then m[k] else 0
  }

  /** `record_packet`: count the packet, extend the three series, bump bucket r for 1 <= r <= 4. */
  function Recorded(s: Stats, sn: int, window: int, rtx: int, now: int): Stats
  {
    s.(total := s.total + 1,
       times := s.times + [now],
       windows := s.windows + [window],
       seqs := s.seqs + [sn],
       retransmissions :=
         if 0 < rtx <= TrackedRetransmissions then s.retransmissions[rtx := Bucket(s.retransmissions, rtx) + 1]
         else s.retransmissions)
  }

  /** `update_sequence_tracking`: advance the frontier and log the entries of a forward gap. */
  function Tracked(s: Stats, sn: int, now: int): Stats
  {
    var e := s.frontier.expected;
    s.(frontier := Advance(s.frontier, sn),
       dropped := if sn != e && Before(e, sn) then s.dropped + DroppedRange(e, sn, now) else s.dropped)
  }

  /**
   * Across the wrap the gap is counted as missing but logs nothing: from
   * frontier 65535, packet 1 adds 2 to `missing_packets` and no entry.
   */
  lemma {:induction false} DroppedAcrossWrap(s: Stats, now: int)
    requires s.frontier.expected == Modulus - 1
    ensures Tracked(s, 1, now).frontier.missing == s.frontier.missing + 2
    ensures Tracked(s, 1, now).dropped == s.dropped
  {
    ModUnique(1 - (Modulus - 1), -1, 2);
  }

  /**
   * `calculate_goodput`: unique over total packets as a percentage,
   * 0 before any packet. As a ratio it is at most 100 whenever no more
   * packets were counted than received.
   */
  function Goodput(s: Stats): (r: Ratio)
    ensures r.den > 0
    ensures s.total == 0 ==> r.num == 0
    ensures s.frontier.unique <= s.total ==> r.num <= 100 * r.den
  {
    if s.total == 0 then Ratio(0, 1) else Ratio(100 * s.frontier.unique, s.total)
  }

  /** Whether `record_goodput` takes a sample now. */
  predicate Due(c: Cadence, s: Stats)
  {
    match c
    case EveryThousandUnique => s.frontier.unique % GoodputInterval == 0
    case EveryThousandTotal => s.total > 0 && s.total % GoodputInterval == 0
  }

  /** `record_goodput`. */
  function Sampled(s: Stats, c: Cadence, now: int): Stats
  {
    if Due(c, s) then s.(goodput := s.goodput + [(now, Goodput(s))]) else s
  }

  /**
   * The unique-count cadence of the gpt and claude servers also samples
   * when nothing has been counted yet: a first packet that is not the
   * expected one (here 40000, too far ahead) gives a 0% sample, where the
   * grok cadence gives none.
   */
  lemma {:induction false} UniqueCadenceSamplesAtZero(now: int)
    ensures var s := Tracked(Recorded(Initial(), 40000, 1, 0, now), 40000, now);
      Sampled(s, EveryThousandUnique, now).goodput == [(now, Ratio(0, 1))]
      && Sampled(s, EveryThousandTotal, now).goodput == []
  {
    assert Distance(0, 40000) == 40000;
  }

  /** The result of `process_packet`: the new statistics and the ack sent, if any. */
  datatype Outcome = Outcome(stats: Stats, ack: Option<string>)

  /**
   * `process_packet` on a stripped line: three integer fields, or the
   * `ValueError` path that returns False and leaves the statistics alone.
   * A good packet is recorded, tracked and sampled in that order and acked
   * with the new frontier.
   */
  function Processed(s: Stats, c: Cadence, line: string, now: int): Outcome
  {
    match Parse(line)
    case None => Outcome(s, None)
    case Some(p) =>
      var t := Sampled(Tracked(Recorded(s, p.sn, p.window, p.retransmissions, now), p.sn, now), c, now);
      Outcome(t, Some(IntToDecimal(t.frontier.expected) + "\n"))
  }

  /**
   * What `NetworkStatistics` keeps true: the three series grow in lockstep
   * with the packet count, no more packets are counted than received, the
   * frontier is consistent, and the histogram has buckets 1 to 4 only, none
   * empty.
   */
  predicate Valid(s: Stats)
  {
    && |s.times| == s.total && |s.windows| == s.total && |s.seqs| == s.total
    && s.frontier.unique <= s.total
    && Consistent(s.frontier)
    && (forall r :: r in s.retransmissions ==> 1 <= r <= TrackedRetransmissions && s.retransmissions[r] >= 1)
  }

  lemma {:induction false} InitialValid()
    ensures Valid(Initial())
  {
  }

  /** Recording a packet keeps the statistics valid and leaves room for it to be counted. */
  lemma {:induction false} RecordedValid(s: Stats, sn: int, window: int, rtx: int, now: int)
    requires Valid(s)
    ensures var t := Recorded(s, sn, window, rtx, now);
      Valid(t) && t.frontier.unique < t.total
  {
  }

  /** Tracking a recorded packet keeps the statistics valid. */
  lemma {:induction false} TrackedValid(s: Stats, sn: int, now: int)
    requires Valid(s) && s.frontier.unique < s.total
    ensures Valid(Tracked(s, sn, now))
  {
    AdvanceConsistent(s.frontier, sn);
  }

  /** Processing one line keeps the statistics valid; a rejected line changes nothing and sends no ack. */
  lemma {:induction false} ProcessedValid(s: Stats, c: Cadence, line: string, now: int)
    requires Valid(s)
    ensures Valid(Processed(s, c, line, now).stats)
    ensures Parse(line).None? ==> Processed(s, c, line, now) == Outcome(s, None)
  {
    if Parse(line).Some? {
      var p := Parse(line).value;
      var r := Recorded(s, p.sn, p.window, p.retransmissions, now);
      RecordedValid(s, p.sn, p.window, p.retransmissions, now);
      TrackedValid(r, p.sn, now);
    }
  }

  /**
   * Under the grok cadence the number of goodput samples is always the
   * number of whole thousands of packets received.
   */
  lemma {:induction false} TotalCadenceSamples(s: Stats, line: string, now: int)
    requires |s.goodput| == s.total / GoodputInterval
    ensures var t := Processed(s, EveryThousandTotal, line, now).stats;
      |t.goodput| == t.total / GoodputInterval
  {
    if Parse(line).Some? {
      var n := s.total;
      assert (n + 1) / GoodputInterval == n / GoodputInterval + (if (n + 1) % GoodputInterval == 0 then 1 else 0);
    }
  }

  /** The result of handling several lines: the statistics and the acks sent, in order. */
  datatype Served = Served(stats: Stats, acks: seq<string>)

  /** One complete line in `run`: stripped, and processed unless blank. */
  function HandleLine(s: Stats, c: Cadence, line: string, now: int): Outcome
  {
    var packet := Strip(line);
    if packet == [] then Outcome(s, None) else Processed(s, c, packet, now)
  }

  function AckList(ack: Option<string>): seq<string>
  {
    if ack.Some? then [ack.value] else []
  }

  /** Lines handled one after the other by `step`, collecting the acks in order. */
  function Fold(step: (Stats, string) -> Outcome, s: Stats, lines: seq<string>): Served
    decreases |lines|
  {
    if lines == [] then Served(s, [])
    else
      var init := Fold(step, s, lines[..|lines| - 1]);
      var o := step(init.stats, lines[|lines| - 1]);
      Served(o.stats, init.acks + AckList(o.ack))
  }

  /** Handling lines in two batches is handling them in one. */
  lemma {:induction false} FoldAppend(step: (Stats, string) -> Outcome, s: Stats, a: seq<string>, b: seq<string>)
    ensures var first := Fold(step, s, a);
      var second := Fold(step, first.stats, b);
      Fold(step, s, a + b) == Served(second.stats, first.acks + second.acks)
    decreases |b|
  {
    if b == [] {
      assert a + b == a;
    } else {
      var b' := b[..|b| - 1];
      assert (a + b)[..|a + b| - 1] == a + b';
      assert (a + b)[|a + b| - 1] == b[|b| - 1];
      FoldAppend(step, s, a, b');
      var first := Fold(step, s, a);
      var mid := Fold(step, first.stats, b');
      AppendAssoc(first.acks, mid.acks, AckList(step(mid.stats, b[|b| - 1]).ack));
    }
  }

  /** The line handler of one server variant at one moment. */
  function Handler(c: Cadence, now: int): (Stats, string) -> Outcome
  {
    (st: Stats, line: string) => HandleLine(st, c, line, now)
  }

  /** The inner loop of `run` over complete lines, in order. */
  function ProcessLines(s: Stats, c: Cadence, lines: seq<string>, now: int): Served
  {
    Fold(Handler(c, now), s, lines)
  }

  /** One more line: handled after all the earlier ones. */
  lemma {:induction false} ProcessLinesSnoc(s: Stats, c: Cadence, lines: seq<string>, line: string, now: int)
    ensures var sv := ProcessLines(s, c, lines, now);
      var o := HandleLine(sv.stats, c, line, now);
      ProcessLines(s, c, lines + [line], now) == Served(o.stats, sv.acks + AckList(o.ack))
  {
    assert (lines + [line])[..|lines|] == lines;
  }

  /** Every batch of lines keeps the statistics valid. */
  lemma {:induction false} ProcessLinesValid(s: Stats, c: Cadence, lines: seq<string>, now: int)
    requires Valid(s)
    ensures Valid(ProcessLines(s, c, lines, now).stats)
    decreases |lines|
  {
    if lines != [] {
      ProcessLinesValid(s, c, lines[..|lines| - 1], now);
      var init := Fold(Handler(c, now), s, lines[..|lines| - 1]);
      var packet := Strip(lines[|lines| - 1]);
      if packet != [] {
        ProcessedValid(init.stats, c, packet, now);
      }
    }
  }

  /** One received chunk: the lines completed by it are handled and the fragment is kept. */
  datatype Received = Received(stats: Stats, buffer: string, acks: seq<string>)

  function AfterReceive(s: Stats, c: Cadence, buffer: string, chunk: string, now: int): Received
  {
    var served := ProcessLines(s, c, Lines(buffer + chunk), now);
    Received(served.stats, Rest(buffer + chunk), served.acks)
  }

  /**
   * How the client's stream is cut into receives does not matter: two
   * chunks received at the same time have the effect of their
   * concatenation.
   */
  lemma {:induction false} ReceiveChunking(s: Stats, c: Cadence, buffer: string, b: string, d: string, now: int)
    ensures var r1 := AfterReceive(s, c, buffer, b, now);
      var r2 := AfterReceive(r1.stats, c, r1.buffer, d, now);
      AfterReceive(s, c, buffer, b + d, now) == Received(r2.stats, r2.buffer, r1.acks + r2.acks)
  {
    var whole := buffer + (b + d);
    assert whole == (buffer + b) + d;
    Chunking(buffer + b, d);
    var l1, l2 := Lines(buffer + b), Lines(Rest(buffer + b) + d);
    assert Lines(whole) == l1 + l2;
    FoldAppend(Handler(c, now), s, l1, l2);
    var first := ProcessLines(s, c, l1, now);
    var second := ProcessLines(first.stats, c, l2, now);
    assert ProcessLines(s, c, Lines(whole), now) == Served(second.stats, first.acks + second.acks);
  }

  /** What a call of `recv` returned. */
  datatype Recv = Data(chunk: string, now: int) | Closed | TimedOut

  /**
   * The `run` loop over successive receives. An empty read (`Closed`) ends
   * it. A timeout ends it in the gpt and claude servers (the generic
   * exception handler) and is skipped by grok's, which keeps the buffer.
   */
  function AfterServe(s: Stats, c: Cadence, timeoutContinues: bool, buffer: string, events: seq<Recv>): Received
    decreases |events|
  {
    if events == [] then Received(s, buffer, [])
    else
      match events[0]
      case Closed => Received(s, buffer, [])
      case TimedOut =>
        if timeoutContinues then AfterServe(s, c, timeoutContinues, buffer, events[1..]) else Received(s, buffer, [])
      case Data(chunk, now) =>
        var r := AfterReceive(s, c, buffer, chunk, now);
        var rest := AfterServe(r.stats, c, timeoutContinues, r.buffer, events[1..]);
        Received(rest.stats, rest.buffer, r.acks + rest.acks)
  }

  /**
   * A receive followed by the rest of the loop: the acks of the receive come
   * before those of the rest, and the final state is that of the rest.
   */
  lemma {:induction false} ServeData(s: Stats, c: Cadence, timeoutContinues: bool, buffer: string, events: seq<Recv>, earlier: seq<string>)
    requires events != [] && events[0].Data?
    ensures var r := AfterReceive(s, c, buffer, events[0].chunk, events[0].now);
      var rest := AfterServe(r.stats, c, timeoutContinues, r.buffer, events[1..]);
      var whole := AfterServe(s, c, timeoutContinues, buffer, events);
      whole.stats == rest.stats && whole.buffer == rest.buffer
      && earlier + whole.acks == (earlier + r.acks) + rest.acks
  {
    var r := AfterReceive(s, c, buffer, events[0].chunk, events[0].now);
    var rest := AfterServe(r.stats, c, timeoutContinues, r.buffer, events[1..]);
    assert AfterServe(s, c, timeoutContinues, buffer, events) == Received(rest.stats, rest.buffer, r.acks + rest.acks);
    AppendAssoc(earlier, r.acks, rest.acks);
  }

  /** grok's server: a timeout loses neither state nor the buffered fragment. */
  lemma {:induction false} TimeoutKeepsFragment(s: Stats, c: Cadence, buffer: string, events: seq<Recv>)
    ensures AfterServe(s, c, true, buffer, [TimedOut] + events) == AfterServe(s, c, true, buffer, events)
    ensures AfterServe(s, c, false, buffer, [TimedOut] + events) == Received(s, buffer, [])
  {
    assert ([TimedOut] + events)[1..] == events;
  }

  /** The whole receive loop keeps the statistics valid, and what stays buffered is never a complete line. */
  lemma {:induction false} ServeValid(s: Stats, c: Cadence, timeoutContinues: bool, buffer: string, events: seq<Recv>)
    requires Valid(s) && '\n' !in buffer
    ensures Valid(AfterServe(s, c, timeoutContinues, buffer, events).stats)
    ensures '\n' !in AfterServe(s, c, timeoutContinues, buffer, events).buffer
    decreases |events|
  {
    if events != [] {
      match events[0]
      case Closed =>
      case TimedOut =>
        ServeValid(s, c, timeoutContinues, buffer, events[1..]);
      case Data(chunk, now) =>
        ProcessLinesValid(s, c, Lines(buffer + chunk), now);
        var r := AfterReceive(s, c, buffer, chunk, now);
        ServeValid(r.stats, c, timeoutContinues, r.buffer, events[1..]);
    }
  }

  /**
   * End to end with the clients: the server accepts the line a client sends
   * for packet `sn`, and if it counts the packet, the ack it returns makes
   * the client's ack processing remove `sn` from its outstanding map.
   */
  lemma {:induction false} AckReleasesPacket(s: Stats, c: Cadence, p: Packet, now: int, outstanding: map<int, int>)
    requires InRange(p.sn)
    ensures var o := Processed(s, c, Format(p), now);
      o.ack.Some?
      && (o.stats.frontier.unique == s.frontier.unique + 1 ==>
            p.sn !in SenderRules.AckLines(outstanding, Lines(o.ack.value)))
  {
    ParseFormat(p);
    var o := Processed(s, c, Format(p), now);
    var e := o.stats.frontier.expected;
    var line := IntToDecimal(e);
    var f := Recorded(s, p.sn, p.window, p.retransmissions, now).frontier;
    AdvanceAcksPacket(f, p.sn);
    DecimalHasNoSeparator(e);
    AckLineFraming(line);
    PyIntDecimal(e);
    assert SenderRules.AckValues([line]) == {e} by {
      assert [line][..0] == [];
    }
    SenderRules.AckLinesExactly(outstanding, [line], p.sn);
  }

  /** A decimal ack followed by a newline frames as exactly that one line. */
  lemma {:induction false} AckLineFraming(line: string)
    requires '\n' !in line
    ensures Lines(line + "\n") == [line]
  {
    assert line + "\n" == line + ['\n'] + [];
    SplitFirstField(line, '\n', []);
  }

  /** The mutable `NetworkStatistics` of one server. */
  class NetworkStatistics {
    const cadence: Cadence
    var total: nat
    var expected: int
    var unique: nat
    var missing: nat
    var retransmissions: map<int, int>
    var times: seq<int>
    var windows: seq<int>
    var seqs: seq<int>
    var dropped: seq<(int, int)>
    var goodput: seq<(int, Ratio)>

    function Snap(): Stats
      reads this
    {
      Stats(total, Frontier(expected, unique, missing), retransmissions, times, windows, seqs, dropped, goodput)
    }

    constructor (c: Cadence)
      ensures cadence == c && Snap() == Initial()
    {
      cadence := c;
      total, expected, unique, missing := 0, 0, 0, 0;
      retransmissions := map[];
      times, windows, seqs, dropped, goodput := [], [], [], [], [];
    }

    /** `record_packet`. */
    method RecordPacket(sn: int, window: int, rtx: int, now: int)
      modifies this
      ensures Snap() == Recorded(old(Snap()), sn, window, rtx, now)
    {
      total := total + 1;
      times := times + [now];
      windows := windows + [window];
      seqs := seqs + [sn];
      if 0 < rtx <= TrackedRetransmissions {
        retransmissions := retransmissions[rtx := Bucket(retransmissions, rtx) + 1];
      }
    }

    /** `update_sequence_tracking`, with the loop over `range(expected_seq, seq)`. */
    method UpdateSequenceTracking(sn: int, now: int)
      modifies this
      ensures Snap() == Tracked(old(Snap()), sn, now)
    {
      if sn == expected {
        unique := unique + 1;
        expected := (expected + 1) % Modulus;
      } else {
        var distance := (sn - expected) % Modulus;
        if 0 < distance < Half {
          var log := dropped;
          var m := expected;
          while m < sn
            invariant expected <= m && (m <= sn || m == expected)
            invariant log == dropped + DroppedRange(expected, m, now)
            decreases sn - m
          {
            log := log + [(now, m % Modulus)];
            m := m + 1;
          }
          dropped := log;
          missing := missing + distance;
          unique := unique + 1;
          expected := (sn + 1) % Modulus;
        }
      }
    }

    /** `record_goodput`. */
    method RecordGoodput(now: int)
      modifies this
      ensures Snap() == Sampled(old(Snap()), cadence, now)
    {
      var due := match cadence
        case EveryThousandUnique => unique % GoodputInterval == 0
        case EveryThousandTotal => total > 0 && total % GoodputInterval == 0;
      if due {
        goodput := goodput + [(now, Goodput(Snap()))];
      }
    }
  }

  /**
   * A stream server: its statistics, the receive buffer, and the acks it has
   * written to the socket. `timeoutContinues` is set for grok's server.
   */
  class StreamServer {
    const stats: NetworkStatistics
    const timeoutContinues: bool
    var buffer: string
    var sent: seq<string>

    constructor (c: Cadence, timeoutContinues: bool)
      ensures fresh(stats) && stats.cadence == c && stats.Snap() == Initial()
      ensures this.timeoutContinues == timeoutContinues && buffer == [] && sent == []
    {
      stats := new NetworkStatistics(c);
      this.timeoutContinues := timeoutContinues;
      buffer, sent := [], [];
    }

    /** `process_packet`: returns whether the line was a well-formed packet. */
    method ProcessPacket(line: string, now: int) returns (ok: bool)
      modifies stats, this`sent
      ensures var o := Processed(old(stats.Snap()), stats.cadence, line, now);
        stats.Snap() == o.stats && sent == old(sent) + AckList(o.ack) && (ok <==> o.ack.Some?)
    {
      var parsed := Parse(line);
      if parsed.None? {
        return false;
      }
      var p := parsed.value;
      stats.RecordPacket(p.sn, p.window, p.retransmissions, now);
      stats.UpdateSequenceTracking(p.sn, now);
      stats.RecordGoodput(now);
      sent := sent + [IntToDecimal(stats.expected) + "\n"];
      ok := true;
    }

    /** One complete line in `run`: stripped, and processed unless blank. */
    method ProcessLine(line: string, now: int)
      modifies stats, this`sent
      ensures var o := HandleLine(old(stats.Snap()), stats.cadence, line, now);
        stats.Snap() == o.stats && sent == old(sent) + AckList(o.ack)
    {
      ghost var s0, sent0 := stats.Snap(), sent;
      var packet := Strip(line);
      if packet != [] {
        ghost var o := Processed(s0, stats.cadence, packet, now);
        assert HandleLine(s0, stats.cadence, line, now) == o;
        var _ := ProcessPacket(packet, now);
        assert sent == sent0 + AckList(o.ack);
      } else {
        assert HandleLine(s0, stats.cadence, line, now) == Outcome(s0, None);
        assert sent == sent0 + [];
      }
    }

    /**
     * One pass of the framing loop: take the first complete line off the
     * buffer and handle it. `done` are the lines handled so far this
     * receive, out of the lines of `whole`.
     */
    method TakeLine(now: int, ghost s0: Stats, ghost sent0: seq<string>, ghost whole: string, ghost done: seq<string>)
      returns (ghost done': seq<string>)
      requires '\n' in buffer
      requires Lines(whole) == done + Lines(buffer) && Rest(whole) == Rest(buffer)
      requires var sv := ProcessLines(s0, stats.cadence, done, now);
        stats.Snap() == sv.stats && sent == sent0 + sv.acks
      modifies stats, this`buffer, this`sent
      ensures Lines(whole) == done' + Lines(buffer) && Rest(whole) == Rest(buffer)
      ensures var sv := ProcessLines(s0, stats.cadence, done', now);
        stats.Snap() == sv.stats && sent == sent0 + sv.acks
      ensures |buffer| < old(|buffer|)
    {
      var i := IndexOf(buffer, '\n');
      TakeFirstLineOf(whole, done, buffer);
      var line := buffer[..i];
      buffer := buffer[i + 1..];
      ProcessLinesSnoc(s0, stats.cadence, done, line, now);
      done' := done + [line];
      ghost var sv := ProcessLines(s0, stats.cadence, done, now);
      ghost var o := HandleLine(sv.stats, stats.cadence, line, now);
      ProcessLine(line, now);
      AppendAssoc(sent0, sv.acks, AckList(o.ack));
    }

    /** One received chunk: append it and handle every complete line, keeping the fragment. */
    method Receive(chunk: string, now: int)
      modifies stats, this`buffer, this`sent
      ensures var r := AfterReceive(old(stats.Snap()), stats.cadence, old(buffer), chunk, now);
        stats.Snap() == r.stats && buffer == r.buffer && sent == old(sent) + r.acks
      ensures '\n' !in buffer
    {
      ghost var s0, sent0 := stats.Snap(), sent;
      buffer := buffer + chunk;
      ghost var whole := buffer;
      ghost var done: seq<string> := [];
      while '\n' in buffer
        invariant Lines(whole) == done + Lines(buffer) && Rest(whole) == Rest(buffer)
        invariant var sv := ProcessLines(s0, stats.cadence, done, now);
          stats.Snap() == sv.stats && sent == sent0 + sv.acks
        decreases |buffer|
      {
        done := TakeLine(now, s0, sent0, whole, done);
      }
      NoNewline(buffer);
      assert done == Lines(whole);
    }

    /** The `run` loop over successive receives. */
    method Serve(events: seq<Recv>)
      modifies stats, this`buffer, this`sent
      ensures var r := AfterServe(old(stats.Snap()), stats.cadence, timeoutContinues, old(buffer), events);
        stats.Snap() == r.stats && buffer == r.buffer && sent == old(sent) + r.acks
    {
      var k := 0;
      ghost var acks: seq<string> := [];
      while k < |events|
        invariant 0 <= k <= |events|
        invariant sent == old(sent) + acks
        invariant var whole := AfterServe(old(stats.Snap()), stats.cadence, timeoutContinues, old(buffer), events);
          var rest := AfterServe(stats.Snap(), stats.cadence, timeoutContinues, buffer, events[k..]);
          whole == Received(rest.stats, rest.buffer, acks + rest.acks)
        decreases |events| - k
      {
        assert events[k..][1..] == events[k + 1..];
        ghost var s0, b0, c := stats.Snap(), buffer, stats.cadence;
        match events[k] {
          case Closed =>
            return;
          case TimedOut =>
            if !timeoutContinues {
              return;
            }
          case Data(chunk, now) =>
            ghost var before := sent;
            Receive(chunk, now);
            ghost var r := AfterReceive(s0, c, b0, chunk, now);
            ServeData(s0, c, timeoutContinues, b0, events[k..], acks);
            assert sent[|before|..] == r.acks;
            AppendAssoc(old(sent), acks, r.acks);
            acks := acks + r.acks;
        }
        k := k + 1;
      }
    }
  }
}
