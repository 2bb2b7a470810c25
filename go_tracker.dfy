/**
 * The gap tracker of cmd/server/server1.go. `recordPacket` compares each
 * sequence number with the last in-order one, reads the difference as a
 * signed gap in [-32768, 32768] (lifting it by 65536 and counting a wrap
 * when it is below -32768, lowering it when it is above 32768), counts
 * `gap - 1` missing packets when the gap is positive, and otherwise keeps
 * the last sequence number. `goodput` is received over received plus
 * missing. A connection echoes every non-empty line, feeding each
 * comma-separated integer to the tracker, until 50000 packets are counted.
 *
 * The counters are Go `int64`; they are unbounded here. The report timing
 * and printing are not modelled.
 */
module GoTracker {
  import opened Common
  import opened SeqSpace
  import opened Text

  const MaxSequenceNumber: int := 65536
  const ReportInterval: nat := 1000
  const TargetPackets: nat := 50000
  /** `lastSeq` before the first packet. */
  const NoPacket: int := -1

  datatype Tracker = Tracker(lastSeq: int, wrapCount: nat, receivedCount: nat, missingCount: nat, lastGap: int)

  /** `newSimpleTracker`. */
  function NewTracker(): Tracker
  {
    Tracker(NoPacket, 0, 0, 0, 0)
  }

  /** The signed gap from `last` to `sn` after the wrap-around adjustment, and whether it was lifted. */
  datatype Gap = Gap(gap: int, wrapped: bool)

  function Normalised(last: int, sn: int): Gap
  {
    var raw := sn - last;
    if raw < -(MaxSequenceNumber / 2) then Gap(raw + MaxSequenceNumber, true)
    else if raw > MaxSequenceNumber / 2 then Gap(raw - MaxSequenceNumber, false)
    else Gap(raw, false)
  }

  /** `recordPacket(seq)`. */
  function Record(t: Tracker, sn: int): Tracker
  {
    if t.lastSeq == NoPacket then t.(lastSeq := sn, receivedCount := t.receivedCount + 1)
    else
      var g := Normalised(t.lastSeq, sn);
      var wraps := if g.wrapped then t.wrapCount + 1 else t.wrapCount;
      if g.gap > 0 then
        t.(lastSeq := sn, wrapCount := wraps, receivedCount := t.receivedCount + 1,
           missingCount := t.missingCount + (g.gap - 1), lastGap := g.gap)
      else t.(wrapCount := wraps, receivedCount := t.receivedCount + 1, lastGap := g.gap)
  }

  /**
   * Between two sequence numbers of the 16-bit space, the adjusted gap lies
   * in [-32768, 32768] and agrees with the true difference modulo 65536;
   * it is positive and below 32768 exactly when `sn` comes after `last` in
   * circular order.
   */
  lemma {:induction false} NormalisedGap(last: int, sn: int)
    requires InRange(last) && InRange(sn)
    ensures var g := Normalised(last, sn);
      && -Half <= g.gap <= Half
      && Wrap(g.gap) == Distance(last, sn)
      && (0 < g.gap < Half <==> Before(last, sn))
      && (g.wrapped <==> sn - last < -Half)
  {
    var g := Normalised(last, sn);
    var raw := sn - last;
    if raw < -Half {
      ModUnique(raw, -1, raw + Modulus);
      ModUnique(g.gap, 0, g.gap);
    } else if raw > Half {
      ModUnique(raw, 0, raw);
      ModUnique(g.gap, -1, raw);
    } else if raw >= 0 {
      ModUnique(raw, 0, raw);
    } else {
      ModUnique(raw, -1, raw + Modulus);
    }
  }

  /**
   * Each call counts exactly one packet, never lowers the missing count
   * and adds a wrap at most once; after the first packet, `lastSeq` moves
   * to `sn` exactly when the adjusted gap is positive, and then `gap - 1`
   * packets are counted as missing.
   */
  lemma {:induction false} RecordEffect(t: Tracker, sn: int)
    ensures var r := Record(t, sn);
      && r.receivedCount == t.receivedCount + 1
      && r.missingCount >= t.missingCount
      && (r.wrapCount == t.wrapCount || r.wrapCount == t.wrapCount + 1)
      && (t.lastSeq == NoPacket ==> r == t.(lastSeq := sn, receivedCount := t.receivedCount + 1))
      && (t.lastSeq != NoPacket ==>
            var g := Normalised(t.lastSeq, sn);
            && (g.gap > 0 ==> r.lastSeq == sn && r.missingCount == t.missingCount + g.gap - 1)
            && (g.gap <= 0 ==> r.lastSeq == t.lastSeq && r.missingCount == t.missingCount)
            && (r.wrapCount == t.wrapCount + 1 <==> g.wrapped))
  {
  }

  /**
   * A packet that follows the last one in order, including the step from
   * 65535 to 0, counts nothing as missing; the step across 0 counts a wrap.
   */
  lemma {:induction false} InOrderNoLoss(t: Tracker)
    requires InRange(t.lastSeq)
    ensures var r := Record(t, Next(t.lastSeq));
      && r.missingCount == t.missingCount && r.lastSeq == Next(t.lastSeq)
      && (r.wrapCount == t.wrapCount + 1 <==> t.lastSeq == Modulus - 1)
  {
    if t.lastSeq == Modulus - 1 {
      assert Next(t.lastSeq) == 0;
    } else {
      assert Next(t.lastSeq) == t.lastSeq + 1;
    }
  }

  /** `goodput`: 0 when nothing was counted, else received over received plus missing. */
  function Goodput(t: Tracker): (r: Ratio)
    ensures InUnitInterval(r)
    ensures t.receivedCount + t.missingCount == 0 ==> r.num == 0
    ensures t.receivedCount + t.missingCount > 0 ==>
      r.den == t.receivedCount + t.missingCount && r.num == t.receivedCount
  {
    var total := t.receivedCount + t.missingCount;
    if total <= 0 then Ratio(0, 1) else Ratio(t.receivedCount, total)
  }

  /** `strconv.Atoi(strings.TrimSpace(p))`. */
  function Atoi(p: string): Option<int>
  {
    ParseInt(Strip(p))
  }

  /** The tracker and the count since the last report. */
  datatype Progress = Progress(tracker: Tracker, sinceReport: nat)

  /** One comma-separated token of a line: non-integers are skipped. */
  function TokenStep(p: Progress, token: string): Progress
  {
    match Atoi(token)
      case None => p
      case Some(sn) =>
        var since := p.sinceReport + 1;
        Progress(Record(p.tracker, sn), if since >= ReportInterval then 0 else since)
  }

  /** The token loop over the parts of a line. */
  function Tokens(p: Progress, parts: seq<string>): Progress
    decreases |parts|
  {
    if parts == [] then p else TokenStep(Tokens(p, parts[..|parts| - 1]), parts[|parts| - 1])
  }

  /** The number of parts that are integers. */
  function Parsable(parts: seq<string>): nat
    decreases |parts|
  {
    if parts == [] then 0 else Parsable(parts[..|parts| - 1]) + if Atoi(parts[|parts| - 1]).Some? then 1 else 0
  }

  /**
   * A line counts exactly its integer tokens as received, never lowers the
   * missing count, and keeps the report counter below 1000.
   */
  lemma {:induction false} TokensCount(p: Progress, parts: seq<string>)
    requires p.sinceReport < ReportInterval
    ensures var q := Tokens(p, parts);
      && q.tracker.receivedCount == p.tracker.receivedCount + Parsable(parts)
      && q.tracker.missingCount >= p.tracker.missingCount
      && q.sinceReport < ReportInterval
    decreases |parts|
  {
    if parts != [] {
      TokensCount(p, parts[..|parts| - 1]);
      var q := Tokens(p, parts[..|parts| - 1]);
      match Atoi(parts[|parts| - 1]) {
        case None =>
        case Some(sn) => RecordEffect(q.tracker, sn);
      }
    }
  }

  datatype Served = Served(progress: Progress, replies: seq<string>)

  /**
   * The line loop after the handshake: stop once 50000 packets are
   * counted, skip empty lines, and echo every other line after feeding its
   * tokens to the tracker.
   */
  function Serve(p: Progress, lines: seq<string>): Served
    decreases |lines|
  {
    if lines == [] || p.tracker.receivedCount >= TargetPackets then Served(p, [])
    else if lines[0] == "" then Serve(p, lines[1..])
    else
      var rest := Serve(Tokens(p, Split(lines[0], ',')), lines[1..]);
      Served(rest.progress, [lines[0] + "\n"] + rest.replies)
  }

  /** `handleConnection`: any first line is answered with `success`, then the line loop runs on a new tracker. */
  function Connection(lines: seq<string>): Served
  {
    if lines == [] then Served(Progress(NewTracker(), 0), [])
    else
      var s := Serve(Progress(NewTracker(), 0), lines[1..]);
      Served(s.progress, ["success\n"] + s.replies)
  }

  /**
   * Every reply after the handshake echoes one non-empty input line, in
   * order; once the target is reached no line is answered.
   */
  lemma {:induction false} ServeEchoes(p: Progress, lines: seq<string>)
    ensures var s := Serve(p, lines);
      && |s.replies| <= |lines|
      && (forall r :: r in s.replies ==> exists i :: 0 <= i < |lines| && lines[i] != "" && r == lines[i] + "\n")
      && (p.tracker.receivedCount >= TargetPackets ==> s == Served(p, []))
      && s.progress.tracker.receivedCount >= p.tracker.receivedCount
    decreases |lines|
  {
    if lines != [] && p.tracker.receivedCount < TargetPackets {
      var next := if lines[0] == "" then p else Tokens(p, Split(lines[0], ','));
      TokensMonotone(p, Split(lines[0], ','));
      ServeEchoes(next, lines[1..]);
      var s := Serve(p, lines);
      forall r | r in s.replies
        ensures exists i :: 0 <= i < |lines| && lines[i] != "" && r == lines[i] + "\n"
      {
        if lines[0] != "" && r == lines[0] + "\n" {
        } else {
          var j :| 0 <= j < |lines[1..]| && lines[1..][j] != "" && r == lines[1..][j] + "\n";
          assert lines[j + 1] == lines[1..][j];
        }
      }
    }
  }

  lemma {:induction false} TokensMonotone(p: Progress, parts: seq<string>)
    ensures Tokens(p, parts).tracker.receivedCount >= p.tracker.receivedCount
    decreases |parts|
  {
    if parts != [] {
      TokensMonotone(p, parts[..|parts| - 1]);
    }
  }

  /** The `SimpleTracker` object. */
  class SimpleTracker {
    var lastSeq: int
    var wrapCount: nat
    var receivedCount: nat
    var missingCount: nat
    var lastGap: int

    function Snap(): Tracker
      reads this
    {
      Tracker(lastSeq, wrapCount, receivedCount, missingCount, lastGap)
    }

    constructor ()
      ensures Snap() == NewTracker()
    {
      lastSeq, wrapCount, receivedCount, missingCount, lastGap := NoPacket, 0, 0, 0, 0;
    }

    method RecordPacket(sn: int)
      modifies this
      ensures Snap() == Record(old(Snap()), sn)
    {
      if lastSeq == NoPacket {
        lastSeq := sn;
        receivedCount := receivedCount + 1;
        return;
      }
      var gap := sn - lastSeq;
      if gap < -(MaxSequenceNumber / 2) {
        gap := gap + MaxSequenceNumber;
        wrapCount := wrapCount + 1;
      } else if gap > MaxSequenceNumber / 2 {
        gap := gap - MaxSequenceNumber;
      }
      if gap > 0 {
        missingCount := missingCount + (gap - 1);
        lastSeq := sn;
      }
      receivedCount := receivedCount + 1;
      lastGap := gap;
    }
  }

  /** The token loop of `handleConnection` over one line; returns the new report counter. */
  method HandleLine(tracker: SimpleTracker, since: nat, line: string) returns (since': nat)
    modifies tracker
    ensures Progress(tracker.Snap(), since') == Tokens(Progress(old(tracker.Snap()), since), Split(line, ','))
  {
    var parts := Split(line, ',');
    since' := since;
    var i := 0;
    while i < |parts|
      invariant i <= |parts|
      invariant Progress(tracker.Snap(), since') == Tokens(Progress(old(tracker.Snap()), since), parts[..i])
    {
      assert parts[..i + 1][..i] == parts[..i];
      var parsed := Atoi(parts[i]);
      if parsed.Some? {
        tracker.RecordPacket(parsed.value);
        since' := since' + 1;
        if since' >= ReportInterval {
          since' := 0;
        }
      }
      i := i + 1;
    }
    assert parts[..i] == parts;
  }

  /** `handleConnection` over the lines the scanner yields; returns the tracker and the replies. */
  method HandleConnection(lines: seq<string>) returns (tracker: SimpleTracker, since: nat, replies: seq<string>)
    ensures fresh(tracker)
    ensures Served(Progress(tracker.Snap(), since), replies) == Connection(lines)
  {
    tracker := new SimpleTracker();
    since := 0;
    if lines == [] {
      return tracker, 0, [];
    }
    replies := ["success\n"];
    var i := 1;
    while i < |lines|
      invariant 1 <= i <= |lines|
      invariant var s := Serve(Progress(tracker.Snap(), since), lines[i..]);
        Connection(lines) == Served(s.progress, replies + s.replies)
    {
      ghost var p := Progress(tracker.Snap(), since);
      if tracker.receivedCount >= TargetPackets {
        assert Serve(p, lines[i..]) == Served(p, []);
        break;
      }
      ServeStep(p, lines[i..]);
      assert lines[i..][1..] == lines[i + 1..];
      var line := lines[i];
      if line != "" {
        since := HandleLine(tracker, since, line);
        replies := replies + [line + "\n"];
      }
      i := i + 1;
    }
  }

  /** One step of the line loop, unfolded. */
  lemma {:induction false} ServeStep(p: Progress, lines: seq<string>)
    requires lines != [] && p.tracker.receivedCount < TargetPackets
    ensures lines[0] == "" ==> Serve(p, lines) == Serve(p, lines[1..])
    ensures lines[0] != "" ==>
      var rest := Serve(Tokens(p, Split(lines[0], ',')), lines[1..]);
      Serve(p, lines) == Served(rest.progress, [lines[0] + "\n"] + rest.replies)
  {
  }
}
