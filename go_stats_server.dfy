/**
 * The statistics server of cmd/server/new_server.go. One `ServerStats`
 * record is shared by every connection. `handleSequence` counts each
 * sequence number as received and, after the first one, counts the
 * numbers skipped since the previous one (`seq - last - 1` when positive)
 * as missing, with no wrap-around adjustment. A connection echoes every
 * non-empty line after feeding its comma-separated integers to the
 * statistics, and ends after the line `FINISH` or once 1000000 packets
 * are counted.
 *
 * The lock that serialises `handleSequence` and the report printing and
 * timing are not modelled; the counters are unbounded.
 */
module GoStatsServer {
  import opened Common
  import opened SeqSpace
  import opened Text

  const ReportInterval: nat := 1000
  const TargetPackets: nat := 1000000
  const NoSequence: int := -1
  const FinishLine: string := "FINISH"

  datatype Stats = Stats(receivedPackets: nat, missingPackets: nat, lastSequence: int, packetsInInterval: nat)

  /** `NewServerStats`. */
  function NewStats(): Stats
  {
    Stats(0, 0, NoSequence, 0)
  }

  /** The packets counted as missing when `sn` follows `last`. */
  function Skipped(last: int, sn: int): nat
  {
    if last == NoSequence || sn - last - 1 <= 0 then 0 else sn - last - 1
  }

  /** `handleSequence(seq)`. */
  function Handled(s: Stats, sn: int): Stats
  {
    var interval := s.packetsInInterval + 1;
    Stats(s.receivedPackets + 1, s.missingPackets + Skipped(s.lastSequence, sn), sn,
          if interval >= ReportInterval then 0 else interval)
  }

  /**
   * Each call counts one packet, adds the numbers strictly between the
   * previous sequence number and `sn` as missing (none for the first
   * packet, and none when `sn` is not above the previous one), moves
   * `lastSequence` to `sn` unconditionally and keeps the interval counter
   * below 1000, resetting it when it reaches 1000.
   */
  lemma {:induction false} HandleSequenceEffect(s: Stats, sn: int)
    requires s.packetsInInterval < ReportInterval
    ensures var r := Handled(s, sn);
      && r.receivedPackets == s.receivedPackets + 1
      && r.lastSequence == sn
      && r.packetsInInterval < ReportInterval
      && (r.packetsInInterval == 0 <==> s.packetsInInterval == ReportInterval - 1)
      && (s.lastSequence == NoSequence || sn <= s.lastSequence + 1 ==> r.missingPackets == s.missingPackets)
      && (s.lastSequence != NoSequence && sn > s.lastSequence + 1 ==>
            r.missingPackets == s.missingPackets + (sn - s.lastSequence - 1))
  {
  }

  /**
   * Consecutive numbers count nothing missing, but so does a skip across
   * the wrap: after 65535, the number 1 hides the loss of 0.
   */
  lemma {:induction false} WrapHidesLoss(s: Stats)
    requires s.lastSequence == Modulus - 1
    ensures Handled(s, Next(s.lastSequence)).missingPackets == s.missingPackets
    ensures Handled(s, 1).missingPackets == s.missingPackets
    ensures Distance(s.lastSequence, 1) == 2
  {
    assert Next(s.lastSequence) == 0;
    ModUnique(1 - s.lastSequence, -1, 2);
  }

  /**
   * A run of increasing numbers starting from the first packet counts as
   * missing exactly the numbers it skips: the span from the first to the
   * last, less the ones received.
   */
  lemma {:induction false} IncreasingRunMissing(s: Stats, sns: seq<int>)
    requires s.lastSequence == NoSequence && sns != []
    requires forall i :: 0 <= i < |sns| ==> sns[i] >= 0
    requires forall i :: 0 < i < |sns| ==> sns[i - 1] < sns[i]
    ensures var r := Feed(s, sns);
      r.missingPackets == s.missingPackets + (sns[|sns| - 1] - sns[0] + 1) - |sns|
    decreases |sns|
  {
    var init := sns[..|sns| - 1];
    if |sns| == 1 {
      assert init == [];
    } else {
      assert forall i :: 0 < i < |init| ==> init[i - 1] < init[i] by {
        forall i | 0 < i < |init| ensures init[i - 1] < init[i] {
          assert init[i] == sns[i] && init[i - 1] == sns[i - 1];
        }
      }
      assert init[0] == sns[0] && init[|init| - 1] == sns[|sns| - 2];
      IncreasingRunMissing(s, init);
      FeedLast(s, init);
    }
  }

  /** `handleSequence` over a list of numbers. */
  function Feed(s: Stats, sns: seq<int>): Stats
    decreases |sns|
  {
    if sns == [] then s else Handled(Feed(s, sns[..|sns| - 1]), sns[|sns| - 1])
  }

  lemma {:induction false} FeedSnoc(s: Stats, sns: seq<int>, sn: int)
    ensures Feed(s, sns + [sn]) == Handled(Feed(s, sns), sn)
  {
    assert (sns + [sn])[..|sns|] == sns;
  }

  lemma {:induction false} FeedLast(s: Stats, sns: seq<int>)
    requires sns != []
    ensures Feed(s, sns).lastSequence == sns[|sns| - 1]
  {
  }

  /** `strconv.Atoi(strings.TrimSpace(p))`. */
  function Atoi(p: string): Option<int>
  {
    ParseInt(Strip(p))
  }

  /** The integer tokens of a line, in order. */
  function Numbers(parts: seq<string>): (r: seq<int>)
    ensures |r| <= |parts|
    decreases |parts|
  {
    if parts == [] then []
    else
      var last := Atoi(parts[|parts| - 1]);
      Numbers(parts[..|parts| - 1]) + if last.Some? then [last.value] else []
  }

  /** The token loop of `handleConnection` over one line. */
  function Tokens(s: Stats, line: string): Stats
  {
    Feed(s, Numbers(Split(line, ',')))
  }

  lemma {:induction false} FinishHasNoNumbers()
    ensures Numbers(Split(FinishLine, ',')) == []
  {
    SplitNoSep(FinishLine, ',');
    StripNoSpace(FinishLine);
    assert !IsDigit(FinishLine[0]);
    assert ParseInt(FinishLine) == None;
    NumbersStep([FinishLine], 0);
  }

  /** The integer tokens of one more part. */
  lemma {:induction false} NumbersStep(parts: seq<string>, i: nat)
    requires i < |parts|
    ensures Numbers(parts[..i + 1]) == Numbers(parts[..i]) + if Atoi(parts[i]).Some? then [Atoi(parts[i]).value] else []
  {
    assert parts[..i + 1][..i] == parts[..i];
  }

  datatype Served = Served(stats: Stats, replies: seq<string>)

  /**
   * The line loop of `handleConnection` after the handshake: skip empty
   * lines, feed the tokens, echo the line, then stop after `FINISH` or
   * when the target is reached.
   */
  function Serve(s: Stats, lines: seq<string>): Served
    decreases |lines|
  {
    if lines == [] then Served(s, [])
    else if lines[0] == "" then Serve(s, lines[1..])
    else
      var next := Tokens(s, lines[0]);
      if lines[0] == FinishLine || next.receivedPackets >= TargetPackets then Served(next, [lines[0] + "\n"])
      else
        var rest := Serve(next, lines[1..]);
        Served(rest.stats, [lines[0] + "\n"] + rest.replies)
  }

  /** `handleConnection`: any first line is answered with `success`, then the line loop runs on the shared statistics. */
  function Connection(s: Stats, lines: seq<string>): Served
  {
    if lines == [] then Served(s, [])
    else
      var r := Serve(s, lines[1..]);
      Served(r.stats, ["success\n"] + r.replies)
  }

  /**
   * `FINISH` ends the connection with its own echo and leaves the
   * statistics as they were.
   */
  lemma {:induction false} FinishEnds(s: Stats, lines: seq<string>)
    requires lines != [] && lines[0] == FinishLine
    ensures Serve(s, lines) == Served(s, [FinishLine + "\n"])
  {
    FinishHasNoNumbers();
  }

  /**
   * Every reply echoes one non-empty input line, there are no more
   * replies than lines, and the received count never goes down.
   */
  lemma {:induction false} ServeEchoes(s: Stats, lines: seq<string>)
    ensures var r := Serve(s, lines);
      && |r.replies| <= |lines|
      && (forall x :: x in r.replies ==> exists i :: 0 <= i < |lines| && lines[i] != "" && x == lines[i] + "\n")
      && r.stats.receivedPackets >= s.receivedPackets
    decreases |lines|
  {
    if lines != [] {
      var next := if lines[0] == "" then s else Tokens(s, lines[0]);
      FeedCounts(s, Numbers(Split(lines[0], ',')));
      ServeEchoes(next, lines[1..]);
      var r := Serve(s, lines);
      forall x | x in r.replies
        ensures exists i :: 0 <= i < |lines| && lines[i] != "" && x == lines[i] + "\n"
      {
        if lines[0] != "" && x == lines[0] + "\n" {
        } else {
          var j :| 0 <= j < |lines[1..]| && lines[1..][j] != "" && x == lines[1..][j] + "\n";
          assert lines[j + 1] == lines[1..][j];
        }
      }
    }
  }

  /** Feeding numbers counts each of them once and never lowers the missing count. */
  lemma {:induction false} FeedCounts(s: Stats, sns: seq<int>)
    ensures Feed(s, sns).receivedPackets == s.receivedPackets + |sns|
    ensures Feed(s, sns).missingPackets >= s.missingPackets
    decreases |sns|
  {
    if sns != [] {
      FeedCounts(s, sns[..|sns| - 1]);
    }
  }

  /** The shared `ServerStats`. */
  class ServerStats {
    var receivedPackets: nat
    var missingPackets: nat
    var lastSequence: int
    var packetsInInterval: nat

    function Snap(): Stats
      reads this
    {
      Stats(receivedPackets, missingPackets, lastSequence, packetsInInterval)
    }

    constructor ()
      ensures Snap() == NewStats()
    {
      receivedPackets, missingPackets, lastSequence, packetsInInterval := 0, 0, NoSequence, 0;
    }

    method HandleSequence(sn: int)
      modifies this
      ensures Snap() == Handled(old(Snap()), sn)
    {
      receivedPackets := receivedPackets + 1;
      packetsInInterval := packetsInInterval + 1;
      if lastSequence != NoSequence {
        var gap := sn - lastSequence - 1;
        if gap > 0 {
          missingPackets := missingPackets + gap;
        }
      }
      lastSequence := sn;
      if packetsInInterval >= ReportInterval {
        packetsInInterval := 0;
      }
    }
  }

  /** The token loop of `handleConnection` over one line. */
  method HandleLine(stats: ServerStats, line: string)
    modifies stats
    ensures stats.Snap() == Tokens(old(stats.Snap()), line)
  {
    var parts := Split(line, ',');
    ghost var start := stats.Snap();
    ghost var fed: seq<int> := [];
    var i := 0;
    while i < |parts|
      invariant i <= |parts|
      invariant fed == Numbers(parts[..i])
      invariant stats.Snap() == Feed(start, fed)
    {
      var parsed := Atoi(parts[i]);
      NumbersStep(parts, i);
      if parsed.Some? {
        ghost var mid := stats.Snap();
        stats.HandleSequence(parsed.value);
        assert stats.Snap() == Handled(mid, parsed.value);
        FeedSnoc(start, fed, parsed.value);
        fed := fed + [parsed.value];
      }
      i := i + 1;
    }
    assert parts[..i] == parts;
    assert fed == Numbers(parts);
  }

  /** `handleConnection` over the lines the scanner yields, on the shared statistics. */
  method HandleConnection(stats: ServerStats, lines: seq<string>) returns (replies: seq<string>)
    modifies stats
    ensures Served(stats.Snap(), replies) == Connection(old(stats.Snap()), lines)
  {
    if lines == [] {
      return [];
    }
    ghost var goal := Connection(stats.Snap(), lines);
    replies := ["success\n"];
    var i := 1;
    while i < |lines|
      invariant 1 <= i <= |lines|
      invariant var r := Serve(stats.Snap(), lines[i..]); goal == Served(r.stats, replies + r.replies)
    {
      ghost var s := stats.Snap();
      ServeStep(s, lines[i..]);
      assert lines[i..][1..] == lines[i + 1..];
      var line := lines[i];
      if line != "" {
        HandleLine(stats, line);
        AppendAssoc(replies, [line + "\n"], Serve(stats.Snap(), lines[i + 1..]).replies);
        replies := replies + [line + "\n"];
        if line == FinishLine || stats.receivedPackets >= TargetPackets {
          return;
        }
      }
      i := i + 1;
    }
  }

  /** One step of the line loop, unfolded. */
  lemma {:induction false} ServeStep(s: Stats, lines: seq<string>)
    requires lines != []
    ensures lines[0] == "" ==> Serve(s, lines) == Serve(s, lines[1..])
    ensures lines[0] != "" ==>
      var next := Tokens(s, lines[0]);
      && (lines[0] == FinishLine || next.receivedPackets >= TargetPackets ==> Serve(s, lines) == Served(next, [lines[0] + "\n"]))
      && (lines[0] != FinishLine && next.receivedPackets < TargetPackets ==>
            Serve(s, lines) == Served(Serve(next, lines[1..]).stats, [lines[0] + "\n"] + Serve(next, lines[1..]).replies))
  {
  }
}
