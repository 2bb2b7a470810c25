/**
 * The token-window client of workspace/client_claude.py. Each window
 * carries up to four tokens, one per sequence number: the number itself,
 * or `dropped` when the loss simulation fires, in which case the number is
 * remembered in `dropped_packets`. Every thousand packets, and then until
 * nothing is left, up to four remembered numbers are retransmitted in a
 * `RETRANSMIT` message; those dropped again go back to the end of the
 * list. A dictionary counts the retransmissions of each number, and the
 * final report folds it into a histogram of four buckets.
 *
 * The loss simulation is a parameter (one outcome per token), as is the
 * text of the server's reply; the socket output is returned as text.
 * Alongside the client, `WindowMatchesServer` and `RetransmitMatchesServer`
 * relate what it sends to what the server of workspace/server_claude.py
 * records.
 */
module TokenClient {
  import opened Common
  import opened SeqSpace
  import opened Text
  import TokenServer

  const WindowSize: nat := 4
  const TotalPackets: nat := 10000000
  const RetransmitEvery: nat := 1000
  /** The histogram has buckets 1..4; larger counts fold into the last one. */
  const Buckets: nat := 4

  datatype Client = Client(
    seqNum: int,
    wrap: nat,
    totalSent: nat,
    totalAcked: int,
    dropped: seq<int>,
    recvAck: int,
    counts: map<int, int>)

  function Initial(): Client
  {
    Client(0, 0, 0, 0, [], 0, map[])
  }

  /** The token for one sequence number. */
  function Token(sn: int, drop: bool): string
  {
    if drop then TokenServer.Dropped else IntToDecimal(sn)
  }

  /**
   * One iteration of the window loop: the token for `seq_num`, the dropped
   * number remembered, `seq_num` advanced modulo 65536 with a wrap counted
   * when it comes back to 0, and one more packet sent.
   */
  function SendStep(c: Client, drop: bool): Client
  {
    var next := Next(c.seqNum);
    c.(seqNum := next,
       wrap := if next == 0 then c.wrap + 1 else c.wrap,
       totalSent := c.totalSent + 1,
       dropped := if drop then c.dropped + [c.seqNum] else c.dropped)
  }

  /** The client after the window loop over the drop outcomes, which stops once `TOTAL_PACKETS` have been sent. */
  function WindowedClient(c: Client, drops: seq<bool>): Client
    decreases |drops|
  {
    if drops == [] then c
    else
      var w := WindowedClient(c, drops[..|drops| - 1]);
      if w.totalSent >= TotalPackets then w else SendStep(w, drops[|drops| - 1])
  }

  /** The tokens the window loop sends, in order. */
  function SentTokens(c: Client, drops: seq<bool>): seq<string>
    decreases |drops|
  {
    if drops == [] then []
    else
      var w := WindowedClient(c, drops[..|drops| - 1]);
      if w.totalSent >= TotalPackets then SentTokens(c, drops[..|drops| - 1])
      else SentTokens(c, drops[..|drops| - 1]) + [Token(w.seqNum, drops[|drops| - 1])]
  }

  /** The tokens of a window over consecutive sequence numbers from `start`. */
  function WindowOf(start: int, drops: seq<bool>): seq<string>
    decreases |drops|
  {
    if drops == [] then []
    else WindowOf(start, drops[..|drops| - 1]) + [Token(Wrap(start + |drops| - 1), drops[|drops| - 1])]
  }

  /** The sequence numbers a window over `start` drops, in order. */
  function DroppedOf(start: int, drops: seq<bool>): seq<int>
    decreases |drops|
  {
    if drops == [] then []
    else if drops[|drops| - 1] then DroppedOf(start, drops[..|drops| - 1]) + [Wrap(start + |drops| - 1)]
    else DroppedOf(start, drops[..|drops| - 1])
  }

  /** Below `TOTAL_PACKETS`, every outcome sends a packet and moves the sequence number on. */
  lemma {:induction false} WindowedCounter(c: Client, drops: seq<bool>)
    requires InRange(c.seqNum)
    requires c.totalSent + |drops| <= TotalPackets
    ensures var w := WindowedClient(c, drops);
      w.seqNum == Wrap(c.seqNum + |drops|) && w.totalSent == c.totalSent + |drops|
    decreases |drops|
  {
    if drops != [] {
      var init := drops[..|drops| - 1];
      WindowedCounter(c, init);
      WrapAdd(c.seqNum + |init|, 1);
    } else {
      ModUnique(c.seqNum, 0, c.seqNum);
    }
  }

  /** Below `TOTAL_PACKETS`, the tokens are those of the window's outcomes. */
  lemma {:induction false} WindowedTokenList(c: Client, drops: seq<bool>)
    requires InRange(c.seqNum)
    requires c.totalSent + |drops| <= TotalPackets
    ensures SentTokens(c, drops) == WindowOf(c.seqNum, drops)
    decreases |drops|
  {
    if drops != [] {
      var n := |drops| - 1;
      WindowedTokenList(c, drops[..n]);
      WindowedCounter(c, drops[..n]);
    }
  }

  /** Below `TOTAL_PACKETS`, the numbers remembered are those the window's outcomes drop. */
  lemma {:induction false} WindowedDropped(c: Client, drops: seq<bool>)
    requires InRange(c.seqNum)
    requires c.totalSent + |drops| <= TotalPackets
    ensures WindowedClient(c, drops).dropped == c.dropped + DroppedOf(c.seqNum, drops)
    decreases |drops|
  {
    if drops != [] {
      var n := |drops| - 1;
      var init := drops[..n];
      WindowedDropped(c, init);
      WindowedCounter(c, init);
      if drops[n] {
        AppendAssoc(c.dropped, DroppedOf(c.seqNum, init), [WindowedClient(c, init).seqNum]);
      }
    }
  }

  /**
   * A window that does not reach `TOTAL_PACKETS` sends one token per
   * outcome for consecutive sequence numbers: the number, or `dropped`
   * exactly where the outcome says so, and those dropped numbers are
   * appended to `dropped_packets`. The sequence number moves on by the
   * window's length modulo 65536.
   */
  lemma {:induction false} WindowedTokens(c: Client, drops: seq<bool>)
    requires InRange(c.seqNum)
    requires c.totalSent + |drops| <= TotalPackets
    ensures SentTokens(c, drops) == WindowOf(c.seqNum, drops)
    ensures var w := WindowedClient(c, drops);
      && w.dropped == c.dropped + DroppedOf(c.seqNum, drops)
      && w.seqNum == Wrap(c.seqNum + |drops|)
      && w.totalSent == c.totalSent + |drops|
  {
    WindowedCounter(c, drops);
    WindowedTokenList(c, drops);
    WindowedDropped(c, drops);
  }

  /**
   * A window carries at most `WINDOW_SIZE` tokens when given that many
   * outcomes, never sends past `TOTAL_PACKETS`, and counts a wrap exactly
   * for each time `seq_num` comes back to 0.
   */
  lemma {:induction false} WindowedBounds(c: Client, drops: seq<bool>)
    requires c.totalSent <= TotalPackets
    ensures var w := WindowedClient(c, drops);
      var toks := SentTokens(c, drops);
      && |toks| <= |drops|
      && w.totalSent == c.totalSent + |toks| <= TotalPackets
      && (w.wrap > c.wrap ==> |toks| > 0)
      && |w.dropped| - |c.dropped| <= |toks|
    decreases |drops|
  {
    if drops != [] {
      WindowedBounds(c, drops[..|drops| - 1]);
    }
  }

  /** Each step counts a wrap exactly when the new sequence number is 0. */
  lemma {:induction false} SendStepWrap(c: Client, drop: bool)
    ensures SendStep(c, drop).wrap == c.wrap + 1 <==> SendStep(c, drop).seqNum == 0
    ensures SendStep(c, drop).wrap == c.wrap || SendStep(c, drop).wrap == c.wrap + 1
  {
  }

  /** `self.window`: each token followed by a space. */
  function SpaceTerminated(toks: seq<string>): string
    decreases |toks|
  {
    if toks == [] then [] else SpaceTerminated(toks[..|toks| - 1]) + toks[|toks| - 1] + " "
  }

  /** A token is non-empty and free of whitespace. */
  predicate Solid(t: string)
  {
    t != [] && forall i :: 0 <= i < |t| ==> !IsSpace(t[i])
  }

  lemma {:induction false} TokenSolid(sn: int, drop: bool)
    ensures Solid(Token(sn, drop))
  {
    if !drop {
      DecimalHasNoSeparator(sn);
    }
  }

  lemma {:induction false} WindowOfSolid(start: int, drops: seq<bool>)
    ensures forall i :: 0 <= i < |WindowOf(start, drops)| ==> Solid(WindowOf(start, drops)[i])
    ensures |WindowOf(start, drops)| == |drops|
    decreases |drops|
  {
    if drops != [] {
      WindowOfSolid(start, drops[..|drops| - 1]);
      TokenSolid(Wrap(start + |drops| - 1), drops[|drops| - 1]);
    }
  }

  /** The space-terminated text is the tokens joined by spaces plus one trailing space. */
  lemma {:induction false} SpaceTerminatedJoin(toks: seq<string>)
    requires |toks| >= 1
    ensures SpaceTerminated(toks) == Join(toks, ' ') + " "
    decreases |toks|
  {
    if |toks| > 1 {
      var init := toks[..|toks| - 1];
      SpaceTerminatedJoin(init);
      JoinSnoc(init, toks[|toks| - 1], ' ');
      assert init + [toks[|toks| - 1]] == toks;
    }
  }

  lemma {:induction false} JoinSnoc(parts: seq<string>, last: string, sep: char)
    requires |parts| >= 1
    ensures Join(parts + [last], sep) == Join(parts, sep) + [sep] + last
    decreases |parts|
  {
    if |parts| == 1 {
      assert (parts + [last])[1..] == [last];
    } else {
      assert (parts + [last])[1..] == parts[1..] + [last];
      JoinSnoc(parts[1..], last, sep);
    }
  }

  lemma {:induction false} TrimRightSpace(x: string, c: char)
    requires IsSpace(c)
    ensures TrimRight(x + [c]) == TrimRight(x)
  {
    assert (x + [c])[..|x|] == x;
  }

  /** Joined solid tokens neither start nor end with whitespace, and contain no separator inside a token. */
  lemma {:induction false} JoinEnds(toks: seq<string>)
    requires |toks| >= 1 && forall i :: 0 <= i < |toks| ==> Solid(toks[i])
    ensures var j := Join(toks, ' ');
      j != [] && !IsSpace(j[0]) && !IsSpace(j[|j| - 1])
    decreases |toks|
  {
    if |toks| > 1 {
      JoinEnds(toks[1..]);
      var r := Join(toks[1..], ' ');
      assert Join(toks, ' ') == toks[0] + [' '] + r;
      assert Join(toks, ' ')[0] == toks[0][0];
    }
  }

  /** The server splits the client's window text back into exactly its tokens. */
  lemma {:induction false} ServerReadsTokens(toks: seq<string>)
    requires |toks| >= 1 && forall i :: 0 <= i < |toks| ==> Solid(toks[i])
    ensures TokenServer.Tokens(SpaceTerminated(toks)) == toks
  {
    SpaceTerminatedJoin(toks);
    var j := Join(toks, ' ');
    JoinEnds(toks);
    TrimRightSpace(j, ' ');
    assert TrimLeft(j + " ") == j + " ";
    StripNoSpace(j);
    assert Strip(j + " ") == j;
    assert forall i :: 0 <= i < |toks| ==> ' ' !in toks[i] by {
      forall i | 0 <= i < |toks|
        ensures ' ' !in toks[i]
      {
        assert Solid(toks[i]);
      }
    }
    SplitJoin(toks, ' ');
  }

  /**
   * The server side of a window that starts where the server expects
   * (`expected_seq` equal to the window's first sequence number): the
   * sequence numbers it appends to `missing_seq` are exactly those the
   * client dropped, and it ends expecting the number after the window.
   */
  lemma {:induction false} ScanMatchesDrops(s: TokenServer.State, drops: seq<bool>)
    requires InRange(s.expected)
    ensures var c := TokenServer.Scanned(s, WindowOf(s.expected, drops));
      c.ok && c.state.missing == s.missing + DroppedOf(s.expected, drops)
      && c.current == Wrap(s.expected + |drops|)
  {
    ScannedWindow(s, drops);
    ScanOutcomesFacts(TokenServer.Scan(s, s.expected, true), drops);
  }

  /** What the server does with a token that carries the outcome `drop` for the number it expects. */
  function ScanOutcome(c: TokenServer.Scan, drop: bool): TokenServer.Scan
  {
    if drop then
      TokenServer.Scan(c.state.(missing := c.state.missing + [c.current], totalMissing := c.state.totalMissing + 1), Next(c.current), true)
    else
      TokenServer.Scan(c.state.(lastAck := c.current, totalReceived := c.state.totalReceived + 1), Next(c.current), true)
  }

  /** The server's scan of a window, told by the client's outcomes rather than by the tokens. */
  function ScanOutcomes(c: TokenServer.Scan, drops: seq<bool>): TokenServer.Scan
    decreases |drops|
  {
    if drops == [] then c else ScanOutcome(ScanOutcomes(c, drops[..|drops| - 1]), drops[|drops| - 1])
  }

  /** Scanning by outcomes keeps going, numbers the window consecutively and records the drops. */
  lemma {:induction false} ScanOutcomesFacts(c: TokenServer.Scan, drops: seq<bool>)
    requires c.ok && InRange(c.current)
    ensures var r := ScanOutcomes(c, drops);
      r.ok && r.current == Wrap(c.current + |drops|)
      && r.state.missing == c.state.missing + DroppedOf(c.current, drops)
    decreases |drops|
  {
    if drops != [] {
      var n := |drops| - 1;
      ScanOutcomesFacts(c, drops[..n]);
      WrapAdd(c.current + n, 1);
      if drops[n] {
        AppendAssoc(c.state.missing, DroppedOf(c.current, drops[..n]), [Wrap(c.current + n)]);
      }
    } else {
      ModUnique(c.current, 0, c.current);
    }
  }

  /** The server's scan of a window's tokens is the scan by the window's outcomes. */
  lemma {:induction false} ScannedWindow(s: TokenServer.State, drops: seq<bool>)
    requires InRange(s.expected)
    ensures TokenServer.Scanned(s, WindowOf(s.expected, drops)) == ScanOutcomes(TokenServer.Scan(s, s.expected, true), drops)
  {
    var c0 := TokenServer.Scan(s, s.expected, true);
    var toks := WindowOf(s.expected, drops);
    WindowOfSolid(s.expected, drops);
    forall i | 0 <= i < |toks|
      ensures TokenServer.WindowStep(ScanOutcomes(c0, drops[..i]), toks[i]) == ScanOutcome(ScanOutcomes(c0, drops[..i]), drops[i])
    {
      WindowTokenRead(s, drops, i);
    }
    ScannedByOutcomes(c0, toks, drops, |toks|);
    assert toks[..|toks|] == toks && drops[..|drops|] == drops;
  }

  /** The token at position `i` of a window moves the server's scan on as the outcome at `i` says. */
  lemma {:induction false} WindowTokenRead(s: TokenServer.State, drops: seq<bool>, i: int)
    requires InRange(s.expected) && 0 <= i < |drops|
    ensures |WindowOf(s.expected, drops)| == |drops|
    ensures var c := ScanOutcomes(TokenServer.Scan(s, s.expected, true), drops[..i]);
      TokenServer.WindowStep(c, WindowOf(s.expected, drops)[i]) == ScanOutcome(c, drops[i])
  {
    var c0 := TokenServer.Scan(s, s.expected, true);
    WindowOfIndex(s.expected, drops, i);
    ScanOutcomesFacts(c0, drops[..i]);
    ScanTokenStep(ScanOutcomes(c0, drops[..i]), drops[i]);
  }

  /**
   * Tokens each of which moves the scan on as the matching outcome says
   * are scanned as the outcomes say, starting from `Scan(s, s.expected, true)`:
   * here for the first `k` of them.
   */
  lemma {:induction false} ScannedByOutcomes(c0: TokenServer.Scan, toks: seq<string>, drops: seq<bool>, k: int)
    requires c0 == TokenServer.Scan(c0.state, c0.state.expected, true)
    requires 0 <= k <= |toks| == |drops|
    requires forall i :: 0 <= i < |toks| ==>
      TokenServer.WindowStep(ScanOutcomes(c0, drops[..i]), toks[i]) == ScanOutcome(ScanOutcomes(c0, drops[..i]), drops[i])
    ensures TokenServer.Scanned(c0.state, toks[..k]) == ScanOutcomes(c0, drops[..k])
    decreases k
  {
    if k > 0 {
      ScannedByOutcomes(c0, toks, drops, k - 1);
      assert toks[..k][..k - 1] == toks[..k - 1];
      assert drops[..k][..k - 1] == drops[..k - 1];
    }
  }

  /** One window token read by the server where it expects exactly that token's sequence number. */
  lemma {:induction false} ScanTokenStep(c: TokenServer.Scan, drop: bool)
    requires c.ok && InRange(c.current)
    ensures TokenServer.WindowStep(c, Token(c.current, drop)) == ScanOutcome(c, drop)
  {
    if !drop {
      PyIntDecimal(c.current);
    }
  }

  /**
   * Cross-file property: when `expected_seq` of the server of
   * workspace/server_claude.py equals the first sequence number of a
   * client window, the server appends to `missing_seq` exactly the
   * sequence numbers the client appended to `dropped_packets` for that
   * window, and replies with an `ACK`.
   */
  lemma {:induction false} WindowMatchesServer(c: Client, s: TokenServer.State, drops: seq<bool>, now: int)
    requires InRange(c.seqNum) && s.expected == c.seqNum
    requires 1 <= |drops| && c.totalSent + |drops| <= TotalPackets
    ensures var o := TokenServer.AfterMessage(s, TokenServer.Corrected, SpaceTerminated(SentTokens(c, drops)), now);
      o.running && o.reply.Some?
      && WindowedClient(c, drops).dropped == c.dropped + DroppedOf(c.seqNum, drops)
      && o.state.missing == s.missing + DroppedOf(c.seqNum, drops)
  {
    WindowedTokens(c, drops);
    var toks := WindowOf(c.seqNum, drops);
    WindowOfSolid(c.seqNum, drops);
    ServerReadsTokens(toks);
    ScanMatchesDrops(s, drops);
    WindowOfIndex(c.seqNum, drops, 0);
    TokenNotTag(Wrap(c.seqNum + 0), drops[0]);
    TokenServer.AfterWindow(s, TokenServer.Corrected, SpaceTerminated(toks), now);
  }

  /**
   * The server reads a client window as a window: its tokens are the
   * client's, none is the tag, and the scan over them is the scan by
   * outcomes.
   */
  lemma {:induction false} ServerScansWindow(c: Client, s: TokenServer.State, drops: seq<bool>)
    requires InRange(c.seqNum) && s.expected == c.seqNum
    requires 1 <= |drops| && c.totalSent + |drops| <= TotalPackets
    ensures var toks := TokenServer.Tokens(SpaceTerminated(SentTokens(c, drops)));
      toks == WindowOf(c.seqNum, drops) && toks[0] != TokenServer.RetransmitTag
      && TokenServer.Scanned(s, toks) == ScanOutcomes(TokenServer.Scan(s, s.expected, true), drops)
  {
    WindowedTokens(c, drops);
    var toks := WindowOf(c.seqNum, drops);
    WindowOfSolid(c.seqNum, drops);
    ServerReadsTokens(toks);
    WindowOfIndex(c.seqNum, drops, 0);
    TokenNotTag(Wrap(c.seqNum + 0), drops[0]);
    ScannedWindow(s, drops);
  }

  /**
   * After a window the server's `missing_seq` and `expected_seq` are what
   * its scan of the window, told by the client's outcomes, left.
   */
  lemma {:induction false} ServerAfterWindow(c: Client, s: TokenServer.State, drops: seq<bool>, now: int)
    requires InRange(c.seqNum) && s.expected == c.seqNum
    requires 1 <= |drops| && c.totalSent + |drops| <= TotalPackets
    ensures var o := TokenServer.AfterMessage(s, TokenServer.Corrected, SpaceTerminated(SentTokens(c, drops)), now);
      var r := ScanOutcomes(TokenServer.Scan(s, s.expected, true), drops);
      o.state.expected == Wrap(r.state.lastAck + 1) && o.state.missing == r.state.missing
  {
    var text := SpaceTerminated(SentTokens(c, drops));
    var r := ScanOutcomes(TokenServer.Scan(s, s.expected, true), drops);
    assert TokenServer.Tokens(text)[0] != TokenServer.RetransmitTag && TokenServer.Scanned(s, TokenServer.Tokens(text)) == r by {
      ServerScansWindow(c, s, drops);
    }
    assert r.ok by {
      ScanOutcomesFacts(TokenServer.Scan(s, s.expected, true), drops);
    }
    TokenServer.AfterWindow(s, TokenServer.Corrected, text, now);
  }

  /** A scan whose last outcome is a delivery acknowledges that last number. */
  lemma {:induction false} ScanEndsDelivered(c: TokenServer.Scan, drops: seq<bool>)
    requires c.ok && InRange(c.current)
    requires 1 <= |drops| && !drops[|drops| - 1]
    ensures ScanOutcomes(c, drops).state.lastAck == Wrap(c.current + |drops| - 1)
  {
    var n := |drops| - 1;
    ScanOutcomesFacts(c, drops[..n]);
  }

  /**
   * A scan that ends with a delivery followed by a drop acknowledges the
   * delivered number and records the dropped one last.
   */
  lemma {:induction false} ScanEndsDropped(c: TokenServer.Scan, drops: seq<bool>)
    requires c.ok && InRange(c.current)
    requires 2 <= |drops| && drops[|drops| - 1] && !drops[|drops| - 2]
    ensures var r := ScanOutcomes(c, drops);
      r.state.lastAck == Wrap(c.current + |drops| - 2)
      && |r.state.missing| > 0 && r.state.missing[|r.state.missing| - 1] == Wrap(c.current + |drops| - 1)
  {
    var n := |drops| - 1;
    assert drops[..n][..n - 1] == drops[..n - 1];
    ScanOutcomesFacts(c, drops[..n]);
    ScanEndsDelivered(c, drops[..n]);
  }

  /** Two neighbouring numbers of the sequence space differ. */
  lemma {:induction false} NextDiffers(x: int)
    requires InRange(x)
    ensures Wrap(x + 1) != x
  {
    if x + 1 < Modulus {
      ModUnique(x + 1, 0, x + 1);
    } else {
      ModUnique(x + 1, 1, 0);
    }
  }

  /**
   * A window whose last packet was delivered keeps client and server
   * aligned: the server of workspace/server_claude.py then expects the
   * client's next sequence number, so `WindowMatchesServer` applies to the
   * next window as well.
   */
  lemma {:induction false} WindowKeepsAlignment(c: Client, s: TokenServer.State, drops: seq<bool>, now: int)
    requires InRange(c.seqNum) && s.expected == c.seqNum
    requires 1 <= |drops| && c.totalSent + |drops| <= TotalPackets && !drops[|drops| - 1]
    ensures var o := TokenServer.AfterMessage(s, TokenServer.Corrected, SpaceTerminated(SentTokens(c, drops)), now);
      o.state.expected == WindowedClient(c, drops).seqNum
  {
    WindowedCounter(c, drops);
    ServerAfterWindow(c, s, drops, now);
    ScanEndsDelivered(TokenServer.Scan(s, s.expected, true), drops);
    WrapAdd(s.expected + |drops| - 1, 1);
  }

  /**
   * A window that ends in a drop after a delivery breaks the alignment:
   * the server sets `expected_seq` from `last_ack`, so it expects the
   * number the client just dropped while the client has moved past it.
   * A next window that starts with `dropped` then makes the server record
   * that number a second time instead of the one the client dropped.
   */
  lemma {:induction false} TrailingDropLags(c: Client, s: TokenServer.State, drops: seq<bool>, now: int)
    requires InRange(c.seqNum) && s.expected == c.seqNum
    requires 2 <= |drops| && c.totalSent + |drops| <= TotalPackets
    requires drops[|drops| - 1] && !drops[|drops| - 2]
    ensures var o := TokenServer.AfterMessage(s, TokenServer.Corrected, SpaceTerminated(SentTokens(c, drops)), now);
      var last := Wrap(c.seqNum + |drops| - 1);
      o.state.expected == last && |o.state.missing| > 0 && o.state.missing[|o.state.missing| - 1] == last
      && WindowedClient(c, drops).seqNum != o.state.expected
  {
    var r := ScanOutcomes(TokenServer.Scan(s, s.expected, true), drops);
    var last := Wrap(c.seqNum + |drops| - 1);
    ServerAfterWindow(c, s, drops, now);
    ScanEndsDropped(TokenServer.Scan(s, s.expected, true), drops);
    assert Wrap(r.state.lastAck + 1) == last by {
      WrapAdd(c.seqNum + |drops| - 2, 1);
    }
    assert WindowedClient(c, drops).seqNum != last by {
      WindowedCounter(c, drops);
      WrapAdd(c.seqNum + |drops| - 1, 1);
      NextDiffers(last);
    }
  }

  /** No window token reads as the `RETRANSMIT` tag. */
  lemma {:induction false} TokenNotTag(sn: int, drop: bool)
    ensures Token(sn, drop) != TokenServer.RetransmitTag
  {
    if !drop {
      var t := IntToDecimal(sn);
      assert IsDigit(t[0]) || t[0] == '-';
      assert TokenServer.RetransmitTag[0] == 'R';
    }
  }

  /** The token at position `i` of a window is that of the outcome at `i`, numbered `start + i`. */
  lemma {:induction false} WindowOfIndex(start: int, drops: seq<bool>, i: int)
    requires 0 <= i < |drops|
    ensures |WindowOf(start, drops)| == |drops|
    ensures WindowOf(start, drops)[i] == Token(Wrap(start + i), drops[i])
    decreases |drops|
  {
    var n := |drops| - 1;
    WindowOfSolid(start, drops[..n]);
    if i < n {
      WindowOfIndex(start, drops[..n], i);
    }
  }

  /**
   * The loop of `handle_retransmit` over a batch: the counts after it, the
   * tokens sent, the numbers dropped again and those actually resent.
   */
  datatype Pass = Pass(counts: map<int, int>, tokens: seq<string>, still: seq<int>, resent: seq<int>)

  /** The retransmission count of a sequence number after one more retransmission. */
  function Bumped(counts: map<int, int>, sn: int): map<int, int>
  {
    counts[sn := if sn in counts then counts[sn] + 1 else 1]
  }

  /** The loop of `handle_retransmit` over the processed prefix and its drop outcomes. */
  function Retransmitted(counts: map<int, int>, xs: seq<int>, drops: seq<bool>): Pass
    requires |drops| == |xs|
    decreases |xs|
  {
    if xs == [] then Pass(counts, [], [], [])
    else
      var n := |xs| - 1;
      var r := Retransmitted(counts, xs[..n], drops[..n]);
      Pass(Bumped(r.counts, xs[n]), r.tokens + [Token(xs[n], drops[n])],
           r.still + (if drops[n] then [xs[n]] else []),
           r.resent + (if drops[n] then [] else [xs[n]]))
  }

  /** One more processed number extends the pass by that number's effect. */
  lemma {:induction false} RetransmittedStep(counts: map<int, int>, xs: seq<int>, drops: seq<bool>, i: int)
    requires |drops| == |xs| && 0 <= i < |xs|
    ensures var r := Retransmitted(counts, xs[..i], drops[..i]);
      Retransmitted(counts, xs[..i + 1], drops[..i + 1]) ==
        Pass(Bumped(r.counts, xs[i]), r.tokens + [Token(xs[i], drops[i])],
             r.still + (if drops[i] then [xs[i]] else []),
             r.resent + (if drops[i] then [] else [xs[i]]))
  {
    assert xs[..i + 1][..i] == xs[..i];
    assert drops[..i + 1][..i] == drops[..i];
  }

  /** The number of entries `handle_retransmit` processes. */
  function Batch(c: Client): nat
  {
    if |c.dropped| < WindowSize then |c.dropped| else WindowSize
  }

  /** A client after a retransmission pass, and what the pass did. */
  datatype Retransmit = Retransmit(client: Client, pass: Pass)

  /**
   * `handle_retransmit`: nothing when no packet is dropped; otherwise the
   * first `min(4, len)` dropped numbers are counted once more and resent,
   * and those dropped again go back to the end of the list.
   */
  function AfterRetransmit(c: Client, drops: seq<bool>): Retransmit
    requires |drops| == Batch(c)
  {
    var k := Batch(c);
    var p := Retransmitted(c.counts, c.dropped[..k], drops);
    Retransmit(c.(counts := p.counts, dropped := c.dropped[k..] + p.still), p)
  }

  /** `send_data` runs `handle_retransmit` after a window whenever the packets sent are a multiple of 1000. */
  predicate RetransmitDue(c: Client)
  {
    c.totalSent % RetransmitEvery == 0
  }

  /** `int(data[-1])` on the server's reply, split as `recv(1024).decode().strip().split(" ")`. */
  function ReplyAck(reply: string): Option<int>
  {
    var toks := Split(Strip(reply), ' ');
    PyInt(toks[|toks| - 1])
  }

  /** The client after a reply whose last token is `ack`: `recv_ack` is set and the acked count brought up to date. */
  function Acked(c: Client, ack: int): Client
  {
    c.(recvAck := ack, totalAcked := c.totalSent - |c.dropped|)
  }

  /** The text of the `RETRANSMIT` message. */
  function RetransmitText(toks: seq<string>): string
  {
    "RETRANSMIT " + SpaceTerminated(toks)
  }

  /** One more token extends the message by that token and a space. */
  lemma {:induction false} RetransmitTextStep(toks: seq<string>, tok: string)
    ensures RetransmitText(toks + [tok]) == RetransmitText(toks) + tok + " "
  {
    assert (toks + [tok])[..|toks|] == toks;
    var head := "RETRANSMIT ";
    AppendAssoc(head, SpaceTerminated(toks), tok);
    AppendAssoc(head, SpaceTerminated(toks) + tok, " ");
  }

  /**
   * The loop of `handle_retransmit` sends one token per processed number,
   * `dropped` exactly for those dropped again, and splits the batch into
   * the numbers dropped again and those resent.
   */
  lemma {:induction false} RetransmittedTokens(counts: map<int, int>, xs: seq<int>, drops: seq<bool>)
    requires |drops| == |xs|
    ensures var r := Retransmitted(counts, xs, drops);
      && |r.tokens| == |xs|
      && (forall i :: 0 <= i < |xs| ==> r.tokens[i] == Token(xs[i], drops[i]))
    decreases |xs|
  {
    if xs != [] {
      var n := |xs| - 1;
      RetransmittedTokens(counts, xs[..n], drops[..n]);
      var r := Retransmitted(counts, xs[..n], drops[..n]);
      var t := Retransmitted(counts, xs, drops).tokens;
      assert t == r.tokens + [Token(xs[n], drops[n])];
      forall i | 0 <= i < |xs|
        ensures t[i] == Token(xs[i], drops[i])
      {
        if i < n {
          assert t[i] == r.tokens[i] && xs[..n][i] == xs[i] && drops[..n][i] == drops[i];
        }
      }
    }
  }

  /** The batch splits into the numbers dropped again and those resent. */
  lemma {:induction false} RetransmittedSplit(counts: map<int, int>, xs: seq<int>, drops: seq<bool>)
    requires |drops| == |xs|
    ensures var r := Retransmitted(counts, xs, drops);
      multiset(r.still) + multiset(r.resent) == multiset(xs)
    decreases |xs|
  {
    if xs != [] {
      var n := |xs| - 1;
      RetransmittedSplit(counts, xs[..n], drops[..n]);
      var r := Retransmitted(counts, xs[..n], drops[..n]);
      SplitStep(r.still, r.resent, xs[..n], xs[n], drops[n]);
      assert xs[..n] + [xs[n]] == xs;
    }
  }

  /** Sending one more number to one side or the other keeps the split. */
  lemma {:induction false} SplitStep(still: seq<int>, resent: seq<int>, xs: seq<int>, x: int, drop: bool)
    requires multiset(still) + multiset(resent) == multiset(xs)
    ensures multiset(still + (if drop then [x] else [])) + multiset(resent + (if drop then [] else [x]))
      == multiset(xs + [x])
  {
  }

  /** A retransmission count before the pass, 0 when the number was never retransmitted. */
  function Prior(counts: map<int, int>, x: int): int
  {
    if x in counts then counts[x] else 0
  }

  /**
   * Each number's retransmission count goes up by the number of times it
   * occurs in the batch (a number dropped twice across a wrap can occur
   * twice), starting from 0 for a number never retransmitted; no other
   * count changes.
   */
  lemma {:induction false} RetransmittedCounts(counts: map<int, int>, xs: seq<int>, drops: seq<bool>)
    requires |drops| == |xs|
    ensures var r := Retransmitted(counts, xs, drops);
      && (forall x :: x in r.counts <==> x in counts || x in multiset(xs))
      && (forall x :: x in r.counts ==> r.counts[x] == Prior(counts, x) + multiset(xs)[x])
    decreases |xs|
  {
    if xs != [] {
      var n := |xs| - 1;
      RetransmittedCounts(counts, xs[..n], drops[..n]);
      var r := Retransmitted(counts, xs[..n], drops[..n]);
      assert xs[..n] + [xs[n]] == xs;
      BumpStep(counts, r.counts, xs[..n], xs[n], xs);
    }
  }

  /** Bumping one more number's count keeps the counts those of the numbers processed. */
  lemma {:induction false} BumpStep(counts: map<int, int>, m: map<int, int>, init: seq<int>, x: int, xs: seq<int>)
    requires xs == init + [x]
    requires forall y :: y in m <==> y in counts || y in multiset(init)
    requires forall y :: y in m ==> m[y] == Prior(counts, y) + multiset(init)[y]
    ensures forall y :: y in Bumped(m, x) <==> y in counts || y in multiset(xs)
    ensures forall y :: y in Bumped(m, x) ==> Bumped(m, x)[y] == Prior(counts, y) + multiset(xs)[y]
  {
    assert multiset(xs) == multiset(init) + multiset{x};
  }

  /** The numbers the server reads from the resent tokens are exactly the resent numbers. */
  lemma {:induction false} RetransmittedValues(counts: map<int, int>, xs: seq<int>, drops: seq<bool>)
    requires |drops| == |xs|
    ensures var r := Retransmitted(counts, xs, drops);
      TokenServer.AllParse(r.tokens) && TokenServer.Values(r.tokens) == r.resent
    decreases |xs|
  {
    if xs != [] {
      var n := |xs| - 1;
      RetransmittedValues(counts, xs[..n], drops[..n]);
      var r := Retransmitted(counts, xs[..n], drops[..n]);
      var toks := r.tokens + [Token(xs[n], drops[n])];
      assert toks[..|toks| - 1] == r.tokens;
      if !drops[n] {
        PyIntDecimal(xs[n]);
      }
    }
  }

  /**
   * A retransmission pass processes `min(4, len)` entries: it takes them
   * off the front, resends those not dropped again and puts the others at
   * the end, so the list never grows and shrinks by the number resent; a
   * pass over an empty list changes nothing and sends nothing.
   */
  lemma {:induction false} AfterRetransmitEffect(c: Client, drops: seq<bool>)
    requires |drops| == Batch(c)
    ensures var r := AfterRetransmit(c, drops);
      && (c.dropped == [] ==> r.client == c && r.pass.tokens == [])
      && |r.pass.tokens| == Batch(c) <= WindowSize
      && (forall i :: 0 <= i < Batch(c) ==> r.pass.tokens[i] == Token(c.dropped[i], drops[i]))
      && multiset(r.client.dropped) == multiset(c.dropped) - multiset(r.pass.resent)
      && r.client == c.(counts := r.client.counts, dropped := r.client.dropped)
  {
    var k := Batch(c);
    RetransmittedTokens(c.counts, c.dropped[..k], drops);
    RetransmittedSplit(c.counts, c.dropped[..k], drops);
    assert c.dropped == c.dropped[..k] + c.dropped[k..];
    assert multiset(c.dropped) == multiset(c.dropped[..k]) + multiset(c.dropped[k..]);
  }

  /**
   * Cross-file property: the server of workspace/server_claude.py reads a
   * `RETRANSMIT` message as exactly the resent tokens, so its missing
   * multiset loses exactly the numbers the client resent rather than
   * dropped again.
   */
  lemma {:induction false} RetransmitMatchesServer(c: Client, s: TokenServer.State, drops: seq<bool>, now: int)
    requires |drops| == Batch(c) >= 1
    ensures var r := AfterRetransmit(c, drops);
      var o := TokenServer.AfterMessage(s, TokenServer.Corrected, RetransmitText(r.pass.tokens), now);
      o.running && o.reply == None
      && multiset(o.state.missing) == multiset(s.missing) - multiset(r.pass.resent)
  {
    var k := Batch(c);
    RetransmittedTokens(c.counts, c.dropped[..k], drops);
    RetransmittedValues(c.counts, c.dropped[..k], drops);
    var toks := AfterRetransmit(c, drops).pass.tokens;
    forall i | 0 <= i < |toks|
      ensures Solid(toks[i])
    {
      TokenSolid(c.dropped[i], drops[i]);
    }
    RetransmitTextTokens(toks);
    TokenServer.RetransmittedMissing(s, toks);
  }

  /** The server reads a `RETRANSMIT` message as the tag followed by exactly the resent tokens. */
  lemma {:induction false} RetransmitTextTokens(toks: seq<string>)
    requires |toks| >= 1 && forall i :: 0 <= i < |toks| ==> Solid(toks[i])
    ensures TokenServer.Tokens(RetransmitText(toks)) == [TokenServer.RetransmitTag] + toks
  {
    var all := [TokenServer.RetransmitTag] + toks;
    assert forall i :: 0 <= i < |all| ==> Solid(all[i]);
    ServerReadsTokens(all);
    SpaceTerminatedCons(TokenServer.RetransmitTag, toks);
    assert TokenServer.RetransmitTag + " " == "RETRANSMIT ";
  }

  lemma {:induction false} SpaceTerminatedCons(t: string, toks: seq<string>)
    ensures SpaceTerminated([t] + toks) == t + " " + SpaceTerminated(toks)
    decreases |toks|
  {
    if toks == [] {
      assert [t] + toks == [t];
      assert SpaceTerminated([t]) == SpaceTerminated([]) + t + " ";
    } else {
      var n := |toks| - 1;
      var all := [t] + toks;
      assert all[..|all| - 1] == [t] + toks[..n];
      SpaceTerminatedCons(t, toks[..n]);
      AppendAssoc(t + " ", SpaceTerminated(toks[..n]), toks[n]);
      AppendAssoc(t + " ", SpaceTerminated(toks[..n]) + toks[n], " ");
    }
  }

  /** The histogram bucket of a retransmission count: 1..4 as they are, anything above 4 in bucket 4. */
  function BucketOf(count: int): int
  {
    if count > Buckets then Buckets else count
  }

  /** The number of sequence numbers among `keys` whose count falls in bucket `b`. */
  function InBucket(counts: map<int, int>, keys: set<int>, b: int): nat
  {
    |set k | k in keys && k in counts && BucketOf(counts[k]) == b|
  }

  lemma {:induction false} InBucketStep(counts: map<int, int>, keys: set<int>, k: int, b: int)
    requires k in counts && k !in keys
    ensures InBucket(counts, keys + {k}, b) == InBucket(counts, keys, b) + if BucketOf(counts[k]) == b then 1 else 0
  {
    var before := set j | j in keys && j in counts && BucketOf(counts[j]) == b;
    var after := set j | j in keys + {k} && j in counts && BucketOf(counts[j]) == b;
    if BucketOf(counts[k]) == b {
      assert after == before + {k};
    } else {
      assert after == before;
    }
  }

  /**
   * The retransmission histogram of `save_performance_data` and the final
   * report: bucket `b` (index `b - 1`) counts the sequence numbers whose
   * count is `b`, except that bucket 4 also takes every count above 4.
   */
  method Histogram(counts: map<int, int>) returns (h: seq<nat>)
    ensures |h| == Buckets
    ensures forall b :: 1 <= b <= Buckets ==> h[b - 1] == InBucket(counts, counts.Keys, b)
  {
    h := [0, 0, 0, 0];
    var todo := counts.Keys;
    ghost var done: set<int> := {};
    while todo != {}
      invariant todo + done == counts.Keys && todo !! done
      invariant |h| == Buckets
      invariant forall b :: 1 <= b <= Buckets ==> h[b - 1] == InBucket(counts, done, b)
      decreases |todo|
    {
      var k := Choose(todo);
      var count := counts[k];
      forall b | 1 <= b <= Buckets
        ensures InBucket(counts, done + {k}, b) == InBucket(counts, done, b) + if BucketOf(count) == b then 1 else 0
      {
        InBucketStep(counts, done, k, b);
      }
      h := Tally(h, count);
      todo := todo - {k};
      done := done + {k};
    }
  }

  /** One number's count added to the histogram: bucket 4 takes every count above 4, and a count below 1 goes nowhere. */
  method Tally(h: seq<nat>, count: int) returns (h': seq<nat>)
    requires |h| == Buckets
    ensures |h'| == Buckets
    ensures forall i :: 0 <= i < Buckets ==> h'[i] == h[i] + if BucketOf(count) == i + 1 then 1 else 0
  {
    h' := h;
    if 1 <= count <= Buckets {
      h' := h[count - 1 := h[count - 1] + 1];
    } else if count > Buckets {
      h' := h[Buckets - 1 := h[Buckets - 1] + 1];
    }
  }

  /**
   * The `for` loop of `handle_retransmit` over the batch: the counts after
   * it, the `RETRANSMIT` text and the numbers dropped again.
   */
  method RetransmitLoop(counts: map<int, int>, batch: seq<int>, drops: seq<bool>)
    returns (cs: map<int, int>, window: string, still: seq<int>)
    requires |drops| == |batch|
    ensures var p := Retransmitted(counts, batch, drops);
      cs == p.counts && still == p.still && window == RetransmitText(p.tokens)
  {
    window := "RETRANSMIT ";
    cs := counts;
    still := [];
    var i := 0;
    while i < |batch|
      invariant i <= |batch|
      invariant var p := Retransmitted(counts, batch[..i], drops[..i]);
        cs == p.counts && still == p.still && window == RetransmitText(p.tokens)
    {
      ghost var p := Retransmitted(counts, batch[..i], drops[..i]);
      RetransmittedStep(counts, batch, drops, i);
      var sn := batch[i];
      var tok;
      cs, tok := RetransmitEntry(cs, sn, drops[i]);
      if drops[i] {
        still := still + [sn];
      }
      RetransmitTextStep(p.tokens, tok);
      window := window + tok + " ";
      i := i + 1;
    }
    assert batch[..i] == batch && drops[..i] == drops;
  }

  /** One entry of the loop of `handle_retransmit`: its count goes up by one and its token is built. */
  method RetransmitEntry(counts: map<int, int>, sn: int, drop: bool) returns (cs: map<int, int>, tok: string)
    ensures cs == Bumped(counts, sn)
    ensures tok == Token(sn, drop)
  {
    cs := counts[sn := if sn in counts then counts[sn] + 1 else 1];
    tok := Token(sn, drop);
  }

  /** The `Client` object of workspace/client_claude.py. */
  class TokenWindowClient {
    var seqNum: int
    var wrap: nat
    var totalSent: nat
    var totalAcked: int
    var dropped: seq<int>
    var recvAck: int
    var counts: map<int, int>

    function Snap(): Client
      reads this
    {
      Client(seqNum, wrap, totalSent, totalAcked, dropped, recvAck, counts)
    }

    constructor ()
      ensures Snap() == Initial()
    {
      seqNum, wrap, totalSent, totalAcked := 0, 0, 0, 0;
      dropped, recvAck, counts := [], 0, map[];
    }

    /**
     * The window-building loop of `send_data`, given one drop outcome per
     * iteration; returns the text sent with `sendall`.
     */
    method BuildWindow(drops: seq<bool>) returns (text: string)
      requires |drops| == WindowSize
      modifies this`seqNum, this`wrap, this`totalSent, this`dropped
      ensures Snap() == WindowedClient(old(Snap()), drops)
      ensures text == SpaceTerminated(SentTokens(old(Snap()), drops))
    {
      text := "";
      ghost var toks: seq<string> := [];
      var i := 0;
      while i < WindowSize
        invariant i <= WindowSize
        invariant Snap() == WindowedClient(old(Snap()), drops[..i])
        invariant toks == SentTokens(old(Snap()), drops[..i])
        invariant text == SpaceTerminated(toks)
      {
        if totalSent >= TotalPackets {
          WindowedStops(old(Snap()), drops, i);
          return;
        }
        WindowedStep(old(Snap()), drops, i);
        var tok := SendOne(drops[i]);
        SpaceTerminatedStep(toks, tok);
        text := text + tok + " ";
        toks := toks + [tok];
        i := i + 1;
      }
      assert drops[..i] == drops;
    }

    /** One iteration of the window loop below `TOTAL_PACKETS`: the token for `seq_num`, and the counters moved on. */
    method SendOne(drop: bool) returns (tok: string)
      modifies this`seqNum, this`wrap, this`totalSent, this`dropped
      ensures tok == Token(old(seqNum), drop)
      ensures Snap() == SendStep(old(Snap()), drop)
    {
      tok := Token(seqNum, drop);
      if drop {
        dropped := dropped + [seqNum];
      }
      seqNum := (seqNum + 1) % Modulus;
      if seqNum == 0 {
        wrap := wrap + 1;
      }
      totalSent := totalSent + 1;
    }

    /**
     * `handle_retransmit`, given one drop outcome per processed entry;
     * returns the `RETRANSMIT` text, or nothing when no packet is dropped.
     */
    method HandleRetransmit(drops: seq<bool>) returns (text: Option<string>)
      requires |drops| == Batch(Snap())
      modifies this`counts, this`dropped
      ensures Snap() == AfterRetransmit(old(Snap()), drops).client
      ensures text == if old(dropped) == [] then None else Some(RetransmitText(AfterRetransmit(old(Snap()), drops).pass.tokens))
    {
      var k := if |dropped| < WindowSize then |dropped| else WindowSize;
      if k == 0 {
        return None;
      }
      var cs, window, still := RetransmitLoop(counts, dropped[..k], drops);
      counts := cs;
      dropped := dropped[k..] + still;
      return Some(window);
    }

    /**
     * The rest of one pass of the `send_data` loop: parse the last token of
     * the server's reply as the ack (`running` is false when `int()`
     * rejects it, which breaks the loop), and set the acked count.
     */
    method ReceiveAck(reply: string) returns (running: bool)
      modifies this`recvAck, this`totalAcked
      ensures running == ReplyAck(reply).Some?
      ensures running ==> recvAck == ReplyAck(reply).value && totalAcked == totalSent - |dropped|
      ensures !running ==> recvAck == old(recvAck) && totalAcked == old(totalAcked)
    {
      var ack := ReplyAck(reply);
      if ack.None? {
        return false;
      }
      recvAck := ack.value;
      totalAcked := totalSent - |dropped|;
      return true;
    }

    /**
     * One pass of the main loop of `send_data`: a window is built and sent,
     * the server's reply is read for the ack (an ack `int()` rejects breaks
     * the loop), and when the packets sent are a multiple of 1000 a
     * retransmission pass follows, given one drop outcome per processed
     * entry in `retransmitDrops`.
     */
    method SendCycle(drops: seq<bool>, reply: string, retransmitDrops: seq<bool>)
      returns (window: string, retransmit: Option<string>, running: bool)
      requires |drops| == WindowSize && |retransmitDrops| == Batch(WindowedClient(Snap(), drops))
      modifies this`seqNum, this`wrap, this`totalSent, this`dropped, this`recvAck, this`totalAcked, this`counts
      ensures var w := WindowedClient(old(Snap()), drops);
        var ack := ReplyAck(reply);
        && window == SpaceTerminated(SentTokens(old(Snap()), drops))
        && running == ack.Some?
        && (!running ==> Snap() == w && retransmit == None)
        && (running && !RetransmitDue(w) ==> Snap() == Acked(w, ack.value) && retransmit == None)
        && (running && RetransmitDue(w) ==>
              Snap() == AfterRetransmit(Acked(w, ack.value), retransmitDrops).client
              && retransmit == if w.dropped == [] then None
                               else Some(RetransmitText(AfterRetransmit(Acked(w, ack.value), retransmitDrops).pass.tokens)))
    {
      window := BuildWindow(drops);
      ghost var w := Snap();
      running := ReceiveAck(reply);
      if !running {
        assert Snap() == w;
        return window, None, false;
      }
      assert Snap() == Acked(w, ReplyAck(reply).value);
      if totalSent % RetransmitEvery == 0 {
        retransmit := HandleRetransmit(retransmitDrops);
      } else {
        retransmit := None;
      }
    }

    /**
     * One pass of the final loop of `send_data` while packets remain
     * dropped: a retransmission pass, then, if the server's reply arrives
     * (`replied`), the acked count is brought up to date; otherwise the
     * loop ends.
     */
    method FinalPass(drops: seq<bool>, replied: bool) returns (text: Option<string>, running: bool)
      requires dropped != [] && |drops| == Batch(Snap())
      modifies this`counts, this`dropped, this`totalAcked
      ensures var r := AfterRetransmit(old(Snap()), drops).client;
        && text == Some(RetransmitText(AfterRetransmit(old(Snap()), drops).pass.tokens))
        && running == replied
        && Snap() == r.(totalAcked := if replied then r.totalSent - |r.dropped| else r.totalAcked)
    {
      text := HandleRetransmit(drops);
      if !replied {
        return text, false;
      }
      totalAcked := totalSent - |dropped|;
      running := true;
    }
  }

  /** Once `TOTAL_PACKETS` is reached, the remaining outcomes change nothing. */
  lemma {:induction false} WindowedStops(c: Client, drops: seq<bool>, i: int)
    requires 0 <= i < |drops| && WindowedClient(c, drops[..i]).totalSent >= TotalPackets
    ensures WindowedClient(c, drops) == WindowedClient(c, drops[..i])
    ensures SentTokens(c, drops) == SentTokens(c, drops[..i])
    decreases |drops| - i
  {
    assert drops[..i + 1][..i] == drops[..i];
    if i + 1 < |drops| {
      WindowedStops(c, drops, i + 1);
    } else {
      assert drops[..i + 1] == drops;
    }
  }

  /** Below `TOTAL_PACKETS`, one more outcome sends one more token. */
  lemma {:induction false} WindowedStep(c: Client, drops: seq<bool>, i: int)
    requires 0 <= i < |drops| && WindowedClient(c, drops[..i]).totalSent < TotalPackets
    ensures var w := WindowedClient(c, drops[..i]);
      && WindowedClient(c, drops[..i + 1]) == SendStep(w, drops[i])
      && SentTokens(c, drops[..i + 1]) == SentTokens(c, drops[..i]) + [Token(w.seqNum, drops[i])]
  {
    assert drops[..i + 1][..i] == drops[..i];
  }

  /** One more token extends the text by that token and a space. */
  lemma {:induction false} SpaceTerminatedStep(toks: seq<string>, tok: string)
    ensures SpaceTerminated(toks + [tok]) == SpaceTerminated(toks) + tok + " "
  {
    assert (toks + [tok])[..|toks|] == toks;
  }
}
