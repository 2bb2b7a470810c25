/**
 * The token-window servers of workspace/server.py and
 * workspace/server_claude.py. A message is one receive, stripped and split
 * on single spaces. A message starting with `RETRANSMIT` lists resent
 * sequence numbers: each one still in `missing_seq` loses one occurrence
 * and counts as received. Any other message is a window: a numeric token
 * is a received sequence number, and a `dropped` token marks the sequence
 * number the server expects at that point as missing. After a window the
 * server replies `ACK {last_ack}` and takes a checkpoint of its counters
 * every thousand received packets.
 *
 * The two files differ in two places. In workspace/server.py the
 * checkpoint guard is reset to the goodput percentage instead of the
 * thousands count. Its final goodput divides by `total_missing`, where
 * workspace/server_claude.py divides by `len(missing_seq)`.
 *
 * Message decoding, the clock (the parameter `now`) and `sendall` are not
 * modelled as effects; a token that `int()` rejects raises `ValueError`,
 * which ends `run` without the final statistics.
 */
module TokenServer {
  import opened Common
  import opened SeqSpace
  import opened Text
  import opened Lists

  /** workspace/server.py or workspace/server_claude.py. */
  datatype Variant = Original | Corrected

  const Dropped: string := "dropped"
  const RetransmitTag: string := "RETRANSMIT"
  const CheckpointEvery: nat := 1000

  /**
   * The server's counters, its missing list, the four checkpoint series and
   * `last_checkpoint`, a local of `run` kept as a ratio because
   * workspace/server.py stores a float percentage in it.
   */
  datatype State = State(
    expected: int,
    lastAck: int,
    missing: seq<int>,
    totalReceived: nat,
    totalMissing: nat,
    times: seq<int>,
    goodputs: seq<Ratio>,
    missingCounts: seq<nat>,
    receivedCounts: seq<nat>,
    lastCheckpoint: Ratio)

  /** The values `reset` restores, with `last_checkpoint = 0` as `run` starts it. */
  function Initial(): State
  {
    State(0, -1, [], 0, 0, [], [], [], [], Ratio(0, 1))
  }

  /** The tokens of one message: `data.decode().strip().split(" ")`. */
  function Tokens(text: string): (toks: seq<string>)
    ensures |toks| >= 1
  {
    Split(Strip(text), ' ')
  }

  /** The state after a prefix of tokens, and whether every token so far parsed. */
  datatype Partial = Partial(state: State, ok: bool)

  /** One token of a `RETRANSMIT` message. */
  function RetransmitStep(s: State, tok: string): Partial
  {
    if tok == Dropped then Partial(s, true)
    else match PyInt(tok)
      case None => Partial(s, false)
      case Some(n) =>
        if n in s.missing then Partial(s.(missing := RemoveFirst(s.missing, n), totalReceived := s.totalReceived + 1), true)
        else Partial(s, true)
  }

  /** The tokens after `RETRANSMIT`, in order, stopping at the first one `int()` rejects. */
  function Retransmitted(s: State, toks: seq<string>): Partial
    decreases |toks|
  {
    if toks == [] then Partial(s, true)
    else
      var p := Retransmitted(s, toks[..|toks| - 1]);
      if !p.ok then p else RetransmitStep(p.state, toks[|toks| - 1])
  }

  /** Every token other than `dropped` is an integer. */
  predicate AllParse(toks: seq<string>)
  {
    forall i :: 0 <= i < |toks| ==> toks[i] == Dropped || PyInt(toks[i]).Some?
  }

  /** The integers of the tokens other than `dropped`, in order. */
  function Values(toks: seq<string>): seq<int>
    requires AllParse(toks)
    decreases |toks|
  {
    if toks == [] then []
    else
      var init := Values(toks[..|toks| - 1]);
      var t := toks[|toks| - 1];
      if t == Dropped then init else init + [PyInt(t).value]
  }

  lemma {:induction false} MultisetMinusStep(a: multiset<int>, b: multiset<int>, v: int)
    ensures (a - b) - multiset{v} == a - (b + multiset{v})
  {
    assert forall x :: ((a - b) - multiset{v})[x] == (a - (b + multiset{v}))[x];
  }

  /** Retransmit processing parses through exactly when every token other than `dropped` is an integer. */
  lemma {:induction false} RetransmittedOk(s: State, toks: seq<string>)
    ensures Retransmitted(s, toks).ok <==> AllParse(toks)
    decreases |toks|
  {
    if toks != [] {
      var init := toks[..|toks| - 1];
      RetransmittedOk(s, init);
      assert forall i :: 0 <= i < |init| ==> init[i] == toks[i];
    }
  }

  /**
   * Every removal from the missing list counts one received packet, so the
   * list and the received count keep their sum, the count never drops, and
   * nothing else changes.
   */
  lemma {:induction false} RetransmittedCounts(s: State, toks: seq<string>)
    ensures var p := Retransmitted(s, toks);
      && |p.state.missing| + p.state.totalReceived == |s.missing| + s.totalReceived
      && p.state.totalReceived >= s.totalReceived
      && p.state == s.(missing := p.state.missing, totalReceived := p.state.totalReceived)
    decreases |toks|
  {
    if toks != [] {
      RetransmittedCounts(s, toks[..|toks| - 1]);
    }
  }

  /**
   * A `RETRANSMIT` message that parses takes one occurrence of each listed
   * value out of the missing list, as far as there are occurrences: the
   * missing multiset loses exactly the listed values.
   */
  lemma {:induction false} RetransmittedMissing(s: State, toks: seq<string>)
    requires AllParse(toks)
    ensures Retransmitted(s, toks).ok
    ensures multiset(Retransmitted(s, toks).state.missing) == multiset(s.missing) - multiset(Values(toks))
    decreases |toks|
  {
    if toks != [] {
      var init := toks[..|toks| - 1];
      var t := toks[|toks| - 1];
      assert AllParse(init) by {
        assert forall i :: 0 <= i < |init| ==> init[i] == toks[i];
      }
      RetransmittedMissing(s, init);
      var p := Retransmitted(s, init);
      if t != Dropped {
        assert PyInt(t).Some? by {
          assert toks[|toks| - 1] == t;
        }
        var n := PyInt(t).value;
        assert Values(toks) == Values(init) + [n];
        RemoveFirstMultiset(p.state.missing, n);
        MultisetMinusStep(multiset(s.missing), multiset(Values(init)), n);
        if n !in p.state.missing {
          assert multiset(p.state.missing)[n] == 0;
          assert multiset(p.state.missing) - multiset{n} == multiset(p.state.missing);
        }
      }
    }
  }

  /** The window scan: the state, the server's `current_seq`, and whether every token so far parsed. */
  datatype Scan = Scan(state: State, current: int, ok: bool)

  /**
   * One window token: a number `n` becomes `last_ack`, counts as received
   * and puts `current_seq` just past it; `dropped` records `current_seq` as
   * missing and moves it on by one.
   */
  function WindowStep(c: Scan, tok: string): Scan
  {
    if !c.ok then c
    else if tok == Dropped then
      Scan(c.state.(missing := c.state.missing + [c.current], totalMissing := c.state.totalMissing + 1), Next(c.current), true)
    else match PyInt(tok)
      case None => c.(ok := false)
      case Some(n) => Scan(c.state.(lastAck := n, totalReceived := c.state.totalReceived + 1), Wrap(n + 1), true)
  }

  /** The window tokens, in order, starting from `current_seq = expected_seq`. */
  function Scanned(s: State, toks: seq<string>): Scan
    decreases |toks|
  {
    if toks == [] then Scan(s, s.expected, true)
    else WindowStep(Scanned(s, toks[..|toks| - 1]), toks[|toks| - 1])
  }

  /** The number of `dropped` tokens. */
  function DroppedCount(toks: seq<string>): nat
    decreases |toks|
  {
    if toks == [] then 0
    else DroppedCount(toks[..|toks| - 1]) + if toks[|toks| - 1] == Dropped then 1 else 0
  }

  /** The window loop parses through exactly when every token other than `dropped` is an integer. */
  lemma {:induction false} ScannedOk(s: State, toks: seq<string>)
    ensures Scanned(s, toks).ok <==> AllParse(toks)
    decreases |toks|
  {
    if toks != [] {
      var init := toks[..|toks| - 1];
      ScannedOk(s, init);
      assert forall i :: 0 <= i < |init| ==> init[i] == toks[i];
    }
  }

  /**
   * The window loop only appends to the missing list, one entry for each
   * entry counted in `total_missing`, never lowers the received count, and
   * changes nothing but these, `total_received` and `last_ack`.
   */
  lemma {:induction false} ScannedFrame(s: State, toks: seq<string>)
    ensures var c := Scanned(s, toks);
      && |c.state.missing| >= |s.missing|
      && c.state.missing[..|s.missing|] == s.missing
      && |c.state.missing| - |s.missing| == c.state.totalMissing - s.totalMissing
      && c.state.totalReceived >= s.totalReceived
      && c.state == s.(missing := c.state.missing, totalReceived := c.state.totalReceived,
                       totalMissing := c.state.totalMissing, lastAck := c.state.lastAck)
    decreases |toks|
  {
    if toks != [] {
      ScannedFrame(s, toks[..|toks| - 1]);
      var c := Scanned(s, toks[..|toks| - 1]);
      if c.ok && toks[|toks| - 1] == Dropped {
        assert (c.state.missing + [c.current])[..|s.missing|] == c.state.missing[..|s.missing|];
      }
    }
  }

  /**
   * A window that parses counts every number as received and every
   * `dropped` as missing; `last_ack` is the last number, or unchanged when
   * there is none.
   */
  lemma {:induction false} ScannedCounts(s: State, toks: seq<string>)
    requires AllParse(toks)
    ensures var c := Scanned(s, toks);
      && c.ok
      && c.state.totalMissing == s.totalMissing + DroppedCount(toks)
      && c.state.totalReceived == s.totalReceived + |Values(toks)|
      && c.state.lastAck == if Values(toks) == [] then s.lastAck else Values(toks)[|Values(toks)| - 1]
    decreases |toks|
  {
    if toks != [] {
      var init := toks[..|toks| - 1];
      assert AllParse(init) by {
        assert forall i :: 0 <= i < |init| ==> init[i] == toks[i];
      }
      assert toks[|toks| - 1] == Dropped || PyInt(toks[|toks| - 1]).Some?;
      ScannedCounts(s, init);
    }
  }

  /** The goodput of a checkpoint as a percentage: 100 times received over received plus still missing. */
  function Goodput(s: State): Ratio
  {
    Ratio(100 * s.totalReceived, s.totalReceived + |s.missing|)
  }

  /** `total_received // 1000 > last_checkpoint`, with the guard a ratio `num / den`, `den > 0`. */
  predicate CheckpointDue(s: State)
  {
    (s.totalReceived / CheckpointEvery) * s.lastCheckpoint.den > s.lastCheckpoint.num
  }

  /** Append one point to each of the four series. */
  function AppendPoint(s: State, now: int, g: Ratio): State
  {
    s.(times := s.times + [now], goodputs := s.goodputs + [g],
       missingCounts := s.missingCounts + [|s.missing|], receivedCounts := s.receivedCounts + [s.totalReceived])
  }

  /**
   * The checkpoint after a window. workspace/server.py resets the guard to
   * the goodput percentage `received / (received + missing) * 100`;
   * workspace/server_claude.py to `total_received // 1000`.
   */
  function Checkpointed(s: State, v: Variant, now: int): State
  {
    if CheckpointDue(s) then
      var guard := match v
        case Original => Goodput(s)
        case Corrected => Ratio(s.totalReceived / CheckpointEvery, 1);
      AppendPoint(s, now, Goodput(s)).(lastCheckpoint := guard)
    else s
  }

  /** What one message does: the new state, the reply if any, and whether `run` goes on. */
  datatype Outcome = Outcome(state: State, reply: Option<string>, running: bool)

  /** The reply after a window. */
  function AckText(lastAck: int): string
  {
    "ACK " + IntToDecimal(lastAck)
  }

  /** One pass of the `while True` loop of `run` over a received message. */
  function AfterMessage(s: State, v: Variant, text: string, now: int): Outcome
  {
    var toks := Tokens(text);
    if toks[0] == RetransmitTag then
      var p := Retransmitted(s, toks[1..]);
      Outcome(p.state, None, p.ok)
    else
      var c := Scanned(s, toks);
      if !c.ok then Outcome(c.state, None, false)
      else
        var w := c.state.(expected := Wrap(c.state.lastAck + 1));
        Outcome(Checkpointed(w, v, now), Some(AckText(w.lastAck)), true)
  }

  /**
   * A window message whose tokens all parse is answered with an `ACK`,
   * `missing_seq` is what the scan left, and the server then expects the
   * successor of `last_ack`, not the number the scan reached.
   */
  lemma {:induction false} AfterWindow(s: State, v: Variant, text: string, now: int)
    requires Tokens(text)[0] != RetransmitTag && Scanned(s, Tokens(text)).ok
    ensures var o := AfterMessage(s, v, text, now);
      o.running && o.reply.Some? && o.state.missing == Scanned(s, Tokens(text)).state.missing
      && o.state.expected == Wrap(Scanned(s, Tokens(text)).state.lastAck + 1)
  {
  }

  /** The final data point appended when the client closes, if anything was received. */
  function Finished(s: State, v: Variant, now: int): State
  {
    if s.totalReceived > 0 then
      var lost := match v
        case Original => s.totalMissing
        case Corrected => |s.missing|;
      AppendPoint(s, now, Ratio(100 * s.totalReceived, s.totalReceived + lost))
    else s
  }

  /** What `run` sees: a received message, or the end of the stream. */
  datatype Event = Data(text: string, now: int) | Closed(now: int)

  datatype Served = Served(state: State, replies: seq<string>)

  function ReplyList(r: Option<string>): seq<string>
  {
    match r
    case Some(t) => [t]
    case None => []
  }

  /** `run` over a sequence of events: it stops at the end of the stream or at a `ValueError`. */
  function Run(s: State, v: Variant, events: seq<Event>): Served
    decreases |events|
  {
    if events == [] then Served(s, [])
    else match events[0]
      case Closed(now) => Served(Finished(s, v, now), [])
      case Data(text, now) =>
        var o := AfterMessage(s, v, text, now);
        if !o.running then Served(o.state, ReplyList(o.reply))
        else
          var rest := Run(o.state, v, events[1..]);
          Served(rest.state, ReplyList(o.reply) + rest.replies)
  }

  /**
   * What every state of `run` satisfies: the four series have one entry
   * per checkpoint, the missing list never holds more entries than were
   * ever marked missing, and the guard has a positive denominator. In
   * workspace/server_claude.py the guard is a thousands count that does
   * not exceed `total_received // 1000` and bounds the number of
   * checkpoints taken.
   */
  predicate Valid(s: State, v: Variant)
  {
    && |s.times| == |s.goodputs| == |s.missingCounts| == |s.receivedCounts|
    && |s.missing| <= s.totalMissing
    && s.lastCheckpoint.den > 0
    && (v == Corrected ==>
          s.lastCheckpoint.den == 1
          && s.lastCheckpoint.num <= s.totalReceived / CheckpointEvery
          && |s.times| <= s.lastCheckpoint.num)
  }

  lemma {:induction false} InitialValid(v: Variant)
    ensures Valid(Initial(), v)
  {
  }

  lemma {:induction false} ThousandsMonotone(a: nat, b: nat)
    requires a <= b
    ensures a / CheckpointEvery <= b / CheckpointEvery
  {
  }

  /** A `RETRANSMIT` message keeps the invariant. */
  lemma {:induction false} RetransmittedValid(s: State, v: Variant, toks: seq<string>)
    requires Valid(s, v)
    ensures Valid(Retransmitted(s, toks).state, v)
  {
    var t := Retransmitted(s, toks).state;
    RetransmittedCounts(s, toks);
    ThousandsMonotone(s.totalReceived, t.totalReceived);
  }

  /** The window loop keeps the invariant, and so does the checkpoint after it. */
  lemma {:induction false} ScannedValid(s: State, v: Variant, toks: seq<string>, now: int)
    requires Valid(s, v)
    ensures Valid(Scanned(s, toks).state, v)
    ensures var w := Scanned(s, toks).state.(expected := Wrap(Scanned(s, toks).state.lastAck + 1));
      Valid(Checkpointed(w, v, now), v)
  {
    ScannedFrame(s, toks);
    var c := Scanned(s, toks).state;
    ThousandsMonotone(s.totalReceived, c.totalReceived);
    var w := c.(expected := Wrap(c.lastAck + 1));
    if CheckpointDue(w) && v == Original {
      assert w.totalReceived > 0;
    }
  }

  /** Every message keeps the invariant. */
  lemma {:induction false} AfterMessageValid(s: State, v: Variant, text: string, now: int)
    requires Valid(s, v)
    ensures Valid(AfterMessage(s, v, text, now).state, v)
  {
    var toks := Tokens(text);
    if toks[0] == RetransmitTag {
      RetransmittedValid(s, v, toks[1..]);
    } else {
      ScannedValid(s, v, toks, now);
    }
  }

  /** The close of the stream keeps the series in lockstep. */
  lemma {:induction false} FinishedValid(s: State, v: Variant, now: int)
    requires Valid(s, v)
    ensures var t := Finished(s, v, now);
      |t.times| == |t.goodputs| == |t.missingCounts| == |t.receivedCounts|
      && |t.missing| <= t.totalMissing
  {
  }

  /** A whole run keeps the four series in lockstep and the missing list within `total_missing`. */
  lemma {:induction false} RunValid(s: State, v: Variant, events: seq<Event>)
    requires Valid(s, v)
    ensures var t := Run(s, v, events).state;
      |t.times| == |t.goodputs| == |t.missingCounts| == |t.receivedCounts|
      && |t.missing| <= t.totalMissing
    decreases |events|
  {
    if events != [] {
      match events[0]
      case Closed(now) => FinishedValid(s, v, now);
      case Data(text, now) =>
        AfterMessageValid(s, v, text, now);
        RunValid(AfterMessage(s, v, text, now).state, v, events[1..]);
    }
  }

  /**
   * After a window, the server expects the sequence number after
   * `last_ack` and replies `ACK {last_ack}`; from the initial `last_ack =
   * -1` a window without any number leads it to expect 0.
   */
  lemma {:induction false} WindowReply(s: State, v: Variant, text: string, now: int)
    requires Tokens(text)[0] != RetransmitTag && AllParse(Tokens(text))
    ensures var o := AfterMessage(s, v, text, now);
      o.running && o.reply == Some(AckText(o.state.lastAck))
      && o.state.expected == Wrap(o.state.lastAck + 1)
      && (s.lastAck == -1 && Values(Tokens(text)) == [] ==> o.state.expected == 0)
  {
    ScannedCounts(s, Tokens(text));
  }

  /**
   * workspace/server_claude.py takes a checkpoint after a window exactly
   * when the thousands count of `total_received` has gone past the guard,
   * and the guard is then that count.
   */
  lemma {:induction false} CorrectedCheckpoint(s: State, now: int)
    requires Valid(s, Corrected)
    ensures var t := Checkpointed(s, Corrected, now);
      (|t.times| == |s.times| + 1 <==> s.totalReceived / CheckpointEvery > s.lastCheckpoint.num)
      && (|t.times| == |s.times| + 1 ==> t.lastCheckpoint == Ratio(s.totalReceived / CheckpointEvery, 1))
      && (|t.times| == |s.times| ==> t == s)
  {
  }

  /**
   * In workspace/server.py the guard becomes the goodput percentage: after
   * the first checkpoint at 1000 received with nothing missing it is 100,
   * so 2000 received packets take no checkpoint, where
   * workspace/server_claude.py takes one.
   */
  lemma {:induction false} OriginalCheckpointStalls(now: int, later: int)
    ensures var first := Checkpointed(Initial().(totalReceived := 1000), Original, now);
      |first.times| == 1 && first.lastCheckpoint == Ratio(100000, 1000)
      && Checkpointed(first.(totalReceived := 2000), Original, later) == first.(totalReceived := 2000)
    ensures var first := Checkpointed(Initial().(totalReceived := 1000), Corrected, now);
      |first.times| == 1
      && |Checkpointed(first.(totalReceived := 2000), Corrected, later).times| == 2
  {
  }

  /**
   * A checkpoint records the goodput as a percentage of the packets
   * accounted for: at most 100, and exactly 100 when nothing is missing.
   */
  lemma {:induction false} CheckpointPercent(s: State, v: Variant, now: int)
    requires CheckpointDue(s) && s.totalReceived > 0
    ensures var t := Checkpointed(s, v, now);
      var g := t.goodputs[|s.goodputs|];
      |t.goodputs| == |s.goodputs| + 1 && t.times == s.times + [now]
      && g.den == s.totalReceived + |s.missing| && g.num <= 100 * g.den
      && (g.num == 100 * g.den <==> s.missing == [])
      && t.missingCounts == s.missingCounts + [|s.missing|]
      && t.receivedCounts == s.receivedCounts + [s.totalReceived]
  {
  }

  /**
   * The final goodput is a percentage too: workspace/server_claude.py
   * reaches 100 exactly when the missing list is empty, workspace/server.py
   * exactly when `total_missing` is 0.
   */
  lemma {:induction false} FinishedPercent(s: State, v: Variant, now: int)
    requires s.totalReceived > 0
    ensures var t := Finished(s, v, now);
      var g := t.goodputs[|s.goodputs|];
      |t.goodputs| == |s.goodputs| + 1 && t.times == s.times + [now]
      && g.num == 100 * s.totalReceived && g.num <= 100 * g.den
      && (v == Corrected ==> (g.num == 100 * g.den <==> s.missing == []))
      && (v == Original ==> (g.num == 100 * g.den <==> s.totalMissing == 0))
  {
  }

  /** The server object of either file. */
  class Server {
    const variant: Variant
    var expected: int
    var lastAck: int
    var missing: seq<int>
    var totalReceived: nat
    var totalMissing: nat
    var times: seq<int>
    var goodputs: seq<Ratio>
    var missingCounts: seq<nat>
    var receivedCounts: seq<nat>
    var lastCheckpoint: Ratio

    function Snap(): State
      reads this
    {
      State(expected, lastAck, missing, totalReceived, totalMissing, times, goodputs, missingCounts, receivedCounts, lastCheckpoint)
    }

    constructor (v: Variant)
      ensures variant == v && Snap() == Initial()
    {
      variant := v;
      expected, lastAck, missing := 0, -1, [];
      totalReceived, totalMissing := 0, 0;
      times, goodputs, missingCounts, receivedCounts := [], [], [], [];
      lastCheckpoint := Ratio(0, 1);
    }

    /** `reset`: every counter and list back to its initial value. */
    method Reset()
      modifies this
      ensures Snap() == Initial().(lastCheckpoint := old(lastCheckpoint))
    {
      expected, lastAck, missing := 0, -1, [];
      totalReceived, totalMissing := 0, 0;
      times, goodputs, missingCounts, receivedCounts := [], [], [], [];
    }

    /** The `RETRANSMIT` branch of `run`; `ok` is false when a token raised `ValueError`. */
    method ProcessRetransmit(toks: seq<string>) returns (ok: bool)
      modifies this`missing, this`totalReceived
      ensures Partial(Snap(), ok) == Retransmitted(old(Snap()), toks)
    {
      var i := 0;
      while i < |toks|
        invariant i <= |toks|
        invariant Partial(Snap(), true) == Retransmitted(old(Snap()), toks[..i])
      {
        assert toks[..i + 1][..i] == toks[..i];
        var tok := toks[i];
        if tok != Dropped {
          var n := PyInt(tok);
          if n.None? {
            assert toks[..i + 1] == toks[..i] + [tok];
            RetransmittedFailed(old(Snap()), toks, i);
            return false;
          }
          if n.value in missing {
            missing := RemoveFirst(missing, n.value);
            totalReceived := totalReceived + 1;
          }
        }
        i := i + 1;
      }
      assert toks[..i] == toks;
      return true;
    }

    /** The window loop of `run`; `ok` is false when a token raised `ValueError`. */
    method ProcessWindow(toks: seq<string>) returns (ok: bool)
      modifies this`missing, this`totalReceived, this`totalMissing, this`lastAck
      ensures Scanned(old(Snap()), toks) == Scan(Snap(), Scanned(old(Snap()), toks).current, ok)
    {
      var current := expected;
      var i := 0;
      while i < |toks|
        invariant i <= |toks|
        invariant Scan(Snap(), current, true) == Scanned(old(Snap()), toks[..i])
      {
        assert toks[..i + 1][..i] == toks[..i];
        var tok := toks[i];
        if tok != Dropped {
          var n := PyInt(tok);
          if n.None? {
            ScannedFailed(old(Snap()), toks, i);
            return false;
          }
          lastAck := n.value;
          totalReceived := totalReceived + 1;
          current := (n.value + 1) % Modulus;
        } else {
          missing := missing + [current];
          totalMissing := totalMissing + 1;
          current := (current + 1) % Modulus;
        }
        i := i + 1;
      }
      assert toks[..i] == toks;
      return true;
    }

    /** The checkpoint block after a window. */
    method Checkpoint(now: int)
      modifies this`times, this`goodputs, this`missingCounts, this`receivedCounts, this`lastCheckpoint
      ensures Snap() == Checkpointed(old(Snap()), variant, now)
    {
      if (totalReceived / CheckpointEvery) * lastCheckpoint.den > lastCheckpoint.num {
        var g := Ratio(100 * totalReceived, totalReceived + |missing|);
        lastCheckpoint := match variant
          case Original => g
          case Corrected => Ratio(totalReceived / CheckpointEvery, 1);
        times := times + [now];
        goodputs := goodputs + [g];
        missingCounts := missingCounts + [|missing|];
        receivedCounts := receivedCounts + [totalReceived];
      }
    }

    /** One pass of the loop of `run` over a received message. */
    method HandleMessage(text: string, now: int) returns (reply: Option<string>, running: bool)
      modifies this
      ensures AfterMessage(old(Snap()), variant, text, now) == Outcome(Snap(), reply, running)
    {
      var toks := Split(Strip(text), ' ');
      if toks[0] == RetransmitTag {
        running := ProcessRetransmit(toks[1..]);
        reply := None;
        return;
      }
      running := ProcessWindow(toks);
      if !running {
        reply := None;
        return;
      }
      expected := (lastAck + 1) % Modulus;
      reply := Some(AckText(lastAck));
      Checkpoint(now);
    }

    /** The final statistics when the client closes the connection. */
    method Finish(now: int)
      modifies this`times, this`goodputs, this`missingCounts, this`receivedCounts
      ensures Snap() == Finished(old(Snap()), variant, now)
    {
      if totalReceived > 0 {
        var lost := match variant
          case Original => totalMissing
          case Corrected => |missing|;
        times := times + [now];
        goodputs := goodputs + [Ratio(100 * totalReceived, totalReceived + lost)];
        missingCounts := missingCounts + [|missing|];
        receivedCounts := receivedCounts + [totalReceived];
      }
    }

    /** `run`: start the guard at 0 and serve the events until the stream ends or a token fails to parse. */
    method RunLoop(events: seq<Event>) returns (replies: seq<string>)
      modifies this
      ensures Run(old(Snap()).(lastCheckpoint := Ratio(0, 1)), variant, events) == Served(Snap(), replies)
    {
      lastCheckpoint := Ratio(0, 1);
      ghost var goal := Run(Snap(), variant, events);
      replies := [];
      var i := 0;
      while i < |events|
        invariant i <= |events|
        invariant Run(Snap(), variant, events[i..]).state == goal.state
        invariant replies + Run(Snap(), variant, events[i..]).replies == goal.replies
        decreases |events| - i
      {
        assert events[i..][1..] == events[i + 1..];
        match events[i] {
          case Closed(now) =>
            Finish(now);
            assert replies == goal.replies;
            return;
          case Data(text, now) =>
            var reply, running := HandleMessage(text, now);
            AppendAssoc(replies, ReplyList(reply), Run(Snap(), variant, events[i + 1..]).replies);
            replies := replies + ReplyList(reply);
            if !running {
              return;
            }
        }
        i := i + 1;
      }
    }
  }

  /** A token that `int()` rejects ends the `RETRANSMIT` loop with the state it had reached. */
  lemma {:induction false} RetransmittedFailed(s: State, toks: seq<string>, i: int)
    requires 0 <= i < |toks| && toks[i] != Dropped && PyInt(toks[i]).None?
    requires Retransmitted(s, toks[..i]).ok
    ensures Retransmitted(s, toks) == Partial(Retransmitted(s, toks[..i]).state, false)
  {
    RetransmittedStops(s, toks, i + 1);
    assert toks[..i + 1][..i] == toks[..i];
  }

  lemma {:induction false} RetransmittedStops(s: State, toks: seq<string>, k: int)
    requires 0 < k <= |toks| && !Retransmitted(s, toks[..k]).ok
    ensures Retransmitted(s, toks) == Retransmitted(s, toks[..k])
    decreases |toks| - k
  {
    if k < |toks| {
      assert toks[..k + 1][..k] == toks[..k];
      RetransmittedStops(s, toks, k + 1);
    } else {
      assert toks[..k] == toks;
    }
  }

  /** A token that `int()` rejects ends the window loop with the state it had reached. */
  lemma {:induction false} ScannedFailed(s: State, toks: seq<string>, i: int)
    requires 0 <= i < |toks| && toks[i] != Dropped && PyInt(toks[i]).None?
    requires Scanned(s, toks[..i]).ok
    ensures Scanned(s, toks) == Scanned(s, toks[..i]).(ok := false)
  {
    ScannedStops(s, toks, i + 1);
    assert toks[..i + 1][..i] == toks[..i];
  }

  lemma {:induction false} ScannedStops(s: State, toks: seq<string>, k: int)
    requires 0 < k <= |toks| && !Scanned(s, toks[..k]).ok
    ensures Scanned(s, toks) == Scanned(s, toks[..k])
    decreases |toks| - k
  {
    if k < |toks| {
      assert toks[..k + 1][..k] == toks[..k];
      ScannedStops(s, toks, k + 1);
    } else {
      assert toks[..k] == toks;
    }
  }

  /** Scanning one more token is one more window step. */
  lemma {:induction false} ScannedSnoc(s: State, toks: seq<string>, t: string)
    ensures Scanned(s, toks + [t]) == WindowStep(Scanned(s, toks), t)
  {
    assert (toks + [t])[..|toks|] == toks;
  }
}
