/**
 * The new-packet path and the transfer loop of tcp/claude/client.py. It
 * shares `ProtocolState`, the retransmission pass, ack processing and the
 * window rule with tcp/gpt/client.py (module `SenderRules`), but its
 * admission loop differs in three ways: a drop of a sequence number that is
 * already in `dropped_packets` leaves its entry alone, a send error ends the
 * admission loop, and the every-100-packets retransmission cycle runs
 * inside the admission loop, right after the packet that completes it.
 */
module ClaudeClient {
  import opened Common
  import opened SeqSpace
  import opened SenderRules
  import PacketLine
  import GptClient

  /**
   * The outcome of one pass of the admission loop: what happened to the
   * new packet, and the outcome of each resend should this pass run the
   * retransmission cycle.
   */
  datatype Step = Step(attempt: Attempt, fate: int -> Attempt)

  /** The text sent for a new packet: `f"{seq},{dynamic_window},0\n"`. */
  function NewPacketText(s: Snapshot): string
  {
    PacketLine.Format(PacketLine.Packet(s.next, s.window, 0)) + "\n"
  }

  /**
   * What one new packet does to the maps before the counters move: a drop
   * records `seq` with count 0 and raises the drop flag only when `seq` is
   * not already recorded; a delivered send records it as outstanding.
   */
  function Record(s: Snapshot, a: Attempt): (r: Snapshot)
    requires a != SendError
    ensures s.next in s.dropped ==> r.dropped == s.dropped
    ensures a == Dropped ==> s.next in r.dropped && r.outstanding == s.outstanding
    ensures a == Dropped && s.next !in s.dropped ==> r.dropped == s.dropped[s.next := 0] && r.dropOccurred
    ensures a == Delivered ==> r.dropped == s.dropped && r.outstanding == s.outstanding[s.next := 0]
    ensures a == Delivered || s.next in s.dropped ==> r.dropOccurred == s.dropOccurred
    ensures r.window == s.window && r.next == s.next && r.sent == s.sent && r.since == s.since
  {
    if a == Dropped then
      if s.next in s.dropped then s else s.(dropped := s.dropped[s.next := 0], dropOccurred := true)
    else s.(outstanding := s.outstanding[s.next := 0])
  }

  /** One pass of the admission loop that did not end in a send error. */
  function AdmitStep(s: Snapshot, step: Step): (r: Snapshot)
    requires step.attempt != SendError
    ensures r.next == Next(s.next) && r.sent == s.sent + 1
  {
    var r := Record(s, step.attempt);
    var counted := r.(sent := r.sent + 1, since := r.since + 1, next := Next(r.next));
    if counted.since >= RetransmitInterval then RetransmitCycle(counted, step.fate) else counted
  }

  /**
   * The admission loop of `transfer_data`, driven by the outcomes of its
   * passes: it stops when the window is full, every new packet is out, the
   * outcomes run out, or a send raises.
   */
  function Admit(s: Snapshot, total: int, steps: seq<Step>): Snapshot
    decreases |steps|
  {
    if steps == [] || !CanAdmit(s, total) || steps[0].attempt == SendError then s
    else Admit(AdmitStep(s, steps[0]), total, steps[1..])
  }

  /**
   * The retransmission cycle runs as soon as 100 new packets have gone out
   * since the last one, so between passes the counter stays below 100; the
   * window stays within [1, 32]; and no more than `total` packets are sent.
   */
  lemma {:induction false} AdmitKeepsCounters(s: Snapshot, total: int, steps: seq<Step>)
    requires 0 <= s.since < RetransmitInterval
    requires 1 <= s.window <= MaxWindow
    requires s.sent <= total
    ensures var t := Admit(s, total, steps);
      0 <= t.since < RetransmitInterval && 1 <= t.window <= MaxWindow && s.sent <= t.sent <= total
    decreases |steps|
  {
    if steps != [] && CanAdmit(s, total) && steps[0].attempt != SendError {
      AdmitKeepsCounters(AdmitStep(s, steps[0]), total, steps[1..]);
    }
  }

  /**
   * Every new packet counted moves the sequence number on to its successor:
   * after admission it is as many successors ahead as packets were counted.
   */
  lemma {:induction false} AdmitSteps(s: Snapshot, total: int, steps: seq<Step>) returns (k: nat)
    ensures var t := Admit(s, total, steps);
      t.sent == s.sent + k && t.next == Advance(s.next, k)
    decreases |steps|
  {
    if steps != [] && CanAdmit(s, total) && steps[0].attempt != SendError {
      var s' := AdmitStep(s, steps[0]);
      var k' := AdmitSteps(s', total, steps[1..]);
      k := k' + 1;
      AdvanceStep(s.next, s'.next, k, k');
    } else {
      k := 0;
    }
  }

  /**
   * Sequence numbers are handed out consecutively: after admission the
   * current sequence number has moved on by the number of new packets
   * counted, modulo 65536.
   */
  lemma {:induction false} AdmitAdvancesSequence(s: Snapshot, total: int, steps: seq<Step>)
    requires InRange(s.next)
    ensures var t := Admit(s, total, steps);
      t.next == Wrap(s.next + (t.sent - s.sent))
  {
    var k := AdmitSteps(s, total, steps);
    AdvanceWraps(s.next, k);
  }

  /** A send error ends admission on the spot, whatever outcomes follow. */
  lemma {:induction false} SendErrorEndsAdmission(s: Snapshot, total: int, f: int -> Attempt, rest: seq<Step>)
    ensures Admit(s, total, [Step(SendError, f)] + rest) == s
  {
  }

  /**
   * A drop of a sequence number still recorded from an earlier lap keeps
   * that entry's retransmission count, where the gpt client resets it to 0.
   */
  lemma {:induction false} RedropKeepsCount(s: Snapshot)
    requires s.next in s.dropped
    ensures Record(s, Dropped).dropped[s.next] == s.dropped[s.next]
    ensures GptClient.SendNew(s, Dropped).dropped[s.next] == 0
  {
  }

  /**
   * One pass of the admission loop on the client's `ProtocolState`.
   * Returns whether a send error ended the loop, and the text written to the
   * socket, if any.
   */
  method AdmitOne(st: ProtocolState, step: Step) returns (broke: bool, wire: Option<string>)
    modifies st
    ensures broke <==> step.attempt == SendError
    ensures broke ==> st.Snap() == old(st.Snap())
    ensures !broke ==> st.Snap() == AdmitStep(old(st.Snap()), step)
    ensures wire == if step.attempt == Delivered then Some(NewPacketText(old(st.Snap()))) else None
  {
    var sn := st.next;
    wire := None;
    match step.attempt {
      case Dropped =>
        if sn !in st.dropped {
          st.dropped := st.dropped[sn := 0];
          st.dropOccurred := true;
        }
      case Delivered =>
        wire := Some(NewPacketText(st.Snap()));
        st.outstanding := st.outstanding[sn := 0];
      case SendError =>
        return true, None;
    }
    broke := false;
    st.sent := st.sent + 1;
    st.since := st.since + 1;
    st.next := (st.next + 1) % Modulus;
    if st.since >= RetransmitInterval {
      st.RunRetransmitCycle(step.fate);
    }
  }

  /** The admission loop of `transfer_data`. */
  method FillWindow(st: ProtocolState, total: int, steps: seq<Step>) returns (used: nat)
    modifies st
    ensures st.Snap() == Admit(old(st.Snap()), total, steps)
    ensures used <= |steps|
  {
    used := 0;
    while used < |steps| && |st.outstanding| < st.window && st.sent < total
      invariant used <= |steps|
      invariant Admit(st.Snap(), total, steps[used..]) == Admit(old(st.Snap()), total, steps)
      decreases |steps| - used
    {
      assert steps[used..][1..] == steps[used + 1..];
      var broke, _ := AdmitOne(st, steps[used]);
      if broke {
        break;
      }
      used := used + 1;
    }
  }

  /**
   * One pass of the outer loop after admission: process the received acks
   * and, once every new packet is out and something is still dropped, run a
   * retransmission pass.
   */
  function AfterAdmission(s: Snapshot, total: int, acks: seq<string>, finalFate: int -> Attempt): Snapshot
  {
    var acked := s.(outstanding := AckLines(s.outstanding, acks));
    if acked.sent >= total && acked.dropped != map[] then RetransmitPass(acked, finalFate) else acked
  }

  /**
   * A whole pass of the outer loop keeps the counter since the last cycle
   * below 100, the window within [1, 32] and the new-packet count within
   * `total`.
   */
  lemma {:induction false} TransferStepKeepsCounters(s: Snapshot, total: int, steps: seq<Step>, acks: seq<string>, finalFate: int -> Attempt)
    requires 0 <= s.since < RetransmitInterval && 1 <= s.window <= MaxWindow && s.sent <= total
    ensures var t := AfterAdmission(Admit(s, total, steps), total, acks, finalFate);
      0 <= t.since < RetransmitInterval && 1 <= t.window <= MaxWindow && t.sent <= total
  {
    AdmitKeepsCounters(s, total, steps);
  }

  /** One iteration of the outer loop of `transfer_data`. */
  method TransferStep(st: ProtocolState, total: int, steps: seq<Step>, acks: seq<string>, finalFate: int -> Attempt)
    modifies st
    ensures st.Snap() == AfterAdmission(Admit(old(st.Snap()), total, steps), total, acks, finalFate)
  {
    var _ := FillWindow(st, total, steps);
    st.ProcessAcks(acks);
    if st.sent >= total && st.dropped != map[] {
      st.RetransmitDropped(finalFate);
    }
  }
}
