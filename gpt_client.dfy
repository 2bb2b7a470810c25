/**
 * The new-packet path and the transfer loop of tcp/gpt/client.py. The
 * shared state, the retransmission pass, ack processing and window
 * adaptation are in `SenderRules`.
 */
module GptClient {
  import opened Common
  import opened SeqSpace
  import opened SenderRules
  import PacketLine

  /** The text sent for a new packet: `f"{seq},{window_size},0\n"`. */
  function NewPacketText(s: Snapshot): string
  {
    PacketLine.Format(PacketLine.Packet(s.next, s.window, 0)) + "\n"
  }

  /**
   * `_send_new_packet`: a drop records the packet in `dropped` with count 0
   * and raises the drop flag, a delivered send records it in `outstanding`
   * with count 0; both then advance the counters and the sequence number.
   * A send error returns before the counters are touched.
   */
  function SendNew(s: Snapshot, a: Attempt): (r: Snapshot)
    ensures a != SendError ==> r.next == Next(s.next) && r.sent == s.sent + 1 && r.since == s.since + 1 && r.window == s.window
    ensures a == SendError ==> r == s
  {
    var counted := s.(sent := s.sent + 1, since := s.since + 1, next := Next(s.next));
    match a
    case Dropped => counted.(dropped := s.dropped[s.next := 0], dropOccurred := true)
    case Delivered => counted.(outstanding := s.outstanding[s.next := 0])
    case SendError => s
  }

  /** Where `SendNew` records the packet: in `dropped` on a drop, in `outstanding` on a delivery. */
  lemma {:induction false} SendNewRecords(s: Snapshot, a: Attempt)
    ensures var r := SendNew(s, a);
      a == Dropped ==>
        r.dropped.Keys == s.dropped.Keys + {s.next} && r.dropped[s.next] == 0
        && r.dropOccurred && r.outstanding == s.outstanding
    ensures var r := SendNew(s, a);
      a == Delivered ==>
        && r.outstanding.Keys == s.outstanding.Keys + {s.next} && r.outstanding[s.next] == 0
        && r.dropped == s.dropped && r.dropOccurred == s.dropOccurred
  {
  }

  /**
   * The inner admission loop, driven by the outcomes of successive send
   * attempts: it stops when the condition fails or the outcomes run out.
   */
  function Admit(s: Snapshot, total: int, attempts: seq<Attempt>): Snapshot
    decreases |attempts|
  {
    if attempts == [] || !CanAdmit(s, total) then s
    else Admit(SendNew(s, attempts[0]), total, attempts[1..])
  }

  /**
   * Admission never sends past `total_packets`, and only a packet sent
   * while fewer than `window_size` are outstanding enlarges `outstanding`,
   * so admission alone keeps `|outstanding|` within the larger of its
   * previous size and the window.
   */
  lemma {:induction false} AdmitBounds(s: Snapshot, total: int, attempts: seq<Attempt>)
    requires s.sent <= total
    ensures var t := Admit(s, total, attempts);
      s.sent <= t.sent <= total
      && t.window == s.window
      && |t.outstanding| <= if |s.outstanding| <= s.window then s.window else |s.outstanding|
    decreases |attempts|
  {
    if attempts != [] && CanAdmit(s, total) {
      var s' := SendNew(s, attempts[0]);
      assert |s'.outstanding| <= |s.outstanding| + 1;
      AdmitBounds(s', total, attempts[1..]);
    }
  }

  /**
   * Every packet counted in `total_sent` moved `next_sequence` on to its
   * successor: after admission it is as many successors ahead as packets
   * were counted.
   */
  lemma {:induction false} AdmitSteps(s: Snapshot, total: int, attempts: seq<Attempt>) returns (k: nat)
    ensures var t := Admit(s, total, attempts);
      t.sent == s.sent + k && t.next == Advance(s.next, k)
    decreases |attempts|
  {
    if attempts != [] && CanAdmit(s, total) {
      var s' := SendNew(s, attempts[0]);
      var k' := AdmitSteps(s', total, attempts[1..]);
      if attempts[0] != SendError {
        k := k' + 1;
        AdvanceStep(s.next, s'.next, k, k');
      } else {
        k := k';
      }
    } else {
      k := 0;
    }
  }

  /**
   * Sequence numbers are handed out consecutively: after admission,
   * `next_sequence` has moved on by exactly the number of packets counted
   * in `total_sent`, modulo 65536.
   */
  lemma {:induction false} AdmitAdvancesSequence(s: Snapshot, total: int, attempts: seq<Attempt>)
    requires InRange(s.next)
    ensures var t := Admit(s, total, attempts);
      t.next == Wrap(s.next + (t.sent - s.sent))
  {
    var k := AdmitSteps(s, total, attempts);
    AdvanceWraps(s.next, k);
  }

  /**
   * A send error changes nothing, so the loop retries the same sequence
   * number: an error followed by a delivery has the effect of the delivery.
   */
  lemma {:induction false} SendErrorRetriesSameSequence(s: Snapshot, total: int, rest: seq<Attempt>)
    requires CanAdmit(s, total)
    ensures Admit(s, total, [SendError] + rest) == Admit(s, total, rest)
  {
    assert ([SendError] + rest)[1..] == rest;
  }

  /**
   * `_send_new_packet` on the client's `ProtocolState`; `a` is the outcome
   * of the simulated drop and of `sendall`. Returns the text written to the
   * socket, if any.
   */
  method SendNewPacket(st: ProtocolState, a: Attempt) returns (wire: Option<string>)
    modifies st
    ensures st.Snap() == SendNew(old(st.Snap()), a)
    ensures wire == if a == Delivered then Some(NewPacketText(old(st.Snap()))) else None
  {
    var sn := st.next;
    wire := None;
    match a {
      case Dropped =>
        st.dropped := st.dropped[sn := 0];
        st.dropOccurred := true;
      case Delivered =>
        wire := Some(NewPacketText(st.Snap()));
        st.outstanding := st.outstanding[sn := 0];
      case SendError =>
        return;
    }
    st.sent := st.sent + 1;
    st.since := st.since + 1;
    st.next := (sn + 1) % Modulus;
  }

  /**
   * The admission loop of `start_data_transfer`: send new packets while
   * fewer than `window_size` are outstanding and fewer than `total` have
   * been sent. `used` is the number of outcomes consumed; when it is less
   * than `|attempts|` the loop stopped because the condition failed.
   */
  method FillWindow(st: ProtocolState, total: int, attempts: seq<Attempt>) returns (used: nat)
    modifies st
    ensures st.Snap() == Admit(old(st.Snap()), total, attempts)
    ensures used <= |attempts|
    ensures used < |attempts| ==> !CanAdmit(st.Snap(), total)
  {
    used := 0;
    while used < |attempts| && |st.outstanding| < st.window && st.sent < total
      invariant used <= |attempts|
      invariant Admit(st.Snap(), total, attempts[used..]) == Admit(old(st.Snap()), total, attempts)
      decreases |attempts| - used
    {
      assert attempts[used..][1..] == attempts[used + 1..];
      var _ := SendNewPacket(st, attempts[used]);
      used := used + 1;
    }
  }

  /**
   * One pass of the outer loop of `start_data_transfer` after admission:
   * process the received acks; every `RETRANSMIT_INTERVAL` new packets run
   * a retransmission pass, reset the counter and adapt the window; once
   * every new packet is out and something is still dropped, run one more
   * retransmission pass.
   */
  function AfterAdmission(s: Snapshot, total: int, acks: seq<string>, fate: int -> Attempt, finalFate: int -> Attempt): Snapshot
  {
    var acked := s.(outstanding := AckLines(s.outstanding, acks));
    var cycled := if acked.since >= RetransmitInterval then RetransmitCycle(acked, fate) else acked;
    if cycled.sent >= total && cycled.dropped != map[] then RetransmitPass(cycled, finalFate) else cycled
  }

  /** Across a whole pass of the outer loop the window stays within [1, 32]. */
  lemma {:induction false} AfterAdmissionWindow(s: Snapshot, total: int, acks: seq<string>, fate: int -> Attempt, finalFate: int -> Attempt)
    requires 1 <= s.window <= MaxWindow
    ensures 1 <= AfterAdmission(s, total, acks, fate, finalFate).window <= MaxWindow
  {
  }

  /** One iteration of the outer loop of `start_data_transfer`. */
  method TransferStep(st: ProtocolState, total: int, attempts: seq<Attempt>, acks: seq<string>,
                      fate: int -> Attempt, finalFate: int -> Attempt)
    modifies st
    ensures st.Snap() == AfterAdmission(Admit(old(st.Snap()), total, attempts), total, acks, fate, finalFate)
  {
    var _ := FillWindow(st, total, attempts);
    st.ProcessAcks(acks);
    if st.since >= RetransmitInterval {
      st.RunRetransmitCycle(fate);
    }
    if st.sent >= total && st.dropped != map[] {
      st.RetransmitDropped(finalFate);
    }
  }
}
