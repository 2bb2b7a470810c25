/**
 * The sender side shared by the two sliding-window clients in
 * tcp/gpt/client.py and tcp/claude/client.py: the `ProtocolState` record
 * (outstanding and dropped maps from sequence number to retransmission
 * count), the retransmission pass with its 4-retry ceiling, cumulative-ack
 * removal and the window adaptation rule. The two files implement these
 * identically apart from field names; the new-packet paths differ and live
 * in `GptClient` and `ClaudeClient`.
 *
 * The random drop and the socket's `sendall` are not modelled as effects:
 * the caller passes the outcome of each send attempt as an `Attempt`.
 */
module SenderRules {
  import opened SeqSpace
  import opened Text
  import opened Common

  const MaxRetransmissions: int := 4
  const MaxWindow: int := 32
  /** The window is capped at this size after a cycle with a drop. */
  const LossWindowCap: int := 16
  /** A retransmission pass runs after this many new packets. */
  const RetransmitInterval: int := 100

  /** What happened to one send attempt: the simulated drop fired, `sendall` went through, or it raised. */
  datatype Attempt = Dropped | Delivered | SendError

  /** A value copy of `ProtocolState`. */
  datatype Snapshot = Snapshot(
    window: int,
    next: int,
    sent: int,
    since: int,
    dropOccurred: bool,
    outstanding: map<int, int>,
    dropped: map<int, int>)

  /** The initial `ProtocolState()`: window 1, sequence 0, zero counters, no drop, empty maps. */
  function Initial(): (s: Snapshot)
    ensures s.outstanding == map[] && s.dropped == map[]
    ensures s.window == 1 && s.next == 0 && s.sent == 0 && s.since == 0 && !s.dropOccurred
  {
    Snapshot(1, 0, 0, 0, false, map[], map[])
  }

  function Min(a: int, b: int): int
  {
    if a <= b then a else b
  }

  /**
   * `_adjust_window` / `adjust_window`: the window after a cycle. A clean
   * cycle doubles it up to 32, a lossy one caps it at 16; it never shrinks
   * after a clean cycle, never grows after a lossy one and stays within
   * [1, 32] when it starts there.
   */
  function AdjustedWindow(w: int, dropOccurred: bool): (r: int)
    ensures 1 <= w <= MaxWindow ==> 1 <= r <= MaxWindow
    ensures !dropOccurred && 0 <= w <= MaxWindow ==> w <= r
    ensures !dropOccurred && 2 * w <= MaxWindow ==> r == 2 * w
    ensures !dropOccurred && 2 * w >= MaxWindow ==> r == MaxWindow
    ensures dropOccurred ==> r <= w && r <= LossWindowCap
    ensures dropOccurred && w <= LossWindowCap ==> r == w
    ensures dropOccurred && w >= LossWindowCap ==> r == LossWindowCap
  {
    if !dropOccurred then Min(w * 2, MaxWindow) else Min(w, LossWindowCap)
  }

  /** The window after a run of cycles, the i-th of which saw a drop iff `drops[i]`. */
  function WindowAfter(w: int, drops: seq<bool>): int
    decreases |drops|
  {
    if drops == [] then w else WindowAfter(AdjustedWindow(w, drops[0]), drops[1..])
  }

  /** From the initial window 1, any sequence of adjustments keeps the window in [1, 32]. */
  lemma {:induction false} WindowStaysInRange(w: int, drops: seq<bool>)
    requires 1 <= w <= MaxWindow
    ensures 1 <= WindowAfter(w, drops) <= MaxWindow
    decreases |drops|
  {
    if drops != [] {
      WindowStaysInRange(AdjustedWindow(w, drops[0]), drops[1..]);
    }
  }

  /** Five clean cycles from 1 reach the ceiling 32, and a lossy cycle then brings it to 16. */
  lemma {:induction false} WindowGrowthExample()
    ensures WindowAfter(1, [false, false, false, false, false]) == MaxWindow
    ensures WindowAfter(1, [false, false, false, false, false, false, true]) == LossWindowCap
  {
  }

  /**
   * The dropped map after a retransmission pass over the keys in `done`:
   * keys not yet visited keep their count; a visited key with count < 4 that
   * was dropped again stays with count + 1, one whose send raised stays with
   * its old count, and every other visited key is gone.
   */
  function DroppedAfter(d: map<int, int>, fate: int -> Attempt, done: set<int>): (r: map<int, int>)
  {
    map s | s in d && (s !in done || (d[s] < MaxRetransmissions && fate(s) != Delivered))
      :: if s in done && fate(s) == Dropped then d[s] + 1 else d[s]
  }

  /** The keys a pass over `done` moves into `outstanding`: count < 4 and the resend went through. */
  function ResentIn(d: map<int, int>, fate: int -> Attempt, done: set<int>): set<int>
  {
    set s | s in d && s in done && d[s] < MaxRetransmissions && fate(s) == Delivered
  }

  /** The outstanding map after a retransmission pass over `done`: resent keys enter with count + 1. */
  function OutstandingAfter(o: map<int, int>, d: map<int, int>, fate: int -> Attempt, done: set<int>): (r: map<int, int>)
  {
    map s | s in o.Keys + ResentIn(d, fate, done)
      :: if s in ResentIn(d, fate, done) then d[s] + 1 else o[s]
  }

  /** The keys a pass over `done` dropped again, which raises the drop flag. */
  function RedroppedIn(d: map<int, int>, fate: int -> Attempt, done: set<int>): set<int>
  {
    set s | s in d && s in done && d[s] < MaxRetransmissions && fate(s) == Dropped
  }

  /** Visiting one more key `sn` adds it to the re-dropped keys exactly when its resend is dropped again. */
  lemma {:induction false} RedroppedStep(d: map<int, int>, fate: int -> Attempt, done: set<int>, sn: int)
    requires sn in d && sn !in done
    ensures RedroppedIn(d, fate, done + {sn}) ==
      RedroppedIn(d, fate, done) + (if d[sn] < MaxRetransmissions && fate(sn) == Dropped then {sn} else {})
  {
  }

  /** Visiting one more key `sn` changes the dropped map at `sn` only. */
  lemma {:induction false} DroppedStep(d: map<int, int>, fate: int -> Attempt, done: set<int>, sn: int)
    requires sn in d && sn !in done
    ensures var d' := DroppedAfter(d, fate, done);
      DroppedAfter(d, fate, done + {sn}) ==
        if d[sn] >= MaxRetransmissions || fate(sn) == Delivered then d' - {sn}
        else if fate(sn) == Dropped then d'[sn := d[sn] + 1]
        else d'
  {
    var d' := DroppedAfter(d, fate, done);
    var d'' := DroppedAfter(d, fate, done + {sn});
    if d[sn] >= MaxRetransmissions || fate(sn) == Delivered {
      assert d''.Keys == d'.Keys - {sn};
    } else {
      assert d''.Keys == d'.Keys;
    }
  }

  lemma {:induction false} OutstandingStep(o: map<int, int>, d: map<int, int>, fate: int -> Attempt, done: set<int>, sn: int)
    requires sn in d && sn !in done
    ensures var o' := OutstandingAfter(o, d, fate, done);
      OutstandingAfter(o, d, fate, done + {sn}) ==
        if d[sn] < MaxRetransmissions && fate(sn) == Delivered then o'[sn := d[sn] + 1] else o'
  {
    if d[sn] < MaxRetransmissions && fate(sn) == Delivered {
      assert ResentIn(d, fate, done + {sn}) == ResentIn(d, fate, done) + {sn};
    } else {
      assert ResentIn(d, fate, done + {sn}) == ResentIn(d, fate, done);
    }
  }

  /** The map without the keys in `keys`. */
  function Without(o: map<int, int>, keys: set<int>): map<int, int>
  {
    map k | k in o && k !in keys :: o[k]
  }

  /** Removing one more key. */
  lemma {:induction false} WithoutStep(o: map<int, int>, keys: set<int>, k: int)
    ensures Without(o, keys + {k}) == Without(o, keys) - {k}
  {
  }

  /** Before any key is visited, nothing has changed. */
  lemma {:induction false} RetransmitNone(o: map<int, int>, d: map<int, int>, fate: int -> Attempt)
    ensures DroppedAfter(d, fate, {}) == d
    ensures OutstandingAfter(o, d, fate, {}) == o
    ensures RedroppedIn(d, fate, {}) == {}
  {
    assert ResentIn(d, fate, {}) == {};
  }

  /** `_retransmit_dropped` / `retransmit_dropped` over the whole dropped map. */
  function RetransmitPass(s: Snapshot, fate: int -> Attempt): Snapshot
  {
    s.(dropped := DroppedAfter(s.dropped, fate, s.dropped.Keys),
       outstanding := OutstandingAfter(s.outstanding, s.dropped, fate, s.dropped.Keys),
       dropOccurred := s.dropOccurred || RedroppedIn(s.dropped, fate, s.dropped.Keys) != {})
  }

  /**
   * The fate of every dropped entry after one pass: count >= 4 is deleted
   * without a send; otherwise a re-drop keeps it with count + 1, a delivered
   * resend moves it to `outstanding` with count + 1, and a send error keeps
   * it with its old count. Afterwards no dropped count exceeds 4.
   */
  lemma {:induction false} RetransmitPassEntry(s: Snapshot, fate: int -> Attempt, k: int)
    requires k in s.dropped
    ensures var t := RetransmitPass(s, fate);
      && (s.dropped[k] >= MaxRetransmissions ==>
            k !in t.dropped && (k in t.outstanding <==> k in s.outstanding))
      && (s.dropped[k] < MaxRetransmissions && fate(k) == Dropped ==>
            k in t.dropped && t.dropped[k] == s.dropped[k] + 1 && t.dropOccurred)
      && (s.dropped[k] < MaxRetransmissions && fate(k) == Delivered ==>
            k !in t.dropped && k in t.outstanding && t.outstanding[k] == s.dropped[k] + 1)
      && (s.dropped[k] < MaxRetransmissions && fate(k) == SendError ==>
            k in t.dropped && t.dropped[k] == s.dropped[k])
      && (forall j :: j in t.dropped ==> t.dropped[j] <= MaxRetransmissions)
  {
    var t := RetransmitPass(s, fate);
    if s.dropped[k] < MaxRetransmissions && fate(k) == Dropped {
      assert k in RedroppedIn(s.dropped, fate, s.dropped.Keys);
    }
  }

  /** A pass leaves the window, the sequence counter and the sent counters alone, and loses no outstanding entry. */
  lemma {:induction false} RetransmitPassFrame(s: Snapshot, fate: int -> Attempt)
    ensures var t := RetransmitPass(s, fate);
      t.window == s.window && t.next == s.next && t.sent == s.sent && t.since == s.since
      && s.outstanding.Keys <= t.outstanding.Keys
      && t.dropped.Keys <= s.dropped.Keys
  {
  }

  /**
   * Retransmitted entries enter `outstanding` without the admission check,
   * so `|outstanding| <= window` is not an invariant: with window 1, one
   * outstanding packet and one dropped packet that is resent, two packets
   * are outstanding.
   */
  lemma {:induction false} OutstandingCanExceedWindow()
    ensures var s := Snapshot(1, 2, 2, 0, true, map[0 := 0], map[1 := 0]);
      var t := RetransmitPass(s, _ => Delivered);
      |s.outstanding| <= s.window && |t.outstanding| > t.window
  {
    var s := Snapshot(1, 2, 2, 0, true, map[0 := 0], map[1 := 0]);
    var t := RetransmitPass(s, _ => Delivered);
    assert 1 in ResentIn(s.dropped, _ => Delivered, s.dropped.Keys);
    assert t.outstanding.Keys == {0, 1};
  }

  /** Removing, for one ack value, exactly the outstanding keys that are before it. */
  function Acked(o: map<int, int>, ack: int): (r: map<int, int>)
    ensures forall k :: k in r <==> k in o && !Before(k, ack)
    ensures forall k :: k in r ==> r[k] == o[k]
  {
    map k | k in o && !Before(k, ack) :: o[k]
  }

  /** Acking removes exactly the set of keys before the ack value. */
  lemma {:induction false} AckedIsWithout(o: map<int, int>, ack: int)
    ensures Acked(o, ack) == Without(o, set k | k in o && Before(k, ack))
  {
  }

  /** The ack value carried by one received line: stripped, blank and non-integer lines carry none. */
  function AckValue(line: string): Option<int>
  {
    var t := Strip(line);
    if t == [] then None else ParseInt(t)
  }

  /** `_process_acks` / `process_acks` over the received lines, in order. */
  function AckLines(o: map<int, int>, lines: seq<string>): map<int, int>
    decreases |lines|
  {
    if lines == [] then o
    else
      var o' := AckLines(o, lines[..|lines| - 1]);
      var v := AckValue(lines[|lines| - 1]);
      if v.Some? then Acked(o', v.value) else o'
  }

  /** The lines up to `i + 1` are those up to `i` followed by line `i`. */
  lemma {:induction false} AckLinesStep(o: map<int, int>, lines: seq<string>, i: nat)
    requires i < |lines|
    ensures var v := AckValue(lines[i]);
      AckLines(o, lines[..i + 1]) == if v.Some? then Acked(AckLines(o, lines[..i]), v.value) else AckLines(o, lines[..i])
  {
    assert lines[..i + 1][..i] == lines[..i];
    assert lines[..i + 1][i] == lines[i];
  }

  /** The ack values the lines carry. */
  function AckValues(lines: seq<string>): set<int>
    decreases |lines|
  {
    if lines == [] then {}
    else
      var init := AckValues(lines[..|lines| - 1]);
      var v := AckValue(lines[|lines| - 1]);
      if v.Some? then init + {v.value} else init
  }

  /**
   * Processing a batch of ack lines keeps exactly the outstanding entries
   * that are before none of the ack values, with their counts.
   */
  lemma {:induction false} AckLinesExactly(o: map<int, int>, lines: seq<string>, k: int)
    ensures k in AckLines(o, lines) <==> k in o && forall v :: v in AckValues(lines) ==> !Before(k, v)
    ensures k in AckLines(o, lines) ==> AckLines(o, lines)[k] == o[k]
    decreases |lines|
  {
    if lines != [] {
      AckLinesExactly(o, lines[..|lines| - 1], k);
    }
  }

  /**
   * What both clients do every `RETRANSMIT_INTERVAL` new packets: a
   * retransmission pass, a reset of the counter, and a window adjustment
   * that clears the drop flag.
   */
  function RetransmitCycle(s: Snapshot, fate: int -> Attempt): (r: Snapshot)
    ensures r.since == 0 && !r.dropOccurred && r.next == s.next && r.sent == s.sent
    ensures 1 <= s.window <= MaxWindow ==> 1 <= r.window <= MaxWindow
  {
    var t := RetransmitPass(s, fate);
    t.(since := 0, window := AdjustedWindow(t.window, t.dropOccurred), dropOccurred := false)
  }

  /** The admission condition of both clients' inner loop: room in the window and new packets left. */
  predicate CanAdmit(s: Snapshot, total: int)
  {
    |s.outstanding| < s.window && s.sent < total
  }

  /** `_incomplete_transfer`: new packets remain, or something is outstanding or dropped. */
  predicate Incomplete(s: Snapshot, total: int)
  {
    s.sent < total || s.outstanding != map[] || s.dropped != map[]
  }

  /** Once the transfer is complete, a retransmission pass and any ack leave the state as it is. */
  lemma {:induction false} CompleteIsStable(s: Snapshot, total: int, fate: int -> Attempt, lines: seq<string>)
    requires !Incomplete(s, total)
    ensures RetransmitPass(s, fate) == s
    ensures AckLines(s.outstanding, lines) == map[]
  {
    assert s.dropped.Keys == {};
    assert ResentIn(s.dropped, fate, s.dropped.Keys) == {};
    assert RedroppedIn(s.dropped, fate, s.dropped.Keys) == {};
    forall k ensures k !in AckLines(s.outstanding, lines) {
      AckLinesExactly(s.outstanding, lines, k);
    }
  }

  /**
   * One turn of the loop of `_retransmit_dropped`, for the entry `sn` of
   * the snapshot `items`, on the live dropped map `d`, the outstanding map
   * `o` and the drop flag: the state after visiting `done` becomes the
   * state after visiting `done` and `sn`.
   */
  method VisitDropped(items: map<int, int>, fate: int -> Attempt, ghost o0: map<int, int>, ghost flag0: bool,
                      ghost done: set<int>, sn: int, d: map<int, int>, o: map<int, int>, flag: bool)
    returns (d': map<int, int>, o': map<int, int>, flag': bool)
    requires sn in items && sn !in done
    requires d == DroppedAfter(items, fate, done)
    requires o == OutstandingAfter(o0, items, fate, done)
    requires flag == (flag0 || RedroppedIn(items, fate, done) != {})
    ensures d' == DroppedAfter(items, fate, done + {sn})
    ensures o' == OutstandingAfter(o0, items, fate, done + {sn})
    ensures flag' == (flag0 || RedroppedIn(items, fate, done + {sn}) != {})
  {
    DroppedStep(items, fate, done, sn);
    OutstandingStep(o0, items, fate, done, sn);
    RedroppedStep(items, fate, done, sn);
    d', o', flag' := d, o, flag;
    var count := items[sn];
    if count < MaxRetransmissions {
      var outcome := fate(sn);
      if outcome == Dropped {
        d' := d'[sn := count + 1];
        flag' := true;
      } else if outcome == Delivered {
        o' := o'[sn := count + 1];
        d' := d' - {sn};
      }
    } else {
      d' := d' - {sn};
    }
  }

  /** The mutable `ProtocolState`, shared by both clients. */
  class ProtocolState {
    var window: int
    var next: int
    var sent: int
    var since: int
    var dropOccurred: bool
    var outstanding: map<int, int>
    var dropped: map<int, int>

    function Snap(): Snapshot
      reads this
    {
      Snapshot(window, next, sent, since, dropOccurred, outstanding, dropped)
    }

    constructor ()
      ensures Snap() == Initial()
    {
      window, next, sent, since := 1, 0, 0, 0;
      dropOccurred := false;
      outstanding, dropped := map[], map[];
    }

    /** `_adjust_window` / `adjust_window`: adapt the window and clear the drop flag. */
    method AdjustWindow()
      modifies this
      ensures Snap() == old(Snap()).(window := AdjustedWindow(old(window), old(dropOccurred)), dropOccurred := false)
    {
      if !dropOccurred {
        window := Min(window * 2, MaxWindow);
      } else {
        window := if window > LossWindowCap then LossWindowCap else window;
      }
      dropOccurred := false;
    }

    /**
     * `_retransmit_dropped` / `retransmit_dropped`: one pass over a snapshot
     * of the dropped keys, in any order; `fate(sn)` is the outcome of the
     * resend of `sn`.
     */
    method RetransmitDropped(fate: int -> Attempt)
      modifies this`dropped, this`outstanding, this`dropOccurred
      ensures Snap() == RetransmitPass(old(Snap()), fate)
    {
      ghost var o0, flag0 := outstanding, dropOccurred;
      var items := dropped;
      var d, o, flag := dropped, outstanding, dropOccurred;
      var todo := items.Keys;
      ghost var done: set<int> := {};
      RetransmitNone(o0, items, fate);
      while todo != {}
        invariant unchanged(this)
        invariant todo !! done && todo + done == items.Keys
        invariant d == DroppedAfter(items, fate, done)
        invariant o == OutstandingAfter(o0, items, fate, done)
        invariant flag == (flag0 || RedroppedIn(items, fate, done) != {})
        decreases |todo|
      {
        var sn := Choose(todo);
        d, o, flag := VisitDropped(items, fate, o0, flag0, done, sn, d, o, flag);
        MoveVisited(todo, done, sn);
        todo := todo - {sn};
        done := done + {sn};
      }
      dropped, outstanding, dropOccurred := d, o, flag;
    }

    /** The pass, reset and adjustment run every `RETRANSMIT_INTERVAL` new packets. */
    method RunRetransmitCycle(fate: int -> Attempt)
      modifies this
      ensures Snap() == RetransmitCycle(old(Snap()), fate)
    {
      RetransmitDropped(fate);
      since := 0;
      AdjustWindow();
    }

    /** Drop the outstanding entries before `ack`, one at a time. */
    method RemoveAcked(ack: int)
      modifies this`outstanding
      ensures outstanding == Acked(old(outstanding), ack)
    {
      var o := outstanding;
      var toRemove := set k | k in o && Before(k, ack);
      ghost var removed: set<int> := {};
      while toRemove != {}
        invariant unchanged(this)
        invariant toRemove + removed == set k | k in outstanding && Before(k, ack)
        invariant toRemove !! removed
        invariant o == Without(outstanding, removed)
        decreases |toRemove|
      {
        var k := Choose(toRemove);
        WithoutStep(outstanding, removed, k);
        o := o - {k};
        toRemove := toRemove - {k};
        removed := removed + {k};
      }
      AckedIsWithout(outstanding, ack);
      outstanding := o;
    }

    /**
     * `_process_acks` / `process_acks` on the lines of one receive: blank
     * and non-integer lines are skipped, every other line removes the
     * outstanding entries before its value. `dropped` is never touched.
     */
    method ProcessAcks(lines: seq<string>)
      modifies this`outstanding
      ensures outstanding == AckLines(old(outstanding), lines)
    {
      var i := 0;
      while i < |lines|
        invariant 0 <= i <= |lines|
        invariant outstanding == AckLines(old(outstanding), lines[..i])
      {
        AckLinesStep(old(outstanding), lines, i);
        var line := Strip(lines[i]);
        if line != [] {
          var value := ParseInt(line);
          if value.Some? {
            RemoveAcked(value.value);
          }
        }
        i := i + 1;
      }
      assert lines[..i] == lines;
    }
  }
}
