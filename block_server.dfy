/**
 * The block servers, server.py and workspace/binary_server.py. A data
 * message is `"{start}:{bits}"`: bit `i` stands for sequence number
 * `(start + i) % 65536`, a '1' makes it the new `last_ack` and counts it as
 * received, a '0' records it as missing, and any other character is
 * skipped. Every data message is answered with the current `last_ack`. A
 * message starting with `R` carries big-endian 16-bit sequence numbers that
 * were retransmitted; each is counted and, if recorded as missing, taken
 * off the missing list once. A message starting with `F` ends the session.
 *
 * The two files differ only in that server.py also records the length of
 * the last bit string as its window size and keeps the periodic
 * `record_data` samples.
 */
module BlockServer {
  import opened Common
  import opened SeqSpace
  import opened Text
  import opened Bytes
  import opened Lists

  /** Which of the two servers: server.py or workspace/binary_server.py. */
  datatype Variant = TopLevel | Workspace

  /** The counters of a server, and the replies it has sent, in order. */
  datatype State = State(windowSize: int, totalRecv: nat, missing: seq<int>, lastAck: int, replies: seq<string>)

  /** The state after `__init__`: default window 500 in server.py and 32 in workspace/binary_server.py. */
  function Initial(v: Variant): State
  {
    State(if v == TopLevel then 500 else 32, 0, [], 0, [])
  }

  /** `conn.send(f"{self.last_ack}".encode())`. */
  function Reply(s: State): State
  {
    s.(replies := s.replies + [IntToDecimal(s.lastAck)])
  }

  /** One character of the bit string, standing for sequence number `sn`. */
  function BitStep(s: State, sn: int, b: char): State
  {
    if b == '1' then s.(lastAck := sn, totalRecv := s.totalRecv + 1)
    else if b == '0' then s.(missing := s.missing + [sn])
    else s
  }

  /** The loop over the bit string, one character per index. */
  function ApplyBits(s: State, start: int, bits: string): State
    decreases |bits|
  {
    if bits == [] then s
    else
      var n := |bits| - 1;
      BitStep(ApplyBits(s, start, bits[..n]), Wrap(start + n), bits[n])
  }

  /** The sequence numbers of the '0' bits, in order. */
  function Zeros(start: int, bits: string): seq<int>
    decreases |bits|
  {
    if bits == [] then []
    else (if bits[0] == '0' then [Wrap(start)] else []) + Zeros(start + 1, bits[1..])
  }

  lemma {:induction false} ZerosSnoc(start: int, bits: string, c: char)
    ensures Zeros(start, bits + [c]) == Zeros(start, bits) + (if c == '0' then [Wrap(start + |bits|)] else [])
    decreases |bits|
  {
    if bits == [] {
      assert ([] + [c])[1..] == [];
    } else {
      assert (bits + [c])[1..] == bits[1..] + [c];
      ZerosSnoc(start + 1, bits[1..], c);
      var head := if bits[0] == '0' then [Wrap(start)] else [];
      AppendAssoc(head, Zeros(start + 1, bits[1..]), if c == '0' then [Wrap(start + |bits|)] else []);
    }
  }

  /**
   * What a bit string does: the sequence numbers of its '0' bits are
   * appended to `missing_seqs` in order, `total_recv` grows by the number
   * of '1' bits, and `last_ack` becomes the sequence number of the last
   * '1' bit, or stays when there is none. Other characters still take up
   * an index.
   */
  lemma {:induction false} ApplyBitsEffect(s: State, start: int, bits: string)
    ensures var r := ApplyBits(s, start, bits);
      r.missing == s.missing + Zeros(start, bits)
      && r.totalRecv == s.totalRecv + multiset(bits)['1']
      && r.lastAck == (if LastOne(bits) < 0 then s.lastAck else Wrap(start + LastOne(bits)))
      && r.windowSize == s.windowSize && r.replies == s.replies
    decreases |bits|
  {
    if bits != [] {
      var n := |bits| - 1;
      var p := bits[..n];
      assert bits == p + [bits[n]];
      ApplyBitsEffect(s, start, p);
      ZerosSnoc(start, p, bits[n]);
      var t := ApplyBits(s, start, p);
      AppendAssoc(s.missing, Zeros(start, p), if bits[n] == '0' then [Wrap(start + n)] else []);
      assert multiset(bits) == multiset(p) + multiset{bits[n]};
    }
  }

  /** The index of the last '1' in `bits`, or -1 when there is none. */
  function LastOne(bits: string): (j: int)
    ensures -1 <= j < |bits|
    ensures j < 0 <==> forall k :: 0 <= k < |bits| ==> bits[k] != '1'
    ensures j >= 0 ==> bits[j] == '1' && forall k :: j < k < |bits| ==> bits[k] != '1'
    decreases |bits|
  {
    if bits == [] then -1
    else if bits[|bits| - 1] == '1' then |bits| - 1
    else LastOne(bits[..|bits| - 1])
  }

  /** `process_client_data` on the decoded text. */
  function ProcessText(s: State, v: Variant, text: string): State
  {
    if ':' !in text then Reply(s)
    else
      var parts := Split(text, ':');
      if |parts| < 2 then Reply(s)
      else match PyInt(parts[0])
        case None => Reply(s)
        case Some(start) =>
          var sized := if v == TopLevel then s.(windowSize := |parts[1]|) else s;
          Reply(ApplyBits(sized, start, parts[1]))
  }

  /** `process_client_data`: text that does not decode is the exception path, which replies too. */
  function ProcessData(s: State, v: Variant, data: seq<byte>): State
  {
    match Decode(data)
    case None => Reply(s)
    case Some(text) => ProcessText(s, v, text)
  }

  /**
   * Every data message is answered with exactly one reply, the `last_ack`
   * after the message; a message without ':' or with a start that is not
   * an integer changes nothing else; `missing_seqs` only grows at its end;
   * only server.py records the window size.
   */
  lemma {:induction false} ProcessTextEffect(s: State, v: Variant, text: string)
    ensures var r := ProcessText(s, v, text);
      r.replies == s.replies + [IntToDecimal(r.lastAck)]
      && (':' !in text ==> r == Reply(s))
      && (':' in text && PyInt(Split(text, ':')[0]).None? ==> r == Reply(s))
      && |s.missing| <= |r.missing| && r.missing[..|s.missing|] == s.missing
      && s.totalRecv <= r.totalRecv
      && (v == Workspace ==> r.windowSize == s.windowSize)
      && (v == TopLevel && ':' in text && PyInt(Split(text, ':')[0]).Some? && |Split(text, ':')| >= 2 ==>
            r.windowSize == |Split(text, ':')[1]|)
    ensures ':' in text ==> |Split(text, ':')| >= 2
  {
    if ':' in text {
      var parts := Split(text, ':');
      SplitHasSeparatorFields(text, ':');
      if PyInt(parts[0]).Some? {
        var sized := if v == TopLevel then s.(windowSize := |parts[1]|) else s;
        ApplyBitsEffect(sized, PyInt(parts[0]).value, parts[1]);
      }
    }
  }

  /** A text containing the separator splits into at least two fields. */
  lemma {:induction false} SplitHasSeparatorFields(s: string, sep: char)
    requires sep in s
    ensures |Split(s, sep)| >= 2
    decreases |s|
  {
    if s[0] != sep {
      SplitHasSeparatorFields(s[1..], sep);
    }
  }

  /** `process_client_retransmission`. */
  function Retransmission(s: State, data: seq<byte>): State
  {
    if |data| <= 1 then s
    else
      var payload := data[1..];
      var n := |payload| / 2;
      if n > 0 then s.(totalRecv := s.totalRecv + n, missing := RemoveEach(s.missing, UnpackU16(payload[..n * 2])))
      else s
  }

  /**
   * A retransmission message counts every 16-bit value after the first byte
   * as received and removes one occurrence of each from the missing list,
   * as far as it is there: the missing list loses exactly the multiset of
   * the values. An odd trailing byte is ignored, and nothing is replied.
   */
  lemma {:induction false} RetransmissionEffect(s: State, data: seq<byte>)
    requires |data| >= 1
    ensures var r := Retransmission(s, data);
      multiset(r.missing) == multiset(s.missing) - multiset(UnpackU16(data[1..]))
      && r.totalRecv == s.totalRecv + (|data| - 1) / 2
      && r.replies == s.replies && r.lastAck == s.lastAck && r.windowSize == s.windowSize
  {
    if |data| > 1 {
      var payload := data[1..];
      var n := |payload| / 2;
      if |payload| % 2 == 1 {
        assert payload == payload[..n * 2] + [payload[n * 2]];
        OddByteIgnored(payload[..n * 2], payload[n * 2]);
      } else {
        assert payload[..n * 2] == payload;
      }
      RemoveEachMultiset(s.missing, UnpackU16(payload[..n * 2]));
    }
  }

  /** `handshake`: the decoded, stripped text must be `network`. */
  function Accepts(data: seq<byte>): bool
  {
    match Decode(data)
    case None => false
    case Some(text) => Strip(text) == "network"
  }

  /** The handshake accepts the ASCII text `t` exactly when it is `network` up to surrounding whitespace. */
  lemma {:induction false} HandshakeText(t: string)
    requires IsAscii(t)
    ensures Accepts(Encode(t)) <==> Strip(t) == "network"
  {
    DecodeEncode(t);
  }

  /** What the first byte of a received message selects in `handle_client`. */
  datatype Kind = Broken | RetransmissionMessage | Finish | DataMessage

  /** An empty receive fails on `data[0]` and ends the session; `R` and `F` are tested by their byte value. */
  function Dispatch(data: seq<byte>): Kind
  {
    if data == [] then Broken
    else if data[0] == 'R' as int as byte then RetransmissionMessage
    else if data[0] == 'F' as int as byte then Finish
    else DataMessage
  }

  /** The loop of `handle_client` after the handshake, over the received messages. */
  function Session(s: State, v: Variant, msgs: seq<seq<byte>>): State
    decreases |msgs|
  {
    if msgs == [] then s
    else match Dispatch(msgs[0])
      case Broken => s
      case Finish => s
      case RetransmissionMessage => Session(Retransmission(s, msgs[0]), v, msgs[1..])
      case DataMessage => Session(ProcessData(s, v, msgs[0]), v, msgs[1..])
  }

  /** `handle_client`: the handshake, then the session if it succeeded. */
  function Serve(s: State, v: Variant, first: seq<byte>, msgs: seq<seq<byte>>): State
  {
    if Accepts(first) then Session(s.(replies := s.replies + ["success\n"]), v, msgs) else s
  }

  /** Nothing after a finish message is looked at. */
  lemma {:induction false} FinishEndsSession(s: State, v: Variant, m: seq<byte>, rest: seq<seq<byte>>)
    requires m != [] && m[0] == 'F' as int as byte
    ensures Session(s, v, [m] + rest) == s
  {
  }

  /** The invariant of a server: `last_ack` and every missing number are sequence numbers. */
  predicate Valid(s: State)
  {
    InRange(s.lastAck) && forall i :: 0 <= i < |s.missing| ==> InRange(s.missing[i])
  }

  lemma {:induction false} ApplyBitsValid(s: State, start: int, bits: string)
    requires Valid(s)
    ensures Valid(ApplyBits(s, start, bits))
    decreases |bits|
  {
    if bits != [] {
      ApplyBitsValid(s, start, bits[..|bits| - 1]);
    }
  }

  lemma {:induction false} RemoveEachValid(xs: seq<int>, vs: seq<int>)
    requires forall i :: 0 <= i < |xs| ==> InRange(xs[i])
    ensures forall i :: 0 <= i < |RemoveEach(xs, vs)| ==> InRange(RemoveEach(xs, vs)[i])
  {
    RemoveEachMultiset(xs, vs);
    forall i | 0 <= i < |RemoveEach(xs, vs)|
      ensures InRange(RemoveEach(xs, vs)[i])
    {
      var x := RemoveEach(xs, vs)[i];
      assert x in multiset(RemoveEach(xs, vs));
      assert x in multiset(xs);
    }
  }

  /** A whole session keeps the invariant, from the initial state on. */
  lemma {:induction false} SessionValid(s: State, v: Variant, msgs: seq<seq<byte>>)
    requires Valid(s)
    ensures Valid(Session(s, v, msgs))
    decreases |msgs|
  {
    if msgs != [] {
      match Dispatch(msgs[0])
      case Broken =>
      case Finish =>
      case RetransmissionMessage =>
        var m := msgs[0];
        if |m| > 1 && (|m| - 1) / 2 > 0 {
          RemoveEachValid(s.missing, UnpackU16(m[1..][..(|m| - 1) / 2 * 2]));
        }
        SessionValid(Retransmission(s, m), v, msgs[1..]);
      case DataMessage =>
        var m := msgs[0];
        if Decode(m).Some? {
          var text := Decode(m).value;
          if ':' in text && |Split(text, ':')| >= 2 && PyInt(Split(text, ':')[0]).Some? {
            var parts := Split(text, ':');
            var sized := if v == TopLevel then s.(windowSize := |parts[1]|) else s;
            ApplyBitsValid(sized, PyInt(parts[0]).value, parts[1]);
          }
        }
        SessionValid(ProcessData(s, v, m), v, msgs[1..]);
    }
  }

  /** One entry of `seqs_over_time` in server.py's `record_data`; the goodput is kept as a ratio. */
  datatype Sample = Sample(timestamp: int, windowSize: int, received: int, sent: nat, missing: nat, goodput: Ratio)

  function RecordData(s: State, now: int): Sample
  {
    Sample(now, s.windowSize, s.totalRecv - |s.missing|, s.totalRecv, |s.missing|,
           if s.totalRecv > 0 then Ratio(s.totalRecv, s.totalRecv + |s.missing|) else Ratio(0, 1))
  }

  /** The recorded goodput lies in [0, 1], and is 0 before anything was received. */
  lemma {:induction false} RecordDataGoodput(s: State, now: int)
    ensures var g := RecordData(s, now).goodput;
      InUnitInterval(g) && g.den > 0 && (s.totalRecv == 0 <==> g.num == 0)
  {
  }

  /**
   * The `received` column is `total_recv - len(missing_seqs)`, which goes
   * negative as soon as more bits are missing than received: one block
   * `"0:0"` from the start records -1.
   */
  lemma {:induction false} ReceivedCanBeNegative()
    ensures RecordData(ProcessText(Initial(TopLevel), TopLevel, "0:0"), 0).received == -1
  {
    SplitNoSep("0", ':');
    SplitFirstField("0", ':', "0");
    assert "0:0" == "0" + [':'] + "0";
    assert Strip("0") == "0";
    assert ParseInt("0") == Some(0);
    assert ApplyBits(Initial(TopLevel).(windowSize := 1), 0, "0").missing == [0];
  }

  /** A block server: server.py (`TopLevel`) or workspace/binary_server.py (`Workspace`). */
  class Server {
    const variant: Variant
    var windowSize: int
    var totalRecv: nat
    var missing: seq<int>
    var lastAck: int
    var replies: seq<string>
    var samples: seq<Sample>

    function Snap(): State
      reads this
    {
      State(windowSize, totalRecv, missing, lastAck, replies)
    }

    constructor (v: Variant)
      ensures variant == v && Snap() == Initial(v) && samples == []
    {
      variant := v;
      windowSize := if v == TopLevel then 500 else 32;
      totalRecv, missing, lastAck, replies := 0, [], 0, [];
      samples := [];
    }

    method SendLastAck()
      modifies this`replies
      ensures Snap() == Reply(old(Snap()))
    {
      replies := replies + [IntToDecimal(lastAck)];
    }

    /** `process_client_data`. */
    method ProcessClientData(data: seq<byte>)
      modifies this`windowSize, this`totalRecv, this`missing, this`lastAck, this`replies
      ensures Snap() == ProcessData(old(Snap()), variant, data)
    {
      var decoded := Decode(data);
      if decoded.None? {
        SendLastAck();
        return;
      }
      var text := decoded.value;
      if ':' !in text {
        SendLastAck();
        return;
      }
      var parts := Split(text, ':');
      if |parts| < 2 {
        SendLastAck();
        return;
      }
      var parsed := PyInt(parts[0]);
      if parsed.None? {
        SendLastAck();
        return;
      }
      var start, binary := parsed.value, parts[1];
      if variant == TopLevel {
        windowSize := |binary|;
      }
      ghost var sized := Snap();
      var count := 0;
      while count < |binary|
        invariant count <= |binary|
        invariant Snap() == ApplyBits(sized, start, binary[..count])
        decreases |binary| - count
      {
        assert binary[..count + 1][..count] == binary[..count];
        var sn := (start + count) % Modulus;
        var b := binary[count];
        if b == '1' {
          lastAck := sn;
          totalRecv := totalRecv + 1;
        } else if b == '0' {
          missing := missing + [sn];
        }
        count := count + 1;
      }
      assert binary[..count] == binary;
      SendLastAck();
    }

    /** `process_client_retransmission`. */
    method ProcessClientRetransmission(data: seq<byte>)
      modifies this`totalRecv, this`missing
      ensures Snap() == Retransmission(old(Snap()), data)
    {
      if |data| <= 1 {
        return;
      }
      var payload := data[1..];
      var n := |payload| / 2;
      if n > 0 {
        var seqs := UnpackU16(payload[..n * 2]);
        assert |seqs| == n;
        totalRecv := totalRecv + |seqs|;
        ghost var m0 := missing;
        var i := 0;
        while i < |seqs|
          invariant i <= |seqs|
          invariant totalRecv == old(totalRecv) + n
          invariant RemoveEach(missing, seqs[i..]) == RemoveEach(m0, seqs)
          decreases |seqs| - i
        {
          assert seqs[i..][1..] == seqs[i + 1..];
          if seqs[i] in missing {
            missing := RemoveFirst(missing, seqs[i]);
          }
          i := i + 1;
        }
        assert seqs[i..] == [];
      }
    }

    /** `handshake`: replies `success\n` when it succeeds. */
    method Handshake(data: seq<byte>) returns (ok: bool)
      modifies this`replies
      ensures ok == Accepts(data)
      ensures replies == old(replies) + if ok then ["success\n"] else []
    {
      var decoded := Decode(data);
      ok := decoded.Some? && Strip(decoded.value) == "network";
      if ok {
        replies := replies + ["success\n"];
      }
    }

    /** `handle_client`, over the first receive and the later ones. */
    method HandleClient(first: seq<byte>, msgs: seq<seq<byte>>)
      modifies this`windowSize, this`totalRecv, this`missing, this`lastAck, this`replies
      ensures Snap() == Serve(old(Snap()), variant, first, msgs)
    {
      var ok := Handshake(first);
      if ok {
        RunSession(msgs);
      }
    }

    /** The receive loop of `handle_client` after a successful handshake. */
    method RunSession(msgs: seq<seq<byte>>)
      modifies this`windowSize, this`totalRecv, this`missing, this`lastAck, this`replies
      ensures Snap() == Session(old(Snap()), variant, msgs)
    {
      var i := 0;
      while i < |msgs|
        invariant i <= |msgs|
        invariant Session(Snap(), variant, msgs[i..]) == Session(old(Snap()), variant, msgs)
        decreases |msgs| - i
      {
        assert msgs[i..] == [msgs[i]] + msgs[i + 1..];
        var done := HandleMessage(msgs[i], msgs[i + 1..]);
        if done {
          return;
        }
        i := i + 1;
      }
    }

    /** One pass of the receive loop of `handle_client`: whether it stops, and the message handled if not. */
    method HandleMessage(data: seq<byte>, ghost rest: seq<seq<byte>>) returns (done: bool)
      modifies this`windowSize, this`totalRecv, this`missing, this`lastAck, this`replies
      ensures done ==> Snap() == old(Snap()) == Session(old(Snap()), variant, [data] + rest)
      ensures !done ==> Session(Snap(), variant, rest) == Session(old(Snap()), variant, [data] + rest)
    {
      assert ([data] + rest)[0] == data && ([data] + rest)[1..] == rest;
      done := data == [] || data[0] == 'F' as int as byte;
      if done {
        return;
      }
      if data[0] == 'R' as int as byte {
        ProcessClientRetransmission(data);
      } else {
        ProcessClientData(data);
      }
    }

    /** `record_data`, run by the goodput timer of server.py. */
    method RecordSample(now: int)
      modifies this`samples
      ensures samples == old(samples) + [RecordData(Snap(), now)]
    {
      samples := samples + [RecordData(Snap(), now)];
    }
  }
}
