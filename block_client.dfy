/**
 * The block client of workspace/binary_client.py, `handle_transmit`: it
 * sends one block `"{start}:{bits}"` of `window_size` bits starting just
 * after the last ack, one bit per packet ('0' for a simulated drop, '1'
 * otherwise), records the dropped sequence numbers, and reads the server's
 * reply as the new last ack, counting a wrap whenever the ack goes down.
 *
 * Together with `BlockServer` this gives the round trip of one block: the
 * server records as missing exactly the packets the client dropped, reduced
 * modulo 65536, and the client reads back the server's `last_ack`.
 */
module BlockClient {
  import opened Common
  import opened SeqSpace
  import opened Text
  import opened Bytes
  import BlockServer

  /** The state of a `PacketClient`, with the blocks it has sent. */
  datatype Client = Client(windowSize: nat, totalSent: nat, dropped: seq<int>, wrap: nat, lastAck: int, blocks: seq<string>)

  /** The state after `__init__` with the default window of 50. */
  function Initial(): Client
  {
    Client(50, 0, [], 0, -1, [])
  }

  /** The first `n` bits of a block: bit `i` is '0' when the drop oracle fires for it, '1' otherwise. */
  function Bits(drop: int -> bool, n: nat): (bits: string)
    ensures |bits| == n
  {
    if n == 0 then [] else Bits(drop, n - 1) + [if drop(n - 1) then '0' else '1']
  }

  /** Bit `i` of a block is '0' exactly where the drop roll for packet `i` fires. */
  lemma {:induction false} BitsAt(drop: int -> bool, n: nat)
    ensures forall i :: 0 <= i < n ==> Bits(drop, n)[i] == if drop(i) then '0' else '1'
    decreases n
  {
    if n > 0 {
      BitsAt(drop, n - 1);
      assert forall i :: 0 <= i < n - 1 ==> Bits(drop, n)[i] == Bits(drop, n - 1)[i];
    }
  }

  /** The sequence numbers appended to `dropped` for the first `n` bits, unreduced. */
  function DroppedIn(start: int, drop: int -> bool, n: nat): seq<int>
  {
    if n == 0 then [] else DroppedIn(start, drop, n - 1) + (if drop(n - 1) then [start + n - 1] else [])
  }

  /** The block text, `f'{start}:'` followed by the bits. */
  function BlockText(start: int, bits: string): string
  {
    IntToDecimal(start) + [':'] + bits
  }

  /** The outcome of `handle_transmit`: the new state, and whether the reply parsed as an integer. */
  datatype Transmit = Transmit(client: Client, ok: bool)

  /**
   * `handle_transmit` with the drop oracle `drop` and the server's reply
   * `reply`. A reply that `int()` rejects raises, which ends `run`; the
   * block has been sent and counted by then.
   */
  function AfterTransmit(c: Client, drop: int -> bool, reply: string): Transmit
  {
    var start := c.lastAck + 1;
    var sent := c.(dropped := c.dropped + DroppedIn(start, drop, c.windowSize),
                   totalSent := c.totalSent + c.windowSize,
                   blocks := c.blocks + [BlockText(start, Bits(drop, c.windowSize))]);
    match PyInt(reply)
    case None => Transmit(sent, false)
    case Some(ack) => Transmit(sent.(wrap := if c.lastAck > ack then c.wrap + 1 else c.wrap, lastAck := ack), true)
  }

  /** Every dropped index `i` contributes `start + i`, in order, and nothing else is recorded. */
  lemma {:induction false} DroppedInMembers(start: int, drop: int -> bool, n: nat)
    ensures forall x :: x in DroppedIn(start, drop, n) <==> exists i :: 0 <= i < n && drop(i) && x == start + i
    ensures |DroppedIn(start, drop, n)| <= n
    decreases n
  {
    if n > 0 {
      DroppedInMembers(start, drop, n - 1);
      forall x | x in DroppedIn(start, drop, n)
        ensures exists i :: 0 <= i < n && drop(i) && x == start + i
      {
        if x !in DroppedIn(start, drop, n - 1) {
          assert drop(n - 1) && x == start + (n - 1);
        }
      }
    }
  }

  /**
   * One block: the header is `last_ack + 1`, not reduced modulo 65536; the
   * block has `window_size` bits; `total_sent` grows by `window_size`
   * whatever was dropped; and `wrap` grows by one exactly when the new ack
   * is below the previous one.
   */
  lemma {:induction false} TransmitEffect(c: Client, drop: int -> bool, reply: string)
    ensures var r := AfterTransmit(c, drop, reply);
      r.client.blocks == c.blocks + [IntToDecimal(c.lastAck + 1) + [':'] + Bits(drop, c.windowSize)]
      && r.client.totalSent == c.totalSent + c.windowSize
      && |r.client.dropped| <= |c.dropped| + c.windowSize
      && (r.ok <==> PyInt(reply).Some?)
      && (r.ok ==> r.client.lastAck == PyInt(reply).value
                   && (r.client.wrap == c.wrap + 1 <==> PyInt(reply).value < c.lastAck)
                   && (r.client.wrap == c.wrap <==> PyInt(reply).value >= c.lastAck))
  {
    DroppedInMembers(c.lastAck + 1, drop, c.windowSize);
  }

  /** Every element of `xs`, reduced modulo 65536. */
  function WrapAll(xs: seq<int>): (r: seq<int>)
    ensures |r| == |xs| && forall i :: 0 <= i < |xs| ==> r[i] == Wrap(xs[i])
  {
    seq(|xs|, i requires 0 <= i < |xs| => Wrap(xs[i]))
  }

  /** The server's missing numbers for a block are the client's dropped numbers, reduced. */
  lemma {:induction false} ZerosOfBits(start: int, drop: int -> bool, n: nat)
    ensures BlockServer.Zeros(start, Bits(drop, n)) == WrapAll(DroppedIn(start, drop, n))
    decreases n
  {
    if n > 0 {
      var tail := if drop(n - 1) then [start + n - 1] else [];
      ZerosOfBits(start, drop, n - 1);
      BlockServer.ZerosSnoc(start, Bits(drop, n - 1), if drop(n - 1) then '0' else '1');
      assert WrapAll(DroppedIn(start, drop, n - 1) + tail) == WrapAll(DroppedIn(start, drop, n - 1)) + WrapAll(tail);
    }
  }

  /** The block text splits at ':' into the decimal start and the bits. */
  lemma {:induction false} SplitBlock(start: int, bits: string)
    requires ':' !in bits
    ensures Split(BlockText(start, bits), ':') == [IntToDecimal(start), bits]
  {
    DecimalHasNoSeparator(start);
    SplitFirstField(IntToDecimal(start), ':', bits);
    SplitNoSep(bits, ':');
  }

  /** The block is ASCII text whose first byte is a digit, so the server treats it as data. */
  lemma {:induction false} BlockIsData(start: int, drop: int -> bool, n: nat)
    requires start >= 0
    ensures IsAscii(BlockText(start, Bits(drop, n)))
    ensures BlockServer.Dispatch(Encode(BlockText(start, Bits(drop, n)))) == BlockServer.DataMessage
  {
    var text := BlockText(start, Bits(drop, n));
    var d := IntToDecimal(start);
    BitsAt(drop, n);
    assert forall i :: 0 <= i < |d| ==> text[i] == d[i];
    assert forall i :: |d| < i < |text| ==> text[i] == Bits(drop, n)[i - |d| - 1];
    assert d[0] != '-';
  }

  /**
   * The server's side of one block sent from `start >= 0`: it is a data
   * message, it decodes and splits into the start and the bits, and the
   * server runs its bit loop over them and replies.
   */
  lemma {:induction false} ServerReadsBlock(s: BlockServer.State, v: BlockServer.Variant, start: int, drop: int -> bool, n: nat)
    requires start >= 0
    ensures IsAscii(BlockText(start, Bits(drop, n)))
    ensures var bits := Bits(drop, n);
      var sized := if v == BlockServer.TopLevel then s.(windowSize := n) else s;
      BlockServer.Dispatch(Encode(BlockText(start, bits))) == BlockServer.DataMessage
      && BlockServer.ProcessData(s, v, Encode(BlockText(start, bits)))
           == BlockServer.Reply(BlockServer.ApplyBits(sized, start, bits))
  {
    var bits := Bits(drop, n);
    var text := BlockText(start, bits);
    BlockIsData(start, drop, n);
    DecodeEncode(text);
    assert ':' !in bits by {
      BitsAt(drop, n);
      forall i | 0 <= i < |bits| ensures bits[i] != ':' { }
    }
    SplitBlock(start, bits);
    ProcessBlockText(s, v, start, bits);
  }

  /** The server's text handling of a block whose bits hold no ':'. */
  lemma {:induction false} ProcessBlockText(s: BlockServer.State, v: BlockServer.Variant, start: int, bits: string)
    requires Split(BlockText(start, bits), ':') == [IntToDecimal(start), bits]
    ensures var sized := if v == BlockServer.TopLevel then s.(windowSize := |bits|) else s;
      BlockServer.ProcessText(s, v, BlockText(start, bits)) == BlockServer.Reply(BlockServer.ApplyBits(sized, start, bits))
  {
    PyIntDecimal(start);
    assert BlockText(start, bits)[|IntToDecimal(start)|] == ':';
  }

  /**
   * The round trip of one block. Sent from a client whose `last_ack` is
   * at least -1, the block reaches the server as a data message; the
   * server appends to `missing_seqs` exactly the client's newly dropped
   * sequence numbers reduced modulo 65536, in order, counts one packet per
   * delivered bit and replies its new `last_ack`; and the client reads
   * that reply back as its own `last_ack`.
   */
  lemma {:induction false} BlockRoundTrip(s: BlockServer.State, v: BlockServer.Variant, c: Client, drop: int -> bool)
    requires c.lastAck >= -1
    ensures IsAscii(BlockText(c.lastAck + 1, Bits(drop, c.windowSize)))
    ensures var start := c.lastAck + 1;
      var msg := Encode(BlockText(start, Bits(drop, c.windowSize)));
      var r := BlockServer.ProcessData(s, v, msg);
      var t := AfterTransmit(c, drop, IntToDecimal(r.lastAck));
      var added := t.client.dropped[|c.dropped|..];
      BlockServer.Dispatch(msg) == BlockServer.DataMessage
      && r.replies == s.replies + [IntToDecimal(r.lastAck)]
      && r.missing == s.missing + WrapAll(added)
      && r.totalRecv == s.totalRecv + (c.windowSize - |added|)
      && t.ok && t.client.lastAck == r.lastAck
  {
    var start := c.lastAck + 1;
    var bits := Bits(drop, c.windowSize);
    ServerReadsBlock(s, v, start, drop, c.windowSize);
    var sized := if v == BlockServer.TopLevel then s.(windowSize := c.windowSize) else s;
    BlockServer.ApplyBitsEffect(sized, start, bits);
    ZerosOfBits(start, drop, c.windowSize);
    OnesOfBits(start, drop, c.windowSize);
    var r := BlockServer.ProcessData(s, v, Encode(BlockText(start, bits)));
    PyIntDecimal(r.lastAck);
    var added := DroppedIn(start, drop, c.windowSize);
    assert (c.dropped + added)[|c.dropped|..] == added;
  }

  /** A block has one '1' per delivered packet: its length less the dropped ones. */
  lemma {:induction false} OnesOfBits(start: int, drop: int -> bool, n: nat)
    ensures multiset(Bits(drop, n))['1'] == n - |DroppedIn(start, drop, n)|
    decreases n
  {
    if n > 0 {
      OnesOfBits(start, drop, n - 1);
      CountSnoc(Bits(drop, n - 1), if drop(n - 1) then '0' else '1', '1');
    }
  }

  /** Appending one character adds one occurrence of it and no other. */
  lemma {:induction false} CountSnoc(b: string, c: char, x: char)
    ensures multiset(b + [c])[x] == multiset(b)[x] + (if c == x then 1 else 0)
  {
    assert multiset(b + [c]) == multiset(b) + multiset{c};
  }

  /** The `PacketClient` object. */
  class PacketClient {
    var windowSize: nat
    var totalSent: nat
    var dropped: seq<int>
    var wrap: nat
    var lastAck: int
    var blocks: seq<string>

    function Snap(): Client
      reads this
    {
      Client(windowSize, totalSent, dropped, wrap, lastAck, blocks)
    }

    constructor ()
      ensures Snap() == Initial()
    {
      windowSize, totalSent, dropped, wrap, lastAck, blocks := 50, 0, [], 0, -1, [];
    }

    /**
     * The loop of `handle_transmit`: builds the block's bits from `start`
     * and appends each dropped sequence number to `dropped`.
     */
    method BuildBlock(start: int, drop: int -> bool) returns (block: string)
      modifies this`dropped
      ensures block == BlockText(start, Bits(drop, windowSize))
      ensures dropped == old(dropped) + DroppedIn(start, drop, windowSize)
    {
      block := AppendBits(IntToDecimal(start) + [':'], start, drop);
    }

    /** The `for` loop of `handle_transmit`, appending one bit per packet to `block`. */
    method AppendBits(header: string, start: int, drop: int -> bool) returns (block: string)
      modifies this`dropped
      ensures block == header + Bits(drop, windowSize)
      ensures dropped == old(dropped) + DroppedIn(start, drop, windowSize)
    {
      block := header;
      var i := 0;
      while i < windowSize
        invariant i <= windowSize
        invariant block == header + Bits(drop, i)
        invariant dropped == old(dropped) + DroppedIn(start, drop, i)
        decreases windowSize - i
      {
        var bit := if drop(i) then '0' else '1';
        AppendAssoc(header, Bits(drop, i), [bit]);
        block := block + [bit];
        if bit == '0' {
          dropped := dropped + [start + i];
        }
        AppendAssoc(old(dropped), DroppedIn(start, drop, i), if drop(i) then [start + i] else []);
        i := i + 1;
      }
    }

    /** `handle_transmit`; returns false where the source raises on a reply that is not an integer. */
    method HandleTransmit(drop: int -> bool, reply: string) returns (ok: bool)
      modifies this
      ensures var r := AfterTransmit(old(Snap()), drop, reply);
        Snap() == r.client && ok == r.ok
    {
      ghost var c0 := Snap();
      var start := lastAck + 1;
      var block := BuildBlock(start, drop);
      totalSent := totalSent + windowSize;
      blocks := blocks + [block];
      ghost var sent := Snap();
      assert sent == c0.(dropped := c0.dropped + DroppedIn(start, drop, c0.windowSize),
                         totalSent := c0.totalSent + c0.windowSize,
                         blocks := c0.blocks + [BlockText(start, Bits(drop, c0.windowSize))]);
      var parsed := PyInt(reply);
      if parsed.None? {
        assert AfterTransmit(c0, drop, reply) == Transmit(sent, false);
        return false;
      }
      var ack := parsed.value;
      wrap := if lastAck > ack then wrap + 1 else wrap;
      lastAck := ack;
      ok := true;
      assert AfterTransmit(c0, drop, reply) == Transmit(sent.(wrap := wrap, lastAck := ack), true);
    }
  }
}
