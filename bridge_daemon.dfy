/**
 * The root bridge daemon's handling of one client session
 * (`handle_client`). The client stream is the byte sequence `input`, the
 * replies written back are collected in `replies`, and the USBSID-Pico
 * device is a recorder of the calls made on it. Whether opening the device
 * succeeds is outside the model: the `opener` parameter says what the k-th
 * open attempt of the session returns.
 */
module BridgeDaemon {
  import opened Common
  import opened BridgeWire

  /** Opcode of a cycled-write USB packet (top two header bits 0b10). */
  const OP_CYCLED_WRITE: Byte := 2
  /** (64 − 1 header byte) / 4 bytes per tuple. */
  const MAX_PAIRS_PER_PACKET: nat := 15

  /** The calls the daemon makes on the USB device, in the order made. */
  datatype UsbCall =
    | Opened
    | SetClockRate(pal: bool)
    | ResetChip
    | SetStereo(mode: Byte)
    | WriteReg(reg: Byte, val: Byte)
    | SingleWrite(packet: seq<Byte>)
    | Mute
    | CloseDevice

  /** What `UsbSid::init` returns for one open attempt. */
  datatype OpenOutcome = Opens | Fails(reason: seq<Byte>)

  /** The text "USB init failed: " as bytes. */
  const INIT_FAILED: seq<Byte> :=
    [0x55, 0x53, 0x42, 0x20, 0x69, 0x6E, 0x69, 0x74, 0x20, 0x66, 0x61, 0x69, 0x6C, 0x65, 0x64, 0x3A, 0x20]

  /** `send_ok`. */
  function OkReply(): seq<Byte> { [RESP_OK] }

  /** `send_err`: the message is cut to at most 255 bytes and prefixed by its length. */
  function ErrReply(msg: seq<Byte>): (r: seq<Byte>)
    ensures |r| == 2 + Min(|msg|, 255) && |r| <= 257
    ensures r[0] == RESP_ERR && r[1] == Min(|msg|, 255) as Byte
    ensures r[2..] == msg[..Min(|msg|, 255)]
  {
    var len := Min(|msg|, 255);
    [RESP_ERR, len as Byte] + msg[..len]
  }

  // ---------------------------------------------------------------------
  // USB packets
  // ---------------------------------------------------------------------

  function TupleBytes(t: RingWrite): seq<Byte>
  {
    [t.reg, t.val, Hi(t.cycles), Lo(t.cycles)]
  }

  function ChunkBytes(chunk: seq<RingWrite>): (r: seq<Byte>)
    ensures |r| == 4 * |chunk|
  {
    if chunk == [] then [] else TupleBytes(chunk[0]) + ChunkBytes(chunk[1..])
  }

  /** Header byte of a packet carrying `n` tuples: `(OP_CYCLED_WRITE << 6) | 4n`. */
  function Header(n: nat): Byte
    requires n <= MAX_PAIRS_PER_PACKET
  {
    (OP_CYCLED_WRITE << 6) | ((n * 4) as Byte)
  }

  function Packet(chunk: seq<RingWrite>): seq<Byte>
    requires |chunk| <= MAX_PAIRS_PER_PACKET
  {
    [Header(|chunk|)] + ChunkBytes(chunk)
  }

  /** The packets `flush_ring_buf` hands to `single_write`, in order. */
  function Packets(buf: seq<RingWrite>): seq<seq<Byte>>
    decreases |buf|
  {
    if buf == [] then []
    else
      var n := Min(|buf|, MAX_PAIRS_PER_PACKET);
      [Packet(buf[..n])] + Packets(buf[n..])
  }

  function SingleWrites(ps: seq<seq<Byte>>): (r: seq<UsbCall>)
    ensures |r| == |ps|
    ensures forall i :: 0 <= i < |ps| ==> r[i] == SingleWrite(ps[i])
  {
    seq(|ps|, i requires 0 <= i < |ps| => SingleWrite(ps[i]))
  }

  /** The device side's reading of a packet's payload: four bytes per tuple. */
  function DecodeTuples(bytes: seq<Byte>): seq<RingWrite>
    decreases |bytes|
  {
    if |bytes| < 4 then [] else [RingArgs(bytes[0], bytes[1], bytes[2], bytes[3])] + DecodeTuples(bytes[4..])
  }

  function DecodePackets(ps: seq<seq<Byte>>): seq<RingWrite>
  {
    if ps == [] then [] else (if |ps[0]| == 0 then [] else DecodeTuples(ps[0][1..])) + DecodePackets(ps[1..])
  }

  lemma {:induction false} ChunkBytesAt(chunk: seq<RingWrite>, i: nat)
    requires i < |chunk|
    ensures ChunkBytes(chunk)[4 * i .. 4 * i + 4] == TupleBytes(chunk[i])
  {
    var b := ChunkBytes(chunk);
    assert b == TupleBytes(chunk[0]) + ChunkBytes(chunk[1..]);
    if i > 0 {
      ChunkBytesAt(chunk[1..], i - 1);
      assert b[4 * i .. 4 * i + 4] == ChunkBytes(chunk[1..])[4 * (i - 1) .. 4 * (i - 1) + 4];
    }
  }

  lemma {:induction false} ChunkBytesSnoc(chunk: seq<RingWrite>, t: RingWrite)
    ensures ChunkBytes(chunk + [t]) == ChunkBytes(chunk) + TupleBytes(t)
  {
    if chunk == [] {
      assert [t][1..] == [];
    } else {
      assert (chunk + [t])[1..] == chunk[1..] + [t];
      ChunkBytesSnoc(chunk[1..], t);
    }
  }

  lemma {:induction false} ChunkDecodes(chunk: seq<RingWrite>)
    ensures DecodeTuples(ChunkBytes(chunk)) == chunk
  {
    if chunk != [] {
      var b := ChunkBytes(chunk);
      assert b[4..] == ChunkBytes(chunk[1..]);
      JoinSplit(chunk[0].cycles);
      ChunkDecodes(chunk[1..]);
    }
  }

  /** Packet j of a buffer is the packet of its j-th chunk of 15. */
  lemma {:induction false} PacketAt(buf: seq<RingWrite>, j: nat)
    requires j < |Packets(buf)|
    ensures 15 * j < |buf|
    ensures Packets(buf)[j] == Packet(buf[15 * j .. 15 * j + Min(|buf| - 15 * j, 15)])
  {
    if j > 0 {
      assert Packets(buf) == [Packet(buf[..15])] + Packets(buf[15..]);
      PacketAt(buf[15..], j - 1);
      SliceOfSuffix(buf, 15, 15 * (j - 1), Min(|buf| - 15 * j, 15));
    }
  }

  lemma SliceOfSuffix(buf: seq<RingWrite>, n: nat, a: nat, k: nat)
    requires n + a + k <= |buf|
    ensures buf[n..][a .. a + k] == buf[n + a .. n + a + k]
  {
  }

  /**
   * Packet layout: a buffer of n tuples becomes ceil(n/15) packets; packet j
   * carries k = min(n − 15j, 15) ≥ 1 tuples, is 1 + 4k bytes long, starts
   * with the header 0x80 + 4k, and holds tuple 15j + i at offsets 1+4i..4+4i.
   */
  lemma PacketLayout(buf: seq<RingWrite>, j: nat, i: nat)
    requires j < |Packets(buf)|
    ensures |Packets(buf)| == (|buf| + 14) / 15
    ensures var k := Min(|buf| - 15 * j, 15);
      1 <= k && |Packets(buf)[j]| == 1 + 4 * k && Packets(buf)[j][0] == 0x80 + (4 * k) as Byte
      && (i < k ==> Packets(buf)[j][1 + 4 * i .. 5 + 4 * i] == TupleBytes(buf[15 * j + i]))
  {
    PacketCount(buf);
    PacketAt(buf, j);
    var k := Min(|buf| - 15 * j, 15);
    var chunk := buf[15 * j .. 15 * j + k];
    if i < k {
      PacketShape(chunk, i);
      assert chunk[i] == buf[15 * j + i];
    } else {
      PacketShape(chunk, 0);
    }
  }

  /** The packet of one chunk: header, length, and tuple i at offsets 1+4i..4+4i. */
  lemma PacketShape(chunk: seq<RingWrite>, i: nat)
    requires 1 <= |chunk| <= MAX_PAIRS_PER_PACKET && i < |chunk|
    ensures |Packet(chunk)| == 1 + 4 * |chunk|
    ensures Packet(chunk)[0] == 0x80 + (4 * |chunk|) as Byte
    ensures Packet(chunk)[1 + 4 * i .. 5 + 4 * i] == TupleBytes(chunk[i])
  {
    HeaderValue(|chunk|);
    ChunkBytesAt(chunk, i);
    assert Packet(chunk)[1 + 4 * i .. 5 + 4 * i] == ChunkBytes(chunk)[4 * i .. 4 * i + 4];
  }

  lemma HeaderValue(n: nat)
    requires n <= MAX_PAIRS_PER_PACKET
    ensures Header(n) == 0x80 + (4 * n) as Byte
  {
    assert n * 4 == 4 * n;
  }

  lemma {:induction false} PacketCount(buf: seq<RingWrite>)
    ensures |Packets(buf)| == (|buf| + 14) / 15
  {
    if buf != [] {
      PacketCount(buf[Min(|buf|, MAX_PAIRS_PER_PACKET)..]);
    }
  }

  /** Concatenating the tuples of all packets gives back the buffer, in order. */
  lemma {:induction false} PacketsRoundTrip(buf: seq<RingWrite>)
    ensures DecodePackets(Packets(buf)) == buf
    decreases |buf|
  {
    if buf != [] {
      var n := Min(|buf|, MAX_PAIRS_PER_PACKET);
      var ps := Packets(buf);
      assert ps[0][1..] == ChunkBytes(buf[..n]);
      ChunkDecodes(buf[..n]);
      assert ps[1..] == Packets(buf[n..]);
      PacketsRoundTrip(buf[n..]);
      assert buf == buf[..n] + buf[n..];
    }
  }

  /**
   * `flush_ring_buf`: the tuples are packed in chunks of 15 into one reused
   * 64-byte packet array, and the first 1 + 4k bytes of it are sent per chunk.
   */
  method FlushRingBuf(ringBuf: seq<RingWrite>) returns (packets: seq<seq<Byte>>)
    ensures packets == Packets(ringBuf)
  {
    packets := [];
    if |ringBuf| == 0 {
      return;
    }
    var pkt := new Byte[64];
    var start := 0;
    while start < |ringBuf|
      invariant 0 <= start <= |ringBuf|
      invariant packets + Packets(ringBuf[start..]) == Packets(ringBuf)
      decreases |ringBuf| - start
    {
      var n := Min(|ringBuf| - start, MAX_PAIRS_PER_PACKET);
      var chunk := ringBuf[start..start + n];
      FillPacket(pkt, chunk);
      var total := 1 + n * 4;
      assert pkt[..total] == Packet(chunk);
      PacketsUnfold(ringBuf, start, n);
      assert packets + [pkt[..total]] + Packets(ringBuf[start + n..]) == Packets(ringBuf);
      packets := packets + [pkt[..total]];
      start := start + n;
    }
    assert ringBuf[start..] == [];
  }

  /** Fills the header and the tuples of one chunk into the packet array. */
  method FillPacket(pkt: array<Byte>, chunk: seq<RingWrite>)
    requires pkt.Length == 64 && 1 <= |chunk| <= MAX_PAIRS_PER_PACKET
    modifies pkt
    ensures pkt[..1 + 4 * |chunk|] == Packet(chunk)
  {
    var n := |chunk|;
    pkt[0] := Header(n);
    assert pkt[..1] == [Header(n)] + ChunkBytes(chunk[..0]);
    var i := 0;
    while i < n
      invariant 0 <= i <= n
      invariant pkt[..1 + 4 * i] == [Header(n)] + ChunkBytes(chunk[..i])
    {
      FillTuple(pkt, i, chunk[i]);
      calc {
        pkt[..1 + 4 * (i + 1)];
        [Header(n)] + ChunkBytes(chunk[..i]) + TupleBytes(chunk[i]);
        { ChunkBytesSnoc(chunk[..i], chunk[i]); assert chunk[..i + 1] == chunk[..i] + [chunk[i]]; }
        [Header(n)] + ChunkBytes(chunk[..i + 1]);
      }
      i := i + 1;
    }
    assert chunk[..n] == chunk;
  }

  /** Writes tuple i of a chunk at offsets 1+4i..4+4i of the packet array. */
  method FillTuple(pkt: array<Byte>, i: nat, t: RingWrite)
    requires pkt.Length == 64 && i < MAX_PAIRS_PER_PACKET
    modifies pkt
    ensures pkt[..1 + 4 * (i + 1)] == old(pkt[..1 + 4 * i]) + TupleBytes(t)
  {
    ghost var done := pkt[..1 + 4 * i];
    var at := 1 + i * 4;
    pkt[at] := t.reg;
    pkt[at + 1] := t.val;
    pkt[at + 2] := Hi(t.cycles);
    pkt[at + 3] := Lo(t.cycles);
    assert pkt[..at + 4] == done + [t.reg, t.val, Hi(t.cycles), Lo(t.cycles)];
  }

  lemma PacketsUnfold(buf: seq<RingWrite>, start: nat, n: nat)
    requires start < |buf| && n == Min(|buf| - start, MAX_PAIRS_PER_PACKET)
    ensures Packets(buf[start..]) == [Packet(buf[start..start + n])] + Packets(buf[start + n..])
  {
    assert buf[start..][..n] == buf[start..start + n];
    assert buf[start..][n..] == buf[start + n..];
  }

  // ---------------------------------------------------------------------
  // The session state machine
  // ---------------------------------------------------------------------

  /**
   * The session's state: whether a device is open (`dev` is `Some`), the
   * buffered ring writes, the reply bytes written so far, the device calls
   * made so far, and the number of open attempts made.
   */
  datatype Conn = Conn(dev: bool, ringBuf: seq<RingWrite>, replies: seq<Byte>, usb: seq<UsbCall>, opens: nat)

  /** One turn of the read loop: the new state, the unread input, and whether the loop goes on. */
  datatype Turn = Turn(conn: Conn, rest: seq<Byte>, go: bool)

  const Fresh: Conn := Conn(false, [], [], [], 0)

  /** Flush a non-empty buffer, then mute, reset and close (`CMD_CLOSE`/`CMD_QUIT` with a device). */
  function ShutDown(c: Conn): (r: Conn)
    requires c.dev
  {
    var flushed := if c.ringBuf != [] then c.(usb := c.usb + SingleWrites(Packets(c.ringBuf)), ringBuf := []) else c;
    flushed.(usb := flushed.usb + [Mute, ResetChip, CloseDevice])
  }

  /** One command read from the head of `input`. */
  function Step(c: Conn, input: seq<Byte>, opener: nat -> OpenOutcome): (t: Turn)
    requires |input| > 0
    ensures |t.rest| < |input|
  {
    var cmd := input[0];
    var rest := input[1..];
    var ok := c.replies + OkReply();
    if cmd == CMD_INIT then
      if c.dev then Turn(c.(replies := ok), rest, true)
      else
        match opener(c.opens)
        case Opens => Turn(c.(dev := true, usb := c.usb + [Opened], replies := ok, opens := c.opens + 1), rest, true)
        case Fails(e) => Turn(c.(replies := c.replies + ErrReply(INIT_FAILED + e), opens := c.opens + 1), rest, true)
    else if cmd == CMD_CLOCK then
      if |rest| < 1 then Turn(c, [], false)
      else Turn(c.(usb := if c.dev then c.usb + [SetClockRate(rest[0] != 0)] else c.usb, replies := ok), rest[1..], true)
    else if cmd == CMD_RESET then
      Turn(c.(usb := if c.dev then c.usb + [ResetChip] else c.usb, replies := ok), rest, true)
    else if cmd == CMD_STEREO then
      if |rest| < 1 then Turn(c, [], false)
      else Turn(c.(usb := if c.dev then c.usb + [SetStereo(rest[0])] else c.usb, replies := ok), rest[1..], true)
    else if cmd == CMD_WRITE then
      if |rest| < 2 then Turn(c, [], false)
      else Turn(c.(usb := if c.dev then c.usb + [WriteReg(rest[0], rest[1])] else c.usb), rest[2..], true)
    else if cmd == CMD_RING then
      if |rest| < 4 then Turn(c, [], false)
      else Turn(c.(ringBuf := c.ringBuf + [RingArgs(rest[0], rest[1], rest[2], rest[3])]), rest[4..], true)
    else if cmd == CMD_FLUSH then
      Turn(c.(usb := if c.dev then c.usb + SingleWrites(Packets(c.ringBuf)) else c.usb, ringBuf := []), rest, true)
    else if cmd == CMD_MUTE then
      Turn(c.(usb := if c.dev then c.usb + [Mute] else c.usb, replies := ok), rest, true)
    else if cmd == CMD_CLOSE then
      var closed := if c.dev then ShutDown(c) else c;
      Turn(closed.(dev := false, replies := ok), rest, true)
    else if cmd == CMD_QUIT then
      Turn(if c.dev then ShutDown(c) else c, rest, false)
    else
      Turn(c, rest, true)
  }

  /** The read loop: commands until the stream ends, a read comes up short, or `CMD_QUIT`. */
  function Run(c: Conn, input: seq<Byte>, opener: nat -> OpenOutcome): Conn
    decreases |input|
  {
    if |input| == 0 then c
    else
      var t := Step(c, input, opener);
      if t.go then Run(t.conn, t.rest, opener) else t.conn
  }

  /** The clean-up after the loop: a device still open is muted, reset and closed. */
  function Finish(c: Conn): Conn
  {
    if c.dev then c.(usb := c.usb + [Mute, ResetChip, CloseDevice]) else c
  }

  /** A whole session on a fresh connection. */
  function Session(input: seq<Byte>, opener: nat -> OpenOutcome): Conn
  {
    Finish(Run(Fresh, input, opener))
  }

  /** `handle_client`: the replies written and the device calls made for one client stream. */
  method HandleClient(input: seq<Byte>, opener: nat -> OpenOutcome) returns (replies: seq<Byte>, usb: seq<UsbCall>)
    ensures replies == Session(input, opener).replies
    ensures usb == Session(input, opener).usb
  {
    var dev := false;
    var ringBuf: seq<RingWrite> := [];
    var opens := 0;
    replies, usb := [], [];
    var rest := input;
    var go := true;
    while go && |rest| > 0
      invariant go ==> Run(Conn(dev, ringBuf, replies, usb, opens), rest, opener) == Run(Fresh, input, opener)
      invariant !go ==> Conn(dev, ringBuf, replies, usb, opens) == Run(Fresh, input, opener)
      decreases |rest|
    {
      ghost var before := Conn(dev, ringBuf, replies, usb, opens);
      ghost var t := Step(before, rest, opener);
      var cmd := rest[0];
      rest := rest[1..];
      if cmd == CMD_INIT {
        if dev {
          replies := replies + OkReply();
        } else {
          var outcome := opener(opens);
          opens := opens + 1;
          match outcome
          case Opens =>
            dev := true;
            usb := usb + [Opened];
            replies := replies + OkReply();
          case Fails(e) =>
            replies := replies + ErrReply(INIT_FAILED + e);
        }
      } else if cmd == CMD_CLOCK {
        if |rest| < 1 {
          go := false;
        } else {
          if dev {
            usb := usb + [SetClockRate(rest[0] != 0)];
          }
          rest := rest[1..];
          replies := replies + OkReply();
        }
      } else if cmd == CMD_RESET {
        if dev {
          usb := usb + [ResetChip];
        }
        replies := replies + OkReply();
      } else if cmd == CMD_STEREO {
        if |rest| < 1 {
          go := false;
        } else {
          if dev {
            usb := usb + [SetStereo(rest[0])];
          }
          rest := rest[1..];
          replies := replies + OkReply();
        }
      } else if cmd == CMD_WRITE {
        if |rest| < 2 {
          go := false;
        } else {
          if dev {
            usb := usb + [WriteReg(rest[0], rest[1])];
          }
          rest := rest[2..];
        }
      } else if cmd == CMD_RING {
        if |rest| < 4 {
          go := false;
        } else {
          var cycles := ((rest[2] as Word) << 8) | (rest[3] as Word);
          ringBuf := ringBuf + [RingWrite(rest[0], rest[1], cycles)];
          rest := rest[4..];
        }
      } else if cmd == CMD_FLUSH {
        if dev {
          var ps := FlushRingBuf(ringBuf);
          usb := usb + SingleWrites(ps);
        }
        ringBuf := [];
      } else if cmd == CMD_MUTE {
        if dev {
          usb := usb + [Mute];
        }
        replies := replies + OkReply();
      } else if cmd == CMD_CLOSE || cmd == CMD_QUIT {
        if dev {
          if ringBuf != [] {
            var ps := FlushRingBuf(ringBuf);
            usb := usb + SingleWrites(ps);
            ringBuf := [];
          }
          usb := usb + [Mute, ResetChip, CloseDevice];
        }
        if cmd == CMD_CLOSE {
          dev := false;
          replies := replies + OkReply();
        } else {
          go := false;
        }
      }
      assert Conn(dev, ringBuf, replies, usb, opens) == t.conn;
      assert go == t.go;
      assert go ==> rest == t.rest;
    }
    if dev {
      usb := usb + [Mute, ResetChip, CloseDevice];
    }
  }
}
