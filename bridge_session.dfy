/**
 * What the player's encoder and the daemon's interpreter guarantee together:
 * replies decode to what was sent, ring records arrive as buffered tuples in
 * client order, and a flush turns them into USB packets that carry the same
 * writes in the same order.
 */
module BridgeSession {
  import opened Common
  import opened BridgeWire
  import opened BridgeClient
  import opened BridgeDaemon

  /** `send_ok` is read back by `read_response` as success, consuming one byte. */
  lemma OkReplyDecodes(more: seq<Byte>)
    ensures DecodeReply(OkReply() + more) == Reply(Ok(()), 1)
  {
  }

  /** `send_err` is read back as that message, cut to 255 bytes, consuming exactly the reply. */
  lemma ErrReplyDecodes(msg: seq<Byte>, more: seq<Byte>)
    ensures var len := Min(|msg|, 255);
      DecodeReply(ErrReply(msg) + more) == Reply(Err(Message(msg[..len])), 2 + len)
  {
    var len := Min(|msg|, 255);
    var b := ErrReply(msg) + more;
    ByteRoundTrip(len);
    assert b[1] as int == len;
    assert b[2..2 + len] == msg[..len];
  }

  /** Each ring record is buffered as its tuple, in order, with no reply and no device call. */
  lemma {:induction false} RingRecordsBuffer(c: Conn, ws: seq<CycledWrite>, rest: seq<Byte>, opener: nat -> OpenOutcome)
    ensures Run(c, RingRecords(ws) + rest, opener) == Run(c.(ringBuf := c.ringBuf + AsRingWrites(ws)), rest, opener)
    decreases |ws|
  {
    if ws == [] {
      RingRecordsNone(c, ws, rest);
    } else {
      var c1 := c.(ringBuf := c.ringBuf + [AsRingWrite(ws[0])]);
      RingRecordHead(c, ws, rest, opener);
      RingRecordsBuffer(c1, ws[1..], rest, opener);
      assert c1.ringBuf + AsRingWrites(ws[1..]) == c.ringBuf + AsRingWrites(ws);
    }
  }

  lemma RingRecordsNone(c: Conn, ws: seq<CycledWrite>, rest: seq<Byte>)
    requires ws == []
    ensures RingRecords(ws) + rest == rest && c.(ringBuf := c.ringBuf + AsRingWrites(ws)) == c
  {
  }

  lemma RingRecordHead(c: Conn, ws: seq<CycledWrite>, rest: seq<Byte>, opener: nat -> OpenOutcome)
    requires ws != []
    ensures Run(c, RingRecords(ws) + rest, opener)
         == Run(c.(ringBuf := c.ringBuf + [AsRingWrite(ws[0])]), RingRecords(ws[1..]) + rest, opener)
  {
    var input := RingRecords(ws) + rest;
    assert input == RingRecord(ws[0]) + (RingRecords(ws[1..]) + rest);
    RecordDecodes(ws[0]);
    assert input[5..] == RingRecords(ws[1..]) + rest;
    StepRing(c, input, opener);
  }

  /** One `CMD_RING` turn: the tuple is appended and the loop goes on with the next command. */
  lemma StepRing(c: Conn, input: seq<Byte>, opener: nat -> OpenOutcome)
    requires |input| >= 5 && input[0] == CMD_RING
    ensures Run(c, input, opener)
         == Run(c.(ringBuf := c.ringBuf + [RingArgs(input[1], input[2], input[3], input[4])]), input[5..], opener)
  {
    assert input[1..][4..] == input[5..];
  }

  /**
   * What `ring_cycled` sends reaches the USB device: with a device open,
   * the records and the trailing flush leave the buffer empty and append one
   * `single_write` per packet of the buffered tuples.
   */
  lemma RingCycledDelivers(c: Conn, ws: seq<CycledWrite>, rest: seq<Byte>, opener: nat -> OpenOutcome)
    requires c.dev
    ensures Run(c, RingRecords(ws) + [CMD_FLUSH] + rest, opener)
         == Run(c.(ringBuf := [], usb := c.usb + SingleWrites(Packets(c.ringBuf + AsRingWrites(ws)))), rest, opener)
  {
    RingRecordsBuffer(c, ws, [CMD_FLUSH] + rest, opener);
    assert RingRecords(ws) + [CMD_FLUSH] + rest == RingRecords(ws) + ([CMD_FLUSH] + rest);
    StepFlush(c.(ringBuf := c.ringBuf + AsRingWrites(ws)), rest, opener);
  }

  /** One `CMD_FLUSH` turn with a device open. */
  lemma StepFlush(c: Conn, rest: seq<Byte>, opener: nat -> OpenOutcome)
    requires c.dev
    ensures Run(c, [CMD_FLUSH] + rest, opener)
         == Run(c.(ringBuf := [], usb := c.usb + SingleWrites(Packets(c.ringBuf))), rest, opener)
  {
    assert ([CMD_FLUSH] + rest)[1..] == rest;
  }

  /**
   * End to end: a session that opens the device, receives one `ring_cycled`
   * batch and then ends sends exactly the packets of that batch between the
   * open and the final mute/reset/close, and the packets' tuples are the
   * client's writes in the client's order.
   */
  lemma WriteOrderPreserved(ws: seq<CycledWrite>, opener: nat -> OpenOutcome)
    requires opener(0) == Opens
    ensures var s := Session([CMD_INIT] + RingRecords(ws) + [CMD_FLUSH], opener);
      s.usb == [Opened] + SingleWrites(Packets(AsRingWrites(ws))) + [Mute, ResetChip, CloseDevice]
      && s.replies == [RESP_OK]
      && DecodePackets(Packets(AsRingWrites(ws))) == AsRingWrites(ws)
  {
    var input := [CMD_INIT] + RingRecords(ws) + [CMD_FLUSH];
    var c1 := Fresh.(dev := true, usb := [Opened], replies := [RESP_OK], opens := 1);
    assert input[1..] == RingRecords(ws) + [CMD_FLUSH] + [];
    assert Step(Fresh, input, opener) == Turn(c1, input[1..], true);
    RingCycledDelivers(c1, ws, [], opener);
    assert [] + AsRingWrites(ws) == AsRingWrites(ws);
    PacketsRoundTrip(AsRingWrites(ws));
  }

  /** `CMD_INIT` with a device already open replies OK and does not reopen. */
  lemma InitIdempotent(c: Conn, rest: seq<Byte>, opener: nat -> OpenOutcome)
    requires c.dev
    ensures Step(c, [CMD_INIT] + rest, opener) == Turn(c.(replies := c.replies + [RESP_OK]), rest, true)
  {
    assert ([CMD_INIT] + rest)[1..] == rest;
  }

  /** A failed open replies with "USB init failed: …" and leaves no device. */
  lemma InitFailureReported(c: Conn, rest: seq<Byte>, opener: nat -> OpenOutcome, e: seq<Byte>)
    requires !c.dev && opener(c.opens) == Fails(e)
    ensures var t := Step(c, [CMD_INIT] + rest, opener);
      !t.conn.dev && t.conn.usb == c.usb && t.conn.replies == c.replies + ErrReply(INIT_FAILED + e) && t.go
  {
  }

  /**
   * `CMD_CLOSE` closes once and forgets the device; `CMD_QUIT` closes but
   * keeps it, so the clean-up after the loop mutes, resets and closes again.
   */
  lemma CloseVersusQuit(opener: nat -> OpenOutcome)
    requires opener(0) == Opens
    ensures Session([CMD_INIT, CMD_CLOSE], opener).usb == [Opened, Mute, ResetChip, CloseDevice]
    ensures Session([CMD_INIT, CMD_CLOSE], opener).replies == [RESP_OK, RESP_OK]
    ensures Session([CMD_INIT, CMD_QUIT], opener).usb == [Opened, Mute, ResetChip, CloseDevice, Mute, ResetChip, CloseDevice]
    ensures Session([CMD_INIT, CMD_QUIT], opener).replies == [RESP_OK]
  {
    var c1 := Fresh.(dev := true, usb := [Opened], replies := [RESP_OK], opens := 1);
    assert [CMD_INIT, CMD_CLOSE][1..] == [CMD_CLOSE];
    assert [CMD_INIT, CMD_QUIT][1..] == [CMD_QUIT];
    assert Step(Fresh, [CMD_INIT, CMD_CLOSE], opener) == Turn(c1, [CMD_CLOSE], true);
    var c2 := c1.(dev := false, usb := [Opened, Mute, ResetChip, CloseDevice], replies := [RESP_OK, RESP_OK]);
    assert Step(c1, [CMD_CLOSE], opener) == Turn(c2, [], true);
    assert Run(c1, [CMD_CLOSE], opener) == c2;
    assert Run(Fresh, [CMD_INIT, CMD_CLOSE], opener) == c2;
    assert Step(Fresh, [CMD_INIT, CMD_QUIT], opener) == Turn(c1, [CMD_QUIT], true);
    assert Run(Fresh, [CMD_INIT, CMD_QUIT], opener) == Run(c1, [CMD_QUIT], opener);
  }

  /** `CMD_FLUSH` without a device discards the buffer and calls nothing. */
  lemma FlushWithoutDevice(c: Conn, rest: seq<Byte>, opener: nat -> OpenOutcome)
    requires !c.dev
    ensures Step(c, [CMD_FLUSH] + rest, opener) == Turn(c.(ringBuf := []), rest, true)
  {
    assert ([CMD_FLUSH] + rest)[1..] == rest;
  }

  /** The client's fixed-size commands are carried out by the daemon as the matching device call. */
  lemma ClientCommandsDecode(c: Conn, isPal: bool, mode: int, reg: Byte, val: Byte, rest: seq<Byte>, opener: nat -> OpenOutcome)
    requires c.dev && -0x8000_0000 <= mode < 0x8000_0000
    ensures Step(c, [CMD_CLOCK, if isPal then 1 else 0] + rest, opener)
         == Turn(c.(usb := c.usb + [SetClockRate(isPal)], replies := c.replies + [RESP_OK]), rest, true)
    ensures Step(c, [CMD_STEREO, (mode % 256) as Byte] + rest, opener)
         == Turn(c.(usb := c.usb + [SetStereo((mode % 256) as Byte)], replies := c.replies + [RESP_OK]), rest, true)
    ensures Step(c, [CMD_WRITE, reg, val] + rest, opener)
         == Turn(c.(usb := c.usb + [WriteReg(reg, val)]), rest, true)
  {
    assert ([CMD_CLOCK, if isPal then 1 else 0] + rest)[2..] == rest;
    assert ([CMD_STEREO, (mode % 256) as Byte] + rest)[2..] == rest;
    assert ([CMD_WRITE, reg, val] + rest)[3..] == rest;
  }
}
