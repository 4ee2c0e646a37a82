/**
 * The player side of the bridge protocol (`BridgeDevice`). The socket is
 * modelled by two byte sequences: `sent` is everything written so far and
 * `inbox` the reply bytes the daemon has made available and that have not
 * been read yet. Connecting is left out.
 */
module BridgeClient {
  import opened Common
  import opened BridgeWire

  /** Why `read_response` failed. A daemon message is kept as raw bytes. */
  datatype BridgeError = Disconnected | NoMessage | Truncated | Message(text: seq<Byte>)

  /** The outcome of reading one reply and how many inbox bytes it consumed. */
  datatype Reply = Reply(result: Result<(), BridgeError>, consumed: nat)

  /**
   * `read_response`: one status byte; anything but 0x00 is followed by a
   * length byte and that many message bytes. A short read consumes what was
   * there and reports the fixed error for the piece that was missing.
   */
  function DecodeReply(inbox: seq<Byte>): (r: Reply)
    ensures r.consumed <= |inbox|
    ensures r.result.Ok? <==> |inbox| > 0 && inbox[0] == RESP_OK
    ensures r.result.Ok? ==> r.consumed == 1
    ensures r.result == Err(Disconnected) <==> |inbox| == 0
    ensures r.result.Err? && r.result.error.Message? ==>
      2 <= r.consumed && r.consumed == 2 + inbox[1] as int && r.result.error.text == inbox[2..r.consumed]
  {
    if |inbox| == 0 then Reply(Err(Disconnected), 0)
    else if inbox[0] == RESP_OK then Reply(Ok(()), 1)
    else if |inbox| == 1 then Reply(Err(NoMessage), 1)
    else
      var len := inbox[1] as int;
      if |inbox| < 2 + len then Reply(Err(Truncated), |inbox|)
      else Reply(Err(Message(inbox[2..2 + len])), 2 + len)
  }

  /**
   * `ring_cycled`'s buffer: one five-byte record per write, in order, then a
   * single `CMD_FLUSH`.
   */
  method EncodeRing(writes: seq<CycledWrite>) returns (buf: seq<Byte>)
    requires |writes| > 0
    ensures |buf| == 5 * |writes| + 1
    ensures forall k :: 0 <= k < |writes| ==> buf[5 * k .. 5 * k + 5] == RingRecord(writes[k])
    ensures buf[5 * |writes|] == CMD_FLUSH
    ensures buf == RingRecords(writes) + [CMD_FLUSH]
  {
    buf := [];
    var i := 0;
    while i < |writes|
      invariant 0 <= i <= |writes|
      invariant buf == RingRecords(writes[..i])
    {
      var w := writes[i];
      buf := buf + [CMD_RING, w.reg, w.val, Hi(w.cycles), Lo(w.cycles)];
      RecordsSnoc(writes[..i], w);
      assert writes[..i + 1] == writes[..i] + [w];
      i := i + 1;
    }
    assert writes[..i] == writes;
    buf := buf + [CMD_FLUSH];
    forall k | 0 <= k < |writes|
      ensures buf[5 * k .. 5 * k + 5] == RingRecord(writes[k])
    {
      RingRecordsAt(writes, k);
    }
  }

  lemma {:induction false} RecordsSnoc(ws: seq<CycledWrite>, w: CycledWrite)
    ensures RingRecords(ws + [w]) == RingRecords(ws) + RingRecord(w)
  {
    if ws == [] {
      assert [w][1..] == [];
    } else {
      assert (ws + [w])[1..] == ws[1..] + [w];
      RecordsSnoc(ws[1..], w);
    }
  }

  class BridgeDevice {
    /** Every byte written to the socket, oldest first. */
    var sent: seq<Byte>
    /** Reply bytes available from the daemon and not yet read. */
    var inbox: seq<Byte>

    constructor (replies: seq<Byte>)
      ensures sent == [] && inbox == replies
    {
      sent := [];
      inbox := replies;
    }

    /** `read_response`. */
    method ReadResponse() returns (r: Result<(), BridgeError>)
      modifies this
      ensures r == DecodeReply(old(inbox)).result
      ensures inbox == old(inbox)[DecodeReply(old(inbox)).consumed..]
      ensures sent == old(sent)
    {
      var reply := DecodeReply(inbox);
      r := reply.result;
      inbox := inbox[reply.consumed..];
    }

    method Init() returns (r: Result<(), BridgeError>)
      modifies this
      ensures sent == old(sent) + [CMD_INIT]
      ensures r == DecodeReply(old(inbox)).result
      ensures inbox == old(inbox)[DecodeReply(old(inbox)).consumed..]
    {
      sent := sent + [CMD_INIT];
      r := ReadResponse();
    }

    method SetClockRate(isPal: bool)
      modifies this
      ensures sent == old(sent) + [CMD_CLOCK, if isPal then 1 else 0]
      ensures inbox == old(inbox)[DecodeReply(old(inbox)).consumed..]
    {
      sent := sent + [CMD_CLOCK, if isPal then 1 else 0];
      var _ := ReadResponse();
    }

    method Reset()
      modifies this
      ensures sent == old(sent) + [CMD_RESET]
      ensures inbox == old(inbox)[DecodeReply(old(inbox)).consumed..]
    {
      sent := sent + [CMD_RESET];
      var _ := ReadResponse();
    }

    /** `mode as u8` keeps the low eight bits of the `i32`. */
    method SetStereo(mode: int)
      requires -0x8000_0000 <= mode < 0x8000_0000
      modifies this
      ensures sent == old(sent) + [CMD_STEREO, (mode % 256) as Byte]
      ensures inbox == old(inbox)[DecodeReply(old(inbox)).consumed..]
    {
      sent := sent + [CMD_STEREO, (mode % 256) as Byte];
      var _ := ReadResponse();
    }

    /** An immediate register write; no reply is read. */
    method Write(reg: Byte, val: Byte)
      modifies this
      ensures sent == old(sent) + [CMD_WRITE, reg, val]
      ensures inbox == old(inbox)
    {
      sent := sent + [CMD_WRITE, reg, val];
    }

    method RingCycled(writes: seq<CycledWrite>)
      modifies this
      ensures writes == [] ==> sent == old(sent)
      ensures writes != [] ==> sent == old(sent) + RingRecords(writes) + [CMD_FLUSH]
      ensures inbox == old(inbox)
    {
      if |writes| == 0 {
        return;
      }
      var buf := EncodeRing(writes);
      sent := sent + buf;
    }

    method Flush()
      modifies this
      ensures sent == old(sent) + [CMD_FLUSH]
      ensures inbox == old(inbox)
    {
      sent := sent + [CMD_FLUSH];
    }

    method Mute()
      modifies this
      ensures sent == old(sent) + [CMD_MUTE]
      ensures inbox == old(inbox)[DecodeReply(old(inbox)).consumed..]
    {
      sent := sent + [CMD_MUTE];
      var _ := ReadResponse();
    }

    method Close()
      modifies this
      ensures sent == old(sent) + [CMD_CLOSE]
      ensures inbox == old(inbox)[DecodeReply(old(inbox)).consumed..]
    {
      sent := sent + [CMD_CLOSE];
      var _ := ReadResponse();
    }

    method Shutdown()
      modifies this
      ensures sent == old(sent) + [CMD_QUIT]
      ensures inbox == old(inbox)
    {
      sent := sent + [CMD_QUIT];
    }

    /** Dropping the device shuts the session down. */
    method Drop()
      modifies this
      ensures sent == old(sent) + [CMD_QUIT]
      ensures inbox == old(inbox)
    {
      Shutdown();
    }
  }
}
