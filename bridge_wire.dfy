/**
 * The byte protocol spoken over the Unix socket between the player
 * (`BridgeDevice`) and the root bridge daemon. Every command is one opcode
 * byte followed by a fixed number of argument bytes; replies are `[0x00]`
 * for success or `[0x01, len, message…]` for an error.
 */
module BridgeWire {
  import opened Common

  const CMD_INIT: Byte := 0x01
  const CMD_CLOCK: Byte := 0x02
  const CMD_RESET: Byte := 0x03
  const CMD_STEREO: Byte := 0x04
  const CMD_WRITE: Byte := 0x05
  const CMD_MUTE: Byte := 0x07
  const CMD_CLOSE: Byte := 0x08
  const CMD_RING: Byte := 0x09
  const CMD_FLUSH: Byte := 0x0A
  const CMD_QUIT: Byte := 0xFF

  const RESP_OK: Byte := 0x00
  const RESP_ERR: Byte := 0x01

  /** A timed write as the player hands it over: (delta cycles, register, value). */
  datatype CycledWrite = CycledWrite(cycles: Word, reg: Byte, val: Byte)

  /** A timed write as the daemon buffers it: (register, value, delta cycles). */
  datatype RingWrite = RingWrite(reg: Byte, val: Byte, cycles: Word)

  /** The five bytes `ring_cycled` emits for one write. */
  function RingRecord(w: CycledWrite): (r: seq<Byte>)
  {
    [CMD_RING, w.reg, w.val, Hi(w.cycles), Lo(w.cycles)]
  }

  /** All records of a write list, in order, without the trailing flush. */
  function RingRecords(ws: seq<CycledWrite>): (r: seq<Byte>)
    ensures |r| == 5 * |ws|
  {
    if ws == [] then [] else RingRecord(ws[0]) + RingRecords(ws[1..])
  }

  /** The tuple the daemon builds from the four argument bytes of `CMD_RING`. */
  function RingArgs(b0: Byte, b1: Byte, b2: Byte, b3: Byte): RingWrite
  {
    RingWrite(b0, b1, Join(b2, b3))
  }

  /** The daemon-side tuple a client write should become. */
  function AsRingWrite(w: CycledWrite): RingWrite
  {
    RingWrite(w.reg, w.val, w.cycles)
  }

  function AsRingWrites(ws: seq<CycledWrite>): (r: seq<RingWrite>)
    ensures |r| == |ws|
    ensures forall i :: 0 <= i < |ws| ==> r[i] == AsRingWrite(ws[i])
  {
    seq(|ws|, i requires 0 <= i < |ws| => AsRingWrite(ws[i]))
  }

  /** Record k of `RingRecords(ws)` sits at offset 5k and carries ws[k]. */
  lemma {:induction false} RingRecordsAt(ws: seq<CycledWrite>, k: nat)
    requires k < |ws|
    ensures RingRecords(ws)[5 * k .. 5 * k + 5] == RingRecord(ws[k])
  {
    if k > 0 {
      RingRecordsAt(ws[1..], k - 1);
      assert RingRecords(ws) == RingRecord(ws[0]) + RingRecords(ws[1..]);
    }
  }

  /** Decoding one record with the daemon's `CMD_RING` rule gives back the write. */
  lemma RecordDecodes(w: CycledWrite)
    ensures var b := RingRecord(w);
      b[0] == CMD_RING && RingArgs(b[1], b[2], b[3], b[4]) == AsRingWrite(w)
  {
    JoinSplit(w.cycles);
  }
}
