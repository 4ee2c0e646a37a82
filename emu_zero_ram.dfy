/**
 * The 6510 on-chip I/O port at $00/$01 (`c64_emu/banks/zero_ram.rs`):
 * the direction and data registers, the pins they drive, the value that
 * reads back, and the capacitor-like fall-off of the unconnected bits 6
 * and 7.
 */
module EmuZeroRam {
  import opened Common

  /** Cycles a floating bit 6/7 keeps its last driven value (about 350 ms). */
  const FALL_OFF_CYCLES: nat := 350000

  /** One fall-off bit: the value last driven, masked to its bit, and when it decays. */
  datatype DataBit = DataBit(dataSetClk: nat, isFallingOff: bool, dataSet: Byte, bitMask: Byte)

  function NewDataBit(bitMask: Byte): DataBit
  {
    DataBit(0, false, 0, bitMask)
  }

  function ResetBit(b: DataBit): DataBit
  {
    b.(isFallingOff := false, dataSet := 0)
  }

  /** `DataBit::read` at time `t`: the held value, or 0 and a reset bit once the decay time has passed. */
  function ReadBit(b: DataBit, t: nat): (Byte, DataBit)
  {
    if b.isFallingOff && b.dataSetClk < t then (0, ResetBit(b)) else (b.dataSet, b)
  }

  /** `DataBit::write` at time `t`: holds `value & mask` until `t + 350000`. */
  function WriteBit(b: DataBit, t: nat, value: Byte): DataBit
  {
    b.(dataSetClk := t + FALL_OFF_CYCLES, dataSet := value & b.bitMask, isFallingOff := true)
  }

  /**
   * A written bit reads back as `value & mask` up to and including
   * `t + 350000` and as 0 (resetting the bit) at any later time.
   */
  lemma FallOff(b: DataBit, t: nat, value: Byte, later: nat)
    ensures var w := WriteBit(b, t, value);
      (later <= t + FALL_OFF_CYCLES ==> ReadBit(w, later) == (value & b.bitMask, w))
      && (later > t + FALL_OFF_CYCLES ==> ReadBit(w, later).0 == 0 && !ReadBit(w, later).1.isFallingOff)
  {
  }

  lemma ReadBitMask(b: DataBit, t: nat)
    requires b.dataSet & !b.bitMask == 0
    ensures ReadBit(b, t).1.bitMask == b.bitMask && ReadBit(b, t).1.dataSet & !b.bitMask == 0
  {
  }

  /** The 3-bit PLA state the port drives: LORAM, HIRAM, CHAREN. */
  function PlaState(data: Byte, dir: Byte): (s: Byte)
    ensures s <= 7
  {
    (data | !dir) & 0x07
  }

  /** `update_cpu_port`'s pins: outputs driven by `data`, inputs keeping their level. */
  function PortPins(pins: Byte, dir: Byte, data: Byte): Byte
  {
    (pins & !dir) | (data & dir)
  }

  /** `update_cpu_port`'s read-back value, bit 5 forced low while it is an input. */
  function PortReadBack(data: Byte, dir: Byte, pins: Byte): Byte
  {
    var r := (data | !dir) & (pins | 0x17);
    if dir & 0x20 == 0 then r & !0x20 else r
  }

  /** Output pins take the data bits and input pins keep their previous level. */
  lemma PortPinsSpec(pins: Byte, dir: Byte, data: Byte)
    ensures PortPins(pins, dir, data) & dir == data & dir
    ensures PortPins(pins, dir, data) & !dir == pins & !dir
  {
  }

  /**
   * Bits 0-2 and 4 read back the data on outputs and 1 on inputs; bit 5
   * reads 0 whenever it is an input.
   */
  lemma PortReadBackSpec(data: Byte, dir: Byte, pins: Byte)
    ensures PortReadBack(data, dir, pins) & 0x17 == (data | !dir) & 0x17
    ensures dir & 0x20 == 0 ==> PortReadBack(data, dir, pins) & 0x20 == 0
  {
  }

  /** `peek_mut(1)`: the read-back value with input bits 6 and 7 taken from their fall-off bits. */
  function WithFallOff(v: Byte, dir: Byte, b6: Byte, b7: Byte): Byte
  {
    var v6 := if dir & 0x40 == 0 then (v & !0x40) | b6 else v;
    if dir & 0x80 == 0 then (v6 & !0x80) | b7 else v6
  }

  /** Bits 0-5 come from the read-back value; bits 6/7 from it when outputs, from the fall-off bits when inputs. */
  lemma WithFallOffSpec(v: Byte, dir: Byte, b6: Byte, b7: Byte)
    requires b6 & !0x40 == 0 && b7 & !0x80 == 0
    ensures WithFallOff(v, dir, b6, b7) & 0x3F == v & 0x3F
    ensures WithFallOff(v, dir, b6, b7) & 0x40 == if dir & 0x40 == 0 then b6 else v & 0x40
    ensures WithFallOff(v, dir, b6, b7) & 0x80 == if dir & 0x80 == 0 then b7 else v & 0x80
  {
  }

  /** The CPU port (`ZeroRamBank`). */
  class ZeroRamBank {
    var dir: Byte
    var data: Byte
    var dataRead: Byte
    var procPortPins: Byte
    var bit6: DataBit
    var bit7: DataBit
    /** Whether a port-change listener is installed, and the PLA states it has been given. */
    var hasListener: bool
    var portChanges: seq<Byte>
    /** Whether a PHI2 clock is wired; without one the port sees time 0. */
    var hasClock: bool

    predicate Valid()
      reads this
    {
      bit6.bitMask == 0x40 && bit7.bitMask == 0x80
      && bit6.dataSet & !0x40 == 0 && bit7.dataSet & !0x80 == 0
    }

    /** `new`: inputs everywhere, data and pins $3F, no listener, no clock. */
    constructor ()
      ensures Valid() && dir == 0 && data == 0x3F && dataRead == 0x3F && procPortPins == 0x3F
      ensures bit6 == NewDataBit(0x40) && bit7 == NewDataBit(0x80)
      ensures !hasListener && portChanges == [] && !hasClock
    {
      dir := 0;
      data := 0x3F;
      dataRead := 0x3F;
      procPortPins := 0x3F;
      bit6 := NewDataBit(0x40);
      bit7 := NewDataBit(0x80);
      hasListener := false;
      portChanges := [];
      hasClock := false;
    }

    method SetPortCallback()
      modifies this`hasListener
      ensures hasListener
    {
      hasListener := true;
    }

    method SetPhi2TimeFn()
      modifies this`hasClock
      ensures hasClock
    {
      hasClock := true;
    }

    /** The time the port sees when the scheduler's PHI2 time is `now`. */
    function Phi2Time(now: nat): nat
      reads this
    {
      if hasClock then now else 0
    }

    /** `update_cpu_port`: recomputes the pins and the read-back value, and tells a listener the PLA state. */
    method UpdateCpuPort()
      modifies this`procPortPins, this`dataRead, this`portChanges
      ensures procPortPins == PortPins(old(procPortPins), dir, data)
      ensures dataRead == PortReadBack(data, dir, procPortPins)
      ensures portChanges == old(portChanges) + if hasListener then [PlaState(data, dir)] else []
    {
      var pins := PortPins(procPortPins, dir, data);
      procPortPins := pins;
      dataRead := PortReadBack(data, dir, pins);
      var pla := PlaState(data, dir);
      if hasListener {
        portChanges := portChanges + [pla];
      }
    }

    /** `reset`: both fall-off bits cleared, the power-on port, and the listener told. */
    method Reset()
      requires Valid()
      modifies this`bit6, this`bit7, this`dir, this`data, this`dataRead, this`procPortPins, this`portChanges
      ensures Valid()
      ensures bit6 == ResetBit(old(bit6)) && bit7 == ResetBit(old(bit7))
      ensures dir == 0 && data == 0x3F && procPortPins == 0x3F && dataRead == 0x1F
      ensures portChanges == old(portChanges) + if hasListener then [7 as Byte] else []
    {
      bit6 := ResetBit(bit6);
      bit7 := ResetBit(bit7);
      dir := 0;
      data := 0x3F;
      dataRead := 0x3F;
      procPortPins := 0x3F;
      UpdateCpuPort();
    }

    /** The immutable `peek`: always 0 (the port is only read through `peek_mut`). */
    function Peek(address: Addr): Byte
    {
      0
    }

    /**
     * `peek_mut`: $00 reads the direction register, $01 the read-back
     * value with each input bit 6/7 replaced by its fall-off bit (which may
     * decay while being read); other addresses read 0.
     */
    method PeekMut(address: Addr, now: nat) returns (v: Byte)
      requires Valid()
      modifies this`bit6, this`bit7
      ensures Valid()
      ensures address == 0 ==> v == dir
      ensures address != 0 && address != 1 ==> v == 0
      ensures address == 1 ==>
        v == WithFallOff(dataRead, dir, ReadBit(old(bit6), Phi2Time(now)).0, ReadBit(old(bit7), Phi2Time(now)).0)
      ensures bit6 == if address == 1 && dir & 0x40 == 0 then ReadBit(old(bit6), Phi2Time(now)).1 else old(bit6)
      ensures bit7 == if address == 1 && dir & 0x80 == 0 then ReadBit(old(bit7), Phi2Time(now)).1 else old(bit7)
    {
      if address == 0 {
        v := dir;
      } else if address == 1 {
        v := ReadPort(now);
      } else {
        v := 0;
      }
    }

    /** `peek_mut(1)`. */
    method ReadPort(now: nat) returns (v: Byte)
      requires Valid()
      modifies this`bit6, this`bit7
      ensures Valid()
      ensures v == WithFallOff(dataRead, dir, ReadBit(old(bit6), Phi2Time(now)).0, ReadBit(old(bit7), Phi2Time(now)).0)
      ensures bit6 == if dir & 0x40 == 0 then ReadBit(old(bit6), Phi2Time(now)).1 else old(bit6)
      ensures bit7 == if dir & 0x80 == 0 then ReadBit(old(bit7), Phi2Time(now)).1 else old(bit7)
    {
      var t := Phi2Time(now);
      var r6 := ReadBit(bit6, t);
      var r7 := ReadBit(bit7, t);
      ReadBitMask(bit6, t);
      ReadBitMask(bit7, t);
      v := WithFallOff(dataRead, dir, r6.0, r7.0);
      if dir & 0x40 == 0 {
        bit6 := r6.1;
      }
      if dir & 0x80 == 0 {
        bit7 := r7.1;
      }
    }

    /** `poke`: $00 goes to the direction register, $01 to the data register, anything else to RAM only. */
    method Poke(address: Addr, value: Byte, now: nat)
      requires Valid()
      modifies this`bit6, this`bit7, this`dir, this`data, this`dataRead, this`procPortPins, this`portChanges
      ensures Valid()
      ensures address == 0 ==> dir == value && data == old(data)
      ensures address == 1 ==> data == value && dir == old(dir)
      ensures address != 0 && address != 1 ==> unchanged(this)
    {
      if address == 0 {
        PokeDir(value, now);
      } else if address == 1 {
        PokeData(value, now);
      }
    }

    /**
     * `poke(0)`: the current direction changes nothing; otherwise bits 6/7
     * switching from output to input latch the current data for fall-off,
     * and the port is recomputed for the new direction.
     */
    method PokeDir(value: Byte, now: nat)
      requires Valid()
      modifies this`bit6, this`bit7, this`dir, this`dataRead, this`procPortPins, this`portChanges
      ensures Valid()
      ensures value == old(dir) ==> unchanged(this)
      ensures value != old(dir) ==>
        dir == value
        && bit6 == (if old(dir) & 0x40 != 0 && value & 0x40 == 0 then WriteBit(old(bit6), Phi2Time(now), data) else old(bit6))
        && bit7 == (if old(dir) & 0x80 != 0 && value & 0x80 == 0 then WriteBit(old(bit7), Phi2Time(now), data) else old(bit7))
        && procPortPins == PortPins(old(procPortPins), value, data)
        && dataRead == PortReadBack(data, value, procPortPins)
        && portChanges == old(portChanges) + if hasListener then [PlaState(data, value)] else []
    {
      if dir != value {
        var t := Phi2Time(now);
        if dir & 0x40 != 0 && value & 0x40 == 0 {
          bit6 := WriteBit(bit6, t, data);
        }
        if dir & 0x80 != 0 && value & 0x80 == 0 {
          bit7 := WriteBit(bit7, t, data);
        }
        dir := value;
        UpdateCpuPort();
      }
    }

    /**
     * `poke(1)`: output bits 6/7 refresh their fall-off bits; the port is
     * recomputed only when the data actually changes.
     */
    method PokeData(value: Byte, now: nat)
      requires Valid()
      modifies this`bit6, this`bit7, this`data, this`dataRead, this`procPortPins, this`portChanges
      ensures Valid() && data == value
      ensures bit6 == if dir & 0x40 != 0 then WriteBit(old(bit6), Phi2Time(now), value) else old(bit6)
      ensures bit7 == if dir & 0x80 != 0 then WriteBit(old(bit7), Phi2Time(now), value) else old(bit7)
      ensures value == old(data) ==>
        procPortPins == old(procPortPins) && dataRead == old(dataRead) && portChanges == old(portChanges)
      ensures value != old(data) ==>
        procPortPins == PortPins(old(procPortPins), dir, value)
        && dataRead == PortReadBack(value, dir, procPortPins)
        && portChanges == old(portChanges) + if hasListener then [PlaState(value, dir)] else []
    {
      var t := Phi2Time(now);
      if dir & 0x40 != 0 {
        bit6 := WriteBit(bit6, t, value);
      }
      if dir & 0x80 != 0 {
        bit7 := WriteBit(bit7, t, value);
      }
      if data != value {
        data := value;
        UpdateCpuPort();
      }
    }
  }
}
