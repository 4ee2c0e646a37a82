/**
 * SID address decoding of the player's memory bus (`SidMapper`). Each
 * configured SID base claims the 32 addresses base..base+$1F, and a write
 * there becomes USBSID register slot*$20 + (address - base).
 */
module SidMapping {
  import opened Common

  /** Register-window size of one SID on the USBSID register file. */
  const SID_REG_SIZE: Byte := 0x20
  /** The mode/volume register of a SID. */
  const SID_VOL_REG: Byte := 0x18

  /** A captured SID write: (frame cycle, USBSID register, value). */
  datatype SidWrite = SidWrite(cycle: nat, reg: Byte, val: Byte)

  /** The inclusive address range of every SID, in slot order. */
  datatype SidMapper = SidMapper(ranges: seq<(Addr, Addr)>)

  /** `base + 0x1F` in wrapping `u16` arithmetic: the last address of a window. */
  function WindowEnd(base: Addr): Addr
  {
    ((base as int + 0x1F) % 0x1_0000) as Addr
  }

  /**
   * Whether `addr` lies in the 32-byte window of a SID at `base`. A base
   * above $FFE0 claims nothing: its end wraps around below its start.
   */
  predicate InWindow(base: Addr, addr: Addr)
  {
    base <= 0xFFE0 && 0 <= addr - base < 0x20
  }

  /** `SidMapper::new`: one range (base, base + $1F) per base, the end wrapping in `u16`. */
  function NewMapper(bases: seq<Addr>): (m: SidMapper)
    ensures |m.ranges| == |bases|
    ensures forall i :: 0 <= i < |bases| ==> m.ranges[i] == (bases[i], WindowEnd(bases[i]))
  {
    SidMapper(seq(|bases|, i requires 0 <= i < |bases| => (bases[i], WindowEnd(bases[i]))))
  }

  /** The range (base, base + $1F wrapped) holds exactly the addresses of the base's window. */
  lemma WindowRange(base: Addr, addr: Addr)
    ensures (base <= addr <= WindowEnd(base)) <==> InWindow(base, addr)
  {
    if base > 0xFFE0 {
      assert WindowEnd(base) as int == base as int + 0x1F - 0x1_0000;
    }
  }

  /** `(slot as u8) * SID_REG_SIZE + (addr - base) as u8`, in wrapping `u8` arithmetic. */
  function SlotReg(slot: nat, offset: nat): Byte
  {
    ((slot * 0x20 + offset) % 256) as Byte
  }

  /** `SidMapper::map`: the first range holding `addr`, searched from `slot` on. */
  function MapFrom(ranges: seq<(Addr, Addr)>, addr: Addr, slot: nat): Option<Byte>
    decreases |ranges| - slot
  {
    if slot >= |ranges| then None
    else if ranges[slot].0 <= addr <= ranges[slot].1 then Some(SlotReg(slot, addr - ranges[slot].0))
    else MapFrom(ranges, addr, slot + 1)
  }

  function Map(m: SidMapper, addr: Addr): Option<Byte>
  {
    MapFrom(m.ranges, addr, 0)
  }

  /**
   * An address maps exactly when some base's window holds it, and then to
   * the register of the FIRST such base: its slot times $20 plus the
   * offset into the window, modulo 256.
   */
  lemma MapSpec(bases: seq<Addr>, addr: Addr)
    ensures var r := Map(NewMapper(bases), addr);
      (r.Some? <==> exists i :: 0 <= i < |bases| && InWindow(bases[i], addr))
      && (r.Some? ==> exists i :: (0 <= i < |bases| && InWindow(bases[i], addr)
            && (forall j :: 0 <= j < i ==> !InWindow(bases[j], addr))
            && r.value == SlotReg(i, addr - bases[i])))
  {
    MapFromSpec(bases, addr, 0);
  }

  lemma {:induction false} MapFromSpec(bases: seq<Addr>, addr: Addr, slot: nat)
    requires slot <= |bases|
    requires forall j :: 0 <= j < slot ==> !InWindow(bases[j], addr)
    ensures var r := MapFrom(NewMapper(bases).ranges, addr, slot);
      (r.Some? <==> exists i :: slot <= i < |bases| && InWindow(bases[i], addr))
      && (r.Some? ==> exists i :: (slot <= i < |bases| && InWindow(bases[i], addr)
            && (forall j :: 0 <= j < i ==> !InWindow(bases[j], addr))
            && r.value == SlotReg(i, addr - bases[i])))
    decreases |bases| - slot
  {
    var ranges := NewMapper(bases).ranges;
    if slot < |bases| {
      WindowRange(bases[slot], addr);
      if InWindow(bases[slot], addr) {
        assert ranges[slot].0 <= addr <= ranges[slot].1;
        assert MapFrom(ranges, addr, slot) == Some(SlotReg(slot, addr - bases[slot]));
      } else {
        assert MapFrom(ranges, addr, slot) == MapFrom(ranges, addr, slot + 1);
        MapFromSpec(bases, addr, slot + 1);
      }
    }
  }

  /**
   * A base above $FFE0 (an extra SID configured at $FFE1-$FFFF) gets a
   * window whose end wraps below its start, so it maps no address at all.
   */
  lemma HighBaseClaimsNothing(base: Addr, addr: Addr)
    requires base > 0xFFE0
    ensures WindowEnd(base) < base
    ensures Map(NewMapper([base]), addr) == None
  {
    MapSpec([base], addr);
  }

  /** With at most four SIDs, a mapped register is exactly slot*$20 + offset, below $80. */
  lemma SlotRegBound(slot: nat, offset: nat)
    requires slot < 4 && offset < 0x20
    ensures SlotReg(slot, offset) as int == 0x20 * slot + offset
    ensures SlotReg(slot, offset) < 0x80
  {
  }

  /**
   * The register a captured SID write lands on: in mono mode every address
   * of $D400-$D7FF folds onto the first SID's 32 registers, otherwise the
   * mapper decides.
   */
  function MapSidWrite(mono: bool, m: SidMapper, addr: Addr): Option<Byte>
  {
    if mono then (if 0xD400 <= addr <= 0xD7FF then Some((addr % 0x20) as Byte) else None)
    else Map(m, addr)
  }

  /**
   * Mono capture takes exactly the $D400-$D7FF window and keeps the low five
   * address bits; with at most four SIDs every captured register is below
   * $80, inside the 128-byte shadow.
   */
  lemma MapSidWriteSpec(mono: bool, bases: seq<Addr>, addr: Addr)
    requires |bases| <= 4
    ensures var r := MapSidWrite(mono, NewMapper(bases), addr);
      (mono ==> (r.Some? <==> 0xD400 <= addr <= 0xD7FF) && (r.Some? ==> r.value as int == addr % 0x20))
      && (!mono ==> (r.Some? <==> exists i :: 0 <= i < |bases| && InWindow(bases[i], addr)))
      && (r.Some? ==> r.value < 0x80)
  {
    MapSpec(bases, addr);
    var r := MapSidWrite(mono, NewMapper(bases), addr);
    if mono && r.Some? {
      ByteRoundTrip(addr % 0x20);
    }
    if !mono && r.Some? {
      var i :| 0 <= i < |bases| && InWindow(bases[i], addr)
            && (forall j :: 0 <= j < i ==> !InWindow(bases[j], addr))
            && r.value == SlotReg(i, addr - bases[i]);
      SlotRegBound(i, addr - bases[i]);
    }
  }

  /** The read-noise generator behind OSC3: `seed * 1103515245 + 12345` in wrapping `u32` arithmetic. */
  function Osc3Next(seed: nat): nat
  {
    ((seed * 1103515245) % 0x1_0000_0000 + 12345) % 0x1_0000_0000
  }

  /**
   * A SID register read on the player buses: OSC3 ($1B) steps the generator
   * and returns its bits 16-23, ENV3 ($1C) reads $FF, the paddles ($19,
   * $1A) read $80 and every write-only register reads 0.
   */
  function SidReadValue(reg: int, seed: nat): Byte
  {
    if reg == 0x1B then Bits16To23(Osc3Next(seed))
    else if reg == 0x1C then 0xFF
    else if reg == 0x19 || reg == 0x1A then 0x80
    else 0
  }

  /** The generator state after a SID register read: only an OSC3 read advances it. */
  function SidReadSeed(reg: int, seed: nat): (s: nat)
    ensures s < 0x1_0000_0000
    ensures reg != 0x1B ==> s == seed % 0x1_0000_0000
  {
    if reg == 0x1B then Osc3Next(seed) else seed % 0x1_0000_0000
  }

  /** The OSC3 value is the generator's new state, shifted right by 16 and truncated to a byte. */
  lemma Osc3ReadSpec(seed: nat)
    ensures SidReadValue(0x1B, seed) as int == (SidReadSeed(0x1B, seed) / 0x1_0000) % 0x100
    ensures SidReadSeed(0x1B, seed) == (seed * 1103515245 + 12345) % 0x1_0000_0000
  {
    ByteRoundTrip((Osc3Next(seed) / 0x1_0000) % 0x100);
    var a := seed * 1103515245;
    var m := 0x1_0000_0000;
    DivModUnique(a + 12345, m, a / m + (a % m + 12345) / m, (a % m + 12345) % m);
  }
}
