/**
 * The C64's PLA as the emulator models it (`c64_emu/mmu.rs`): the three
 * processor-port lines LORAM, HIRAM and CHAREN select, for each of the
 * sixteen 4 KB pages, which bank a read and a write reach. The unit also
 * owns the pseudo-random generator behind the floating "last VIC bus
 * byte".
 */
module EmuMmu {
  import opened Common

  /** The bank behind one 4 KB page. */
  datatype PageMapping = Ram | BasicRom | KernalRom | CharacterRom | Io

  /** Seed of the bus-noise generator at power-on. */
  const INITIAL_SEED: nat := 3686734

  const LCG_MUL: nat := 1664525
  const LCG_ADD: nat := 1013904223
  const TWO32: nat := 0x1_0000_0000

  // ---------------------------------------------------------------------------
  //  The banking table, page by page
  // ---------------------------------------------------------------------------

  /**
   * What a read of page `p` reaches: KERNAL at $E000-$FFFF with HIRAM,
   * BASIC at $A000-$BFFF with LORAM and HIRAM, I/O or the character ROM at
   * $D000 when either ROM line is up (CHAREN picks which), RAM elsewhere.
   */
  function ReadMapping(loram: bool, hiram: bool, charen: bool, p: nat): PageMapping
  {
    if p == 0xE || p == 0xF then (if hiram then KernalRom else Ram)
    else if p == 0xA || p == 0xB then (if loram && hiram then BasicRom else Ram)
    else if p == 0xD then
      (if !(loram || hiram) then Ram else if charen then Io else CharacterRom)
    else Ram
  }

  /** What a write to page `p` reaches: RAM, except I/O when it is banked in. */
  function WriteMapping(loram: bool, hiram: bool, charen: bool, p: nat): PageMapping
  {
    if p == 0xD && charen && (loram || hiram) then Io else Ram
  }

  /** The three port lines carried by bits 0, 1 and 2 of the port state. */
  function LoramOf(state: Byte): bool { state & 1 != 0 }
  function HiramOf(state: Byte): bool { state & 2 != 0 }
  function CharenOf(state: Byte): bool { state & 4 != 0 }

  /** One step of the bus-noise generator: `seed * 1664525 + 1013904223`, wrapping at 32 bits. */
  function LcgNext(seed: nat): (r: nat)
    ensures r < TWO32
  {
    ((seed * LCG_MUL) % TWO32 + LCG_ADD) % TWO32
  }

  // ---------------------------------------------------------------------------
  //  The unit
  // ---------------------------------------------------------------------------

  class Mmu {
    var loram: bool
    var hiram: bool
    var charen: bool
    /** The bank a read of each page reaches. */
    const readMap: array<PageMapping>
    /** The bank a write to each page reaches. */
    const writeMap: array<PageMapping>
    /** 32-bit state of the bus-noise generator. */
    var seed: nat

    predicate Valid()
      reads this
    {
      readMap.Length == 16 && writeMap.Length == 16 && readMap != writeMap && seed < TWO32
    }

    /** Both maps agree with the banking table for the current port lines. */
    predicate Mapped()
      reads this, readMap, writeMap
      requires Valid()
    {
      (forall p :: 0 <= p < 16 ==> readMap[p] == ReadMapping(loram, hiram, charen, p)) &&
      (forall p :: 0 <= p < 16 ==> writeMap[p] == WriteMapping(loram, hiram, charen, p))
    }

    /** `new`: all lines low, maps built, generator at its initial seed. */
    constructor ()
      ensures Valid() && Mapped() && fresh(readMap) && fresh(writeMap)
      ensures !loram && !hiram && !charen && seed == INITIAL_SEED
    {
      loram, hiram, charen := false, false, false;
      readMap := new PageMapping[16](_ => Ram);
      writeMap := new PageMapping[16](_ => Ram);
      seed := INITIAL_SEED;
      new;
      UpdateMapping();
    }

    /** `reset`: all lines low again; the generator keeps running. */
    method Reset()
      requires Valid()
      modifies this, readMap, writeMap
      ensures Valid() && Mapped()
      ensures !loram && !hiram && !charen && seed == old(seed)
    {
      loram, hiram, charen := false, false, false;
      UpdateMapping();
    }

    /** `set_cpu_port`: takes the lines from bits 0-2 of the port state and remaps. */
    method SetCpuPort(state: Byte)
      requires Valid()
      modifies this, readMap, writeMap
      ensures Valid() && Mapped()
      ensures loram == LoramOf(state) && hiram == HiramOf(state) && charen == CharenOf(state)
      ensures seed == old(seed)
    {
      var l, h, c := LoramOf(state), HiramOf(state), CharenOf(state);
      loram, hiram, charen := l, h, c;
      UpdateMapping();
    }

    /** `update_mapping`: everything to RAM, then the ROM and I/O pages the lines select. */
    method UpdateMapping()
      requires Valid()
      modifies readMap, writeMap
      ensures Mapped()
    {
      var i := 0;
      while i < 16
        invariant 0 <= i <= 16
        invariant forall p :: 0 <= p < i ==> readMap[p] == Ram && writeMap[p] == Ram
      {
        readMap[i] := Ram;
        writeMap[i] := Ram;
        i := i + 1;
      }
      if hiram {
        readMap[0xE] := KernalRom;
        readMap[0xF] := KernalRom;
      }
      if loram && hiram {
        readMap[0xA] := BasicRom;
        readMap[0xB] := BasicRom;
      }
      if charen && (loram || hiram) {
        readMap[0xD] := Io;
        writeMap[0xD] := Io;
      } else if !charen && (loram || hiram) {
        readMap[0xD] := CharacterRom;
      }
    }

    /** `last_read_byte`: advances the generator and returns bits 16-23 of the new seed. */
    method LastReadByte() returns (b: Byte)
      requires Valid()
      modifies this`seed
      ensures Valid()
      ensures seed == LcgNext(old(seed)) && b == Bits16To23(seed)
    {
      seed := LcgNext(seed);
      b := Bits16To23(seed);
    }
  }

  // ---------------------------------------------------------------------------
  //  Properties of the banking table
  // ---------------------------------------------------------------------------

  /** The KERNAL is visible exactly on pages E and F, exactly when HIRAM is up. */
  lemma KernalVisible(loram: bool, hiram: bool, charen: bool, p: nat)
    ensures ReadMapping(loram, hiram, charen, p) == KernalRom <==> (hiram && (p == 0xE || p == 0xF))
  {
  }

  /** BASIC is visible exactly on pages A and B, exactly when LORAM and HIRAM are both up. */
  lemma BasicVisible(loram: bool, hiram: bool, charen: bool, p: nat)
    ensures ReadMapping(loram, hiram, charen, p) == BasicRom <==> (loram && hiram && (p == 0xA || p == 0xB))
  {
  }

  /**
   * Page D: I/O for reads and writes when CHAREN and a ROM line are up,
   * the character ROM for reads (writes to RAM) when CHAREN is down and a
   * ROM line is up, RAM both ways when both ROM lines are down.
   */
  lemma PageDRules(loram: bool, hiram: bool, charen: bool)
    ensures (ReadMapping(loram, hiram, charen, 0xD) == Io) <==> (charen && (loram || hiram))
    ensures (ReadMapping(loram, hiram, charen, 0xD) == Io) <==> (WriteMapping(loram, hiram, charen, 0xD) == Io)
    ensures (ReadMapping(loram, hiram, charen, 0xD) == CharacterRom) <==> (!charen && (loram || hiram))
    ensures !(loram || hiram) ==> ReadMapping(loram, hiram, charen, 0xD) == Ram
  {
  }

  /** Writes reach RAM everywhere but page D, and reads of pages 0-9 and C always reach RAM. */
  lemma AlwaysRam(loram: bool, hiram: bool, charen: bool, p: nat)
    ensures p != 0xD ==> WriteMapping(loram, hiram, charen, p) == Ram
    ensures (p <= 9 || p == 0xC || p >= 16) ==> ReadMapping(loram, hiram, charen, p) == Ram
  {
  }

  /** A write reaches I/O only where a read does: no write goes to ROM or to a page a read does not see. */
  lemma WriteFollowsRead(loram: bool, hiram: bool, charen: bool, p: nat)
    ensures WriteMapping(loram, hiram, charen, p) == Io ==> ReadMapping(loram, hiram, charen, p) == Io
    ensures WriteMapping(loram, hiram, charen, p) in {Ram, Io}
  {
  }

  /**
   * The port states the C64 documents: with both ROM lines low (states
   * 0 and 4) the whole space is RAM; state 7, the power-on default the
   * KERNAL sets, shows BASIC, I/O and the KERNAL; state 5 shows only I/O.
   */
  lemma PortModes(state: Byte, p: nat)
    ensures state & 3 == 0 ==>
      (ReadMapping(LoramOf(state), HiramOf(state), CharenOf(state), p) == Ram &&
       WriteMapping(LoramOf(state), HiramOf(state), CharenOf(state), p) == Ram)
    ensures state == 7 ==>
      ReadMapping(true, true, true, p) ==
        (if p == 0xA || p == 0xB then BasicRom
         else if p == 0xD then Io
         else if p == 0xE || p == 0xF then KernalRom
         else Ram)
    ensures state == 5 ==>
      (LoramOf(state) && !HiramOf(state) && CharenOf(state) &&
       ReadMapping(true, false, true, p) == (if p == 0xD then Io else Ram))
  {
  }

  /**
   * The two wrapping steps of the generator equal one reduction of the
   * exact value modulo 2^32.
   */
  lemma {:induction false} LcgSingleReduction(seed: nat)
    ensures LcgNext(seed) == (seed * LCG_MUL + LCG_ADD) % TWO32
  {
    var x := seed * LCG_MUL;
    var q, r := x / TWO32, x % TWO32;
    assert x == q * TWO32 + r;
    var q2, r2 := (r + LCG_ADD) / TWO32, (r + LCG_ADD) % TWO32;
    assert x + LCG_ADD == (q + q2) * TWO32 + r2;
    DivModUnique(x + LCG_ADD, TWO32, q + q2, r2);
  }

  /** The noise byte is bits 16-23 of the seed: it never depends on the seed's upper byte. */
  lemma NoiseIgnoresHighByte(seed: nat, k: nat)
    requires seed < 0x100_0000
    ensures Bits16To23(seed + k * 0x100_0000) == Bits16To23(seed)
  {
    var q := seed / 0x1_0000;
    var r := seed % 0x1_0000;
    assert seed + k * 0x100_0000 == (q + k * 0x100) * 0x1_0000 + r;
    DivModUnique(seed + k * 0x100_0000, 0x1_0000, q + k * 0x100, r);
    assert (q + k * 0x100) % 0x100 == q % 0x100 by {
      DivModUnique(q + k * 0x100, 0x100, q / 0x100 + k, q % 0x100);
    }
  }
}
