/**
 * The RSID player bus: the cycle-level C64 wrapped so that SID register
 * writes are captured for the hardware, SID register reads answer without
 * the chip, and writes above $E000 reach the KERNAL overlay too.
 */
module PlayerRsidBus {
  import opened Common
  import opened SidMapping
  import opened KernalStubs
  import opened EmuMmu
  import opened EmuC64
  import PlayerMemory
  import EmuCia

  /** The OSC3 noise generator's state, a `u32`. */
  type Seed = x: nat | x < 0x1_0000_0000

  /** The OSC3 noise generator's seed after `new`. */
  const OSC3_SEED: Seed := 0x1234_5678

  /**
   * The register a write is captured as, AS WRITTEN: the address must lie in
   * $D400-$D7FF with page $D of the write map on I/O, and then map.
   */
  function CaptureAsWritten(ioWrite: bool, mono: bool, m: SidMapper, addr: Addr): Option<Byte>
  {
    if ioWrite && 0xD400 <= addr <= 0xD7FF then MapSidWrite(mono, m, addr) else None
  }

  /**
   * The register a write is captured as: every address of the I/O page that
   * is neither the VIC-II's nor a CIA's is offered to the mapper, as on the
   * PSID bus.
   */
  function Capture(ioWrite: bool, mono: bool, m: SidMapper, addr: Addr): Option<Byte>
  {
    if ioWrite && 0xD400 <= addr < 0xE000 && !(0xDC00 <= addr < 0xDE00) then MapSidWrite(mono, m, addr) else None
  }

  /**
   * A captured write is one the mapper maps, made while I/O is visible, and
   * with the I/O page visible the RSID bus captures exactly the writes the
   * PSID bus captures.
   */
  lemma CaptureSpec(ioWrite: bool, mono: bool, bases: seq<Addr>, addr: Addr, port: Byte)
    requires |bases| <= 4
    ensures var c := Capture(ioWrite, mono, NewMapper(bases), addr);
      (c.Some? ==> ioWrite && c == MapSidWrite(mono, NewMapper(bases), addr) && c.value < 0x80)
      && (PlayerMemory.IoVisible(port) && ioWrite ==>
            c == if PlayerMemory.WriteTarget(port, addr) == PlayerMemory.SidChip
                 then MapSidWrite(mono, NewMapper(bases), addr) else None)
  {
    MapSidWriteSpec(mono, bases, addr);
  }

  /** In mono mode, and for the first SID's window, the two guards agree. */
  lemma CaptureAgrees(ioWrite: bool, mono: bool, m: SidMapper, addr: Addr)
    requires mono || 0xD400 <= addr <= 0xD7FF
    ensures CaptureAsWritten(ioWrite, mono, m, addr) == Capture(ioWrite, mono, m, addr)
  {
  }

  /**
   * With a second SID at $DE00 in stereo mode, the guard as written drops
   * every write to it although the mapper maps it to register $20.
   */
  lemma SecondSidDropped()
    ensures CaptureAsWritten(true, false, NewMapper([0xD400, 0xDE00]), 0xDE00) == None
    ensures Capture(true, false, NewMapper([0xD400, 0xDE00]), 0xDE00) == Some(0x20)
  {
    MapSpec([0xD400, 0xDE00], 0xDE00);
  }

  /** A SID register read answered by the bus: `(addr & 0x1F)` picks the register. */
  predicate SidIntercepted(readIo: bool, addr: Addr)
  {
    readIo && 0xD400 <= addr <= 0xD7FF
  }

  class RsidBus {
    const c64: C64
    var sidWrites: seq<SidWrite>
    var frameCycle: nat
    const sidShadow: array<Byte>
    ghost const bases: seq<Addr>
    const mapper: SidMapper
    const mono: bool
    var osc3Seed: Seed

    ghost predicate Valid()
      reads c64.Repr()
    {
      c64.Valid() && sidShadow.Length == 0x80 && sidShadow !in c64.Repr() && this !in c64.Repr()
      && |bases| <= 4 && mapper == NewMapper(bases)
    }

    /**
     * `new`: the machine of the video standard with old CIAs, reset; no
     * writes, a zero shadow, the fixed noise seed.
     */
    constructor (isPal: bool, rate: nat, ghost bases: seq<Addr>, mapper: SidMapper, mono: bool)
      requires |bases| <= 4 && mapper == NewMapper(bases) && rate < 0x1_0000_0000
      ensures Valid()
      ensures sidWrites == [] && frameCycle == 0 && osc3Seed == OSC3_SEED
      ensures forall i :: 0 <= i < 0x80 ==> sidShadow[i] == 0
      ensures c64.vic.model == VicModelOf(if isPal then PalB else NtscM)
    {
      var m, shadow := NewParts(isPal, rate);
      c64, sidShadow := m, shadow;
      sidWrites, frameCycle, osc3Seed := [], 0, OSC3_SEED;
      this.bases, this.mapper, this.mono := bases, mapper, mono;
      new;
      MachineApart();
    }

    /** The bus is not a part of the machine: the parts are of other classes. */
    lemma MachineApart()
      requires c64.PartsAre()
      ensures this !in c64.Repr()
    {
    }

    /** `load`: the payload lands at `addr`, cut at the top of memory; nothing else changes. */
    method Load(addr: Addr, data: seq<Byte>)
      requires Valid()
      modifies c64.ram.ram
      ensures Valid()
      ensures var end := Min(addr + |data|, 0x1_0000);
        c64.ram.ram[..] == old(c64.ram.ram[..addr]) + data[..end - addr] + old(c64.ram.ram[end..])
    {
      PlayerMemory.Load(c64.ram.ram, addr, data);
    }

    /**
     * `install_kernal_stubs`: the KERNAL overlay becomes RAM $E000-$FFFF
     * with the stubs patched over it.
     */
    method InstallKernalStubs()
      requires Valid()
      modifies c64.kernalRom.rom, c64.kernalRom`resetLo, c64.kernalRom`resetHi
      ensures Valid()
      ensures c64.kernalRom.rom[..] == Patch(c64.ram.ram[0xE000..], 0xE000)
    {
      var rom := new Byte[0x2000](_ => RTS);
      var i := 0;
      while i < 0x2000
        invariant 0 <= i <= 0x2000
        invariant forall j :: 0 <= j < i ==> rom[j] == c64.ram.ram[0xE000 + j]
      {
        rom[i] := c64.ram.ram[0xE000 + i];
        i := i + 1;
      }
      assert rom[..] == c64.ram.ram[0xE000..];
      PatchStubs(rom, 0xE000);
      c64.SetKernal(Some(rom[..]));
    }

    /** `install_software_vectors`: IRQ to $EA31, BRK to $EA81, NMI to $FE72 at $0314-$0319. */
    method InstallSoftwareVectors()
      requires Valid()
      modifies c64.ram.ram
      ensures Valid()
      ensures c64.ram.ram[0x0314..0x031A] == SOFT_VECTORS
      ensures forall i :: 0 <= i < 0x1_0000 && !(0x0314 <= i < 0x031A) ==> c64.ram.ram[i] == old(c64.ram.ram[i])
    {
      WriteRun(c64.ram.ram, 0, 0x0314, SOFT_VECTORS);
    }

    /** `install_trampoline`: `JSR target; JMP *` at `at`; nothing else in RAM changes. */
    method InstallTrampoline(at: Addr, target: Word)
      requires Valid() && at <= 0xFFFA
      modifies c64.ram.ram
      ensures Valid()
      ensures c64.ram.ram[at] == JSR && Join(c64.ram.ram[at + 2], c64.ram.ram[at + 1]) == target
      ensures c64.ram.ram[at + 3] == JMP && PlayerMemory.LittleEndian(c64.ram.ram[at + 4], c64.ram.ram[at + 5]) == at + 3
      ensures forall i :: 0 <= i < 0x1_0000 && !(at <= i < at + 6) ==> c64.ram.ram[i] == old(c64.ram.ram[i])
    {
      PlayerMemory.InstallTrampoline(c64.ram.ram, at, target);
    }

    /**
     * `set_hw_vector`: the word lands little-endian at `addr` in RAM and, from
     * $E000 up, in the KERNAL overlay as well.
     */
    method SetHwVector(addr: Addr, value: Word)
      requires Valid() && addr < 0xFFFF
      modifies c64.ram.ram, c64.kernalRom.rom
      ensures Valid()
      ensures Join(c64.ram.ram[addr + 1], c64.ram.ram[addr]) == value
      ensures addr >= 0xE000 ==> Join(c64.kernalRom.rom[addr - 0xE000 + 1], c64.kernalRom.rom[addr - 0xE000]) == value
      ensures forall i :: 0 <= i < 0x1_0000 && i != addr && i != addr + 1 ==> c64.ram.ram[i] == old(c64.ram.ram[i])
      ensures forall i :: 0 <= i < 0x2000 && i != addr - 0xE000 && i != addr - 0xE000 + 1
                ==> c64.kernalRom.rom[i] == old(c64.kernalRom.rom[i])
    {
      PlayerMemory.SetHwVector(c64.ram.ram, c64.kernalRom.rom, addr, value);
    }

    /** `clear_writes`: a new frame starts with no captured writes at cycle 0. */
    method ClearWrites()
      modifies this`sidWrites, this`frameCycle
      ensures sidWrites == [] && frameCycle == 0
    {
      sidWrites := [];
      frameCycle := 0;
    }

    /** `tick_jiffy_clock`: the 24-bit counter at $A0-$A2 steps modulo 2^24; the rest of RAM stays. */
    method TickJiffyClock()
      requires Valid()
      modifies c64.ram.ram
      ensures Valid()
      ensures PlayerMemory.Jiffy(c64.ram.ram[..]) == (old(PlayerMemory.Jiffy(c64.ram.ram[..])) + 1) % 0x100_0000
      ensures forall i :: 0 <= i < 0x1_0000 && !(0xA0 <= i <= 0xA2) ==> c64.ram.ram[i] == old(c64.ram.ram[i])
    {
      PlayerMemory.TickJiffy(c64.ram.ram);
    }

    /** `irq_pending`: CIA 1's interrupt line or the VIC-II's. */
    predicate IrqPending()
      reads c64.cia1.interrupt, c64.vic
    {
      c64.cia1.interrupt.asserted || c64.vic.st.irqState
    }

    /** `nmi_pending`: CIA 2's interrupt line. */
    predicate NmiPending()
      reads c64.cia2.interrupt
    {
      c64.cia2.interrupt.asserted
    }

    /** `clear_stale_ints`: a CIA whose timer A is stopped drops its pending interrupt flags. */
    method ClearStaleInts()
      requires Valid()
      modifies c64.cia1.interrupt, c64.cia2.interrupt
      ensures Valid()
      ensures if c64.cia1.timerA.Started() then unchanged(c64.cia1.interrupt)
              else c64.cia1.interrupt.idr == 0 && !c64.cia1.interrupt.asserted
      ensures if c64.cia2.timerA.Started() then unchanged(c64.cia2.interrupt)
              else c64.cia2.interrupt.idr == 0 && !c64.cia2.interrupt.asserted
    {
      ClearStale(c64.cia1);
      ClearStale(c64.cia2);
    }

    /** One CIA's half of `clear_stale_ints`. */
    method ClearStale(c: EmuCia.Mos652x)
      requires Valid() && (c == c64.cia1 || c == c64.cia2)
      modifies c.interrupt
      ensures Valid()
      ensures if c.timerA.Started() then unchanged(c.interrupt) else c.interrupt.idr == 0 && !c.interrupt.asserted
    {
      if !c.timerA.Started() {
        var _ := c.interrupt.Clear();
      }
    }

    /**
     * `get_byte`: with page $D of the read map on I/O, a SID register read is
     * answered here (OSC3 steps the noise generator) and the machine is not
     * touched; every other read is the C64's, for bank reads the mapped bank's
     * byte, and leaves the generator alone.
     */
    method GetByte(addr: Addr, now: nat) returns (v: Byte)
      requires Valid()
      modifies this`osc3Seed
      modifies c64.zeroRam`bit6, c64.zeroRam`bit7, c64.mmu`seed, c64.cia1.tod, c64.cia1.tod.latch, c64.cia1.interrupt,
        c64.cia2.tod, c64.cia2.tod.latch, c64.cia2.interrupt
      ensures Valid()
      ensures SidIntercepted(old(c64.mmu.readMap[0xD]) == Io, addr) ==>
        v == SidReadValue(addr % 0x20, old(osc3Seed)) && osc3Seed == SidReadSeed(addr % 0x20, old(osc3Seed))
        && unchanged(c64.zeroRam, c64.mmu, c64.cia1.tod, c64.cia1.tod.latch, c64.cia1.interrupt)
        && unchanged(c64.cia2.tod, c64.cia2.tod.latch, c64.cia2.interrupt)
      ensures !SidIntercepted(old(c64.mmu.readMap[0xD]) == Io, addr) ==> osc3Seed == old(osc3Seed)
      ensures !SidIntercepted(old(c64.mmu.readMap[0xD]) == Io, addr) && addr >= 2 ==>
        var m := old(c64.mmu.readMap[Page(addr)]);
        (m == Ram ==> v == old(c64.ram.Peek(addr))) && (m == KernalRom ==> v == old(c64.kernalRom.Peek(addr)))
        && (m == BasicRom ==> v == old(c64.basicRom.Peek(addr))) && (m == CharacterRom ==> v == old(c64.charRom.Peek(addr)))
    {
      if SidIntercepted(c64.mmu.readMap[0xD] == Io, addr) {
        v := ReadSid(addr % 0x20);
      } else {
        v := c64.GetByte(addr, now);
      }
    }

    /** The intercepted half of `get_byte`: a SID register read answered without the chip. */
    method ReadSid(reg: int) returns (v: Byte)
      modifies this`osc3Seed
      ensures v == SidReadValue(reg, old(osc3Seed)) && osc3Seed == SidReadSeed(reg, old(osc3Seed))
    {
      v := SidReadValue(reg, osc3Seed);
      osc3Seed := SidReadSeed(reg, osc3Seed);
    }

    /**
     * `set_byte`: a SID-bound write made while page $D of the write map is
     * on I/O and mapped by the mapper is recorded as (`frameCycle`,
     * register, value) and shadowed; from $E000 up the byte also lands in
     * the KERNAL overlay; then the C64 takes the write, so RAM always holds
     * it.
     */
    method SetByte(addr: Addr, val: Byte, now: nat)
      requires Valid()
      modifies this`sidWrites, sidShadow, c64.kernalRom.rom
      modifies c64.ram.ram, c64.VicSet, c64.Cia1Set, c64.Cia2Set, c64.sidBank`sid, c64.sidBank.lastPoke, c64.colorRam.ram
      modifies c64.zeroRam`bit6, c64.zeroRam`bit7, c64.zeroRam`dir, c64.zeroRam`data, c64.zeroRam`dataRead,
        c64.zeroRam`procPortPins, c64.zeroRam`portChanges
      modifies c64.MapSet
      ensures Valid()
      ensures var c := Captured(old(c64.mmu.writeMap[0xD]) == Io, addr);
        sidWrites == old(sidWrites) + (if c.Some? then [SidWrite(frameCycle, c.value, val)] else [])
        && sidShadow[..] == if c.Some? then old(sidShadow[..])[c.value as int := val] else old(sidShadow[..])
      ensures c64.kernalRom.rom[..] == if addr >= 0xE000 then old(c64.kernalRom.rom[..])[addr - 0xE000 := val]
                                       else old(c64.kernalRom.rom[..])
      ensures c64.ram.Peek(addr) == val
      ensures forall a :: 0 <= a < 0x1_0000 && a != addr ==> c64.ram.ram[a] == old(c64.ram.ram[a])
    {
      c64.WritableParts();
      CaptureWrite(c64.mmu.writeMap[0xD] == Io, addr, val);
      WriteMachine(addr, val, now);
    }

    /** The machine half of `set_byte`: the KERNAL overlay from $E000 up, then the C64's own write. */
    method WriteMachine(addr: Addr, val: Byte, now: nat)
      requires c64.Valid()
      modifies c64.kernalRom.rom
      modifies c64.ram.ram, c64.VicSet, c64.Cia1Set, c64.Cia2Set, c64.sidBank`sid, c64.sidBank.lastPoke, c64.colorRam.ram
      modifies c64.zeroRam`bit6, c64.zeroRam`bit7, c64.zeroRam`dir, c64.zeroRam`data, c64.zeroRam`dataRead,
        c64.zeroRam`procPortPins, c64.zeroRam`portChanges
      modifies c64.MapSet
      ensures c64.Valid()
      ensures c64.kernalRom.rom[..] == if addr >= 0xE000 then old(c64.kernalRom.rom[..])[addr - 0xE000 := val]
                                       else old(c64.kernalRom.rom[..])
      ensures c64.ram.Peek(addr) == val
      ensures forall a :: 0 <= a < 0x1_0000 && a != addr ==> c64.ram.ram[a] == old(c64.ram.ram[a])
    {
      if addr >= 0xE000 {
        c64.PokeKernal(addr - 0xE000, val);
      }
      c64.SetByte(addr, val, now);
    }

    /** The register a write is captured as on this bus; it lies inside the shadow. */
    function Captured(ioWrite: bool, addr: Addr): (r: Option<Byte>)
      requires |bases| <= 4 && mapper == NewMapper(bases)
      ensures r.Some? ==> r.value < 0x80
    {
      MapSidWriteSpec(mono, bases, addr);
      Capture(ioWrite, mono, mapper, addr)
    }

    /** The capture half of `set_byte`. */
    method CaptureWrite(ioWrite: bool, addr: Addr, val: Byte)
      requires |bases| <= 4 && mapper == NewMapper(bases) && sidShadow.Length == 0x80
      modifies this`sidWrites, sidShadow
      ensures var c := Captured(ioWrite, addr);
        sidWrites == old(sidWrites) + (if c.Some? then [SidWrite(frameCycle, c.value, val)] else [])
        && sidShadow[..] == if c.Some? then old(sidShadow[..])[c.value as int := val] else old(sidShadow[..])
    {
      var c := Captured(ioWrite, addr);
      if c.Some? {
        sidWrites := sidWrites + [SidWrite(frameCycle, c.value, val)];
        sidShadow[c.value] := val;
      }
    }
  }

  /** The zeroed SID register shadow `new` builds. */
  method NewShadow() returns (a: array<Byte>)
    ensures fresh(a) && a.Length == 0x80
    ensures forall i :: 0 <= i < 0x80 ==> a[i] == 0
  {
    a := new Byte[0x80](_ => 0);
  }

  /** The machine and the zero shadow `new` builds, the shadow apart from the machine. */
  method NewParts(isPal: bool, rate: nat) returns (m: C64, shadow: array<Byte>)
    requires rate < 0x1_0000_0000
    ensures m.Valid() && fresh(m.Repr()) && fresh(m) && m.PartsAre()
    ensures m.vic.model == VicModelOf(if isPal then PalB else NtscM)
    ensures fresh(shadow) && shadow.Length == 0x80 && shadow !in m.Repr()
    ensures forall i :: 0 <= i < 0x80 ==> shadow[i] == 0
  {
    m := NewMachine(isPal, rate);
    shadow := NewShadow();
  }

  /** The machine `new` builds: the model's VIC-II and TOD rate, old CIAs, then a reset. */
  method NewMachine(isPal: bool, rate: nat) returns (m: C64)
    requires rate < 0x1_0000_0000
    ensures m.Valid() && fresh(m.Repr()) && fresh(m)
    ensures m.vic.model == VicModelOf(if isPal then PalB else NtscM)
  {
    m := new C64();
    m.SetModel(if isPal then PalB else NtscM, rate);
    m.SetCiaModel(Old);
    m.Reset();
  }
}
