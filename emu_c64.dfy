/**
 * The top-level C64 machine (`c64_emu/c64.rs`): the VIC-II, two CIAs, the
 * memory banks and the PLA/MMU wired together behind the CPU's bus. Reads
 * of $0000/$0001 go to the CPU port and every other read follows the
 * MMU's read map, with page $D dispatched through the I/O bank; every
 * write lands in system RAM, and a write to the I/O page also reaches the
 * one chip the I/O bank names.
 */
module EmuC64 {
  import opened Common
  import opened EmuBanks
  import opened EmuRom
  import opened EmuZeroRam
  import opened EmuMmu
  import EmuCia
  import opened EmuCiaInterrupt
  import opened EmuVic

  /** The machine models, each with its VIC-II (`MODELS`; the clock rates are floating point and left out). */
  datatype C64Model = PalB | NtscM | OldNtscM | PalN | PalM

  /** The CIA generations a machine can be fitted with. */
  datatype C64CiaModel = Old | New | Old4485

  /** The VIC-II of each machine model. */
  function VicModelOf(m: C64Model): VicModel
  {
    match m
    case PalB => Mos6569
    case NtscM => Mos6567R8
    case OldNtscM => Mos6567R56A
    case PalN => Mos6572
    case PalM => Mos6573
  }

  /** `to_cia_model`. */
  function ToCiaModel(m: C64CiaModel): CiaModel
  {
    match m
    case Old => Mos6526
    case New => Mos8521
    case Old4485 => Mos6526W4485
  }

  /** Every CIA model is reachable from exactly one machine setting, so the mapping loses nothing. */
  lemma ToCiaModelBijective(m1: C64CiaModel, m2: C64CiaModel, c: CiaModel)
    ensures ToCiaModel(m1) == ToCiaModel(m2) ==> m1 == m2
    ensures exists m :: ToCiaModel(m) == c
  {
    match c
    case Mos6526 => assert ToCiaModel(Old) == c;
    case Mos8521 => assert ToCiaModel(New) == c;
    case Mos6526W4485 => assert ToCiaModel(Old4485) == c;
  }

  /** Each machine model has its own VIC-II. */
  lemma VicModelOfInjective(m1: C64Model, m2: C64Model)
    ensures VicModelOf(m1) == VicModelOf(m2) ==> m1 == m2
  {
  }

  /** The 4K page of an address, `addr >> 12`. */
  function Page(addr: Addr): (p: nat)
    ensures p < 16
  {
    addr / 0x1000
  }

  /** The PLA state depends only on the low three bits of the port value. */
  lemma PlaStateLowBits(a: Byte, b: Byte, dir: Byte)
    requires a & 0x3F == b & 0x3F
    ensures PlaState(a, dir) == PlaState(b, dir)
  {
  }

  /**
   * When the read-back value is the one `update_cpu_port` computed, the
   * state the bus hands the MMU is the one the port reports to its
   * listener: input lines read high and output lines read their data bit.
   */
  lemma ReadBackPlaState(data: Byte, dir: Byte, pins: Byte)
    ensures PlaState(PortReadBack(data, dir, pins), dir) == PlaState(data, dir)
  {
  }

  /** `(addr & 0x0F) as u8` names CIA register `addr % 16`. */
  lemma CiaRegister(x: nat)
    requires x < 16
    ensures EmuCia.RegIndex(x as Byte) == x
  {
  }

  /** `(addr & 0x3F) as u8` names VIC register `addr % 64`. */
  lemma VicRegister(x: nat)
    requires x < 0x40
    ensures EmuVic.RegIndex(x as Byte) == x
  {
  }


  class C64 {
    const vic: Mos656x
    const cia1: EmuCia.Mos652x
    const cia2: EmuCia.Mos652x
    const ram: SystemRamBank
    const kernalRom: KernalRomBank
    const basicRom: BasicRomBank
    const charRom: CharacterRomBank
    const colorRam: ColorRamBank
    const sidBank: SidBank
    const disconnectedBus: DisconnectedBusBank
    const zeroRam: ZeroRamBank
    const ioBank: IoBank
    const mmu: Mmu
    var irqCount: int
    var oldBaState: bool
    var cycleCount: nat

    /** The objects of the VIC-II, of each CIA, of the memory banks and of the MMU; no two parts share one. */
    ghost const VicSet: set<object>
    ghost const Cia1Set: set<object>
    ghost const Cia2Set: set<object>
    ghost const MemSet: set<object>
    ghost const MapSet: set<object>
    ghost const StaticSet: set<object>

    /** The objects a CIA is made of. */
    static ghost function CiaParts(c: EmuCia.Mos652x): set<object>
    {
      {c, c.regs, c.timerA, c.timerB, c.tod, c.tod.clock, c.tod.latch, c.tod.alarm, c.interrupt}
    }

    static ghost function VicParts(v: Mos656x): set<object>
    {
      {v, v.regs, v.lp, v.sprites, v.sprites.mc, v.sprites.mcBase}
    }

    /** The objects of the memory banks whose contents change or are chosen at run time. */
    static ghost function MemParts(r: SystemRamBank, k: KernalRomBank, b: BasicRomBank, ch: CharacterRomBank,
                                   co: ColorRamBank, sb: SidBank, zr: ZeroRamBank): set<object>
    {
      {r.ram, co, co.ram, sb, sb.lastPoke, zr, k, k.rom, b, b.rom, ch.rom}
    }

    /** The bank objects no operation reassigns, and the I/O page table. */
    static ghost function StaticParts(r: SystemRamBank, ch: CharacterRomBank, bus: DisconnectedBusBank, io: IoBank): set<object>
    {
      {r, ch, bus, io, io.pages}
    }

    static ghost function MapParts(m: Mmu): set<object>
    {
      {m, m.readMap, m.writeMap}
    }

    ghost function Repr(): set<object>
    {
      VicSet + Cia1Set + Cia2Set + (MemSet + StaticSet) + MapSet
    }

    /** The parts are what the machine is made of, and they share nothing. */
    ghost predicate Separate()
    {
      PartsAre() && PartsDisjoint() && StoresDistinct()
    }

    ghost predicate PartsAre()
    {
      VicSet == VicParts(vic) && Cia1Set == CiaParts(cia1) && Cia2Set == CiaParts(cia2) &&
      MemSet == MemParts(ram, kernalRom, basicRom, charRom, colorRam, sidBank, zeroRam) &&
      MapSet == MapParts(mmu) && StaticSet == StaticParts(ram, charRom, disconnectedBus, ioBank)
    }

    ghost predicate PartsDisjoint()
    {
      VicSet !! Cia1Set && VicSet !! Cia2Set && Cia1Set !! Cia2Set &&
      VicSet !! MemSet && VicSet !! MapSet && VicSet !! StaticSet &&
      Cia1Set !! MemSet && Cia1Set !! MapSet && Cia1Set !! StaticSet &&
      Cia2Set !! MemSet && Cia2Set !! MapSet && Cia2Set !! StaticSet &&
      MemSet !! MapSet && MemSet !! StaticSet && MapSet !! StaticSet &&
      this !in Repr()
    }

    /** The RAM, ROM and register stores of the banks are distinct arrays. */
    ghost predicate StoresDistinct()
    {
      ram.ram != colorRam.ram && ram.ram != sidBank.lastPoke && ram.ram != kernalRom.rom &&
      ram.ram != basicRom.rom && ram.ram != charRom.rom &&
      colorRam.ram != sidBank.lastPoke && colorRam.ram != kernalRom.rom &&
      colorRam.ram != basicRom.rom && colorRam.ram != charRom.rom &&
      sidBank.lastPoke != kernalRom.rom && sidBank.lastPoke != basicRom.rom && sidBank.lastPoke != charRom.rom &&
      kernalRom.rom != basicRom.rom && kernalRom.rom != charRom.rom && basicRom.rom != charRom.rom
    }

    /** The VIC-II is consistent. */
    ghost predicate VicValid()
      requires PartsAre()
      reads VicSet
    {
      vic.Valid()
    }

    /** CIA 1 is consistent. */
    ghost predicate Cia1Valid()
      requires PartsAre()
      reads Cia1Set
    {
      cia1.Valid()
    }

    /** CIA 2 is consistent. */
    ghost predicate Cia2Valid()
      requires PartsAre()
      reads Cia2Set
    {
      cia2.Valid()
    }

    /** The memory banks have their sizes and the colour RAM keeps nybbles. */
    ghost predicate BanksValid()
      requires PartsAre()
      reads MemSet
    {
      ram.Valid() && kernalRom.Valid() && basicRom.Valid() && charRom.Valid() &&
      colorRam.Valid() && sidBank.Valid() && zeroRam.Valid() && ioBank.Valid()
    }

    /** The MMU's maps agree with its port lines. */
    ghost predicate MapValid()
      requires PartsAre()
      reads MapSet
    {
      mmu.Valid() && mmu.Mapped()
    }

    ghost predicate Valid()
      reads Repr()
    {
      Separate() && VicValid() && Cia1Valid() && Cia2Valid() && BanksValid() && MapValid()
    }

    /** `new`: fresh chips and banks, the standard I/O map, the KERNAL stub installed, BA high. */
    constructor ()
      ensures Valid() && fresh(Repr())
      ensures irqCount == 0 && oldBaState && cycleCount == 0
      ensures ram.PoweredOn() && kernalRom.HasStub()
      ensures vic.model == Mos6569 && cia1.interrupt.model == Mos6526 && cia2.interrupt.model == Mos6526
      ensures !mmu.loram && !mmu.hiram && !mmu.charen && ioBank.pages[..] == DEFAULT_IO_MAP
    {
      irqCount, oldBaState, cycleCount := 0, true, 0;
      var v, c1, c2, chips := NewChips();
      var r, k, b, ch, co, sb, zr, bus, io, banks := NewBanks(chips);
      var m, maps := NewMmu(chips + banks);
      PartsApart(VicParts(v), CiaParts(c1), CiaParts(c2), MemParts(r, k, b, ch, co, sb, zr), StaticParts(r, ch, bus, io), MapParts(m));
      vic, cia1, cia2 := v, c1, c2;
      ram, kernalRom, basicRom, charRom, colorRam, sidBank, zeroRam := r, k, b, ch, co, sb, zr;
      disconnectedBus, ioBank, mmu := bus, io, m;
      VicSet, Cia1Set, Cia2Set := VicParts(v), CiaParts(c1), CiaParts(c2);
      MemSet, MapSet, StaticSet := MemParts(r, k, b, ch, co, sb, zr), MapParts(m), StaticParts(r, ch, bus, io);
      new;
      ThisApart();
    }

    /** The machine object is none of its parts: they are of other classes. */
    lemma ThisApart()
      requires PartsAre()
      ensures this !in Repr()
    {
    }

    /** `set_cia_model`: both CIAs get the mapped model. */
    method SetCiaModel(model: C64CiaModel)
      requires Valid()
      modifies cia1.interrupt, cia2.interrupt
      ensures Valid()
      ensures cia1.interrupt.model == ToCiaModel(model) && cia2.interrupt.model == ToCiaModel(model)
    {
      var cm := ToCiaModel(model);
      SetCiaModelOf(cia1, cm);
      SetCiaModelOf(cia2, cm);
    }

    /** One CIA of the machine gets a fresh interrupt source of `cm`. */
    method SetCiaModelOf(c: EmuCia.Mos652x, cm: CiaModel)
      requires Valid() && (c == cia1 || c == cia2)
      modifies c.interrupt
      ensures Valid() && c.interrupt.model == cm
    {
      c.SetModel(cm);
    }

    /**
     * `set_model` without its floating-point part: the VIC-II of the model
     * is selected and both TOD clocks get `rate`, the power-line rate the
     * source derives from the model's clock frequency.
     */
    method SetModel(model: C64Model, rate: nat)
      requires Valid() && rate < 0x1_0000_0000
      modifies VicSet, cia1.tod, cia2.tod
      ensures Valid()
      ensures vic.model == VicModelOf(model) && vic.st.rasterY == vic.maxRasters - 1
      ensures cia1.tod.period == rate * 128 && cia2.tod.period == rate * 128
    {
      SelectModel(vic, cia1, cia2, VicModelOf(model), rate, VicSet);
    }

    /** `set_kernal`: a given image is copied over the ROM; none reinstalls the stub. */
    method SetKernal(rom: Option<seq<Byte>>)
      requires Valid()
      modifies kernalRom.rom, kernalRom`resetLo, kernalRom`resetHi
      ensures Valid()
      ensures rom.Some? ==> kernalRom.rom[..] == Overlay(old(kernalRom.rom[..]), rom.value)
      ensures rom == None ==> kernalRom.HasStub()
    {
      kernalRom.Set(rom);
    }

    /** `set_basic`: a given image is copied over the ROM and its patch areas are saved again. */
    method SetBasic(rom: Option<seq<Byte>>)
      requires Valid()
      modifies basicRom.rom, basicRom`trapBackup, basicRom`subtuneBackup
      ensures Valid()
      ensures basicRom.rom[..] == if rom.Some? then Overlay(old(basicRom.rom[..]), rom.value) else old(basicRom.rom[..])
    {
      basicRom.Set(rom);
    }

    /** `set_chargen`: a given image is copied over the character ROM. */
    method SetChargen(rom: Option<seq<Byte>>)
      requires Valid()
      modifies charRom.rom
      ensures Valid()
      ensures charRom.rom[..] == if rom.Some? then Overlay(old(charRom.rom[..]), rom.value) else old(charRom.rom[..])
    {
      charRom.Set(rom);
    }

    /** `set_base_sid`: the chip behind $D400; none installs the placeholder. */
    method SetBaseSid(s: Option<SidChip>)
      requires Valid()
      modifies sidBank`sid
      ensures Valid()
      ensures sidBank.sid == if s.Some? then s.value else NullSid
    {
      sidBank.SetSid(s);
    }

    /**
     * `reset`: every chip and bank reset in turn, the MMU back to all-RAM
     * with its noise generator left running, and the counters cleared.
     */
    method Reset()
      requires Valid()
      modifies this`irqCount, this`oldBaState, this`cycleCount, VicSet, Cia1Set, Cia2Set, MemSet, MapSet
      ensures Valid()
      ensures irqCount == 0 && oldBaState && cycleCount == 0
      ensures ResetChipsDone(old(vic.model), old(cia1.clock), old(cia2.clock))
      ensures ResetMemoryDone()
      ensures !mmu.loram && !mmu.hiram && !mmu.charen && mmu.seed == old(mmu.seed)
    {
      ClearCounters();
      ResetAllChips();
      ResetAllMemory();
      ResetMap();
    }

    /** `reset`'s counter part: the IRQ count, the BA line and the cycle count. */
    method ClearCounters()
      modifies this`irqCount, this`oldBaState, this`cycleCount
      ensures irqCount == 0 && oldBaState && cycleCount == 0
    {
      irqCount, oldBaState, cycleCount := 0, true, 0;
    }

    /** `reset`'s chip part. */
    method ResetAllChips()
      requires Valid()
      modifies VicSet, Cia1Set, Cia2Set
      ensures Valid() && ResetChipsDone(old(vic.model), old(cia1.clock), old(cia2.clock))
    {
      ResetChips(vic, cia1, cia2, VicSet + Cia1Set + Cia2Set);
    }

    /** `reset`'s memory part. */
    method ResetAllMemory()
      requires Valid()
      modifies MemSet
      ensures Valid() && ResetMemoryDone()
    {
      ResetMemory(ram, colorRam, sidBank, zeroRam, kernalRom, basicRom,
                  {ram.ram, colorRam.ram, sidBank, sidBank.lastPoke, zeroRam, kernalRom.rom, basicRom.rom});
    }

    /** `reset`'s MMU part: all lines low, the maps rebuilt, the generator left as it was. */
    method ResetMap()
      requires Valid()
      modifies MapSet
      ensures Valid() && !mmu.loram && !mmu.hiram && !mmu.charen && mmu.seed == old(mmu.seed)
    {
      mmu.Reset();
    }

    /** The chips after `reset`: registers zero, the beam on the last line, no interrupt, the CIA clocks running on. */
    ghost predicate ResetChipsDone(model: VicModel, clock1: nat, clock2: nat)
      reads VicSet, Cia1Set, Cia2Set
      requires Separate()
    {
      vic.model == model && vic.st.rasterY == vic.maxRasters - 1 && vic.regs[..] == seq(0x40, _ => 0) &&
      !vic.st.irqState && vic.baState &&
      cia1.regs.Length == 16 && cia2.regs.Length == 16 &&
      (forall i :: 0 <= i < 16 ==> cia1.regs[i] == 0 && cia2.regs[i] == 0) &&
      !cia1.interrupt.asserted && !cia2.interrupt.asserted &&
      cia1.clock == clock1 && cia2.clock == clock2
    }

    /** The banks after `reset`: SID registers and colour RAM zero, RAM at its power-on pattern, the port at power-on, the reset vector restored. */
    ghost predicate ResetMemoryDone()
      reads MemSet, ram
      requires Separate()
    {
      sidBank.lastPoke.Length == 0x20 && colorRam.ram.Length == 0x400 && ram.ram.Length == 0x1_0000 &&
      kernalRom.rom.Length == 0x2000 &&
      (forall r :: 0 <= r < 0x20 ==> sidBank.lastPoke[r] == 0) &&
      (forall i :: 0 <= i < 0x400 ==> colorRam.ram[i] == 0) &&
      ram.PoweredOn() &&
      zeroRam.dir == 0 && zeroRam.data == 0x3F &&
      kernalRom.rom[0x1FFC] == kernalRom.resetLo && kernalRom.rom[0x1FFD] == kernalRom.resetHi
    }

    /**
     * `tick_peripherals`: one more cycle; the VIC-II, CIA 1 and CIA 2 are
     * clocked in that order; IRQ is reported when the VIC-II raised its
     * line or CIA 1 asserted this cycle, NMI exactly when CIA 2 asserted.
     */
    method TickPeripherals() returns (irq: bool, nmi: bool)
      requires Valid()
      modifies this`cycleCount, VicSet, Cia1Set, Cia2Set
      ensures Valid() && cycleCount == old(cycleCount) + 1
      ensures vic.TickedFrom(old(vic.Snapshot()))
      ensures cia1.TickedFrom(old(cia1.Snapshot())) && cia2.TickedFrom(old(cia2.Snapshot()))
      ensures irq == ((!old(vic.st.irqState) && vic.st.irqState) ||
                      (!old(cia1.interrupt.asserted) && cia1.interrupt.asserted))
      ensures nmi == (!old(cia2.interrupt.asserted) && cia2.interrupt.asserted)
    {
      cycleCount := cycleCount + 1;
      ValidKept();
      VicKept(vic);
      CiaKept(cia1);
      CiaKept(cia2);
      irq, nmi := TickAllChips();
    }

    /** The machine stays consistent while none of its parts change. */
    twostate lemma ValidKept()
      requires old(Valid()) && unchanged(Repr())
      ensures Valid()
    {
    }

    /** The chip part of `tick_peripherals`. */
    method TickAllChips() returns (irq: bool, nmi: bool)
      requires Valid()
      modifies VicSet, Cia1Set, Cia2Set
      ensures Valid()
      ensures vic.TickedFrom(old(vic.Snapshot()))
      ensures cia1.TickedFrom(old(cia1.Snapshot())) && cia2.TickedFrom(old(cia2.Snapshot()))
      ensures irq == ((!old(vic.st.irqState) && vic.st.irqState) ||
                      (!old(cia1.interrupt.asserted) && cia1.interrupt.asserted))
      ensures nmi == (!old(cia2.interrupt.asserted) && cia2.interrupt.asserted)
    {
      irq, nmi := TickChips(vic, cia1, cia2, VicSet + Cia1Set + Cia2Set);
    }

    /**
     * `get_byte`: $0000/$0001 read the CPU port; every other address reads
     * the bank the MMU's read map gives its 4K page, and page $D under I/O
     * reads the chip the I/O bank names.
     */
    method GetByte(addr: Addr, now: nat) returns (v: Byte)
      requires Valid()
      modifies zeroRam`bit6, zeroRam`bit7, mmu`seed, cia1.tod, cia1.tod.latch, cia1.interrupt,
        cia2.tod, cia2.tod.latch, cia2.interrupt
      ensures Valid()
      ensures addr == 0 ==> v == zeroRam.dir
      ensures addr == 1 ==> v == WithFallOff(zeroRam.dataRead, zeroRam.dir,
                                             ReadBit(old(zeroRam.bit6), zeroRam.Phi2Time(now)).0,
                                             ReadBit(old(zeroRam.bit7), zeroRam.Phi2Time(now)).0)
      ensures addr >= 2 ==>
        var m := old(mmu.readMap[Page(addr)]);
        (m == Ram ==> v == old(ram.Peek(addr))) && (m == BasicRom ==> v == old(basicRom.Peek(addr))) &&
        (m == KernalRom ==> v == old(kernalRom.Peek(addr))) && (m == CharacterRom ==> v == old(charRom.Peek(addr))) &&
        (m == Io ==> IoRead(addr, old(ioBank.Dispatch(addr)), v, old(mmu.seed), old(cia1.Snapshot()), old(cia2.Snapshot())))
      ensures addr >= 2 ==> zeroRam.bit6 == old(zeroRam.bit6) && zeroRam.bit7 == old(zeroRam.bit7)
      ensures !(addr >= 2 && old(mmu.readMap[Page(addr)]) == Io) ==>
        mmu.seed == old(mmu.seed) && unchanged(cia1.interrupt, cia2.interrupt)
    {
      if addr < 2 {
        v := ReadPort(addr, now);
      } else if mmu.readMap[Page(addr)] == Io {
        v := ReadIo(addr, ioBank.Dispatch(addr));
      } else {
        v := BankPeek(addr);
      }
    }

    /** The byte the RAM or ROM bank the read map gives the address's page holds there. */
    function BankPeek(addr: Addr): Byte
      reads Repr()
      requires Valid() && mmu.readMap[Page(addr)] != Io
    {
      match mmu.readMap[Page(addr)]
      case Ram => ram.Peek(addr)
      case BasicRom => basicRom.Peek(addr)
      case KernalRom => kernalRom.Peek(addr)
      case CharacterRom => charRom.Peek(addr)
    }

    /** `peek_mut` on the CPU port. */
    method ReadPort(addr: Addr, now: nat) returns (v: Byte)
      requires Valid() && addr < 2
      modifies zeroRam`bit6, zeroRam`bit7
      ensures Valid()
      ensures addr == 0 ==> v == zeroRam.dir
      ensures addr == 1 ==> v == WithFallOff(zeroRam.dataRead, zeroRam.dir,
                                             ReadBit(old(zeroRam.bit6), zeroRam.Phi2Time(now)).0,
                                             ReadBit(old(zeroRam.bit7), zeroRam.Phi2Time(now)).0)
      ensures mmu.seed == old(mmu.seed) && unchanged(cia1.interrupt, cia2.interrupt)
    {
      v := zeroRam.PeekMut(addr, now);
    }

    /**
     * What a read of I/O address `addr` returned, given the noise seed and
     * the CIAs' interrupt data before it: the addressed VIC-II, SID or
     * colour RAM register; for a CIA what its own read yields, an
     * interrupt-control read handing over and clearing the pending flags;
     * the next noise byte for the floating area; $FF for an extra SID.
     */
    ghost predicate IoRead(addr: Addr, c: IoChip, v: Byte, seed: nat, c1: EmuCia.CiaState, c2: EmuCia.CiaState)
      reads Repr()
      requires Valid()
    {
      var reg := addr % 16;
      (c == Vic ==> v == vic.Read((addr % 0x40) as Byte)) &&
      (c == Sid ==> v == sidBank.Peek(addr)) &&
      (c == ColorRam ==> v == colorRam.Peek(addr)) &&
      (c == Cia1 ==> cia1.ReadFrom(c1, reg, v)) &&
      (c == Cia2 ==> cia2.ReadFrom(c2, reg, v)) &&
      (c == DisconnectedBus ==> mmu.seed == LcgNext(seed) && v == Bits16To23(mmu.seed)) &&
      (c.ExtraSid? ==> v == 0xFF)
    }

    /** The I/O part of `get_byte`. */
    method ReadIo(addr: Addr, chip: IoChip) returns (v: Byte)
      requires Valid() && chip == ioBank.Dispatch(addr)
      modifies mmu`seed, cia1.tod, cia1.tod.latch, cia1.interrupt, cia2.tod, cia2.tod.latch, cia2.interrupt
      ensures Valid()
      ensures IoRead(addr, chip, v, old(mmu.seed), old(cia1.Snapshot()), old(cia2.Snapshot()))
      ensures chip != DisconnectedBus ==> mmu.seed == old(mmu.seed)
      ensures chip != Cia1 ==> unchanged(cia1.interrupt)
      ensures chip != Cia2 ==> unchanged(cia2.interrupt)
      ensures unchanged(zeroRam)
    {
      match chip
      case Cia1 => v := ReadCia1(addr % 16);
      case Cia2 => v := ReadCia2(addr % 16);
      case _ => v := ReadBankIo(addr, chip);
    }

    /** An I/O read that reaches no CIA. */
    method ReadBankIo(addr: Addr, chip: IoChip) returns (v: Byte)
      requires Valid() && chip == ioBank.Dispatch(addr) && chip != Cia1 && chip != Cia2
      modifies mmu`seed
      ensures Valid()
      ensures IoRead(addr, chip, v, old(mmu.seed), cia1.Snapshot(), cia2.Snapshot())
      ensures chip != DisconnectedBus ==> mmu.seed == old(mmu.seed)
      ensures unchanged(cia1.interrupt, cia2.interrupt) && unchanged(zeroRam)
    {
      match chip
      case Vic => v := vic.Read((addr % 0x40) as Byte);
      case Sid => v := sidBank.Peek(addr);
      case ColorRam => v := colorRam.Peek(addr);
      case DisconnectedBus => v := ReadNoise();
      case ExtraSid(_) => v := 0xFF;
    }

    /** A read of register `reg` of CIA 1. */
    method ReadCia1(reg: nat) returns (v: Byte)
      requires Valid() && reg < 16
      modifies cia1.tod, cia1.tod.latch, cia1.interrupt
      ensures Valid() && cia1.ReadFrom(old(cia1.Snapshot()), reg, v)
      ensures mmu.seed == old(mmu.seed) && unchanged(cia2.interrupt) && cia2.Snapshot() == old(cia2.Snapshot())
      ensures unchanged(zeroRam)
    {
      v := ReadCia(cia1, reg);
      Cia1Stepped();
    }

    /** A read of register `reg` of CIA 2. */
    method ReadCia2(reg: nat) returns (v: Byte)
      requires Valid() && reg < 16
      modifies cia2.tod, cia2.tod.latch, cia2.interrupt
      ensures Valid() && cia2.ReadFrom(old(cia2.Snapshot()), reg, v)
      ensures mmu.seed == old(mmu.seed) && unchanged(cia1.interrupt) && cia1.Snapshot() == old(cia1.Snapshot())
      ensures unchanged(zeroRam)
    {
      v := ReadCia(cia2, reg);
      Cia2Stepped();
    }

    /** The machine stays consistent when only CIA 1 changed and stayed consistent. */
    twostate lemma Cia1Stepped()
      requires old(Valid()) && cia1.Valid() && unchanged(this)
      requires unchanged(VicSet) && unchanged(Cia2Set) && unchanged(MemSet) && unchanged(MapSet) && unchanged(StaticSet)
      ensures Valid() && mmu.seed == old(mmu.seed)
      ensures unchanged(cia2.interrupt) && cia2.Snapshot() == old(cia2.Snapshot()) && unchanged(zeroRam)
    {
    }

    /** The machine stays consistent when only CIA 2 changed and stayed consistent. */
    twostate lemma Cia2Stepped()
      requires old(Valid()) && cia2.Valid() && unchanged(this)
      requires unchanged(VicSet) && unchanged(Cia1Set) && unchanged(MemSet) && unchanged(MapSet) && unchanged(StaticSet)
      ensures Valid() && mmu.seed == old(mmu.seed)
      ensures unchanged(cia1.interrupt) && cia1.Snapshot() == old(cia1.Snapshot()) && unchanged(zeroRam)
    {
    }

    /** `last_read_byte` of the MMU, for the floating area. */
    method ReadNoise() returns (v: Byte)
      requires Valid()
      modifies mmu`seed
      ensures Valid() && mmu.seed == LcgNext(old(mmu.seed)) && v == Bits16To23(mmu.seed)
    {
      v := mmu.LastReadByte();
    }

    /**
     * `set_byte`: the byte always lands in system RAM and nowhere else in
     * it; a write to $0000/$0001 also goes to the CPU port and re-banks
     * the MMU from the port's value; a write to page $D under I/O also
     * reaches the one chip the I/O bank names, leaving the others as they
     * were. The ROMs never change.
     */
    method SetByte(addr: Addr, val: Byte, now: nat)
      requires Valid()
      modifies ram.ram, VicSet, Cia1Set, Cia2Set, sidBank`sid, sidBank.lastPoke, colorRam.ram
      modifies zeroRam`bit6, zeroRam`bit7, zeroRam`dir, zeroRam`data, zeroRam`dataRead, zeroRam`procPortPins, zeroRam`portChanges
      modifies MapSet
      ensures Valid()
      ensures ram.Peek(addr) == val
      ensures forall a :: 0 <= a < 0x1_0000 && a != addr ==> ram.ram[a] == old(ram.ram[a])
      ensures addr < 2 ==> PortSynced(addr, val)
      ensures addr >= 2 ==> unchanged(zeroRam) && unchanged(MapSet)
      ensures IoWritten(addr, val, old(WriteTarget(addr)), old(vic.Snapshot()), old(cia1.Snapshot()),
                        old(cia2.Snapshot()), old(sidBank.sid))
      ensures old(WriteTarget(addr)) != Some(Vic) ==> unchanged(VicSet)
      ensures old(WriteTarget(addr)) != Some(Cia1) ==> unchanged(Cia1Set)
      ensures old(WriteTarget(addr)) != Some(Cia2) ==> unchanged(Cia2Set)
      ensures old(WriteTarget(addr)) != Some(Sid) ==> unchanged(sidBank, sidBank.lastPoke)
      ensures old(WriteTarget(addr)) != Some(ColorRam) ==> unchanged(colorRam.ram)
      ensures unchanged(kernalRom.rom)
    {
      if addr < 0x1000 {
        SetLowByte(addr, val, now);
      } else if mmu.writeMap[Page(addr)] == Io {
        SetIoByte(addr, val, ioBank.Dispatch(addr));
      } else {
        PokeRam(addr, val);
      }
    }

    /** `set_byte` in page $D while it is mapped to I/O: RAM, then the chip the I/O bank names. */
    method SetIoByte(addr: Addr, val: Byte, chip: IoChip)
      requires Valid() && addr >= 0x1000 && mmu.writeMap[Page(addr)] == Io && chip == ioBank.Dispatch(addr)
      modifies ram.ram, VicSet, Cia1Set, Cia2Set, sidBank`sid, sidBank.lastPoke, colorRam.ram
      ensures Valid()
      ensures ram.Peek(addr) == val
      ensures forall a :: 0 <= a < 0x1_0000 && a != addr ==> ram.ram[a] == old(ram.ram[a])
      ensures unchanged(zeroRam) && unchanged(MapSet)
      ensures IoWritten(addr, val, Some(chip), old(vic.Snapshot()), old(cia1.Snapshot()),
                        old(cia2.Snapshot()), old(sidBank.sid))
      ensures chip != Vic ==> unchanged(VicSet)
      ensures chip != Cia1 ==> unchanged(Cia1Set)
      ensures chip != Cia2 ==> unchanged(Cia2Set)
      ensures chip != Sid ==> unchanged(sidBank, sidBank.lastPoke)
      ensures chip != ColorRam ==> unchanged(colorRam.ram)
      ensures unchanged(kernalRom.rom)
    {
      PokeRam(addr, val);
      VicKept(vic);
      CiaKept(cia1);
      CiaKept(cia2);
      WriteIo(addr, val, chip);
    }

    /** `set_byte` below $1000: RAM, and for $0000/$0001 the CPU port and the MMU too. */
    method SetLowByte(addr: Addr, val: Byte, now: nat)
      requires Valid() && addr < 0x1000
      modifies ram.ram
      modifies zeroRam`bit6, zeroRam`bit7, zeroRam`dir, zeroRam`data, zeroRam`dataRead, zeroRam`procPortPins, zeroRam`portChanges
      modifies MapSet
      ensures Valid()
      ensures ram.Peek(addr) == val
      ensures forall a :: 0 <= a < 0x1_0000 && a != addr ==> ram.ram[a] == old(ram.ram[a])
      ensures addr < 2 ==> PortSynced(addr, val)
      ensures addr >= 2 ==> unchanged(zeroRam) && unchanged(MapSet)
      ensures unchanged(VicSet) && unchanged(Cia1Set) && unchanged(Cia2Set) && unchanged(sidBank, sidBank.lastPoke) && unchanged(colorRam.ram)
      ensures unchanged(kernalRom.rom)
    {
      if addr < 2 {
        WritePort(addr, val, now);
      }
      PokeRam(addr, val);
    }

    /** The chip a write to `addr` reaches besides RAM, if any: page $D while the write map says I/O. */
    ghost function WriteTarget(addr: Addr): Option<IoChip>
      reads Repr()
      requires Valid()
    {
      if addr >= 0x1000 && mmu.writeMap[Page(addr)] == Io then Some(ioBank.Dispatch(addr)) else None
    }

    /** Everything a memory write may touch belongs to the machine. */
    lemma WritableParts()
      requires Valid()
      ensures ram.ram in Repr() && kernalRom.rom in Repr() && sidBank in Repr() && sidBank.lastPoke in Repr()
      ensures colorRam.ram in Repr() && zeroRam in Repr()
      ensures VicSet <= Repr() && Cia1Set <= Repr() && Cia2Set <= Repr() && MapSet <= Repr()
    {
    }

    /** A byte of the KERNAL ROM bank's store replaced; nothing else changes. */
    method PokeKernal(i: nat, val: Byte)
      requires Valid() && i < 0x2000
      modifies kernalRom.rom
      ensures Valid() && kernalRom.rom[..] == old(kernalRom.rom[..])[i := val]
      ensures unchanged(ram.ram)
    {
      kernalRom.rom[i] := val;
    }

    /** System RAM's `poke`. */
    method PokeRam(addr: Addr, val: Byte)
      requires Valid()
      modifies ram.ram
      ensures Valid() && ram.Peek(addr) == val
      ensures forall a :: 0 <= a < 0x1_0000 && a != addr ==> ram.ram[a] == old(ram.ram[a])
      ensures unchanged(VicSet) && unchanged(Cia1Set) && unchanged(Cia2Set) && unchanged(sidBank, sidBank.lastPoke) && unchanged(colorRam.ram)
      ensures unchanged(zeroRam) && unchanged(MapSet)
      ensures unchanged(kernalRom.rom)
    {
      ram.Poke(addr, val);
    }

    /**
     * After a write of `val` to port register `addr`: the register holds
     * it and the MMU's lines are the PLA state of the port as read back.
     */
    ghost predicate PortSynced(addr: Addr, val: Byte)
      reads zeroRam, mmu
    {
      (addr == 0 ==> zeroRam.dir == val) && (addr == 1 ==> zeroRam.data == val) &&
      var state := PlaState(zeroRam.dataRead, zeroRam.dir);
      mmu.loram == LoramOf(state) && mmu.hiram == HiramOf(state) && mmu.charen == CharenOf(state)
    }

    /** The CPU-port part of `set_byte`: poke the port, read both registers back, re-bank the MMU. */
    method WritePort(addr: Addr, val: Byte, now: nat)
      requires Valid() && addr < 2
      modifies zeroRam`bit6, zeroRam`bit7, zeroRam`dir, zeroRam`data, zeroRam`dataRead, zeroRam`procPortPins, zeroRam`portChanges
      modifies MapSet
      ensures Valid() && PortSynced(addr, val)
      ensures unchanged(VicSet) && unchanged(Cia1Set) && unchanged(Cia2Set) && unchanged(sidBank, sidBank.lastPoke) && unchanged(colorRam.ram) && unchanged(ram.ram)
      ensures unchanged(kernalRom.rom)
    {
      var state := PokeCpuPort(addr, val, now);
      SetCpuPort(state);
    }

    /** The port writes of `set_byte`, returning the PLA state they leave. */
    method PokeCpuPort(addr: Addr, val: Byte, now: nat) returns (state: Byte)
      requires Valid() && addr < 2
      modifies zeroRam`bit6, zeroRam`bit7, zeroRam`dir, zeroRam`data, zeroRam`dataRead, zeroRam`procPortPins, zeroRam`portChanges
      ensures Valid()
      ensures addr == 0 ==> zeroRam.dir == val
      ensures addr == 1 ==> zeroRam.data == val
      ensures state == PlaState(zeroRam.dataRead, zeroRam.dir)
    {
      state := PokePort(zeroRam, addr, val, now);
    }

    /** The MMU's `set_cpu_port`. */
    method SetCpuPort(state: Byte)
      requires Valid()
      modifies MapSet
      ensures Valid()
      ensures mmu.loram == LoramOf(state) && mmu.hiram == HiramOf(state) && mmu.charen == CharenOf(state)
    {
      mmu.SetCpuPort(state);
    }

    /**
     * What a write of `val` to `addr` did to the chip `target`, given the
     * chips as they were before it: the VIC-II or the CIA moved to the
     * state its own `write` of the addressed register leaves; the SID bank
     * remembers the byte and the SID got it; colour RAM keeps its low nybble.
     */
    ghost predicate IoWritten(addr: Addr, val: Byte, target: Option<IoChip>,
                              v0: VicState, c1: EmuCia.CiaState, c2: EmuCia.CiaState, sid: SidChip)
      reads Repr()
      requires Valid()
    {
      match target
      case Some(Vic) => vic.WrittenFrom(v0, addr % 0x40, val)
      case Some(Cia1) => cia1.WrittenFrom(c1, addr % 16, val)
      case Some(Cia2) => cia2.WrittenFrom(c2, addr % 16, val)
      case Some(Sid) => sidBank.lastPoke[addr % 0x20] == val && sidBank.sid == ChipWrite(sid, (addr % 0x20) as Byte, val)
      case Some(ColorRam) => colorRam.Peek(addr) == val & 0x0F
      case _ => true
    }

    /** The chip part of an I/O write: the bank `dispatch` names gets the byte. */
    method WriteIo(addr: Addr, val: Byte, chip: IoChip)
      requires Valid() && chip == ioBank.Dispatch(addr)
      modifies VicSet, Cia1Set, Cia2Set, sidBank`sid, sidBank.lastPoke, colorRam.ram
      ensures Valid()
      ensures IoWritten(addr, val, Some(chip), old(vic.Snapshot()), old(cia1.Snapshot()),
                        old(cia2.Snapshot()), old(sidBank.sid))
      ensures chip != Vic ==> unchanged(VicSet)
      ensures chip != Cia1 ==> unchanged(Cia1Set)
      ensures chip != Cia2 ==> unchanged(Cia2Set)
      ensures chip != Sid ==> unchanged(sidBank, sidBank.lastPoke)
      ensures chip != ColorRam ==> unchanged(colorRam.ram)
      ensures unchanged(zeroRam) && unchanged(MapSet) && unchanged(ram.ram)
      ensures unchanged(kernalRom.rom)
    {
      if chip == Vic || chip == Cia1 || chip == Cia2 {
        WriteChipRegs(addr, val, chip);
      } else {
        WriteBankIo(addr, val, chip);
      }
    }

    /** A write reaching the VIC-II or a CIA. */
    method WriteChipRegs(addr: Addr, val: Byte, chip: IoChip)
      requires Valid() && chip == ioBank.Dispatch(addr) && (chip == Vic || chip == Cia1 || chip == Cia2)
      modifies VicSet, Cia1Set, Cia2Set, sidBank`sid, sidBank.lastPoke, colorRam.ram
      ensures Valid()
      ensures IoWritten(addr, val, Some(chip), old(vic.Snapshot()), old(cia1.Snapshot()),
                        old(cia2.Snapshot()), old(sidBank.sid))
      ensures chip != Vic ==> unchanged(VicSet)
      ensures chip != Cia1 ==> unchanged(Cia1Set)
      ensures chip != Cia2 ==> unchanged(Cia2Set)
      ensures chip != Sid ==> unchanged(sidBank, sidBank.lastPoke)
      ensures chip != ColorRam ==> unchanged(colorRam.ram)
      ensures unchanged(zeroRam) && unchanged(MapSet) && unchanged(ram.ram)
      ensures unchanged(kernalRom.rom)
    {
      match chip
      case Vic => WriteVicReg(addr % 0x40, val);
      case Cia1 => WriteCiaOf(cia1, addr % 16, val);
      case Cia2 => WriteCiaOf(cia2, addr % 16, val);
    }

    /** A write reaching the SID bank, colour RAM, or no chip at all. */
    method WriteBankIo(addr: Addr, val: Byte, chip: IoChip)
      requires Valid() && chip == ioBank.Dispatch(addr) && !(chip == Vic || chip == Cia1 || chip == Cia2)
      modifies VicSet, Cia1Set, Cia2Set, sidBank`sid, sidBank.lastPoke, colorRam.ram
      ensures Valid()
      ensures IoWritten(addr, val, Some(chip), old(vic.Snapshot()), old(cia1.Snapshot()),
                        old(cia2.Snapshot()), old(sidBank.sid))
      ensures chip != Vic ==> unchanged(VicSet)
      ensures chip != Cia1 ==> unchanged(Cia1Set)
      ensures chip != Cia2 ==> unchanged(Cia2Set)
      ensures chip != Sid ==> unchanged(sidBank, sidBank.lastPoke)
      ensures chip != ColorRam ==> unchanged(colorRam.ram)
      ensures unchanged(zeroRam) && unchanged(MapSet) && unchanged(ram.ram)
      ensures unchanged(kernalRom.rom)
    {
      match chip
      case Sid => PokeSid(addr, val);
      case ColorRam => PokeColor(addr, val);
      case DisconnectedBus =>
      case ExtraSid(_) =>
    }

    /** The VIC-II's `write`. */
    method WriteVicReg(reg: nat, val: Byte)
      requires Valid() && reg < 0x40
      modifies VicSet
      ensures Valid() && vic.WrittenFrom(old(vic.Snapshot()), reg, val)
      ensures unchanged(Cia1Set) && unchanged(Cia2Set) && unchanged(sidBank, sidBank.lastPoke) && unchanged(colorRam.ram)
      ensures unchanged(zeroRam) && unchanged(MapSet) && unchanged(ram.ram)
      ensures unchanged(kernalRom.rom)
    {
      ByteRoundTrip(reg);
      WriteVic(vic, reg as Byte, val, VicSet);
    }

    /** The SID bank's `poke`. */
    method PokeSid(addr: Addr, val: Byte)
      requires Valid()
      modifies sidBank`sid, sidBank.lastPoke
      ensures Valid()
      ensures sidBank.lastPoke[addr % 0x20] == val && sidBank.sid == ChipWrite(old(sidBank.sid), (addr % 0x20) as Byte, val)
      ensures unchanged(VicSet) && unchanged(Cia1Set) && unchanged(Cia2Set) && unchanged(colorRam.ram)
      ensures unchanged(zeroRam) && unchanged(MapSet) && unchanged(ram.ram)
      ensures unchanged(kernalRom.rom)
    {
      sidBank.Poke(addr, val);
    }

    /** Colour RAM's `poke`. */
    method PokeColor(addr: Addr, val: Byte)
      requires Valid()
      modifies colorRam.ram
      ensures Valid() && colorRam.Peek(addr) == val & 0x0F
      ensures unchanged(VicSet) && unchanged(Cia1Set) && unchanged(Cia2Set) && unchanged(sidBank, sidBank.lastPoke)
      ensures unchanged(zeroRam) && unchanged(MapSet) && unchanged(ram.ram)
      ensures unchanged(kernalRom.rom)
    {
      colorRam.Poke(addr, val);
    }

    /** A write of register `reg` of one of the machine's CIAs. */
    method WriteCiaOf(c: EmuCia.Mos652x, reg: nat, val: Byte)
      requires Valid() && (c == cia1 || c == cia2) && reg < 16
      modifies CiaParts(c)
      ensures Valid() && c.WrittenFrom(old(c.Snapshot()), reg, val)
      ensures unchanged(VicSet) && unchanged(sidBank, sidBank.lastPoke) && unchanged(colorRam.ram)
      ensures c == cia1 ==> unchanged(Cia2Set)
      ensures c == cia2 ==> unchanged(Cia1Set)
      ensures unchanged(zeroRam) && unchanged(MapSet) && unchanged(ram.ram)
      ensures unchanged(kernalRom.rom)
    {
      WriteCia(c, reg, val, CiaParts(c));
    }
  }

  /** A CIA read at `addr & $0F`, its interrupt delta dropped. */
  method ReadCia(cia: EmuCia.Mos652x, reg: nat) returns (v: Byte)
    requires cia.Valid() && reg < 16
    modifies cia.tod.latch, cia.tod, cia.interrupt
    ensures cia.Valid() && cia.ReadFrom(old(cia.Snapshot()), reg, v)
  {
    CiaRegister(reg);
    var irqDelta;
    v, irqDelta := cia.Read(reg as Byte);
  }

  /** A CIA write at `addr & $0F`, its interrupt delta dropped. */
  method WriteCia(cia: EmuCia.Mos652x, reg: nat, val: Byte, ghost parts: set<object>)
    requires cia.Valid() && reg < 16 && parts == C64.CiaParts(cia)
    modifies parts
    ensures cia.Valid() && cia.WrittenFrom(old(cia.Snapshot()), reg, val)
  {
    CiaRegister(reg);
    var irqDelta := cia.Write(reg as Byte, val);
  }

  /** A VIC-II write at `addr & $3F`, its output dropped. */
  method WriteVic(vic: Mos656x, addr: Byte, val: Byte, ghost parts: set<object>)
    requires vic.Valid() && addr < 0x40
    requires parts == {vic, vic.regs, vic.lp, vic.sprites, vic.sprites.mc, vic.sprites.mcBase}
    modifies parts
    ensures vic.Valid() && vic.WrittenFrom(old(vic.Snapshot()), addr as nat, val)
  {
    VicRegister(addr as nat);
    var out := vic.Write(addr, val);
  }

  /**
   * The CPU-port writes of `set_byte`: the poke, then the direction and
   * data read back through `peek_mut`; the state handed to the MMU is the
   * PLA state of the read-back value, whose fall-off bits 6/7 play no part.
   */
  method PokePort(zeroRam: ZeroRamBank, addr: Addr, val: Byte, now: nat) returns (state: Byte)
    requires zeroRam.Valid() && addr < 2
    modifies zeroRam`bit6, zeroRam`bit7, zeroRam`dir, zeroRam`data, zeroRam`dataRead, zeroRam`procPortPins, zeroRam`portChanges
    ensures zeroRam.Valid()
    ensures addr == 0 ==> zeroRam.dir == val
    ensures addr == 1 ==> zeroRam.data == val
    ensures state == PlaState(zeroRam.dataRead, zeroRam.dir)
  {
    zeroRam.Poke(addr, val, now);
    var dir := zeroRam.PeekMut(0, now);
    var t := zeroRam.Phi2Time(now);
    ghost var b6, b7 := zeroRam.bit6, zeroRam.bit7;
    var data := zeroRam.PeekMut(1, now);
    ReadBitMask(b6, t);
    ReadBitMask(b7, t);
    WithFallOffSpec(zeroRam.dataRead, dir, ReadBit(b6, t).0, ReadBit(b7, t).0);
    PlaStateLowBits(data, zeroRam.dataRead, dir);
    state := (data | !dir) & 0x07;
  }

  /** The VIC-II, CIA 1 and CIA 2 of a new machine. */
  method NewChips() returns (vic: Mos656x, cia1: EmuCia.Mos652x, cia2: EmuCia.Mos652x, ghost chips: set<object>)
    ensures chips == C64.VicParts(vic) + C64.CiaParts(cia1) + C64.CiaParts(cia2) && fresh(chips)
    ensures vic.Valid() && cia1.Valid() && cia2.Valid()
    ensures C64.VicParts(vic) !! C64.CiaParts(cia1) && C64.VicParts(vic) !! C64.CiaParts(cia2)
    ensures C64.CiaParts(cia1) !! C64.CiaParts(cia2)
    ensures vic.model == Mos6569 && cia1.interrupt.model == Mos6526 && cia2.interrupt.model == Mos6526
  {
    vic := new Mos656x();
    cia1 := NewCia(C64.VicParts(vic));
    cia2 := NewCia(C64.VicParts(vic) + C64.CiaParts(cia1));
    chips := C64.VicParts(vic) + C64.CiaParts(cia1) + C64.CiaParts(cia2);
  }

  /** A new 6526 CIA, made of none of the objects that exist already. */
  method NewCia(ghost older: set<object>) returns (cia: EmuCia.Mos652x)
    ensures fresh(C64.CiaParts(cia)) && older !! C64.CiaParts(cia)
    ensures cia.Valid() && cia.interrupt.model == Mos6526
  {
    cia := new EmuCia.Mos652x(Mos6526);
  }

  /**
   * The memory banks of a new machine, the KERNAL stub installed once more
   * as `new` does, the disconnected bus and the standard I/O map.
   */
  method NewBanks(ghost older: set<object>)
    returns (ram: SystemRamBank, kernalRom: KernalRomBank, basicRom: BasicRomBank, charRom: CharacterRomBank,
             colorRam: ColorRamBank, sidBank: SidBank, zeroRam: ZeroRamBank, bus: DisconnectedBusBank, io: IoBank,
             ghost banks: set<object>)
    ensures banks == C64.MemParts(ram, kernalRom, basicRom, charRom, colorRam, sidBank, zeroRam) + C64.StaticParts(ram, charRom, bus, io)
    ensures fresh(banks)
    ensures older !! C64.MemParts(ram, kernalRom, basicRom, charRom, colorRam, sidBank, zeroRam) + C64.StaticParts(ram, charRom, bus, io)
    ensures C64.MemParts(ram, kernalRom, basicRom, charRom, colorRam, sidBank, zeroRam) !! C64.StaticParts(ram, charRom, bus, io)
    ensures ram.Valid() && kernalRom.Valid() && basicRom.Valid() && charRom.Valid()
    ensures colorRam.Valid() && sidBank.Valid() && zeroRam.Valid() && io.Valid()
    ensures ram.ram != colorRam.ram && ram.ram != sidBank.lastPoke && ram.ram != kernalRom.rom
    ensures ram.ram != basicRom.rom && ram.ram != charRom.rom
    ensures colorRam.ram != sidBank.lastPoke && colorRam.ram != kernalRom.rom
    ensures colorRam.ram != basicRom.rom && colorRam.ram != charRom.rom
    ensures sidBank.lastPoke != kernalRom.rom && sidBank.lastPoke != basicRom.rom && sidBank.lastPoke != charRom.rom
    ensures kernalRom.rom != basicRom.rom && kernalRom.rom != charRom.rom && basicRom.rom != charRom.rom
    ensures ram.PoweredOn() && kernalRom.HasStub() && io.pages[..] == DEFAULT_IO_MAP
  {
    kernalRom := new KernalRomBank();
    kernalRom.Set(None);
    ram := new SystemRamBank();
    basicRom := new BasicRomBank();
    charRom := new CharacterRomBank();
    colorRam := new ColorRamBank();
    sidBank := new SidBank();
    zeroRam := new ZeroRamBank();
    bus, io := NewIo(C64.MemParts(ram, kernalRom, basicRom, charRom, colorRam, sidBank, zeroRam));
    banks := C64.MemParts(ram, kernalRom, basicRom, charRom, colorRam, sidBank, zeroRam) + C64.StaticParts(ram, charRom, bus, io);
    MemStaticApart(ram, kernalRom, basicRom, charRom, colorRam, sidBank, zeroRam, bus, io);
  }

  /** No changing store or bank is one of the fixed bank objects: their types differ. */
  lemma MemStaticApart(r: SystemRamBank, k: KernalRomBank, b: BasicRomBank, ch: CharacterRomBank,
                       co: ColorRamBank, sb: SidBank, zr: ZeroRamBank, bus: DisconnectedBusBank, io: IoBank)
    requires C64.MemParts(r, k, b, ch, co, sb, zr) !! {bus, io, io.pages}
    ensures C64.MemParts(r, k, b, ch, co, sb, zr) !! C64.StaticParts(r, ch, bus, io)
  {
  }

  /** The disconnected bus and the standard I/O map, made of none of the objects that exist already. */
  method NewIo(ghost older: set<object>) returns (bus: DisconnectedBusBank, io: IoBank)
    ensures older !! {bus, io, io.pages} && fresh({bus, io, io.pages})
    ensures io.Valid() && io.pages[..] == DEFAULT_IO_MAP
  {
    bus := new DisconnectedBusBank();
    io := new IoBank.Standard();
  }

  /** The MMU of a new machine: all RAM, its maps built. */
  method NewMmu(ghost older: set<object>) returns (mmu: Mmu, ghost maps: set<object>)
    ensures maps == C64.MapParts(mmu) && fresh(maps)
    ensures fresh(C64.MapParts(mmu)) && older !! C64.MapParts(mmu)
    ensures mmu.Valid() && mmu.Mapped() && !mmu.loram && !mmu.hiram && !mmu.charen
  {
    mmu := new Mmu();
    maps := C64.MapParts(mmu);
  }

  /** The parts allocated one group after another share no object. */
  lemma PartsApart(v: set<object>, c1: set<object>, c2: set<object>, mem: set<object>, st: set<object>, maps: set<object>)
    requires v !! c1 && v !! c2 && c1 !! c2
    requires v + c1 + c2 !! mem + st && mem !! st
    requires v + c1 + c2 + (mem + st) !! maps
    ensures v !! mem && v !! maps && v !! st && c1 !! mem && c1 !! maps && c1 !! st
    ensures c2 !! mem && c2 !! maps && c2 !! st && mem !! maps && mem !! st && maps !! st
  {
  }

  /** `set_model`'s chip part: the VIC-II model, then both TOD rates. */
  method SelectModel(vic: Mos656x, cia1: EmuCia.Mos652x, cia2: EmuCia.Mos652x, m: VicModel, rate: nat,
                     ghost parts: set<object>)
    requires vic.Valid() && cia1.Valid() && cia2.Valid() && rate < 0x1_0000_0000
    requires cia1.tod != cia2.tod
    requires parts == {vic, vic.regs, vic.lp, vic.sprites, vic.sprites.mc, vic.sprites.mcBase}
    modifies parts, cia1.tod, cia2.tod
    ensures vic.Valid() && cia1.Valid() && cia2.Valid()
    ensures vic.model == m && vic.st.rasterY == vic.maxRasters - 1
    ensures cia1.tod.period == rate * 128 && cia2.tod.period == rate * 128
  {
    vic.Chip(m);
    cia1.SetDayOfTimeRate(rate);
    cia2.SetDayOfTimeRate(rate);
  }

  /** `reset`'s chip part: CIA 1, CIA 2, then the VIC-II. */
  method ResetChips(vic: Mos656x, cia1: EmuCia.Mos652x, cia2: EmuCia.Mos652x, ghost parts: set<object>)
    requires vic.Valid() && cia1.Valid() && cia2.Valid()
    requires C64.CiaParts(cia1) !! C64.CiaParts(cia2)
    requires {vic.regs, vic.sprites.mc, vic.sprites.mcBase} !! C64.CiaParts(cia1) + C64.CiaParts(cia2)
    requires parts == {vic, vic.regs, vic.lp, vic.sprites, vic.sprites.mc, vic.sprites.mcBase} + C64.CiaParts(cia1) + C64.CiaParts(cia2)
    modifies parts
    ensures vic.Valid() && cia1.Valid() && cia2.Valid()
    ensures vic.model == old(vic.model) && vic.st.rasterY == vic.maxRasters - 1 && vic.regs[..] == seq(0x40, _ => 0)
    ensures !vic.st.irqState && vic.baState
    ensures forall i :: 0 <= i < 16 ==> cia1.regs[i] == 0 && cia2.regs[i] == 0
    ensures !cia1.interrupt.asserted && !cia2.interrupt.asserted
    ensures cia1.clock == old(cia1.clock) && cia2.clock == old(cia2.clock)
  {
    ResetCias(cia1, cia2, C64.CiaParts(cia1) + C64.CiaParts(cia2));
    vic.Reset();
  }

  /** `reset` of CIA 1, then of CIA 2. */
  method ResetCias(cia1: EmuCia.Mos652x, cia2: EmuCia.Mos652x, ghost parts: set<object>)
    requires cia1.Valid() && cia2.Valid() && C64.CiaParts(cia1) !! C64.CiaParts(cia2)
    requires parts == C64.CiaParts(cia1) + C64.CiaParts(cia2)
    modifies parts
    ensures cia1.Valid() && cia2.Valid()
    ensures forall i :: 0 <= i < 16 ==> cia1.regs[i] == 0 && cia2.regs[i] == 0
    ensures !cia1.interrupt.asserted && !cia2.interrupt.asserted
    ensures cia1.clock == old(cia1.clock) && cia2.clock == old(cia2.clock)
  {
    cia1.Reset();
    CiaKept(cia2);
    cia2.Reset();
  }

  /** `reset`'s memory part: SID bank, colour RAM, system RAM, CPU port, KERNAL and BASIC ROMs. */
  method ResetMemory(ram: SystemRamBank, colorRam: ColorRamBank, sidBank: SidBank, zeroRam: ZeroRamBank,
                     kernalRom: KernalRomBank, basicRom: BasicRomBank, ghost parts: set<object>)
    requires ram.Valid() && colorRam.Valid() && sidBank.Valid() && zeroRam.Valid() && kernalRom.Valid() && basicRom.Valid()
    requires ram.ram != colorRam.ram && ram.ram != sidBank.lastPoke && ram.ram != kernalRom.rom && ram.ram != basicRom.rom
    requires colorRam.ram != sidBank.lastPoke && colorRam.ram != kernalRom.rom && colorRam.ram != basicRom.rom
    requires sidBank.lastPoke != kernalRom.rom && sidBank.lastPoke != basicRom.rom && kernalRom.rom != basicRom.rom
    requires parts == {ram.ram, colorRam.ram, sidBank, sidBank.lastPoke, zeroRam, kernalRom.rom, basicRom.rom}
    modifies parts
    ensures colorRam.Valid() && zeroRam.Valid()
    ensures forall r :: 0 <= r < 0x20 ==> sidBank.lastPoke[r] == 0
    ensures forall i :: 0 <= i < 0x400 ==> colorRam.ram[i] == 0
    ensures ram.PoweredOn()
    ensures zeroRam.dir == 0 && zeroRam.data == 0x3F
    ensures kernalRom.rom[0x1FFC] == kernalRom.resetLo && kernalRom.rom[0x1FFD] == kernalRom.resetHi
  {
    sidBank.Reset();
    colorRam.Reset();
    ram.Reset();
    zeroRam.Reset();
    kernalRom.Reset();
    basicRom.Reset();
  }

  /** The chip part of `tick_peripherals`. */
  method TickChips(vic: Mos656x, cia1: EmuCia.Mos652x, cia2: EmuCia.Mos652x, ghost parts: set<object>)
    returns (irq: bool, nmi: bool)
    requires vic.Valid() && cia1.Valid() && cia2.Valid()
    requires C64.CiaParts(cia1) !! C64.CiaParts(cia2)
    requires C64.VicParts(vic) !! C64.CiaParts(cia1) + C64.CiaParts(cia2)
    requires parts == C64.VicParts(vic) + C64.CiaParts(cia1) + C64.CiaParts(cia2)
    modifies parts
    ensures vic.Valid() && cia1.Valid() && cia2.Valid()
    ensures vic.TickedFrom(old(vic.Snapshot()))
    ensures cia1.TickedFrom(old(cia1.Snapshot())) && cia2.TickedFrom(old(cia2.Snapshot()))
    ensures irq == ((!old(vic.st.irqState) && vic.st.irqState) ||
                    (!old(cia1.interrupt.asserted) && cia1.interrupt.asserted))
    ensures nmi == (!old(cia2.interrupt.asserted) && cia2.interrupt.asserted)
  {
    var vicIrq := TickVic(vic);
    label VicTicked:
    CiaKept(cia1);
    CiaKept(cia2);
    var cia1Irq, cia2Irq := TickCias(cia1, cia2, C64.CiaParts(cia1) + C64.CiaParts(cia2));
    VicTickKept@VicTicked(vic);
    irq := vicIrq || cia1Irq;
    nmi := cia2Irq;
  }

  /** CIA 1, then CIA 2, one cycle each, reporting which asserted its line. */
  method TickCias(cia1: EmuCia.Mos652x, cia2: EmuCia.Mos652x, ghost parts: set<object>)
    returns (asserted1: bool, asserted2: bool)
    requires cia1.Valid() && cia2.Valid()
    requires C64.CiaParts(cia1) !! C64.CiaParts(cia2)
    requires parts == C64.CiaParts(cia1) + C64.CiaParts(cia2)
    modifies parts
    ensures cia1.Valid() && cia2.Valid()
    ensures cia1.TickedFrom(old(cia1.Snapshot())) && cia2.TickedFrom(old(cia2.Snapshot()))
    ensures asserted1 == (!old(cia1.interrupt.asserted) && cia1.interrupt.asserted)
    ensures asserted2 == (!old(cia2.interrupt.asserted) && cia2.interrupt.asserted)
  {
    asserted1 := TickCia(cia1);
    label Cia1Ticked:
    CiaKept(cia2);
    asserted2 := TickCia(cia2);
    CiaTickKept@Cia1Ticked(cia1);
  }

  /** A VIC-II whose objects were left alone keeps whatever tick it had completed. */
  twostate lemma VicTickKept(vic: Mos656x)
    requires old(vic.Valid()) && unchanged(C64.VicParts(vic))
    ensures vic.Valid() && forall s :: old(vic.TickedFrom(s)) ==> vic.TickedFrom(s)
  {
  }

  /** A VIC-II whose objects were left alone keeps its state. */
  twostate lemma VicKept(vic: Mos656x)
    requires old(vic.Valid()) && unchanged(C64.VicParts(vic))
    ensures vic.Valid() && vic.Snapshot() == old(vic.Snapshot())
  {
  }

  /** A CIA whose objects were left alone keeps its state. */
  twostate lemma CiaKept(cia: EmuCia.Mos652x)
    requires old(cia.Valid()) && unchanged(C64.CiaParts(cia))
    ensures cia.Valid() && cia.Snapshot() == old(cia.Snapshot())
  {
  }

  /** A CIA whose objects were left alone keeps whatever tick it had completed. */
  twostate lemma CiaTickKept(cia: EmuCia.Mos652x)
    requires old(cia.Valid()) && unchanged(C64.CiaParts(cia))
    ensures cia.Valid() && forall s :: old(cia.TickedFrom(s)) ==> cia.TickedFrom(s)
  {
  }

  /** One VIC-II cycle, reporting whether its IRQ line went up (`Some(true)`). */
  method TickVic(vic: Mos656x) returns (raised: bool)
    requires vic.Valid()
    modifies vic, vic.regs, vic.lp, vic.sprites, vic.sprites.mc, vic.sprites.mcBase
    ensures vic.Valid() && vic.model == old(vic.model) && vic.TickedFrom(old(vic.Snapshot()))
    ensures raised == (!old(vic.st.irqState) && vic.st.irqState)
  {
    ghost var s0 := vic.st;
    var out := vic.Tick();
    BeamStepReport(s0, vic.lineCycle, vic.maxRasters, vic.lpAsserted, vic.ReadDen(), vic.CompareLine());
    raised := out.irq == Some(true);
  }

  /** One CIA cycle, reporting whether its interrupt line was asserted (`Some(true)`). */
  method TickCia(cia: EmuCia.Mos652x) returns (asserted: bool)
    requires cia.Valid()
    modifies cia, cia.timerA, cia.timerB, cia.tod, cia.tod.clock, cia.interrupt
    ensures cia.Valid() && cia.TickedFrom(old(cia.Snapshot()))
    ensures asserted == (!old(cia.interrupt.asserted) && cia.interrupt.asserted)
  {
    var r := cia.Tick();
    asserted := r == Some(true);
  }
}
