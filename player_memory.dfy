/**
 * The player's flat C64 memory bus (`C64Memory`): 64 KiB of RAM, a KERNAL
 * overlay at $E000-$FFFF selected by the processor port at $0001, the I/O
 * window at $D000-$DFFF routed to the simplified VIC, SID and CIAs, and the
 * capture of every SID write as (frame cycle, USBSID register, value).
 */
module PlayerMemory {
  import opened Common
  import opened SidMapping
  import opened KernalStubs
  import opened PlayerCia
  import opened PlayerVic

  /** A `u32` value. */
  type U32 = x: int | 0 <= x < 0x1_0000_0000

  /** Initial state of the OSC3 noise generator. */
  const OSC3_SEED: U32 := 0x12345678

  /** LORAM or HIRAM set, and CHAREN set: the I/O chips appear at $D000-$DFFF. */
  predicate IoVisible(port: Byte)
  {
    (port & 0x01 != 0 || port & 0x02 != 0) && port & 0x04 != 0
  }

  /** HIRAM set: the KERNAL overlay appears at $E000-$FFFF. */
  predicate KernalVisible(port: Byte)
  {
    port & 0x02 != 0
  }

  /** What answers a bus access. */
  datatype Target = Ram | Kernal | VicChip | SidChip | Cia1Chip | Cia2Chip

  /**
   * The memory map a read sees with processor port `port`: the VIC at
   * $D000-$D3FF, the SID at $D400-$D7FF and the CIAs at $DC00 and $DD00
   * when I/O is visible, the KERNAL overlay above $E000 when HIRAM is set,
   * RAM everywhere else (colour RAM, expansion I/O, BASIC and character ROM
   * areas included).
   */
  function ReadTarget(port: Byte, a: Addr): Target
  {
    if IoVisible(port) && 0xD000 <= a < 0xD400 then VicChip
    else if IoVisible(port) && 0xD400 <= a < 0xD800 then SidChip
    else if IoVisible(port) && 0xDC00 <= a < 0xDD00 then Cia1Chip
    else if IoVisible(port) && 0xDD00 <= a < 0xDE00 then Cia2Chip
    else if KernalVisible(port) && 0xE000 <= a then Kernal
    else Ram
  }

  /**
   * The chip a write reaches besides RAM: the VIC and CIAs as for reads,
   * and every other address of the visible I/O window is offered to the SID
   * capture.
   */
  function WriteTarget(port: Byte, a: Addr): Target
  {
    if !IoVisible(port) || a < 0xD000 || 0xE000 <= a then Ram
    else if a < 0xD400 then VicChip
    else if 0xDC00 <= a < 0xDD00 then Cia1Chip
    else if 0xDD00 <= a < 0xDE00 then Cia2Chip
    else SidChip
  }

  /** The register a CIA sees for an address of its page, `(address - base) & $0F`: the low four bits, as the page base is a multiple of 16. */
  function CiaOffset(a: Addr): Byte
  {
    (a % 0x10) as Byte
  }

  /** The 24-bit big-endian jiffy clock at $A0-$A2. */
  function Jiffy(m: seq<Byte>): nat
    requires |m| == 0x1_0000
  {
    m[0xA0] as int * 0x1_0000 + m[0xA1] as int * 0x100 + m[0xA2] as int
  }

  /**
   * `tick_jiffy_clock`: the low byte at $A2 counts, carrying into $A1 and
   * then $A0 on wrap-around; nothing else in RAM changes.
   */
  method TickJiffy(ram: array<Byte>)
    requires ram.Length == 0x1_0000
    modifies ram
    ensures Jiffy(ram[..]) == (old(Jiffy(ram[..])) + 1) % 0x100_0000
    ensures forall i :: 0 <= i < ram.Length && !(0xA0 <= i <= 0xA2) ==> ram[i] == old(ram[i])
  {
    var hi, mid, lo := ram[0xA0], ram[0xA1], ram[0xA2];
    ghost var before := Jiffy(ram[..]);
    var hi', mid', lo' := JiffyStep(hi, mid, lo);
    ram[0xA2] := lo';
    if lo' == 0 {
      ram[0xA1] := mid';
      if mid' == 0 {
        ram[0xA0] := hi';
      }
    }
    assert ram[0xA2] == lo' && ram[0xA1] == mid' && ram[0xA0] == hi';
    assert Jiffy(ram[..]) == hi' as int * 0x1_0000 + mid' as int * 0x100 + lo' as int;
  }

  /** The wrapping increments of `tick_jiffy_clock`; a byte carries only when the one below wrapped to 0. */
  method JiffyStep(hi: Byte, mid: Byte, lo: Byte) returns (hi': Byte, mid': Byte, lo': Byte)
    ensures hi' as int * 0x1_0000 + mid' as int * 0x100 + lo' as int
      == (hi as int * 0x1_0000 + mid as int * 0x100 + lo as int + 1) % 0x100_0000
    ensures mid' != mid ==> lo' == 0
    ensures hi' != hi ==> lo' == 0 && mid' == 0
  {
    var l := (lo as int + 1) % 0x100;
    var m := if l == 0 then (mid as int + 1) % 0x100 else mid as int;
    var h := if l == 0 && m == 0 then (hi as int + 1) % 0x100 else hi as int;
    JiffyCarry(hi as int, mid as int, lo as int, h, m, l);
    ByteRoundTrip(l);
    ByteRoundTrip(m);
    ByteRoundTrip(h);
    lo', mid', hi' := l as Byte, m as Byte, h as Byte;
  }

  /** Carrying through three base-256 digits adds one modulo 2^24. */
  lemma JiffyCarry(hi: int, mid: int, lo: int, hi': int, mid': int, lo': int)
    requires 0 <= hi < 0x100 && 0 <= mid < 0x100 && 0 <= lo < 0x100
    requires lo' == (lo + 1) % 0x100
    requires mid' == if lo' == 0 then (mid + 1) % 0x100 else mid
    requires hi' == if lo' == 0 && mid' == 0 then (hi + 1) % 0x100 else hi
    ensures hi' * 0x1_0000 + mid' * 0x100 + lo' == (hi * 0x1_0000 + mid * 0x100 + lo + 1) % 0x100_0000
  {
    var n := hi * 0x1_0000 + mid * 0x100 + lo + 1;
    if lo < 0xFF {
      DivModUnique(n, 0x100_0000, 0, n);
    } else if mid < 0xFF {
      DivModUnique(n, 0x100_0000, 0, n);
    } else if hi < 0xFF {
      DivModUnique(n, 0x100_0000, 0, n);
    } else {
      DivModUnique(n, 0x100_0000, 1, 0);
    }
  }

  /** The little-endian 16-bit value of two bytes. */
  function LittleEndian(lo: Byte, hi: Byte): nat
  {
    lo as int + 0x100 * hi as int
  }

  /**
   * `install_trampoline`: `JSR target; JMP *` at `at`, so the CPU calls
   * the tune routine and then spins on the JMP to itself. Nothing else
   * changes.
   */
  method InstallTrampoline(ram: array<Byte>, at: Addr, target: Word)
    requires ram.Length == 0x1_0000 && at <= 0xFFFA
    modifies ram
    ensures ram[at] == JSR && Join(ram[at + 2], ram[at + 1]) == target
    ensures ram[at + 3] == JMP && LittleEndian(ram[at + 4], ram[at + 5]) == at + 3
    ensures forall i :: 0 <= i < ram.Length && !(at <= i < at + 6) ==> ram[i] == old(ram[i])
  {
    var ret := at + 3;
    JoinSplit(target);
    ByteRoundTrip(ret % 0x100);
    ByteRoundTrip(ret / 0x100);
    ram[at] := JSR;
    ram[at + 1] := Lo(target);
    ram[at + 2] := Hi(target);
    ram[at + 3] := JMP;
    ram[at + 4] := (ret % 0x100) as Byte;
    ram[at + 5] := (ret / 0x100) as Byte;
  }

  /**
   * `set_hw_vector`: the vector lands little-endian at `addr` in RAM and,
   * from $E000 up, in the KERNAL overlay too, so it is read back whichever
   * of the two is banked in.
   */
  method SetHwVector(ram: array<Byte>, kernal: array<Byte>, addr: Addr, value: Word)
    requires ram.Length == 0x1_0000 && kernal.Length == 0x2000 && ram != kernal && addr < 0xFFFF
    modifies ram, kernal
    ensures Join(ram[addr + 1], ram[addr]) == value
    ensures addr >= 0xE000 ==> Join(kernal[addr - 0xE000 + 1], kernal[addr - 0xE000]) == value
    ensures forall i :: 0 <= i < ram.Length && i != addr && i != addr + 1 ==> ram[i] == old(ram[i])
    ensures forall i :: 0 <= i < kernal.Length && i != addr - 0xE000 && i != addr - 0xE000 + 1
              ==> kernal[i] == old(kernal[i])
  {
    var lo, hi := Lo(value), Hi(value);
    JoinSplit(value);
    ram[addr] := lo;
    ram[addr + 1] := hi;
    if addr >= 0xE000 {
      kernal[addr - 0xE000] := lo;
      kernal[addr - 0xE000 + 1] := hi;
    }
  }

  /** The power-on RAM image before the stubs go in: processor port, KERNAL work area and I/O shadows. */
  function BootByte(isPal: bool, i: int): Byte
  {
    if i == 0x0000 then 0x2F
    else if i == 0x0001 then 0x37
    else if i == 0x02A6 then (if isPal then 0x01 else 0x00)
    else if i == 0x0028 then 0xF0
    else if i == 0x0038 then 0xA0
    else if i == 0x0073 then 39
    else if i == 0x0282 then 0x08
    else if i == 0x0286 then 0x0E
    else if i == 0x00C5 || i == 0x00CB then 0x40
    else if i == 0x028F then 0x0A
    else if i == 0xD018 then 0x15
    else if i == 0xD020 then 0x0E
    else if i == 0xD021 then 0x06
    else if i == 0xD011 then 0x1B
    else if i == 0xDC02 then 0xFF
    else if i == 0xDD02 then 0x3F
    else if i == 0xDD00 then 0x17
    else 0
  }

  /** `load`: `data` is copied to `addr` onwards, cut off at the top of memory. */
  method Load(ram: array<Byte>, addr: Addr, data: seq<Byte>)
    requires ram.Length == 0x1_0000
    modifies ram
    ensures var end := Min(addr + |data|, 0x1_0000);
      ram[..] == old(ram[..addr]) + data[..end - addr] + old(ram[end..])
  {
    var end := Min(addr + |data|, 0x1_0000);
    var i := addr;
    while i < end
      invariant addr <= i <= end
      invariant ram[..] == old(ram[..addr]) + data[..i - addr] + old(ram[i..])
    {
      ram[i] := data[i - addr];
      assert data[..i + 1 - addr] == data[..i - addr] + [data[i - addr]];
      i := i + 1;
    }
  }

  /** What a read of `a` returns when RAM or the KERNAL overlay answers it. */
  function PlainRead(port: Byte, m: seq<Byte>, k: seq<Byte>, a: Addr): Byte
    requires |m| == 0x1_0000 && |k| == 0x2000
  {
    if ReadTarget(port, a) == Kernal then k[a - 0xE000] else m[a]
  }

  /** The overlay after `set_byte`: written through from $E000 up. */
  function KernalAfter(k: seq<Byte>, a: Addr, v: Byte): seq<Byte>
    requires |k| == 0x2000
  {
    if a >= 0xE000 then k[a - 0xE000 := v] else k
  }

  /**
   * A byte stored where RAM or the KERNAL overlay answers reads is what the
   * next read there returns, whichever of the two is banked in; the store
   * leaves that choice as it was.
   */
  lemma WriteThenRead(m: seq<Byte>, k: seq<Byte>, a: Addr, v: Byte)
    requires |m| == 0x1_0000 && |k| == 0x2000
    requires ReadTarget(m[1], a) == Ram || ReadTarget(m[1], a) == Kernal
    ensures var m' := m[a := v];
      ReadTarget(m'[1], a) == ReadTarget(m[1], a)
      && PlainRead(m'[1], m', KernalAfter(k, a, v), a) == v
  {
    if a == 1 {
      assert ReadTarget(v, a) == Ram;
    }
  }

  /**
   * `opcode_cycles_banked`'s view: the overlay from $E000 up while HIRAM is
   * set, RAM everywhere else, the I/O window included.
   */
  function OpcodeByte(m: seq<Byte>, k: seq<Byte>, pc: Addr): Byte
    requires |m| == 0x1_0000 && |k| == 0x2000
  {
    if pc >= 0xE000 && KernalVisible(m[1]) then k[pc - 0xE000] else m[pc]
  }

  /** Opcode fetches see what bus reads see, except inside a visible I/O window, where they see RAM. */
  lemma OpcodeByteMatchesBus(m: seq<Byte>, k: seq<Byte>, pc: Addr)
    requires |m| == 0x1_0000 && |k| == 0x2000
    ensures ReadTarget(m[1], pc) == Ram || ReadTarget(m[1], pc) == Kernal
      ==> OpcodeByte(m, k, pc) == PlainRead(m[1], m, k, pc)
    ensures ReadTarget(m[1], pc) != Ram && ReadTarget(m[1], pc) != Kernal
      ==> IoVisible(m[1]) && 0xD000 <= pc < 0xE000 && OpcodeByte(m, k, pc) == m[pc]
  {
  }

  /**
   * The power-on RAM of `new`: port $37 with BASIC, KERNAL and I/O banked
   * in, the soft IRQ/BRK/NMI vectors at $0314 pointing at $EA31, $EA81 and
   * $FE72, and the hardware IRQ/NMI vectors at the stub entries.
   */
  lemma BootImage(isPal: bool)
    ensures var m := RamStubs(seq(0x1_0000, i => BootByte(isPal, i)));
      m[0] == 0x2F && m[1] == 0x37 && IoVisible(m[1]) && KernalVisible(m[1])
      && m[0x02A6] == (if isPal then 0x01 else 0x00)
      && Join(m[0x0315], m[0x0314]) == 0xEA31 && Join(m[0x0317], m[0x0316]) == 0xEA81
      && Join(m[0x0319], m[0x0318]) == 0xFE72
      && Join(m[0xFFFF], m[0xFFFE]) == 0xFF48 && Join(m[0xFFFB], m[0xFFFA]) == 0xFE43
  {
    var b := seq(0x1_0000, i => BootByte(isPal, i));
    var p := Patch(b, 0);
    PatchedImage(b, 0);
    NoStubBelowKernal(0);
    NoStubBelowKernal(1);
    NoStubBelowKernal(0x02A6);
    PatchSpec(b, 0, 0);
    PatchSpec(b, 0, 1);
    PatchSpec(b, 0, 0x02A6);
    var m := RamStubs(b);
    assert m[..0x0314] == p[..0x0314] && m[0x0314..0x031A] == SOFT_VECTORS && m[0x031A..] == p[0x031A..];
    assert m[0xFFFF] == p[0xFFFF] && m[0xFFFE] == p[0xFFFE] && m[0xFFFB] == p[0xFFFB] && m[0xFFFA] == p[0xFFFA];
    assert m[0] == p[0] && m[1] == p[1] && m[0x02A6] == p[0x02A6];
  }

  class C64Memory {
    const ram: array<Byte>
    /** The KERNAL overlay, $E000-$FFFF. */
    const kernalRom: array<Byte>
    var sidWrites: seq<SidWrite>
    const mapper: SidMapper
    /** The SID bases the mapper was built from. */
    ghost const bases: seq<Addr>
    const mono: bool
    const sidShadow: array<Byte>
    const cia1: Cia
    const cia2: Cia
    const vic: Vic
    var sidOsc3: U32
    var frameCycle: nat

    ghost predicate Valid()
      reads cia1.timerA, cia1.timerB, cia2.timerA, cia2.timerB
      reads vic`rasterCounter, vic`rasterCompare, vic`cycleAccum
    {
      ram.Length == 0x1_0000 && kernalRom.Length == 0x2000 && sidShadow.Length == 0x80
      && ram != kernalRom && ram != sidShadow && kernalRom != sidShadow
      && vic.regs != ram && vic.regs != kernalRom && vic.regs != sidShadow
      && |bases| <= 4 && mapper == NewMapper(bases)
      && cia1 != cia2 && cia1.Valid() && cia2.Valid()
      && cia1.timerA != cia2.timerA && cia1.timerA != cia2.timerB
      && cia1.timerB != cia2.timerA && cia1.timerB != cia2.timerB
      && vic.Valid()
    }

    /**
     * `new`: the power-on RAM image with the RAM KERNAL stubs and soft
     * vectors, the overlay copied from RAM $E000-$FFFF, CIA 1 port A all
     * outputs, CIA 2 port A $3F outputs driving bank $17, a fresh VIC.
     */
    constructor (isPal: bool, ghost bases: seq<Addr>, mapper: SidMapper, mono: bool)
      requires |bases| <= 4 && mapper == NewMapper(bases)
      ensures Valid() && fresh(ram) && fresh(kernalRom) && fresh(sidShadow)
      ensures ram[..] == RamStubs(seq(0x1_0000, i => BootByte(isPal, i)))
      ensures kernalRom[..] == ram[0xE000..]
      ensures sidWrites == [] && frameCycle == 0 && sidOsc3 == OSC3_SEED
      ensures forall i :: 0 <= i < 0x80 ==> sidShadow[i] == 0
      ensures this.mapper == mapper && this.mono == mono && this.bases == bases
      ensures cia1.ddrA == 0xFF && cia1.ddrB == 0 && cia2.ddrA == 0x3F && cia2.ddrB == 0 && cia2.portA == 0x17
    {
      var r := BootRam(isPal);
      var k := CopyKernal(r);
      var c1, c2 := NewCias();
      var v := new Vic(isPal);
      ram, kernalRom := r, k;
      sidWrites := [];
      this.mapper, this.mono := mapper, mono;
      this.bases := bases;
      sidShadow := new Byte[0x80](_ => 0);
      cia1, cia2, vic := c1, c2, v;
      sidOsc3, frameCycle := OSC3_SEED, 0;
    }

    /** `rebuild_kernal_rom`: the overlay becomes RAM $E000-$FFFF with the KERNAL stubs patched over it. */
    method RebuildKernalRom()
      requires Valid()
      modifies kernalRom
      ensures kernalRom[..] == Patch(ram[0xE000..], 0xE000)
    {
      var i := 0;
      while i < 0x2000
        invariant 0 <= i <= 0x2000
        invariant forall j :: 0 <= j < i ==> kernalRom[j] == ram[0xE000 + j]
      {
        kernalRom[i] := ram[0xE000 + i];
        i := i + 1;
      }
      assert kernalRom[..] == ram[0xE000..];
      PatchStubs(kernalRom, 0xE000);
    }

    /** `clear_writes`: a new frame starts with no captured writes at cycle 0. */
    method ClearWrites()
      modifies this`sidWrites, this`frameCycle
      ensures sidWrites == [] && frameCycle == 0
    {
      sidWrites := [];
      frameCycle := 0;
    }

    /** `tick_jiffy_clock` on this bus's RAM. */
    method TickJiffyClock()
      requires Valid()
      modifies ram
      ensures Jiffy(ram[..]) == (old(Jiffy(ram[..])) + 1) % 0x100_0000
      ensures forall i :: 0 <= i < ram.Length && !(0xA0 <= i <= 0xA2) ==> ram[i] == old(ram[i])
    {
      TickJiffy(ram);
    }

    /**
     * `get_byte`: reads follow `ReadTarget`. An OSC3 read steps the noise
     * generator and a CIA ICR read acknowledges that CIA; every other read
     * leaves the machine as it was.
     */
    method GetByte(address: Addr) returns (v: Byte)
      requires Valid()
      modifies this`sidOsc3, cia1`intData, cia1`intLine, cia2`intData, cia2`intLine
      ensures Valid()
      ensures var t := ReadTarget(ram[1], address);
        (t == Ram || t == Kernal ==> v == PlainRead(ram[1], ram[..], kernalRom[..], address))
        && (t == VicChip ==> v == vic.Read(address - 0xD000))
        && (t == SidChip ==> v == SidReadValue(address % 0x20, old(sidOsc3)))
        && (t == Cia1Chip ==> v == old(cia1.Peek(CiaOffset(address))))
        && (t == Cia2Chip ==> v == old(cia2.Peek(CiaOffset(address))))
      ensures sidOsc3 == if ReadTarget(ram[1], address) == SidChip then SidReadSeed(address % 0x20, old(sidOsc3))
        else old(sidOsc3)
      ensures ReadTarget(ram[1], address) != Cia1Chip ==> cia1.intData == old(cia1.intData) && cia1.intLine == old(cia1.intLine)
      ensures ReadTarget(ram[1], address) != Cia2Chip ==> cia2.intData == old(cia2.intData) && cia2.intLine == old(cia2.intLine)
    {
      var port := ram[1];
      if address <= 0x0001 {
        v := ram[address];
      } else if 0xA000 <= address <= 0xBFFF {
        v := ram[address];
      } else if 0xD000 <= address <= 0xDFFF {
        v := ReadIo(port, address);
      } else if 0xE000 <= address {
        if port & 0x02 != 0 {
          v := kernalRom[address - 0xE000];
        } else {
          v := ram[address];
        }
      } else {
        v := ram[address];
      }
    }

    /** The $D000-$DFFF arm of `get_byte`. */
    method ReadIo(port: Byte, address: Addr) returns (v: Byte)
      requires Valid() && 0xD000 <= address <= 0xDFFF && port == ram[1]
      modifies this`sidOsc3, cia1`intData, cia1`intLine, cia2`intData, cia2`intLine
      ensures Valid()
      ensures var t := ReadTarget(port, address);
        (t == Ram ==> v == ram[address])
        && (t == VicChip ==> v == vic.Read(address - 0xD000))
        && (t == SidChip ==> v == SidReadValue(address % 0x20, old(sidOsc3)))
        && (t == Cia1Chip ==> v == old(cia1.Peek(CiaOffset(address))))
        && (t == Cia2Chip ==> v == old(cia2.Peek(CiaOffset(address))))
      ensures sidOsc3 == if ReadTarget(port, address) == SidChip then SidReadSeed(address % 0x20, old(sidOsc3))
        else old(sidOsc3)
      ensures ReadTarget(port, address) != Cia1Chip ==> cia1.intData == old(cia1.intData) && cia1.intLine == old(cia1.intLine)
      ensures ReadTarget(port, address) != Cia2Chip ==> cia2.intData == old(cia2.intData) && cia2.intLine == old(cia2.intLine)
    {
      var loram, hiram, charen := port & 0x01 != 0, port & 0x02 != 0, port & 0x04 != 0;
      if !loram && !hiram {
        v := ram[address];
      } else if !charen {
        v := ram[address];
      } else if address <= 0xD3FF {
        v := vic.Read(address - 0xD000);
      } else if address <= 0xD7FF {
        var reg := address % 0x20;
        v := SidReadValue(reg, sidOsc3);
        sidOsc3 := SidReadSeed(reg, sidOsc3);
      } else if address <= 0xDBFF {
        v := ram[address];
      } else if address <= 0xDCFF {
        v := ReadCia1(address);
      } else if address <= 0xDDFF {
        v := ReadCia2(address);
      } else {
        v := ram[address];
      }
    }

    /** The register a write at `a` is captured as, given the port: only SID-bound writes are offered to the mapper. */
    function Captured(port: Byte, a: Addr): (r: Option<Byte>)
      requires |bases| <= 4 && mapper == NewMapper(bases)
      ensures r.Some? ==> r.value < 0x80
    {
      MapSidWriteSpec(mono, bases, a);
      if WriteTarget(port, a) == SidChip then MapSidWrite(mono, mapper, a) else None
    }

    /**
     * `set_byte`: the byte always lands in RAM and, from $E000 up, in the
     * KERNAL overlay. With I/O visible a SID-bound write that maps is
     * recorded as (`frameCycle`, register, value) and shadowed; VIC and CIA
     * writes reach their chip, and no other chip changes.
     */
    method SetByte(address: Addr, value: Byte)
      requires Valid()
      modifies ram, kernalRom, sidShadow, this`sidWrites
      modifies vic, vic.regs, cia1, cia1.timerA, cia1.timerB, cia2, cia2.timerA, cia2.timerB
      ensures Valid()
      ensures ram[..] == old(ram[..])[address := value]
      ensures kernalRom[..] == KernalAfter(old(kernalRom[..]), address, value)
      ensures var c := Captured(ram[1], address);
        && sidWrites == old(sidWrites) + (if c.Some? then [SidWrite(frameCycle, c.value, value)] else [])
        && sidShadow[..] == if c.Some? then old(sidShadow[..])[c.value as int := value] else old(sidShadow[..])
      ensures WriteTarget(ram[1], address) != VicChip ==> unchanged(vic, vic.regs)
      ensures WriteTarget(ram[1], address) != Cia1Chip ==> unchanged(cia1, cia1.timerA, cia1.timerB)
      ensures WriteTarget(ram[1], address) != Cia2Chip ==> unchanged(cia2, cia2.timerA, cia2.timerB)
      ensures WriteTarget(ram[1], address) == VicChip ==> vic.Wrote(address - 0xD000, value)
      ensures WriteTarget(ram[1], address) == Cia1Chip ==> cia1.Wrote(CiaOffset(address), value)
      ensures WriteTarget(ram[1], address) == Cia2Chip ==> cia2.Wrote(CiaOffset(address), value)
    {
      // The I/O arm reads only the port byte at $0001, which an I/O address
      // does not overwrite, so it may run before the RAM store.
      if 0xD000 <= address <= 0xDFFF && IoVisible(ram[1]) {
        WriteIo(address, value, WriteTarget(ram[1], address));
      }
      StoreRam(address, value);
    }

    /** The store every write makes: RAM, and from $E000 up the KERNAL overlay. */
    method StoreRam(address: Addr, value: Byte)
      requires Valid()
      modifies ram, kernalRom
      ensures ram[..] == old(ram[..])[address := value]
      ensures kernalRom[..] == KernalAfter(old(kernalRom[..]), address, value)
      ensures WriteTarget(ram[1], address) == WriteTarget(old(ram[1]), address)
      ensures Captured(ram[1], address) == Captured(old(ram[1]), address)
    {
      ram[address] := value;
      if 0xE000 <= address {
        kernalRom[address - 0xE000] := value;
      }
    }

    /** The visible-I/O arm of `set_byte`, given the chip the address selects. */
    method WriteIo(address: Addr, value: Byte, target: Target)
      requires Valid() && 0xD000 <= address <= 0xDFFF && IoVisible(ram[1])
      requires target == WriteTarget(ram[1], address)
      modifies sidShadow, this`sidWrites
      modifies vic, vic.regs, cia1, cia1.timerA, cia1.timerB, cia2, cia2.timerA, cia2.timerB
      ensures Valid()
      ensures var c := Captured(ram[1], address);
        && sidWrites == old(sidWrites) + (if c.Some? then [SidWrite(frameCycle, c.value, value)] else [])
        && sidShadow[..] == if c.Some? then old(sidShadow[..])[c.value as int := value] else old(sidShadow[..])
      ensures target != VicChip ==> unchanged(vic, vic.regs)
      ensures target != Cia1Chip ==> unchanged(cia1, cia1.timerA, cia1.timerB)
      ensures target != Cia2Chip ==> unchanged(cia2, cia2.timerA, cia2.timerB)
      ensures target == VicChip ==> vic.Wrote(address - 0xD000, value)
      ensures target == Cia1Chip ==> cia1.Wrote(CiaOffset(address), value)
      ensures target == Cia2Chip ==> cia2.Wrote(CiaOffset(address), value)
    {
      if target == VicChip {
        WriteVic(address, value);
      } else if target == Cia1Chip {
        WriteCia1(address, value);
      } else if target == Cia2Chip {
        WriteCia2(address, value);
      } else {
        CaptureSid(address, value);
      }
    }

    /** CIA 1's arm of `get_byte`: register `(address - $DC00) & $0F`. */
    method ReadCia1(address: Addr) returns (v: Byte)
      requires Valid() && 0xDC00 <= address <= 0xDCFF
      modifies cia1`intData, cia1`intLine
      ensures Valid() && v == old(cia1.Peek(CiaOffset(address)))
    {
      v := cia1.Read(CiaOffset(address));
    }

    /** CIA 2's arm of `get_byte`: register `(address - $DD00) & $0F`. */
    method ReadCia2(address: Addr) returns (v: Byte)
      requires Valid() && 0xDD00 <= address <= 0xDDFF
      modifies cia2`intData, cia2`intLine
      ensures Valid() && v == old(cia2.Peek(CiaOffset(address)))
    {
      v := cia2.Read(CiaOffset(address));
    }

    /** The VIC arm of `set_byte`. */
    method WriteVic(address: Addr, value: Byte)
      requires Valid() && 0xD000 <= address <= 0xD3FF
      modifies vic, vic.regs
      ensures Valid() && vic.Wrote(address - 0xD000, value)
    {
      vic.Write(address - 0xD000, value);
    }

    /** CIA 1's arm of `set_byte`. */
    method WriteCia1(address: Addr, value: Byte)
      requires Valid() && 0xDC00 <= address <= 0xDCFF
      modifies cia1, cia1.timerA, cia1.timerB
      ensures Valid() && cia1.Wrote(CiaOffset(address), value)
    {
      cia1.Write(CiaOffset(address), value);
    }

    /** CIA 2's arm of `set_byte`. */
    method WriteCia2(address: Addr, value: Byte)
      requires Valid() && 0xDD00 <= address <= 0xDDFF
      modifies cia2, cia2.timerA, cia2.timerB
      ensures Valid() && cia2.Wrote(CiaOffset(address), value)
    {
      cia2.Write(CiaOffset(address), value);
    }

    /** The SID arm of `set_byte`: mono folding or the mapper picks the register; unmapped writes are dropped. */
    method CaptureSid(address: Addr, value: Byte)
      requires Valid() && WriteTarget(ram[1], address) == SidChip
      modifies sidShadow, this`sidWrites
      ensures var c := Captured(ram[1], address);
        && sidWrites == old(sidWrites) + (if c.Some? then [SidWrite(frameCycle, c.value, value)] else [])
        && sidShadow[..] == if c.Some? then old(sidShadow[..])[c.value as int := value] else old(sidShadow[..])
    {
      var reg: Option<Byte>;
      if mono {
        reg := if 0xD400 <= address <= 0xD7FF then Some((address % 0x20) as Byte) else None;
      } else {
        reg := Map(mapper, address);
      }
      assert reg == Captured(ram[1], address);
      if reg.Some? {
        sidWrites := sidWrites + [SidWrite(frameCycle, reg.value, value)];
        sidShadow[reg.value as int] := value;
      }
    }
  }

  /** The RAM of `new`: the power-on image with the RAM KERNAL stubs installed. */
  method BootRam(isPal: bool) returns (r: array<Byte>)
    ensures fresh(r) && r.Length == 0x1_0000
    ensures r[..] == RamStubs(seq(0x1_0000, i => BootByte(isPal, i)))
  {
    r := new Byte[0x1_0000](i => BootByte(isPal, i));
    assert r[..] == seq(0x1_0000, i => BootByte(isPal, i));
    InstallRamStubs(r);
  }

  /** The KERNAL overlay of `new`: a copy of RAM $E000-$FFFF. */
  method CopyKernal(r: array<Byte>) returns (k: array<Byte>)
    requires r.Length == 0x1_0000
    ensures fresh(k) && k[..] == r[0xE000..]
  {
    k := new Byte[0x2000](i reads r requires 0 <= i < 0x2000 => r[0xE000 + i]);
    assert k[..] == r[0xE000..];
  }

  /** The two CIAs of `new`: CIA 1 port A all outputs, CIA 2 port A $3F outputs driving $17. */
  method NewCias() returns (c1: Cia, c2: Cia)
    ensures fresh(c1) && fresh(c2) && fresh(c1.timerA) && fresh(c1.timerB) && fresh(c2.timerA) && fresh(c2.timerB)
    ensures c1.Valid() && c2.Valid()
    ensures c1.timerA != c2.timerA && c1.timerA != c2.timerB && c1.timerB != c2.timerA && c1.timerB != c2.timerB
    ensures c1.ddrA == 0xFF && c1.ddrB == 0 && c2.ddrA == 0x3F && c2.ddrB == 0 && c2.portA == 0x17
  {
    c1 := new Cia();
    c1.ddrA, c1.ddrB := 0xFF, 0x00;
    c2 := new Cia();
    c2.ddrA, c2.ddrB, c2.portA := 0x3F, 0x00, 0x17;
  }

  /** The RAM KERNAL stubs of `new`: the stub table, then the soft vectors at $0314-$0319. */
  function RamStubs(m: seq<Byte>): (r: seq<Byte>)
    requires |m| == 0x1_0000
    ensures |r| == 0x1_0000
  {
    var p := Patch(m, 0);
    p[..0x0314] + SOFT_VECTORS + p[0x031A..]
  }

  /** `install_kernal_stubs` on RAM. */
  method InstallRamStubs(ram: array<Byte>)
    requires ram.Length == 0x1_0000
    modifies ram
    ensures ram[..] == RamStubs(old(ram[..]))
  {
    PatchStubs(ram, 0);
    ghost var p := ram[..];
    WriteRun(ram, 0, 0x0314, SOFT_VECTORS);
    assert ram[..] == p[..0x0314] + SOFT_VECTORS + p[0x031A..];
  }
}
