/**
 * The memory-mapped devices of the cycle-level C64 core
 * (`c64_emu/banks/`): system RAM with its power-on pattern, colour RAM,
 * the floating expansion bus, the I/O page router and the SID banks.
 */
module EmuBanks {
  import opened Common

  // ---------------------------------------------------------------------------
  //  A SID chip, as a register sink
  // ---------------------------------------------------------------------------

  /** One register write a chip received. */
  datatype SidPoke = SidPoke(reg: Byte, value: Byte)

  /**
   * A SID chip behind a bank. `NullSid` is the placeholder that reads $FF
   * and ignores writes; `Emulated` stands for an external emulation, seen
   * through the registers it reads back, the writes it received and the
   * volume of its last reset.
   */
  datatype SidChip =
    | NullSid
    | Emulated(readback: Byte -> Byte, pokes: seq<SidPoke>, resetVolume: Option<Byte>)

  function ChipRead(c: SidChip, reg: Byte): Byte
  {
    match c
    case NullSid => 0xFF
    case Emulated(readback, _, _) => readback(reg)
  }

  function ChipWrite(c: SidChip, reg: Byte, value: Byte): SidChip
  {
    match c
    case NullSid => NullSid
    case Emulated(readback, pokes, vol) => Emulated(readback, pokes + [SidPoke(reg, value)], vol)
  }

  function ChipReset(c: SidChip, volume: Byte): SidChip
  {
    match c
    case NullSid => NullSid
    case Emulated(readback, pokes, _) => Emulated(readback, pokes, Some(volume))
  }

  /** The placeholder chip reads $FF at every register and stays a placeholder through writes and resets. */
  lemma NullSidSpec(reg: Byte, value: Byte, volume: Byte)
    ensures ChipRead(NullSid, reg) == 0xFF
    ensures ChipWrite(NullSid, reg, value) == NullSid && ChipReset(NullSid, volume) == NullSid
  {
  }

  /** Fills `a[from..to]` with `v`. */
  method Fill(a: array<Byte>, from: int, to: int, v: Byte)
    requires 0 <= from <= to <= a.Length
    modifies a
    ensures forall k :: from <= k < to ==> a[k] == v
    ensures forall k :: 0 <= k < a.Length && !(from <= k < to) ==> a[k] == old(a[k])
  {
    var k := from;
    while k < to
      invariant from <= k <= to
      invariant forall i :: from <= i < k ==> a[i] == v
      invariant forall i :: 0 <= i < a.Length && !(from <= i < k) ==> a[i] == old(a[i])
    {
      a[k] := v;
      k := k + 1;
    }
  }

  // ---------------------------------------------------------------------------
  //  System RAM
  // ---------------------------------------------------------------------------

  /**
   * The power-on byte at `a`: $FF exactly when "offset 2..5 within its
   * 8-byte group" differs from "in an odd 16K block", else $00.
   */
  function PowerOnByte(a: int): Byte
  {
    if (2 <= a % 8 <= 5) != ((a / 0x4000) % 2 == 1) then 0xFF else 0x00
  }

  /** The pattern inside one 16K block whose fill byte is `fill`, at offset `off`. */
  function BlockByte(off: int, fill: Byte): Byte
  {
    if 2 <= off % 8 <= 5 then !fill else fill
  }

  lemma BlockIsPowerOn(j: int, a: int, fill: Byte)
    requires 0 <= j && j % 0x4000 == 0 && j <= a < j + 0x4000
    requires fill == (if (j / 0x4000) % 2 == 0 then 0x00 else 0xFF)
    ensures BlockByte(a - j, fill) == PowerOnByte(a)
  {
    var q := j / 0x4000;
    assert j == q * 0x4000;
    assert a / 0x4000 == q by {
      DivModUnique(a, 0x4000, q, a - j);
    }
    assert (a - j) % 8 == a % 8 by {
      DivModUnique(a, 8, a / 8, a % 8);
      DivModUnique(a - j, 8, a / 8 - q * 0x800, a % 8);
    }
  }

  /** 64K of system RAM (`SystemRamBank`). */
  class SystemRamBank {
    const ram: array<Byte>

    predicate Valid()
    {
      ram.Length == 0x1_0000
    }

    predicate PoweredOn()
      requires Valid()
      reads this, ram
    {
      forall a :: 0 <= a < 0x1_0000 ==> ram[a] == PowerOnByte(a)
    }

    /** `new`: a bank holding the power-on pattern. */
    constructor ()
      ensures Valid() && fresh(ram) && PoweredOn()
    {
      ram := new Byte[0x1_0000];
      new;
      Reset();
    }

    /** `reset`: each 16K block is filled with its fill byte, then striped with the complement every 8 bytes from offset 2. */
    method Reset()
      requires Valid()
      modifies ram
      ensures PoweredOn()
    {
      var fill: Byte := 0x00;
      var j := 0;
      while j < 0x1_0000
        invariant 0 <= j <= 0x1_0000 && j % 0x4000 == 0
        invariant fill == if (j / 0x4000) % 2 == 0 then 0x00 else 0xFF
        invariant forall a :: 0 <= a < j ==> ram[a] == PowerOnByte(a)
      {
        ghost var blockFill := fill;
        Fill(ram, j, j + 0x4000, fill);
        fill := !fill;
        var i := 2;
        while i < 0x4000
          invariant 2 <= i <= 0x4002 && i % 8 == 2
          invariant forall a :: 0 <= a < j ==> ram[a] == PowerOnByte(a)
          invariant forall a :: j <= a < j + i && a < j + 0x4000 ==> ram[a] == BlockByte(a - j, blockFill)
          invariant forall a :: j + i <= a < j + 0x4000 ==> ram[a] == blockFill
        {
          var start := j + i;
          var end := Min(start + 4, j + 0x4000);
          Fill(ram, start, end, fill);
          i := i + 8;
        }
        forall a | j <= a < j + 0x4000
          ensures ram[a] == PowerOnByte(a)
        {
          BlockIsPowerOn(j, a, blockFill);
        }
        j := j + 0x4000;
      }
    }

    function Peek(address: Addr): Byte
      requires Valid()
      reads this, ram
    {
      ram[address]
    }

    /** `poke`: stores at `address` and nowhere else. */
    method Poke(address: Addr, value: Byte)
      requires Valid()
      modifies ram
      ensures Peek(address) == value
      ensures forall a :: 0 <= a < 0x1_0000 && a != address ==> ram[a] == old(ram[a])
    {
      ram[address] := value;
    }
  }

  /** The rows documented for the pattern, and its repetition every 32K. */
  lemma PowerOnRows(a: int)
    requires 0 <= a < 0x8000
    ensures PowerOnByte(a + 0x8000) == PowerOnByte(a)
    ensures a < 8 ==> PowerOnByte(a) == [0x00, 0x00, 0xFF, 0xFF, 0xFF, 0xFF, 0x00, 0x00][a]
    ensures a < 8 ==> PowerOnByte(0x4000 + a) == [0xFF, 0xFF, 0x00, 0x00, 0x00, 0x00, 0xFF, 0xFF][a]
  {
    assert (a + 0x8000) % 8 == a % 8;
    assert (a + 0x8000) / 0x4000 == a / 0x4000 + 2;
  }

  // ---------------------------------------------------------------------------
  //  Colour RAM
  // ---------------------------------------------------------------------------

  /** 1K of 4-bit colour RAM, mirrored through its 1K window (`ColorRamBank`). */
  class ColorRamBank {
    const ram: array<Byte>

    /** Every cell holds a nybble. */
    predicate Valid()
      reads this, ram
    {
      ram.Length == 0x400 && forall i :: 0 <= i < 0x400 ==> ram[i] <= 0x0F
    }

    constructor ()
      ensures Valid() && fresh(ram) && forall i :: 0 <= i < 0x400 ==> ram[i] == 0
    {
      ram := new Byte[0x400](_ => 0);
    }

    method Reset()
      requires Valid()
      modifies ram
      ensures Valid() && forall i :: 0 <= i < 0x400 ==> ram[i] == 0
    {
      Fill(ram, 0, 0x400, 0);
    }

    /** `peek`: the cell at the address modulo $400, never above $0F. */
    function Peek(address: Addr): (r: Byte)
      requires Valid()
      reads this, ram
      ensures r <= 0x0F
    {
      ram[address % 0x400]
    }

    /** `poke`: keeps the low nybble in the one cell the address mirrors to. */
    method Poke(address: Addr, value: Byte)
      requires Valid()
      modifies ram
      ensures Valid()
      ensures Peek(address) == value & 0x0F
      ensures forall i :: 0 <= i < 0x400 && i != address % 0x400 ==> ram[i] == old(ram[i])
    {
      ram[address % 0x400] := value & 0x0F;
    }
  }

  // ---------------------------------------------------------------------------
  //  Disconnected bus
  // ---------------------------------------------------------------------------

  /** The floating $DE00-$DFFF area (`DisconnectedBusBank`). */
  class DisconnectedBusBank {
    var lastReadByte: Option<() -> Byte>

    constructor ()
      ensures lastReadByte == None
    {
      lastReadByte := None;
    }

    method SetLastReadByteFn(f: () -> Byte)
      modifies this
      ensures lastReadByte == Some(f)
    {
      lastReadByte := Some(f);
    }

    /** `peek`: $FF without a source for the last bus byte, else that source's value. */
    function Peek(address: Addr): (r: Byte)
      reads this
      ensures lastReadByte == None ==> r == 0xFF
      ensures lastReadByte.Some? ==> r == lastReadByte.value()
    {
      match lastReadByte
      case None => 0xFF
      case Some(f) => f()
    }

    /** `poke`: no device listens, so nothing changes. */
    method Poke(address: Addr, value: Byte)
    {
    }
  }

  // ---------------------------------------------------------------------------
  //  I/O page router
  // ---------------------------------------------------------------------------

  /** Which chip owns a $Dx00 page. */
  datatype IoChip = Vic | Sid | ColorRam | Cia1 | Cia2 | DisconnectedBus | ExtraSid(bank: Byte)

  /** The standard C64 I/O map, page by page. */
  const DEFAULT_IO_MAP: seq<IoChip> :=
    [Vic, Vic, Vic, Vic, Sid, Sid, Sid, Sid, ColorRam, ColorRam, ColorRam, ColorRam,
     Cia1, Cia2, DisconnectedBus, DisconnectedBus]

  /** The page of an I/O address: bits 8-11. */
  function IoPage(address: Addr): (p: nat)
    ensures p < 16
  {
    (address / 0x100) % 0x10
  }

  /** `IoBank`: the 16 pages of $D000-$DFFF and the chip each is routed to. */
  class IoBank {
    const pages: array<IoChip>

    predicate Valid()
    {
      pages.Length == 16
    }

    /** `new`: every page disconnected. */
    constructor ()
      ensures Valid() && fresh(pages) && forall p :: 0 <= p < 16 ==> pages[p] == DisconnectedBus
    {
      pages := new IoChip[16](_ => DisconnectedBus);
    }

    /** `Default`: `new` followed by `reset_default`. */
    constructor Standard()
      ensures Valid() && fresh(pages) && pages[..] == DEFAULT_IO_MAP
    {
      pages := new IoChip[16](_ => DisconnectedBus);
      new;
      ResetDefault();
    }

    /** `set_bank`: routes one page and leaves the others. */
    method SetBank(page: nat, chip: IoChip)
      requires Valid() && page < 16
      modifies pages
      ensures GetBank(page) == chip
      ensures forall p :: 0 <= p < 16 && p != page ==> pages[p] == old(pages[p])
    {
      pages[page] := chip;
    }

    function GetBank(page: nat): IoChip
      requires Valid() && page < 16
      reads this, pages
    {
      pages[page]
    }

    /** `dispatch`: the chip of the address's page. */
    function Dispatch(address: Addr): (c: IoChip)
      requires Valid()
      reads this, pages
      ensures c == GetBank(IoPage(address))
    {
      pages[IoPage(address)]
    }

    /** `reset_default`: the standard map. */
    method ResetDefault()
      requires Valid()
      modifies pages
      ensures pages[..] == DEFAULT_IO_MAP
    {
      var i := 0;
      while i <= 3
        invariant 0 <= i <= 4
        invariant forall p :: 0 <= p < i ==> pages[p] == Vic
      {
        pages[i] := Vic;
        i := i + 1;
      }
      i := 4;
      while i <= 7
        invariant 4 <= i <= 8
        invariant forall p :: 0 <= p < 4 ==> pages[p] == Vic
        invariant forall p :: 4 <= p < i ==> pages[p] == Sid
      {
        pages[i] := Sid;
        i := i + 1;
      }
      i := 8;
      while i <= 0xB
        invariant 8 <= i <= 0xC
        invariant forall p :: 0 <= p < 8 ==> pages[p] == DEFAULT_IO_MAP[p]
        invariant forall p :: 8 <= p < i ==> pages[p] == ColorRam
      {
        pages[i] := ColorRam;
        i := i + 1;
      }
      pages[0xC] := Cia1;
      pages[0xD] := Cia2;
      pages[0xE] := DisconnectedBus;
      pages[0xF] := DisconnectedBus;
    }
  }

  /**
   * Under the standard map $D000-$D3FF is the VIC, $D400-$D7FF the SID,
   * $D800-$DBFF colour RAM, $DC00 CIA 1, $DD00 CIA 2 and $DE00-$DFFF
   * floating; all addresses of one 256-byte page share a chip.
   */
  lemma DefaultIoMap(address: Addr)
    requires 0xD000 <= address < 0xE000
    ensures var c := DEFAULT_IO_MAP[IoPage(address)];
      (address < 0xD400 <==> c == Vic) && (0xD400 <= address < 0xD800 <==> c == Sid)
      && (0xD800 <= address < 0xDC00 <==> c == ColorRam)
      && (0xDC00 <= address < 0xDD00 <==> c == Cia1) && (0xDD00 <= address < 0xDE00 <==> c == Cia2)
      && (0xDE00 <= address <==> c == DisconnectedBus)
    ensures IoPage(address) == (address - 0xD000) / 0x100
  {
  }

  // ---------------------------------------------------------------------------
  //  SID banks
  // ---------------------------------------------------------------------------

  /** The primary SID at $D400-$D7FF, mirrored every 32 bytes (`SidBank`). */
  class SidBank {
    var sid: SidChip
    const lastPoke: array<Byte>

    predicate Valid()
    {
      lastPoke.Length == 0x20
    }

    constructor ()
      ensures Valid() && fresh(lastPoke) && sid == NullSid
      ensures forall r :: 0 <= r < 0x20 ==> lastPoke[r] == 0
    {
      sid := NullSid;
      lastPoke := new Byte[0x20](_ => 0);
    }

    /** `set_sid`: no chip installs the placeholder. */
    method SetSid(s: Option<SidChip>)
      modifies this`sid
      ensures s == None ==> sid == NullSid
      ensures s.Some? ==> sid == s.value
    {
      sid := if s.Some? then s.value else NullSid;
    }

    /** `reset`: forgets the written values and resets the chip at full volume. */
    method Reset()
      requires Valid()
      modifies this`sid, lastPoke
      ensures forall r :: 0 <= r < 0x20 ==> lastPoke[r] == 0
      ensures sid == ChipReset(old(sid), 0x0F)
    {
      Fill(lastPoke, 0, 0x20, 0);
      sid := ChipReset(sid, 0x0F);
    }

    /** `get_status`: a copy of the last value written to each register. */
    method GetStatus(out: array<Byte>)
      requires Valid() && out.Length == 0x20 && out != lastPoke
      modifies out
      ensures out[..] == lastPoke[..]
    {
      forall r | 0 <= r < 0x20 {
        out[r] := lastPoke[r];
      }
    }

    /** `poke`: remembers the value of register `address & $1F` and forwards the write to the chip. */
    method Poke(address: Addr, value: Byte)
      requires Valid()
      modifies this`sid, lastPoke
      ensures lastPoke[address % 0x20] == value
      ensures forall r :: 0 <= r < 0x20 && r != address % 0x20 ==> lastPoke[r] == old(lastPoke[r])
      ensures sid == ChipWrite(old(sid), (address % 0x20) as Byte, value)
    {
      var reg := address % 0x20;
      lastPoke[reg] := value;
      sid := ChipWrite(sid, reg as Byte, value);
    }

    /** `peek`: the chip's register `address & $1F`, whatever was last written. */
    function Peek(address: Addr): (r: Byte)
      reads this
      ensures sid == NullSid ==> r == 0xFF
    {
      ChipRead(sid, (address % 0x20) as Byte)
    }
  }

  /** A poke is visible in the status copy but never in what a read returns. */
  lemma PeekIgnoresLastPoke(s: SidChip, address: Addr, value: Byte)
    ensures ChipRead(ChipWrite(s, (address % 0x20) as Byte, value), (address % 0x20) as Byte)
         == ChipRead(s, (address % 0x20) as Byte)
  {
  }

  /** The 32-byte slot of an I/O address: bits 5-11. */
  function Slot(address: Addr): (s: nat)
    ensures s < 128
  {
    (address / 0x20) % 0x80
  }

  /** Up to 128 extra SIDs, each owning one 32-byte slot of $D000-$DFFF (`ExtraSidBank`). */
  class ExtraSidBank {
    var sids: seq<SidChip>
    const mapper: array<Option<nat>>

    /** Every mapped slot names an installed chip. */
    predicate Valid()
      reads this, mapper
    {
      mapper.Length == 128 && forall s :: 0 <= s < 128 && mapper[s].Some? ==> mapper[s].value < |sids|
    }

    constructor ()
      ensures Valid() && fresh(mapper) && sids == []
      ensures forall s :: 0 <= s < 128 ==> mapper[s] == None
    {
      sids := [];
      mapper := new Option<nat>[128](_ => None);
    }

    /** `reset`: resets every installed chip at full volume. */
    method Reset()
      requires Valid()
      modifies this`sids
      ensures Valid() && |sids| == |old(sids)|
      ensures forall i :: 0 <= i < |sids| ==> sids[i] == ChipReset(old(sids)[i], 0x0F)
    {
      var i := 0;
      while i < |sids|
        invariant 0 <= i <= |sids| == |old(sids)|
        invariant forall k :: 0 <= k < i ==> sids[k] == ChipReset(old(sids)[k], 0x0F)
        invariant forall k :: i <= k < |sids| ==> sids[k] == old(sids)[k]
      {
        sids := sids[i := ChipReset(sids[i], 0x0F)];
        i := i + 1;
      }
    }

    /** `add_sid`: installs the chip as the newest one and routes the base's slot to it, replacing any earlier owner. */
    method AddSid(sid: SidChip, baseAddress: Addr)
      requires Valid()
      modifies this`sids, mapper
      ensures Valid()
      ensures sids == old(sids) + [sid]
      ensures mapper[Slot(baseAddress)] == Some(|old(sids)|)
      ensures forall s :: 0 <= s < 128 && s != Slot(baseAddress) ==> mapper[s] == old(mapper[s])
    {
      var idx := |sids|;
      sids := sids + [sid];
      mapper[Slot(baseAddress)] := Some(idx);
    }

    function HasSlot(address: Addr): bool
      requires Valid()
      reads this, mapper
    {
      mapper[Slot(address)].Some?
    }

    /** `peek`: $FF on an unmapped slot, else register `address & $1F` of the slot's chip. */
    function Peek(address: Addr): (r: Byte)
      requires Valid()
      reads this, mapper
      ensures !HasSlot(address) ==> r == 0xFF
      ensures HasSlot(address) ==> r == ChipRead(sids[mapper[Slot(address)].value], (address % 0x20) as Byte)
    {
      match mapper[Slot(address)]
      case Some(i) => ChipRead(sids[i], (address % 0x20) as Byte)
      case None => 0xFF
    }

    /** `poke`: ignored on an unmapped slot, else written to register `address & $1F` of the slot's chip only. */
    method Poke(address: Addr, data: Byte)
      requires Valid()
      modifies this`sids
      ensures Valid() && |sids| == |old(sids)|
      ensures !HasSlot(address) ==> sids == old(sids)
      ensures HasSlot(address) ==>
        sids == old(sids)[mapper[Slot(address)].value := ChipWrite(old(sids)[mapper[Slot(address)].value], (address % 0x20) as Byte, data)]
    {
      match mapper[Slot(address)]
      case Some(i) =>
        sids := sids[i := ChipWrite(sids[i], (address % 0x20) as Byte, data)];
      case None =>
    }

    function InstalledSids(): nat
      reads this
    {
      |sids|
    }
  }
}
