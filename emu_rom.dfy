/**
 * The ROM banks of the cycle-level C64 core (`c64_emu/banks/system_rom.rs`):
 * the KERNAL image with its minimal boot stub and reset-vector snapshot,
 * BASIC with the warm-start trap and subtune patch it can undo, and the
 * character generator. CPU writes never reach any of them.
 */
module EmuRom {
  import opened Common

  const RTS: Byte := 0x60
  const RTI: Byte := 0x40
  const JMP_ABS: Byte := 0x4C
  const JMP_IND: Byte := 0x6C
  const NOP_ABS: Byte := 0x0C
  const PHA: Byte := 0x48
  const PLA: Byte := 0x68
  const TXA: Byte := 0x8A
  const TAX: Byte := 0xAA
  const TYA: Byte := 0x98
  const TAY: Byte := 0xA8
  const SEI: Byte := 0x78
  const LDA_IMM: Byte := 0xA9
  const STA_ABS: Byte := 0x8D
  const JSR: Byte := 0x20

  /** `s` with its first `min(|d|, |s|)` bytes replaced from `d` (`rom[..len].copy_from_slice`). */
  function Overlay(s: seq<Byte>, d: seq<Byte>): (r: seq<Byte>)
    ensures |r| == |s|
  {
    var n := Min(|d|, |s|);
    d[..n] + s[n..]
  }

  /** Copies the prefix of `data` that fits into `rom`. */
  method CopyPrefix(rom: array<Byte>, data: seq<Byte>)
    modifies rom
    ensures rom[..] == Overlay(old(rom[..]), data)
  {
    var n := Min(|data|, rom.Length);
    var k := 0;
    while k < n
      invariant 0 <= k <= n
      invariant forall i :: 0 <= i < k ==> rom[i] == data[i]
      invariant forall i :: k <= i < rom.Length ==> rom[i] == old(rom[i])
    {
      rom[k] := data[k];
      k := k + 1;
    }
    assert rom[..] == Overlay(old(rom[..]), data);
  }

  /** Fills the whole of `rom` with `v`. */
  method FillRom(rom: array<Byte>, v: Byte)
    modifies rom
    ensures forall i :: 0 <= i < rom.Length ==> rom[i] == v
  {
    var k := 0;
    while k < rom.Length
      invariant 0 <= k <= rom.Length
      invariant forall i :: 0 <= i < k ==> rom[i] == v
    {
      rom[k] := v;
      k := k + 1;
    }
  }

  /** A ROM address's offset within an 8K image (`mask(0x2000, addr)`). */
  function Off8K(address: Addr): (o: nat)
    ensures o < 0x2000
  {
    address % 0x2000
  }

  // ---------------------------------------------------------------------------
  //  KERNAL
  // ---------------------------------------------------------------------------

  /**
   * The minimal KERNAL: the IRQ exit at $EA31/$EA7E, a halting RESET at
   * $FCE2, the NMI entry at $FE43, the IRQ entry at $FF48 and the three
   * hardware vectors, at strictly increasing addresses.
   */
  const KERNAL_STUB: seq<(Addr, Byte)> := [
    (0xEA31, JMP_ABS), (0xEA32, 0x7E), (0xEA33, 0xEA),
    (0xEA7E, NOP_ABS), (0xEA7F, 0x0D), (0xEA80, 0xDC), (0xEA81, PLA), (0xEA82, TAY),
    (0xEA83, PLA), (0xEA84, TAX), (0xEA85, PLA), (0xEA86, RTI),
    (0xFCE2, 0x02),
    (0xFE43, SEI), (0xFE44, JMP_IND), (0xFE45, 0x18), (0xFE46, 0x03), (0xFE47, RTI),
    (0xFF48, PHA), (0xFF49, TXA), (0xFF4A, PHA), (0xFF4B, TYA), (0xFF4C, PHA),
    (0xFF4D, JMP_IND), (0xFF4E, 0x14), (0xFF4F, 0x03),
    (0xFFFA, 0x43), (0xFFFB, 0xFE), (0xFFFC, 0xE2), (0xFFFD, 0xFC), (0xFFFE, 0x48), (0xFFFF, 0xFF)
  ]

  lemma StubAscending()
    ensures forall i, j :: 0 <= i < j < |KERNAL_STUB| ==> KERNAL_STUB[i].0 < KERNAL_STUB[j].0
    ensures forall i :: 0 <= i < |KERNAL_STUB| ==> 0xE000 <= KERNAL_STUB[i].0
  {
    var t := KERNAL_STUB;
    assert forall i :: 0 < i < |t| ==> t[i - 1].0 < t[i].0;
    forall i, j | 0 <= i < j < |t|
      ensures t[i].0 < t[j].0
    {
      Ascend(t, i, j);
    }
  }

  lemma {:induction false} Ascend(t: seq<(Addr, Byte)>, i: int, j: int)
    requires forall k :: 0 < k < |t| ==> t[k - 1].0 < t[k].0
    requires 0 <= i < j < |t|
    ensures t[i].0 < t[j].0
    decreases j - i
  {
    if i + 1 < j {
      Ascend(t, i + 1, j);
    }
  }

  /** The byte the last entry of `t` writing 8K offset `o` leaves there, if any writes it. */
  function StubLookup(t: seq<(Addr, Byte)>, o: int): Option<Byte>
  {
    if t == [] then None
    else if Off8K(t[|t| - 1].0) == o then Some(t[|t| - 1].1)
    else StubLookup(t[..|t| - 1], o)
  }

  /** The stub byte at 8K offset `o`, if the stub defines one. */
  function StubAt(o: int): Option<Byte>
  {
    StubLookup(KERNAL_STUB, o)
  }

  /** Image `m` after the entries of `t` are written in order. */
  function ApplyStub(m: seq<Byte>, t: seq<(Addr, Byte)>): (r: seq<Byte>)
    requires |m| == 0x2000
    ensures |r| == 0x2000
  {
    if t == [] then m else ApplyStub(m, t[..|t| - 1])[Off8K(t[|t| - 1].0) := t[|t| - 1].1]
  }

  lemma {:induction false} ApplyStubAt(m: seq<Byte>, t: seq<(Addr, Byte)>, o: int)
    requires |m| == 0x2000 && 0 <= o < 0x2000
    ensures ApplyStub(m, t)[o] == match StubLookup(t, o) case Some(b) => b case None => m[o]
    decreases |t|
  {
    if t != [] {
      ApplyStubAt(m, t[..|t| - 1], o);
    }
  }

  /** In a table at strictly increasing addresses of one 8K window, each entry is the last to write its offset. */
  lemma {:induction false} LookupEntry(t: seq<(Addr, Byte)>, k: int)
    requires forall i, j :: 0 <= i < j < |t| ==> t[i].0 < t[j].0
    requires forall i :: 0 <= i < |t| ==> 0xE000 <= t[i].0
    requires 0 <= k < |t|
    ensures StubLookup(t, Off8K(t[k].0)) == Some(t[k].1)
    decreases |t|
  {
    if k < |t| - 1 {
      assert Off8K(t[|t| - 1].0) != Off8K(t[k].0);
      LookupEntry(t[..|t| - 1], k);
    }
  }

  /** An 8K KERNAL image (`KernalRomBank`) and the RESET vector it restores on reset. */
  class KernalRomBank {
    const rom: array<Byte>
    var resetLo: Byte
    var resetHi: Byte

    predicate Valid()
    {
      rom.Length == 0x2000
    }

    /** Every stub byte is in place. */
    predicate HasStub()
      requires Valid()
      reads this, rom
    {
      forall k :: 0 <= k < |KERNAL_STUB| ==> rom[Off8K(KERNAL_STUB[k].0)] == KERNAL_STUB[k].1
    }

    /** `new`: an RTS-filled image with the stub installed. */
    constructor ()
      ensures Valid() && fresh(rom) && HasStub()
      ensures forall o :: 0 <= o < 0x2000 && StubAt(o) == None ==> rom[o] == RTS
      ensures resetLo == 0xE2 && resetHi == 0xFC
    {
      rom := new Byte[0x2000](_ => RTS);
      new;
      InstallStub();
    }

    /** Writes the stub table and snapshots the RESET vector it installs. */
    method InstallStub()
      requires Valid()
      modifies rom, this`resetLo, this`resetHi
      ensures HasStub()
      ensures forall o :: 0 <= o < 0x2000 && StubAt(o) == None ==> rom[o] == old(rom[o])
      ensures resetLo == 0xE2 && resetHi == 0xFC
    {
      var t := KERNAL_STUB;
      var k := 0;
      while k < |t|
        invariant 0 <= k <= |t|
        invariant rom[..] == ApplyStub(old(rom[..]), t[..k])
      {
        assert t[..k + 1][..k] == t[..k];
        rom[Off8K(t[k].0)] := t[k].1;
        k := k + 1;
      }
      assert t[..k] == t;
      StubFacts(old(rom[..]), rom[..]);
      resetLo := rom[Off8K(0xFFFC)];
      resetHi := rom[Off8K(0xFFFD)];
    }

    /**
     * `set`: a given image overwrites the start of the ROM (at most 8K of
     * it); none rebuilds the RTS-filled stub. Either way the RESET vector
     * now in the image becomes the snapshot.
     */
    method Set(source: Option<seq<Byte>>)
      requires Valid()
      modifies rom, this`resetLo, this`resetHi
      ensures source.Some? ==> rom[..] == Overlay(old(rom[..]), source.value)
      ensures source == None ==> HasStub() && forall o :: 0 <= o < 0x2000 && StubAt(o) == None ==> rom[o] == RTS
      ensures resetLo == rom[0x1FFC] && resetHi == rom[0x1FFD]
    {
      if source.Some? {
        CopyPrefix(rom, source.value);
      } else {
        FillRom(rom, RTS);
        InstallStub();
      }
      resetLo := rom[Off8K(0xFFFC)];
      resetHi := rom[Off8K(0xFFFD)];
    }

    /** `reset`: puts the snapshot back into the RESET vector and changes nothing else. */
    method Reset()
      requires Valid()
      modifies rom
      ensures rom[0x1FFC] == resetLo && rom[0x1FFD] == resetHi
      ensures forall o :: 0 <= o < 0x2000 && o != 0x1FFC && o != 0x1FFD ==> rom[o] == old(rom[o])
    {
      rom[Off8K(0xFFFC)] := resetLo;
      rom[Off8K(0xFFFD)] := resetHi;
    }

    /** `install_reset_hook`: points RESET at `address`, little-endian; the snapshot is kept for `reset`. */
    method InstallResetHook(address: Word)
      requires Valid()
      modifies rom
      ensures Join(Peek(0xFFFD), Peek(0xFFFC)) == address
      ensures forall o :: 0 <= o < 0x2000 && o != 0x1FFC && o != 0x1FFD ==> rom[o] == old(rom[o])
    {
      rom[Off8K(0xFFFC)] := Lo(address);
      rom[Off8K(0xFFFD)] := Hi(address);
      JoinSplit(address);
    }

    /** `peek`: the image byte at the address modulo 8K. */
    function Peek(address: Addr): Byte
      requires Valid()
      reads this, rom
    {
      rom[Off8K(address)]
    }
  }

  /** The stubbed image holds every stub byte, its RESET vector, and `m` wherever the stub writes nothing. */
  lemma StubFacts(m: seq<Byte>, r: seq<Byte>)
    requires |m| == 0x2000 && r == ApplyStub(m, KERNAL_STUB)
    ensures forall k :: 0 <= k < |KERNAL_STUB| ==> r[Off8K(KERNAL_STUB[k].0)] == KERNAL_STUB[k].1
    ensures forall o :: 0 <= o < 0x2000 && StubAt(o) == None ==> r[o] == m[o]
    ensures r[0x1FFC] == 0xE2 && r[0x1FFD] == 0xFC
  {
    StubAscending();
    forall k | 0 <= k < |KERNAL_STUB|
      ensures r[Off8K(KERNAL_STUB[k].0)] == KERNAL_STUB[k].1
    {
      LookupEntry(KERNAL_STUB, k);
      ApplyStubAt(m, KERNAL_STUB, Off8K(KERNAL_STUB[k].0));
    }
    forall o | 0 <= o < 0x2000 && StubAt(o) == None
      ensures r[o] == m[o]
    {
      ApplyStubAt(m, KERNAL_STUB, o);
    }
    assert KERNAL_STUB[28].0 == 0xFFFC && KERNAL_STUB[29].0 == 0xFFFD;
  }

  /** The stub's vectors: NMI $FE43, RESET $FCE2, IRQ $FF48. */
  lemma StubVectors(k: KernalRomBank)
    requires k.Valid() && k.HasStub()
    ensures Join(k.Peek(0xFFFB), k.Peek(0xFFFA)) == 0xFE43
    ensures Join(k.Peek(0xFFFD), k.Peek(0xFFFC)) == 0xFCE2
    ensures Join(k.Peek(0xFFFF), k.Peek(0xFFFE)) == 0xFF48
  {
    var t := KERNAL_STUB;
    assert t[26].0 == 0xFFFA && t[27].0 == 0xFFFB && t[28].0 == 0xFFFC;
    assert t[29].0 == 0xFFFD && t[30].0 == 0xFFFE && t[31].0 == 0xFFFF;
  }

  // ---------------------------------------------------------------------------
  //  BASIC
  // ---------------------------------------------------------------------------

  /** Offsets of the warm-start trap ($A7AE, 3 bytes) and the subtune patch ($BF53, 11 bytes). */
  const TRAP_OFF: nat := 0x07AE
  const SUBTUNE_OFF: nat := 0x1F53

  /** `JMP address` at the warm start. */
  function TrapCode(address: Word): seq<Byte>
  {
    [JMP_ABS, Lo(address), Hi(address)]
  }

  /** `LDA #tune; STA $030C; JSR $A82C; JMP $A7B1`. */
  function SubtuneCode(tune: Byte): seq<Byte>
  {
    [LDA_IMM, tune, STA_ABS, 0x0C, 0x03, JSR, 0x2C, 0xA8, JMP_ABS, 0xB1, 0xA7]
  }

  /** `m` with `code` written at offset `at`. */
  function Splice(m: seq<Byte>, at: nat, code: seq<Byte>): (r: seq<Byte>)
    requires at + |code| <= |m|
    ensures |r| == |m|
  {
    m[..at] + code + m[at + |code|..]
  }

  lemma SpliceAt(m: seq<Byte>, at: nat, code: seq<Byte>, i: int)
    requires at + |code| <= |m| && 0 <= i < |m|
    ensures Splice(m, at, code)[i] == if at <= i < at + |code| then code[i - at] else m[i]
  {
  }

  /** An 8K BASIC image (`BasicRomBank`) with backups of the two bytes ranges the player patches. */
  class BasicRomBank {
    const rom: array<Byte>
    var trapBackup: seq<Byte>
    var subtuneBackup: seq<Byte>

    predicate Valid()
      reads this
    {
      rom.Length == 0x2000 && |trapBackup| == 3 && |subtuneBackup| == 11
    }

    constructor ()
      ensures Valid() && fresh(rom) && forall o :: 0 <= o < 0x2000 ==> rom[o] == RTS
      ensures trapBackup == [0, 0, 0] && subtuneBackup == seq(11, _ => 0)
    {
      rom := new Byte[0x2000](_ => RTS);
      trapBackup := [0, 0, 0];
      subtuneBackup := seq(11, _ => 0);
    }

    /** `set`: loads an image prefix when given, then backs up both patch ranges. */
    method Set(source: Option<seq<Byte>>)
      requires Valid()
      modifies rom, this`trapBackup, this`subtuneBackup
      ensures Valid()
      ensures rom[..] == if source.Some? then Overlay(old(rom[..]), source.value) else old(rom[..])
      ensures trapBackup == rom[TRAP_OFF..TRAP_OFF + 3] && subtuneBackup == rom[SUBTUNE_OFF..SUBTUNE_OFF + 11]
    {
      if source.Some? {
        CopyPrefix(rom, source.value);
      }
      trapBackup := rom[TRAP_OFF..TRAP_OFF + 3];
      subtuneBackup := rom[SUBTUNE_OFF..SUBTUNE_OFF + 11];
    }

    /** `reset`: writes both backups back. */
    method Reset()
      requires Valid()
      modifies rom
      ensures rom[..] == Splice(Splice(old(rom[..]), TRAP_OFF, trapBackup), SUBTUNE_OFF, subtuneBackup)
    {
      WriteAt(TRAP_OFF, trapBackup);
      WriteAt(SUBTUNE_OFF, subtuneBackup);
    }

    /** `install_trap`: a `JMP address` at $A7AE. */
    method InstallTrap(address: Word)
      requires Valid()
      modifies rom
      ensures rom[..] == Splice(old(rom[..]), TRAP_OFF, TrapCode(address))
    {
      rom[TRAP_OFF] := JMP_ABS;
      rom[TRAP_OFF + 1] := Lo(address);
      rom[TRAP_OFF + 2] := Hi(address);
      assert rom[..] == Splice(old(rom[..]), TRAP_OFF, TrapCode(address));
    }

    /** `set_subtune`: the subtune-selecting code at $BF53. */
    method SetSubtune(tune: Byte)
      requires Valid()
      modifies rom
      ensures rom[..] == Splice(old(rom[..]), SUBTUNE_OFF, SubtuneCode(tune))
    {
      WriteAt(SUBTUNE_OFF, SubtuneCode(tune));
    }

    method WriteAt(at: nat, code: seq<Byte>)
      requires Valid() && at + |code| <= 0x2000
      modifies rom
      ensures rom[..] == Splice(old(rom[..]), at, code)
    {
      var k := 0;
      while k < |code|
        invariant 0 <= k <= |code|
        invariant forall i :: 0 <= i < 0x2000 && !(at <= i < at + k) ==> rom[i] == old(rom[i])
        invariant forall i :: at <= i < at + k ==> rom[i] == code[i - at]
      {
        rom[at + k] := code[k];
        k := k + 1;
      }
      assert rom[..] == Splice(old(rom[..]), at, code);
    }

    function Peek(address: Addr): Byte
      requires Valid()
      reads this, rom
    {
      rom[Off8K(address)]
    }
  }

  /**
   * Resetting undoes the player's patches: restoring the backups taken
   * from image `m` after installing a trap and a subtune gives `m` back.
   */
  lemma ResetUndoesPatches(m: seq<Byte>, address: Word, tune: Byte)
    requires |m| == 0x2000
    ensures var patched := Splice(Splice(m, TRAP_OFF, TrapCode(address)), SUBTUNE_OFF, SubtuneCode(tune));
      Splice(Splice(patched, TRAP_OFF, m[TRAP_OFF..TRAP_OFF + 3]), SUBTUNE_OFF, m[SUBTUNE_OFF..SUBTUNE_OFF + 11]) == m
  {
    var patched := Splice(Splice(m, TRAP_OFF, TrapCode(address)), SUBTUNE_OFF, SubtuneCode(tune));
    var p1 := Splice(m, TRAP_OFF, TrapCode(address));
    var r1 := Splice(patched, TRAP_OFF, m[TRAP_OFF..TRAP_OFF + 3]);
    var r := Splice(r1, SUBTUNE_OFF, m[SUBTUNE_OFF..SUBTUNE_OFF + 11]);
    forall i | 0 <= i < 0x2000
      ensures r[i] == m[i]
    {
      SpliceAt(m, TRAP_OFF, TrapCode(address), i);
      SpliceAt(p1, SUBTUNE_OFF, SubtuneCode(tune), i);
      SpliceAt(patched, TRAP_OFF, m[TRAP_OFF..TRAP_OFF + 3], i);
      SpliceAt(r1, SUBTUNE_OFF, m[SUBTUNE_OFF..SUBTUNE_OFF + 11], i);
    }
    assert r == m;
  }

  /** The trap jumps to its target. */
  lemma TrapTarget(address: Word)
    ensures TrapCode(address)[0] == JMP_ABS && Join(TrapCode(address)[2], TrapCode(address)[1]) == address
  {
    JoinSplit(address);
  }

  // ---------------------------------------------------------------------------
  //  Character ROM
  // ---------------------------------------------------------------------------

  /** The 4K character generator (`CharacterRomBank`). */
  class CharacterRomBank {
    const rom: array<Byte>

    predicate Valid()
    {
      rom.Length == 0x1000
    }

    constructor ()
      ensures Valid() && fresh(rom) && forall o :: 0 <= o < 0x1000 ==> rom[o] == 0
    {
      rom := new Byte[0x1000](_ => 0);
    }

    /** `set`: loads an image prefix when given; none is ignored. */
    method Set(source: Option<seq<Byte>>)
      requires Valid()
      modifies rom
      ensures rom[..] == if source.Some? then Overlay(old(rom[..]), source.value) else old(rom[..])
    {
      if source.Some? {
        CopyPrefix(rom, source.value);
      }
    }

    function Peek(address: Addr): Byte
      requires Valid()
      reads this, rom
    {
      rom[address % 0x1000]
    }
  }
}
