/**
 * The KERNAL stubs both player buses install over $E000-$FFFF: RTS at the
 * KERNAL jump-table entries, tiny GETIN/STOP/CLRSCR bodies, the IRQ and NMI
 * entry code, the default handlers and the hardware vectors.
 */
module KernalStubs {
  import opened Common

  /** 6502 opcodes the stubs use. */
  const RTS: Byte := 0x60
  const JSR: Byte := 0x20
  const JMP: Byte := 0x4C

  /** KERNAL jump-table entries that become a bare RTS. */
  const RTS_STUBS: seq<int> := [
    0xFF81, 0xFF84, 0xFF87, 0xFF8A, 0xFF8D, 0xFF90, 0xFF93, 0xFF96, 0xFF99, 0xFF9C, 0xFFA5,
    0xFFB1, 0xFFB4, 0xFFBD, 0xFFC0, 0xFFC3, 0xFFC6, 0xFFC9, 0xFFCC, 0xFFCF, 0xFFD2, 0xFFD5,
    0xFFD8, 0xFFDB, 0xFFDE, 0xFFE7]

  /** GETIN: LDA #$00; CLC (its RTS is the $FFE7 stub). */
  const GETIN: seq<Byte> := [0xA9, 0x00, 0x18]
  /** STOP: CLC; RTS. */
  const STOP: seq<Byte> := [0x18, 0x60]
  /** CLRSCR: RTS. */
  const CLRSCR: seq<Byte> := [0x60]
  /** IRQ entry at $FF48: save A/X/Y, tell BRK from IRQ, JMP ($0314) or JMP ($0316). */
  const KERNAL_IRQ: seq<Byte> := [
    0x48, 0x8A, 0x48, 0x98, 0x48, 0xBA, 0xBD, 0x04, 0x01, 0x29, 0x10, 0xD0, 0x03, 0x6C, 0x14,
    0x03, 0x6C, 0x16, 0x03]
  /** Default IRQ handler at $EA31: LDA $DC0D; LDA #$FF; STA $D019; INC $A2; JMP $EA81. */
  const IRQ_HANDLER: seq<Byte> := [
    0xAD, 0x0D, 0xDC, 0xA9, 0xFF, 0x8D, 0x19, 0xD0, 0xEE, 0xA2, 0x00, 0x4C, 0x81, 0xEA]
  /** IRQ exit at $EA81: PLA; TAY; PLA; TAX; PLA; RTI. */
  const IRQ_EXIT: seq<Byte> := [0x68, 0xA8, 0x68, 0xAA, 0x68, 0x40]
  /** NMI entry at $FE43: save A/X/Y, JMP ($0318). */
  const KERNAL_NMI: seq<Byte> := [0x48, 0x8A, 0x48, 0x98, 0x48, 0x6C, 0x18, 0x03]
  /** Default NMI handler at $FE72: LDA $DD0D; JMP $EA81. */
  const NMI_HANDLER: seq<Byte> := [0xAD, 0x0D, 0xDD, 0x4C, 0x81, 0xEA]
  /** $FFFA-$FFFF: NMI -> $FE43, RESET -> $E000, IRQ -> $FF48. */
  const HW_VECTORS: seq<Byte> := [0x43, 0xFE, 0x00, 0xE0, 0x48, 0xFF]
  /** $0314-$0319 in RAM: IRQ -> $EA31, BRK -> $EA81, NMI -> $FE72. */
  const SOFT_VECTORS: seq<Byte> := [0x31, 0xEA, 0x81, 0xEA, 0x72, 0xFE]

  /** The byte runs written after the RTS stubs, in the order they are written. */
  const RUNS: seq<(int, seq<Byte>)> := [
    (0xFFE4, GETIN), (0xFFE1, STOP), (0xE544, CLRSCR), (0xFF48, KERNAL_IRQ), (0xEA31, IRQ_HANDLER),
    (0xEA81, IRQ_EXIT), (0xFE43, KERNAL_NMI), (0xFE72, NMI_HANDLER), (0xFFFA, HW_VECTORS)]

  /** The byte the last run covering `addr` puts there, if any run does. */
  function RunByte(runs: seq<(int, seq<Byte>)>, addr: int): Option<Byte>
  {
    if runs == [] then None
    else
      var r := runs[|runs| - 1];
      if r.0 <= addr < r.0 + |r.1| then Some(r.1[addr - r.0]) else RunByte(runs[..|runs| - 1], addr)
  }

  /** The stub byte at `addr`: a run's byte, else RTS for a jump-table entry, else none. */
  function StubByte(addr: int): Option<Byte>
  {
    var r := RunByte(RUNS, addr);
    if r.Some? then r else if addr in RTS_STUBS then Some(RTS) else None
  }

  /** The byte at `addr` once the RTS stubs and then `runs` are written over `prior`. */
  function Layered(runs: seq<(int, seq<Byte>)>, addr: int, prior: Byte): Byte
  {
    var r := RunByte(runs, addr);
    if r.Some? then r.value else if addr in RTS_STUBS then RTS else prior
  }

  /** `m`, an image whose first byte is address `base`, with every stub installed in source order. */
  function Patch(m: seq<Byte>, base: int): (p: seq<Byte>)
    ensures |p| == |m|
  {
    seq(|m|, i requires 0 <= i < |m| => Layered(RUNS, base + i, m[i]))
  }

  /** Every stub lies in $E000-$FFFF. */
  predicate Covers(base: int, len: int)
  {
    base <= 0xE000 && 0x1_0000 <= base + len
  }

  /** The RTS loop: every listed jump-table entry becomes RTS. */
  method PatchRts(a: array<Byte>, base: int)
    requires Covers(base, a.Length)
    modifies a
    ensures forall i :: 0 <= i < a.Length ==> a[i] == if base + i in RTS_STUBS then RTS else old(a[i])
  {
    var k := 0;
    while k < |RTS_STUBS|
      invariant 0 <= k <= |RTS_STUBS|
      invariant forall i :: 0 <= i < a.Length ==> a[i] == if base + i in RTS_STUBS[..k] then RTS else old(a[i])
    {
      a[RTS_STUBS[k] - base] := RTS;
      k := k + 1;
    }
    assert RTS_STUBS[..k] == RTS_STUBS;
  }

  /** `copy_from_slice` of one run: `bytes` land at address `start`, nothing else changes. */
  method WriteRun(a: array<Byte>, base: int, start: int, bytes: seq<Byte>)
    requires base <= start && start + |bytes| <= base + a.Length
    modifies a
    ensures forall i :: 0 <= i < a.Length ==>
      a[i] == if start <= base + i < start + |bytes| then bytes[base + i - start] else old(a[i])
  {
    var j := 0;
    while j < |bytes|
      invariant 0 <= j <= |bytes|
      invariant forall i :: 0 <= i < a.Length ==>
        a[i] == if start <= base + i < start + j then bytes[base + i - start] else old(a[i])
    {
      a[start - base + j] := bytes[j];
      j := j + 1;
    }
  }

  /**
   * The stub patching of `install_kernal_stubs`/`patch_kernal_stubs`: RTS
   * over the jump-table entries, then each run in turn, written into `a`
   * whose first byte stands for address `base`.
   */
  method PatchStubs(a: array<Byte>, base: int)
    requires Covers(base, a.Length)
    modifies a
    ensures a[..] == Patch(old(a[..]), base)
  {
    ghost var m := a[..];
    PatchRts(a, base);
    var r := 0;
    while r < |RUNS|
      invariant 0 <= r <= |RUNS|
      invariant forall i :: 0 <= i < a.Length ==> a[i] == Layered(RUNS[..r], base + i, m[i])
    {
      RunsInside(r);
      WriteRun(a, base, RUNS[r].0, RUNS[r].1);
      LayerStep(RUNS[..r], RUNS[r], base, m);
      assert RUNS[..r + 1] == RUNS[..r] + [RUNS[r]];
      r := r + 1;
    }
    assert RUNS[..r] == RUNS;
  }

  lemma RunsInside(r: int)
    requires 0 <= r < |RUNS|
    ensures 0xE000 <= RUNS[r].0 && RUNS[r].0 + |RUNS[r].1| <= 0x1_0000
  {
  }

  /** Writing one more run on top: its bytes win, everything else is as before. */
  lemma LayerStep(done: seq<(int, seq<Byte>)>, run: (int, seq<Byte>), base: int, m: seq<Byte>)
    ensures forall i :: 0 <= i < |m| ==>
      Layered(done + [run], base + i, m[i])
        == if run.0 <= base + i < run.0 + |run.1| then run.1[base + i - run.0] else Layered(done, base + i, m[i])
  {
    var d := done + [run];
    assert d[..|d| - 1] == done;
  }

  /** The IRQ, NMI and RESET vectors of a patched image, and the soft vectors the RAM stubs add. */
  lemma VectorsInstalled()
    ensures StubByte(0xFFFE) == Some(0x48) && StubByte(0xFFFF) == Some(0xFF)
    ensures StubByte(0xFFFA) == Some(0x43) && StubByte(0xFFFB) == Some(0xFE)
    ensures StubByte(0xFFFC) == Some(0x00) && StubByte(0xFFFD) == Some(0xE0)
    ensures Join(0xFF, 0x48) == 0xFF48 && Join(0xFE, 0x43) == 0xFE43
  {
  }

  /** Every KERNAL jump-table entry of the list holds RTS after patching. */
  lemma RtsStubsInstalled(k: int)
    requires 0 <= k < |RTS_STUBS|
    ensures StubByte(RTS_STUBS[k]) == Some(RTS)
  {
    var a := RTS_STUBS[k];
    assert 0xFF81 <= a <= 0xFFE7 && a !in {0xFFE1, 0xFFE2, 0xFFE4, 0xFFE5, 0xFFE6};
    forall j | 0 <= j < |RUNS|
      ensures !(RUNS[j].0 <= a < RUNS[j].0 + |RUNS[j].1|)
    {
    }
    Uncovered(RUNS, a);
  }

  /** An address no run covers gets no run byte. */
  lemma {:induction false} Uncovered(runs: seq<(int, seq<Byte>)>, addr: int)
    requires forall j :: 0 <= j < |runs| ==> !(runs[j].0 <= addr < runs[j].0 + |runs[j].1|)
    ensures RunByte(runs, addr) == None
    decreases |runs|
  {
    if runs != [] {
      Uncovered(runs[..|runs| - 1], addr);
    }
  }

  /** The patched image holds the stub byte at every stub address and the original byte elsewhere. */
  lemma PatchSpec(m: seq<Byte>, base: int, i: int)
    requires 0 <= i < |m|
    ensures Patch(m, base)[i] == match StubByte(base + i) case Some(b) => b case None => m[i]
  {
  }

  /**
   * A patched image, RAM or overlay, vectors NMI through $FE43 and IRQ
   * through $FF48, and every listed jump-table entry holds RTS.
   */
  lemma PatchedImage(m: seq<Byte>, base: int)
    requires Covers(base, |m|)
    ensures var p := Patch(m, base);
      Join(p[0xFFFF - base], p[0xFFFE - base]) == 0xFF48
      && Join(p[0xFFFB - base], p[0xFFFA - base]) == 0xFE43
      && forall k :: 0 <= k < |RTS_STUBS| ==> p[RTS_STUBS[k] - base] == RTS
  {
    VectorsInstalled();
    PatchSpec(m, base, 0xFFFF - base);
    PatchSpec(m, base, 0xFFFE - base);
    PatchSpec(m, base, 0xFFFB - base);
    PatchSpec(m, base, 0xFFFA - base);
    forall k | 0 <= k < |RTS_STUBS|
      ensures Patch(m, base)[RTS_STUBS[k] - base] == RTS
    {
      RtsStubsInstalled(k);
      PatchSpec(m, base, RTS_STUBS[k] - base);
    }
  }

  /** No stub lies below $E000. */
  lemma NoStubBelowKernal(addr: int)
    requires addr < 0xE000
    ensures StubByte(addr) == None
  {
    forall j | 0 <= j < |RUNS|
      ensures !(RUNS[j].0 <= addr < RUNS[j].0 + |RUNS[j].1|)
    {
      RunsInside(j);
    }
    Uncovered(RUNS, addr);
    assert forall k :: 0 <= k < |RTS_STUBS| ==> RTS_STUBS[k] >= 0xFF81;
  }
}
