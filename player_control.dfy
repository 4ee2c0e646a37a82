/**
 * The player thread's glue (`player/mod.rs`): turning a frame's captured
 * SID writes into cycle-delta records for the device, entering the tune's
 * IRQ and NMI handlers, pausing, and choosing the SID bases of a tune.
 */
module PlayerControl {
  import opened Common
  import opened SidMapping
  import opened BridgeWire
  import opened PlayerMemory

  // ---------------------------------------------------------------------------
  //  send_sid_writes
  // ---------------------------------------------------------------------------

  /** The cycle stamp before write `i`: the previous write's, or 0 for the first. */
  function Prev(ws: seq<SidWrite>, i: int): nat
    requires 0 <= i <= |ws|
  {
    if i == 0 then 0 else ws[i - 1].cycle
  }

  /** `cycle.saturating_sub(prev).min(0xFFFF)`. */
  function Delta(cycle: nat, prev: nat): (d: nat)
    ensures d < 0x1_0000
  {
    Min(SatSub(cycle, prev), 0xFFFF)
  }

  /** A captured write as a delta record. */
  function Cycled(w: SidWrite, prev: nat): CycledWrite
  {
    CycledWrite(WordFrom(Delta(w.cycle, prev)), w.reg, w.val)
  }

  /** The multi-SID encoding: one delta record per write, in order. */
  function DeltaEncode(ws: seq<SidWrite>): seq<CycledWrite>
  {
    seq(|ws|, i requires 0 <= i < |ws| => Cycled(ws[i], Prev(ws, i)))
  }

  /** Whether a write goes to the register range mirrored onto the second SID ($00-$18). */
  predicate Mirrored(w: SidWrite)
  {
    w.reg <= SID_VOL_REG
  }

  /** One write's records in mono-mirror mode: the write, then its copy for SID 2 at delta 0. */
  function MirrorGroup(w: SidWrite, prev: nat): seq<CycledWrite>
  {
    [Cycled(w, prev)] + if Mirrored(w) then [CycledWrite(0, w.reg + SID_REG_SIZE, w.val)] else []
  }

  /** The mono-mirror encoding: each write's group, in order. */
  function MirrorEncode(ws: seq<SidWrite>): seq<CycledWrite>
  {
    if ws == [] then [] else MirrorEncode(ws[..|ws| - 1]) + MirrorGroup(ws[|ws| - 1], Prev(ws, |ws| - 1))
  }

  /**
   * `send_sid_writes`: the `ring_cycled` calls made for a frame's writes —
   * none for an empty frame, otherwise one, with the mirrored encoding when
   * a single SID is mirrored onto both channels.
   */
  method SendSidWrites(writes: seq<SidWrite>, mirrorMono: bool) returns (calls: seq<seq<CycledWrite>>)
    ensures writes == [] ==> calls == []
    ensures writes != [] ==> calls == [if mirrorMono then MirrorEncode(writes) else DeltaEncode(writes)]
  {
    if writes == [] {
      return [];
    }
    var cycled;
    if mirrorMono {
      cycled := EncodeMirrored(writes);
    } else {
      cycled := EncodeDeltas(writes);
    }
    calls := [cycled];
  }

  /** The mono-mirror loop of `send_sid_writes`. */
  method EncodeMirrored(writes: seq<SidWrite>) returns (cycled: seq<CycledWrite>)
    ensures cycled == MirrorEncode(writes)
  {
    cycled := [];
    var prevCycle: nat := 0;
    var k := 0;
    while k < |writes|
      invariant 0 <= k <= |writes| && prevCycle == Prev(writes, k)
      invariant cycled == MirrorEncode(writes[..k])
    {
      var w := writes[k];
      cycled := PushMirrored(cycled, w, prevCycle);
      MirrorEncodeSnoc(writes, k);
      prevCycle := w.cycle;
      k := k + 1;
    }
    assert writes[..k] == writes;
  }

  /** One write's pushes in mono-mirror mode. */
  method PushMirrored(cycled: seq<CycledWrite>, w: SidWrite, prevCycle: nat) returns (cycled': seq<CycledWrite>)
    ensures cycled' == cycled + MirrorGroup(w, prevCycle)
  {
    var delta := Min(SatSub(w.cycle, prevCycle), 0xFFFF);
    cycled' := cycled + [CycledWrite(WordFrom(delta), w.reg, w.val)];
    if w.reg <= SID_VOL_REG {
      cycled' := cycled' + [CycledWrite(0, w.reg + SID_REG_SIZE, w.val)];
    }
  }

  lemma MirrorEncodeSnoc(ws: seq<SidWrite>, k: int)
    requires 0 <= k < |ws|
    ensures MirrorEncode(ws[..k + 1]) == MirrorEncode(ws[..k]) + MirrorGroup(ws[k], Prev(ws, k))
  {
    assert ws[..k + 1][..k] == ws[..k];
  }

  /** The multi-SID loop of `send_sid_writes`. */
  method EncodeDeltas(writes: seq<SidWrite>) returns (cycled: seq<CycledWrite>)
    ensures cycled == DeltaEncode(writes)
  {
    cycled := [];
    var prevCycle: nat := 0;
    var k := 0;
    while k < |writes|
      invariant 0 <= k <= |writes| && prevCycle == Prev(writes, k)
      invariant cycled == DeltaEncode(writes[..k])
    {
      var w := writes[k];
      var delta := Min(SatSub(w.cycle, prevCycle), 0xFFFF);
      cycled := cycled + [CycledWrite(WordFrom(delta), w.reg, w.val)];
      prevCycle := w.cycle;
      k := k + 1;
    }
    assert writes[..k] == writes;
  }

  /**
   * The multi-SID encoding keeps every write's register and value in order
   * and carries the clamped, saturating gap to the previous write.
   */
  lemma DeltaEncodeSpec(ws: seq<SidWrite>)
    ensures |DeltaEncode(ws)| == |ws|
    ensures forall i :: 0 <= i < |ws| ==>
      var r := DeltaEncode(ws)[i];
      r.reg == ws[i].reg && r.val == ws[i].val && r.cycles as int == Min(SatSub(ws[i].cycle, Prev(ws, i)), 0xFFFF)
  {
    forall i | 0 <= i < |ws|
      ensures DeltaEncode(ws)[i].cycles as int == Min(SatSub(ws[i].cycle, Prev(ws, i)), 0xFFFF)
    {
      WordFromValue(Delta(ws[i].cycle, Prev(ws, i)));
    }
  }

  /** Stamps that never go back and never jump by more than $FFFF, starting from 0. */
  predicate Paced(ws: seq<SidWrite>)
  {
    forall i :: 0 <= i < |ws| ==> Prev(ws, i) <= ws[i].cycle <= Prev(ws, i) + 0xFFFF
  }

  /** The total of the records' delays. */
  function Elapsed(rs: seq<CycledWrite>): nat
  {
    if rs == [] then 0 else Elapsed(rs[..|rs| - 1]) + rs[|rs| - 1].cycles as int
  }

  /**
   * For paced stamps the delays add up to the absolute stamps: after the
   * record of write `i` the device has waited exactly `ws[i].cycle` cycles.
   */
  lemma {:induction false} DeltasSumToStamps(ws: seq<SidWrite>, i: int)
    requires Paced(ws) && 0 <= i < |ws|
    ensures Elapsed(DeltaEncode(ws)[..i + 1]) == ws[i].cycle
  {
    if i > 0 {
      DeltasSumToStamps(ws, i - 1);
    }
    ElapsedStep(DeltaEncode(ws), i);
    PacedDelay(ws, i);
  }

  /** The total after record `i` is the total before it plus its delay. */
  lemma ElapsedStep(rs: seq<CycledWrite>, i: nat)
    requires i < |rs|
    ensures Elapsed(rs[..i + 1]) == (if i == 0 then 0 else Elapsed(rs[..i])) + rs[i].cycles as int
  {
    assert rs[..i + 1][..i] == rs[..i];
  }

  /** A paced write's record carries exactly the time since the write before it. */
  lemma PacedDelay(ws: seq<SidWrite>, i: nat)
    requires Paced(ws) && i < |ws|
    ensures DeltaEncode(ws)[i].cycles as int + Prev(ws, i) == ws[i].cycle
  {
    assert Prev(ws, i) <= ws[i].cycle <= Prev(ws, i) + 0xFFFF;
    DeltaEncodeSpec(ws);
  }

  /** How many writes get a mirror copy. */
  function MirrorCount(ws: seq<SidWrite>): nat
  {
    if ws == [] then 0 else MirrorCount(ws[..|ws| - 1]) + if Mirrored(ws[|ws| - 1]) then 1 else 0
  }

  /** The mirrored encoding holds `|ws|` records plus one per mirrored write. */
  lemma {:induction false} MirrorLength(ws: seq<SidWrite>)
    ensures |MirrorEncode(ws)| == |ws| + MirrorCount(ws)
    decreases |ws|
  {
    if ws != [] {
      MirrorLength(ws[..|ws| - 1]);
    }
  }

  /**
   * Write `i`'s record sits at `i + MirrorCount(ws[..i])` of the mirrored
   * encoding, identical to its multi-SID record `DeltaEncode(ws)[i]`, and a mirrored write is
   * followed by its delta-0 copy at register + $20.
   */
  lemma {:induction false} MirrorAt(ws: seq<SidWrite>, i: int)
    requires 0 <= i < |ws|
    ensures var p := i + MirrorCount(ws[..i]);
      p < |MirrorEncode(ws)| && MirrorEncode(ws)[p] == Cycled(ws[i], Prev(ws, i))
      && (Mirrored(ws[i]) ==>
            (p + 1 < |MirrorEncode(ws)|
             && MirrorEncode(ws)[p + 1] == CycledWrite(0, ws[i].reg + SID_REG_SIZE, ws[i].val)))
    decreases |ws|
  {
    var n := |ws| - 1;
    var init := ws[..n];
    var g := MirrorGroup(ws[n], Prev(ws, n));
    assert MirrorEncode(ws) == MirrorEncode(init) + g;
    MirrorLength(init);
    MirrorLength(ws);
    var m := MirrorEncode(ws);
    if i < n {
      MirrorAt(init, i);
      assert init[..i] == ws[..i];
      var p := i + MirrorCount(init[..i]);
      assert init[i] == ws[i] && Prev(init, i) == Prev(ws, i);
      if Mirrored(ws[i]) {
        assert m[p + 1] == MirrorEncode(init)[p + 1];
      }
    } else {
      assert ws[..i] == init;
      var p := |MirrorEncode(init)|;
      assert m[p] == g[0];
      if Mirrored(ws[i]) {
        assert m[p + 1] == g[1];
      }
    }
  }

  /** Mirroring adds records but no delay: both encodings span the same number of cycles. */
  lemma {:induction false} MirrorKeepsTiming(ws: seq<SidWrite>)
    ensures Elapsed(MirrorEncode(ws)) == Elapsed(DeltaEncode(ws))
    decreases |ws|
  {
    if ws != [] {
      var n := |ws| - 1;
      MirrorKeepsTiming(ws[..n]);
      var g := MirrorGroup(ws[n], Prev(ws, n));
      ElapsedAppend(MirrorEncode(ws[..n]), g);
      ElapsedAppend([], g);
      var d := DeltaEncode(ws);
      assert d[..n] == DeltaEncode(ws[..n]);
      assert d[..|d| - 1] == d[..n];
    }
  }

  lemma {:induction false} ElapsedAppend(a: seq<CycledWrite>, b: seq<CycledWrite>)
    ensures Elapsed(a + b) == Elapsed(a) + Elapsed(b)
    decreases |b|
  {
    if b == [] {
      assert a + b == a;
    } else {
      var n := |b| - 1;
      ElapsedAppend(a, b[..n]);
      assert (a + b)[..|a + b| - 1] == a + b[..n];
      assert (a + b)[|a + b| - 1] == b[n];
      assert b[..n] == b[..|b| - 1];
    }
  }

  // ---------------------------------------------------------------------------
  //  deliver_irq / deliver_nmi
  // ---------------------------------------------------------------------------

  /** The 6510 registers an interrupt entry touches. */
  datatype Registers = Registers(pc: Word, sp: Byte, status: Byte)

  /** The interrupt-disable flag. */
  const FLAG_I: Byte := 0x04

  /** The status byte an interrupt pushes: B clear, the unused bit set. */
  function PushedStatus(status: Byte): Byte
  {
    (status | 0x20) & 0xEF
  }

  /** The address of stack slot `sp`: page 1. */
  function StackAddr(sp: Byte): int
  {
    0x100 + sp as int
  }

  /** What an RTI pulls from a stack whose pointer is `sp`: the status, then PC low and high. */
  function Pulled(m: seq<Byte>, sp: Byte): (Byte, Word)
    requires |m| == 0x1_0000
  {
    (m[StackAddr(sp + 1)], Join(m[StackAddr(sp + 3)], m[StackAddr(sp + 2)]))
  }

  /**
   * The three pushes of an interrupt entry: PC high, PC low, status, the
   * stack pointer wrapping within page 1. An RTI from the new pointer pulls
   * back exactly what was pushed; only the three stack slots change.
   */
  method PushFrame(ram: array<Byte>, pc: Word, sp: Byte, status: Byte) returns (sp': Byte)
    requires ram.Length == 0x1_0000
    modifies ram
    ensures sp' == sp - 3
    ensures Pulled(ram[..], sp') == (PushedStatus(status), pc)
    ensures forall i :: 0 <= i < ram.Length && i != StackAddr(sp) && i != StackAddr(sp - 1) && i != StackAddr(sp - 2)
              ==> ram[i] == old(ram[i])
  {
    JoinSplit(pc);
    var s1 := Push(ram, sp, Hi(pc));
    var s2 := Push(ram, s1, Lo(pc));
    sp' := Push(ram, s2, PushedStatus(status));
    assert sp' + 1 == s2 && sp' + 2 == s1 && sp' + 3 == sp;
  }

  /** One push: store at the slot `sp` points to, then move `sp` down, wrapping within page 1. */
  method Push(ram: array<Byte>, sp: Byte, value: Byte) returns (sp': Byte)
    requires ram.Length == 0x1_0000
    modifies ram
    ensures sp' == sp - 1 && ram[StackAddr(sp)] == value
    ensures forall i :: 0 <= i < ram.Length && i != StackAddr(sp) ==> ram[i] == old(ram[i])
  {
    ram[StackAddr(sp)] := value;
    sp' := sp - 1;
  }

  /** The bytes a vector fetch through the bus returns at `lo` and `lo + 1`. */
  function VectorAt(mem: C64Memory, lo: Addr): Word
    requires mem.ram.Length == 0x1_0000 && mem.kernalRom.Length == 0x2000 && lo < 0xFFFF
    reads mem.ram, mem.kernalRom
  {
    Join(PlainRead(mem.ram[1], mem.ram[..], mem.kernalRom[..], lo + 1),
         PlainRead(mem.ram[1], mem.ram[..], mem.kernalRom[..], lo))
  }

  /**
   * The interrupt entry shared by `deliver_irq` and `deliver_nmi`: push
   * the frame, set I, and load PC from the vector at `vector` through the
   * banked bus (RAM or KERNAL overlay, never an I/O chip).
   */
  method EnterInterrupt(mem: C64Memory, regs: Registers, vector: Addr) returns (regs': Registers)
    requires mem.Valid() && 0xE000 <= vector < 0xFFFF
    modifies mem.ram, mem`sidOsc3, mem.cia1`intData, mem.cia1`intLine, mem.cia2`intData, mem.cia2`intLine
    ensures mem.Valid()
    ensures regs'.sp == regs.sp - 3 && regs'.status == regs.status | FLAG_I
    ensures Pulled(mem.ram[..], regs'.sp) == (PushedStatus(regs.status), regs.pc)
    ensures regs'.pc == VectorAt(mem, vector)
    ensures forall i :: 0 <= i < 0x1_0000 && !(0x100 <= i < 0x200) ==> mem.ram[i] == old(mem.ram[i])
    ensures mem.sidOsc3 == old(mem.sidOsc3)
  {
    var sp := PushFrame(mem.ram, regs.pc, regs.sp, regs.status);
    var lo := mem.GetByte(vector);
    var hi := mem.GetByte(vector + 1);
    regs' := Registers(Join(hi, lo), sp, regs.status | FLAG_I);
  }

  /** `deliver_irq`: masked by I (0 cycles, nothing changes), otherwise entered through $FFFE in 7 cycles. */
  method DeliverIrq(mem: C64Memory, regs: Registers) returns (regs': Registers, cycles: nat)
    requires mem.Valid()
    modifies mem.ram, mem`sidOsc3, mem.cia1`intData, mem.cia1`intLine, mem.cia2`intData, mem.cia2`intLine
    ensures mem.Valid()
    ensures regs.status & FLAG_I != 0 ==> regs' == regs && cycles == 0 && unchanged(mem.ram)
    ensures regs.status & FLAG_I == 0 ==>
      (cycles == 7 && regs'.sp == regs.sp - 3 && regs'.status == regs.status | FLAG_I
       && Pulled(mem.ram[..], regs'.sp) == (PushedStatus(regs.status), regs.pc)
       && regs'.pc == VectorAt(mem, 0xFFFE))
  {
    if regs.status & FLAG_I != 0 {
      return regs, 0;
    }
    regs' := EnterInterrupt(mem, regs, 0xFFFE);
    cycles := 7;
  }

  /** `deliver_nmi`: never masked, entered through $FFFA in 7 cycles. */
  method DeliverNmi(mem: C64Memory, regs: Registers) returns (regs': Registers, cycles: nat)
    requires mem.Valid()
    modifies mem.ram, mem`sidOsc3, mem.cia1`intData, mem.cia1`intLine, mem.cia2`intData, mem.cia2`intLine
    ensures mem.Valid()
    ensures cycles == 7 && regs'.sp == regs.sp - 3 && regs'.status == regs.status | FLAG_I
    ensures Pulled(mem.ram[..], regs'.sp) == (PushedStatus(regs.status), regs.pc)
    ensures regs'.pc == VectorAt(mem, 0xFFFA)
  {
    regs' := EnterInterrupt(mem, regs, 0xFFFA);
    cycles := 7;
  }

  /** The pushed status always reads as an interrupt (B clear) and keeps every other flag. */
  lemma PushedStatusSpec(status: Byte)
    ensures PushedStatus(status) & 0x10 == 0 && PushedStatus(status) & 0x20 != 0
    ensures PushedStatus(status) & 0xCF == status & 0xCF
  {
  }

  // ---------------------------------------------------------------------------
  //  TogglePause and the SID base list
  // ---------------------------------------------------------------------------

  datatype PlayState = Stopped | Playing | Paused

  /** `PlayerCmd::TogglePause`. */
  function TogglePause(s: PlayState): PlayState
  {
    match s
    case Playing => Paused
    case Paused => Playing
    case Stopped => Stopped
  }

  /** Pausing swaps Playing and Paused, is undone by a second toggle, and never starts a stopped player. */
  lemma TogglePauseSpec(s: PlayState)
    ensures TogglePause(TogglePause(s)) == s
    ensures TogglePause(s) == Stopped <==> s == Stopped
    ensures s != Stopped ==> TogglePause(s) != s
  {
  }

  /** The SID bases of `setup_playback`: $D400, the tune's extra SIDs, then the configured fourth SID, skipping zeros. */
  function SidBases(sid2: Addr, sid3: Addr, sid4: Addr): seq<Addr>
  {
    [0xD400] + (if sid2 != 0 then [sid2] else []) + (if sid3 != 0 then [sid3] else [])
      + (if sid4 != 0 then [sid4] else [])
  }

  /** `mirror_mono`: a single SID is mirrored onto both channels. */
  function MirrorMono(bases: seq<Addr>): bool
  {
    |bases| == 1
  }

  /**
   * The list starts at $D400, has one to four bases, none of them zero;
   * mirroring happens exactly when no extra SID is configured; and the
   * extra bases are exactly the non-zero configured ones.
   */
  lemma SidBasesSpec(sid2: Addr, sid3: Addr, sid4: Addr)
    ensures var b := SidBases(sid2, sid3, sid4);
      b[0] == 0xD400 && 1 <= |b| <= 4 && (forall i :: 0 <= i < |b| ==> b[i] != 0)
      && (MirrorMono(b) <==> sid2 == 0 && sid3 == 0 && sid4 == 0)
      && (forall x :: x in b[1..] <==> x != 0 && (x == sid2 || x == sid3 || x == sid4))
      && |b| == 1 + (if sid2 != 0 then 1 else 0) + (if sid3 != 0 then 1 else 0) + (if sid4 != 0 then 1 else 0)
  {
    var e2: seq<Addr> := if sid2 != 0 then [sid2] else [];
    var e3: seq<Addr> := if sid3 != 0 then [sid3] else [];
    var e4: seq<Addr> := if sid4 != 0 then [sid4] else [];
    var b := SidBases(sid2, sid3, sid4);
    assert b[1..] == e2 + e3 + e4;
    forall x
      ensures x in b[1..] <==> x != 0 && (x == sid2 || x == sid3 || x == sid4)
    {
      assert x in e2 + e3 + e4 <==> x in e2 || x in e3 || x in e4;
    }
  }
}
