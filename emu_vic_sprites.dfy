/**
 * Sprite DMA bookkeeping of the VIC-II (`c64_emu/vic_ii/sprites.rs`):
 * per sprite a DMA-enable bit, a Y-expansion flip-flop bit and the 6-bit
 * data counters MC and MCBASE.
 */
module EmuSprites {
  import opened Common

  const NUM_SPRITES: nat := 8

  /** The mask bit of sprite `i` (the source shifts its mask left once per sprite). */
  function Bit(i: nat): Byte
    requires i < NUM_SPRITES
  {
    if i == 0 then 0x01 else if i == 1 then 0x02 else if i == 2 then 0x04 else if i == 3 then 0x08
    else if i == 4 then 0x10 else if i == 5 then 0x20 else if i == 6 then 0x40 else 0x80
  }

  /** The bits below sprite `n`'s. */
  function Below(n: nat): Byte
    requires n <= NUM_SPRITES
  {
    if n == 0 then 0x00 else if n == 1 then 0x01 else if n == 2 then 0x03 else if n == 3 then 0x07
    else if n == 4 then 0x0F else if n == 5 then 0x1F else if n == 6 then 0x3F else if n == 7 then 0x7F
    else 0xFF
  }

  /** The flags of sprites 0 to n−1 in a register byte: sprite `i` is bit `i`. */
  function FlagsUpTo(b: Byte, n: nat): (f: seq<bool>)
    requires n <= NUM_SPRITES
    ensures |f| == n
  {
    if n == 0 then [] else FlagsUpTo(b, n - 1) + [b & Bit(n - 1) != 0]
  }

  /** The eight sprite flags of a register byte. */
  function Flags(b: Byte): (f: seq<bool>)
    ensures |f| == NUM_SPRITES
  {
    FlagsUpTo(b, NUM_SPRITES)
  }

  /** The register byte holding the first `n` flags of `f`. */
  function ByteUpTo(f: seq<bool>, n: nat): Byte
    requires n <= |f| && n <= NUM_SPRITES
  {
    if n == 0 then 0 else ByteUpTo(f, n - 1) | (if f[n - 1] then Bit(n - 1) else 0)
  }

  /** The register byte holding eight sprite flags. */
  function ByteOfFlags(f: seq<bool>): Byte
    requires |f| == NUM_SPRITES
  {
    ByteUpTo(f, NUM_SPRITES)
  }

  /** Flag `j` of a byte is the source's test against sprite `j`'s mask. */
  lemma {:induction false} FlagsAt(b: Byte, n: nat, j: nat)
    requires j < n <= NUM_SPRITES
    ensures FlagsUpTo(b, n)[j] == (b & Bit(j) != 0)
  {
    if j < n - 1 {
      FlagsAt(b, n - 1, j);
    }
  }

  lemma MaskFacts(i: nat)
    requires i < NUM_SPRITES
    ensures Below(i + 1) == Below(i) | Bit(i) && Below(i) & Bit(i) == 0
    ensures forall j :: 0 <= j < i ==> Bit(j) & Below(i) == Bit(j) && Bit(j) & Bit(i) == 0
  {
  }

  lemma OrAbove(x: Byte, m: Byte, lo: Byte, c: bool)
    requires x & !lo == 0 && lo & m == 0
    ensures (x | (if c then m else 0)) & !(lo | m) == 0
    ensures ((x | (if c then m else 0)) & m == m) == (c || m == 0)
    ensures ((x | (if c then m else 0)) & m == 0) == (!c || m == 0)
  {
  }

  lemma OrOther(x: Byte, m: Byte, n: Byte, c: bool)
    requires m & n == 0
    ensures ((x | (if c then m else 0)) & n != 0) == (x & n != 0)
  {
  }

  /** The byte built from the first `n` flags has no bit at or above sprite `n`. */
  lemma {:induction false} ByteUpToBelow(f: seq<bool>, n: nat)
    requires n <= |f| && n <= NUM_SPRITES
    ensures ByteUpTo(f, n) & !Below(n) == 0
  {
    if n > 0 {
      ByteUpToBelow(f, n - 1);
      MaskFacts(n - 1);
      OrAbove(ByteUpTo(f, n - 1), Bit(n - 1), Below(n - 1), f[n - 1]);
    }
  }

  /** Sprite `j`'s bit of the built byte is flag `j`. */
  lemma {:induction false} ByteUpToAt(f: seq<bool>, n: nat, j: nat)
    requires j < n <= |f| && n <= NUM_SPRITES
    ensures (ByteUpTo(f, n) & Bit(j) != 0) == f[j]
  {
    MaskFacts(n - 1);
    if j == n - 1 {
      ByteUpToBelow(f, n - 1);
      OrAbove(ByteUpTo(f, n - 1), Bit(n - 1), Below(n - 1), f[n - 1]);
    } else {
      ByteUpToAt(f, n - 1, j);
      OrOther(ByteUpTo(f, n - 1), Bit(n - 1), Bit(j), f[n - 1]);
    }
  }

  /** Writing flags back into a register byte and reading them again gives the same flags. */
  lemma {:induction false} FlagsRoundTrip(f: seq<bool>)
    requires |f| == NUM_SPRITES
    ensures Flags(ByteOfFlags(f)) == f
  {
    forall j | 0 <= j < NUM_SPRITES
      ensures Flags(ByteOfFlags(f))[j] == f[j]
    {
      FlagsAt(ByteOfFlags(f), NUM_SPRITES, j);
      ByteUpToAt(f, NUM_SPRITES, j);
    }
  }

  lemma ZeroByBits(b: Byte)
    requires b & 0x01 == 0 && b & 0x02 == 0 && b & 0x04 == 0 && b & 0x08 == 0
    requires b & 0x10 == 0 && b & 0x20 == 0 && b & 0x40 == 0 && b & 0x80 == 0
    ensures b == 0
  {
  }

  /** A byte is non-zero exactly when one of its sprite flags is set. */
  lemma {:induction false} NonZeroFlags(b: Byte)
    ensures b != 0 <==> exists j :: 0 <= j < NUM_SPRITES && Flags(b)[j]
  {
    FlagsAt(b, NUM_SPRITES, 0);
    FlagsAt(b, NUM_SPRITES, 1);
    FlagsAt(b, NUM_SPRITES, 2);
    FlagsAt(b, NUM_SPRITES, 3);
    FlagsAt(b, NUM_SPRITES, 4);
    FlagsAt(b, NUM_SPRITES, 5);
    FlagsAt(b, NUM_SPRITES, 6);
    FlagsAt(b, NUM_SPRITES, 7);
    if forall j :: 0 <= j < NUM_SPRITES ==> !Flags(b)[j] {
      assert !Flags(b)[0] && !Flags(b)[1] && !Flags(b)[2] && !Flags(b)[3];
      assert !Flags(b)[4] && !Flags(b)[5] && !Flags(b)[6] && !Flags(b)[7];
      ZeroByBits(b);
    }
  }

  lemma BitPower(j: nat)
    requires j < NUM_SPRITES
    ensures Bit(j) == 1 || Bit(j) == 2 || Bit(j) == 4 || Bit(j) == 8 ||
            Bit(j) == 16 || Bit(j) == 32 || Bit(j) == 64 || Bit(j) == 128
  {
  }

  lemma AndBit(a: Byte, b: Byte, m: Byte)
    requires m == 1 || m == 2 || m == 4 || m == 8 || m == 16 || m == 32 || m == 64 || m == 128
    ensures ((a & b) & m != 0) == (a & m != 0 && b & m != 0)
  {
  }

  lemma XorBit(a: Byte, b: Byte, x: Byte, m: Byte)
    requires m == 1 || m == 2 || m == 4 || m == 8 || m == 16 || m == 32 || m == 64 || m == 128
    requires x == a ^ b
    ensures (x & m != 0) == ((a & m != 0) != (b & m != 0))
  {
    assert x & m == (a & m) ^ (b & m);
    SingleBit(a & m, m);
    SingleBit(b & m, m);
  }

  lemma SingleBit(v: Byte, m: Byte)
    requires m == 1 || m == 2 || m == 4 || m == 8 || m == 16 || m == 32 || m == 64 || m == 128
    requires v & m == v
    ensures v == 0 || v == m
  {
  }

  /** Bitwise and acts flag by flag. */
  lemma {:induction false} FlagAnd(a: Byte, b: Byte, j: nat)
    requires j < NUM_SPRITES
    ensures Flags(a & b)[j] == (Flags(a)[j] && Flags(b)[j])
  {
    FlagsAt(a & b, NUM_SPRITES, j);
    FlagsAt(a, NUM_SPRITES, j);
    FlagsAt(b, NUM_SPRITES, j);
    BitPower(j);
    AndBit(a, b, Bit(j));
  }

  /** Exclusive or acts flag by flag. */
  lemma {:induction false} FlagXor(a: Byte, b: Byte, j: nat)
    requires j < NUM_SPRITES
    ensures Flags(a ^ b)[j] == (Flags(a)[j] != Flags(b)[j])
  {
    FlagsAt(a ^ b, NUM_SPRITES, j);
    FlagsAt(a, NUM_SPRITES, j);
    FlagsAt(b, NUM_SPRITES, j);
    XorAtBit(a, b, j);
  }

  lemma XorAtBit(a: Byte, b: Byte, j: nat)
    requires j < NUM_SPRITES
    ensures ((a ^ b) & Bit(j) != 0) == ((a & Bit(j) != 0) != (b & Bit(j) != 0))
  {
    BitPower(j);
    XorBit(a, b, a ^ b, Bit(j));
  }

  /** `check_exp_with_reg` toggles exactly the flip-flops of sprites with DMA on and Y expansion set. */
  lemma ToggleSpec(flop: Byte, dma: Byte, yExpansion: Byte, x: Byte)
    requires x == flop ^ (dma & yExpansion)
    ensures forall j :: 0 <= j < NUM_SPRITES ==>
      Flags(x)[j] == (Flags(flop)[j] != (Flags(dma)[j] && Flags(yExpansion)[j]))
  {
    var both := dma & yExpansion;
    forall j | 0 <= j < NUM_SPRITES
      ensures Flags(x)[j] == (Flags(flop)[j] != (Flags(dma)[j] && Flags(yExpansion)[j]))
    {
      FlagXor(flop, both, j);
      FlagAnd(dma, yExpansion, j);
    }
  }

  /** `is_dma`'s test: the two bytes share a set sprite flag. */
  lemma SharedFlag(dma: Byte, val: Byte)
    ensures (dma & val != 0) == exists j :: 0 <= j < NUM_SPRITES && Flags(val)[j] && Flags(dma)[j]
  {
    var x := dma & val;
    NonZeroFlags(x);
    forall j | 0 <= j < NUM_SPRITES
      ensures Flags(x)[j] == (Flags(dma)[j] && Flags(val)[j])
    {
      FlagAnd(dma, val, j);
    }
  }

  /** The counter step of a sprite with DMA on: three bytes further, within 6 bits. */
  function McStep(mc: Byte): Byte
  {
    (mc + 3) & 0x3F
  }

  /** The counter value line crunching leaves (a mix of MC and MCBASE). */
  function Crunch(mcBase: Byte, mc: Byte): Byte
  {
    (0x2A & (mcBase & mc)) | (0x15 & (mcBase | mc))
  }

  /** Counters stay within 6 bits under both updates; below $40 the step is +3 modulo 64. */
  lemma CounterBounds(mcBase: Byte, mc: Byte)
    ensures McStep(mc) <= 0x3F && Crunch(mcBase, mc) <= 0x3F
    ensures mc <= 0x3F ==> (McStep(mc) as int == (mc as int + 3) % 64)
  {
  }

  /** The counter after `n` steps from 0. */
  function McAfter(n: nat): Byte
  {
    if n == 0 then 0 else McStep(McAfter(n - 1))
  }

  /** Three bytes per line from 0: the counter is 3n while below 64. */
  lemma {:induction false} McAfterValue(n: nat)
    requires n <= 21
    ensures McAfter(n) as int == 3 * n
  {
    if n > 0 {
      McAfterValue(n - 1);
      CounterBounds(0, McAfter(n - 1));
    }
  }

  /**
   * A sprite's DMA runs 21 lines: started at 0, the counter reaches $3F,
   * where `update_mc_base` turns DMA off, first after 21 steps.
   */
  lemma SpriteHeight(n: nat)
    requires n <= 21
    ensures (McAfter(n) == 0x3F) == (n == 21)
  {
    McAfterValue(n);
  }

  /** Sprite `i` starts DMA on this line: enabled, Y register equal to the raster's low byte, DMA off. */
  predicate Starts(enable: seq<bool>, y: Byte, regs: seq<Byte>, dma: seq<bool>, i: nat)
    requires i < NUM_SPRITES && |enable| == NUM_SPRITES && |dma| == NUM_SPRITES && |regs| == 0x40
  {
    enable[i] && y == regs[2 * i + 1] && !dma[i]
  }

  /** The sprite unit's state as values: DMA and flip-flop bytes, MCBASE and MC per sprite. */
  datatype SpriteRegs = SpriteRegs(dma: Byte, expFlop: Byte, mcBase: seq<Byte>, mc: seq<Byte>)

  /**
   * The sprite unit. The source keeps the DMA and flip-flop bits as
   * bytes; the loops here read them as flag sequences (`Flags`) and write
   * them back (`ByteOfFlags`), one flag per sprite as the source's
   * shifted mask tests them.
   */
  class Sprites {
    var expFlop: Byte
    var dma: Byte
    const mcBase: array<Byte>
    const mc: array<Byte>

    /** Eight sprites, two separate counter arrays, every counter within 6 bits. */
    predicate Valid()
      reads this, mcBase, mc
    {
      mcBase.Length == NUM_SPRITES && mc.Length == NUM_SPRITES && mcBase != mc &&
      (forall i :: 0 <= i < NUM_SPRITES ==> mcBase[i] <= 0x3F) &&
      (forall i :: 0 <= i < NUM_SPRITES ==> mc[i] <= 0x3F)
    }

    /** The sprite unit's registers and counters as values. */
    function State(): (s: SpriteRegs)
      reads this, mcBase, mc
      ensures s.dma == dma && s.expFlop == expFlop && s.mcBase == mcBase[..] && s.mc == mc[..]
    {
      SpriteRegs(dma, expFlop, mcBase[..], mc[..])
    }

    /** `update_mc` done from `s0`: MC stepped for the sprites with DMA on; nothing else changed. */
    predicate McUpdated(s0: SpriteRegs)
      reads this, mcBase, mc
    {
      Valid() && dma == s0.dma && expFlop == s0.expFlop && mcBase[..] == s0.mcBase && |s0.mc| == NUM_SPRITES &&
      forall i :: 0 <= i < NUM_SPRITES ==> mc[i] == (if Flags(dma)[i] then McStep(s0.mc[i]) else s0.mc[i])
    }

    /**
     * `update_mc_base` done from `s0`: MCBASE takes MC where the
     * flip-flop is set, and a sprite whose MCBASE so reaches $3F stops
     * DMA; MC and the flip-flops unchanged.
     */
    predicate McBaseUpdated(s0: SpriteRegs)
      reads this, mcBase, mc
    {
      Valid() && expFlop == s0.expFlop && mc[..] == s0.mc && |s0.mcBase| == NUM_SPRITES &&
      (forall i :: 0 <= i < NUM_SPRITES ==> mcBase[i] == (if Flags(expFlop)[i] then mc[i] else s0.mcBase[i])) &&
      (forall i :: 0 <= i < NUM_SPRITES ==>
         Flags(dma)[i] == (Flags(s0.dma)[i] && !(Flags(expFlop)[i] && mc[i] == 0x3F)))
    }

    /**
     * `check_dma` done from `s0` on raster line `rasterY`: the sprites
     * that start (`Starts`) turn DMA on, set their flip-flop and clear
     * MCBASE; MC unchanged.
     */
    predicate DmaChecked(s0: SpriteRegs, rasterY: nat, regs: seq<Byte>)
      requires |regs| == 0x40
      reads this, mcBase, mc
    {
      Valid() && mc[..] == s0.mc && |s0.mcBase| == NUM_SPRITES &&
      forall i :: 0 <= i < NUM_SPRITES ==>
        var s := Starts(Flags(regs[0x15]), (rasterY % 256) as Byte, regs, Flags(s0.dma), i);
        Flags(dma)[i] == (Flags(s0.dma)[i] || s) &&
        Flags(expFlop)[i] == (Flags(s0.expFlop)[i] || s) &&
        mcBase[i] == (if s then 0 else s0.mcBase[i])
    }

    /** `check_display` done from `s0`: every MC holds its MCBASE; nothing else changed. */
    predicate Displayed(s0: SpriteRegs)
      reads this, mcBase, mc
    {
      Valid() && mc[..] == mcBase[..] && mcBase[..] == s0.mcBase && dma == s0.dma && expFlop == s0.expFlop
    }

    /**
     * `line_crunch(data, lineCycle)` done from `s0`: sprites written 0 in
     * $D017 set their flip-flop, and those whose flip-flop was clear have
     * MC crunched on cycle 14; DMA and MCBASE unchanged.
     */
    predicate Crunched(s0: SpriteRegs, data: Byte, lineCycle: nat)
      reads this, mcBase, mc
    {
      Valid() && dma == s0.dma && mcBase[..] == s0.mcBase && |s0.mc| == NUM_SPRITES &&
      (forall i :: 0 <= i < NUM_SPRITES ==> Flags(expFlop)[i] == (Flags(s0.expFlop)[i] || !Flags(data)[i])) &&
      (forall i :: 0 <= i < NUM_SPRITES ==>
         mc[i] == (if !Flags(data)[i] && !Flags(s0.expFlop)[i] && lineCycle == 14
                   then Crunch(mcBase[i], s0.mc[i]) else s0.mc[i]))
    }

    /**
     * The sprite unit's share of a VIC cycle, from `s0`: MC steps at
     * cycle 14, MCBASE at 15, the DMA checks run at 55 and 56, MC reloads
     * at 58, and nothing changes on any other cycle.
     */
    predicate Clocked(s0: SpriteRegs, lineCycle: nat, rasterY: nat, regs: seq<Byte>)
      requires |regs| == 0x40
      reads this, mcBase, mc
    {
      (lineCycle == 14 ==> McUpdated(s0)) &&
      (lineCycle == 15 ==> McBaseUpdated(s0)) &&
      (lineCycle == 55 || lineCycle == 56 ==> DmaChecked(s0, rasterY, regs)) &&
      (lineCycle == 58 ==> Displayed(s0)) &&
      (lineCycle != 14 && lineCycle != 15 && lineCycle != 55 && lineCycle != 56 && lineCycle != 58 ==> State() == s0)
    }

    /** `new`: all flip-flops set, no DMA, counters zero. */
    constructor ()
      ensures Valid() && fresh(mcBase) && fresh(mc)
      ensures expFlop == 0xFF && dma == 0
      ensures mcBase[..] == seq(NUM_SPRITES, _ => 0) && mc[..] == seq(NUM_SPRITES, _ => 0)
    {
      expFlop, dma := 0xFF, 0;
      mcBase := new Byte[NUM_SPRITES](_ => 0);
      mc := new Byte[NUM_SPRITES](_ => 0);
    }

    /** `reset`: as `new`. */
    method Reset()
      requires Valid()
      modifies this`expFlop, this`dma, mcBase, mc
      ensures Valid() && expFlop == 0xFF && dma == 0
      ensures mcBase[..] == seq(NUM_SPRITES, _ => 0) && mc[..] == seq(NUM_SPRITES, _ => 0)
    {
      expFlop, dma := 0xFF, 0;
      forall i | 0 <= i < NUM_SPRITES {
        mcBase[i] := 0;
      }
      forall i | 0 <= i < NUM_SPRITES {
        mc[i] := 0;
      }
    }

    /** `update_mc` (cycle 14): every sprite with DMA on advances its counter by one step. */
    method UpdateMc()
      requires Valid()
      modifies mc
      ensures McUpdated(old(State()))
    {
      var on := Flags(dma);
      var i := 0;
      while i < NUM_SPRITES
        invariant 0 <= i <= NUM_SPRITES
        invariant forall j :: 0 <= j < NUM_SPRITES ==> mc[j] <= 0x3F
        invariant forall j :: 0 <= j < i ==>
          mc[j] == (if on[j] then McStep(old(mc[j])) else old(mc[j]))
        invariant forall j :: i <= j < NUM_SPRITES ==> mc[j] == old(mc[j])
      {
        if on[i] {
          CounterBounds(0, mc[i]);
          mc[i] := McStep(mc[i]);
        }
        i := i + 1;
      }
    }

    /**
     * `update_mc_base` (cycle 15): sprites whose flip-flop is set copy MC
     * into MCBASE, and those that reach $3F stop DMA.
     */
    method UpdateMcBase()
      requires Valid()
      modifies this`dma, mcBase
      ensures McBaseUpdated(old(State()))
    {
      var flop := Flags(expFlop);
      var on := Flags(dma);
      ghost var on0 := on;
      var i := 0;
      while i < NUM_SPRITES
        invariant 0 <= i <= NUM_SPRITES && |on| == NUM_SPRITES
        invariant forall j :: 0 <= j < NUM_SPRITES ==> mcBase[j] <= 0x3F
        invariant forall j :: 0 <= j < i ==>
          mcBase[j] == (if flop[j] then mc[j] else old(mcBase[j]))
        invariant forall j :: i <= j < NUM_SPRITES ==> mcBase[j] == old(mcBase[j])
        invariant forall j :: 0 <= j < i ==> on[j] == (on0[j] && !(flop[j] && mc[j] == 0x3F))
        invariant forall j :: i <= j < NUM_SPRITES ==> on[j] == on0[j]
      {
        if flop[i] {
          mcBase[i] := mc[i];
          if mcBase[i] == 0x3F {
            on := on[i := false];
          }
        }
        i := i + 1;
      }
      FlagsRoundTrip(on);
      dma := ByteOfFlags(on);
    }

    /**
     * The sprite unit's cycles of a VIC tick at `lineCycle` on raster line
     * `rasterY`: MC at 14, MCBASE at 15, DMA checks at 55 and 56 (with the
     * expansion check at 55), display at 58.
     */
    method Clock(lineCycle: nat, rasterY: nat, regs: seq<Byte>)
      requires Valid() && |regs| == 0x40
      modifies this`dma, this`expFlop, mc, mcBase
      ensures Valid() && Clocked(old(State()), lineCycle, rasterY, regs)
    {
      if lineCycle == 14 {
        UpdateMc();
      } else if lineCycle == 15 {
        UpdateMcBase();
      } else if lineCycle == 55 || lineCycle == 56 {
        CheckDma(rasterY, regs);
        if lineCycle == 55 {
          CheckExp();
        }
      } else if lineCycle == 58 {
        CheckDisplay();
      }
    }

    /** `check_exp`: a no-op in the source (the Y-expansion register is not consulted). */
    method CheckExp()
    {
    }

    /** `check_exp_with_reg`: flips the flip-flops of the Y-expanded sprites with DMA on. */
    method CheckExpWithReg(yExpansion: Byte)
      modifies this`expFlop
      ensures forall i :: 0 <= i < NUM_SPRITES ==>
        Flags(expFlop)[i] == (Flags(old(expFlop))[i] != (Flags(dma)[i] && Flags(yExpansion)[i]))
    {
      var toggled := expFlop ^ (dma & yExpansion);
      ToggleSpec(expFlop, dma, yExpansion, toggled);
      expFlop := toggled;
    }

    /** `check_display` (cycle 58): every MC is reloaded from MCBASE. */
    method CheckDisplay()
      requires Valid()
      modifies mc
      ensures Displayed(old(State()))
    {
      var i := 0;
      while i < NUM_SPRITES
        invariant 0 <= i <= NUM_SPRITES
        invariant forall j :: 0 <= j < i ==> mc[j] == mcBase[j]
        invariant forall j :: i <= j < NUM_SPRITES ==> mc[j] == old(mc[j])
      {
        mc[i] := mcBase[i];
        i := i + 1;
      }
    }

    /**
     * `check_dma` (cycles 55 and 56): every enabled sprite whose Y
     * register equals the low byte of the raster line and whose DMA is off
     * starts DMA with MCBASE 0 and its flip-flop set.
     */
    method CheckDma(rasterY: nat, regs: seq<Byte>)
      requires Valid() && |regs| == 0x40
      modifies this`dma, this`expFlop, mcBase
      ensures DmaChecked(old(State()), rasterY, regs)
    {
      var enable := Flags(regs[0x15]);
      var y := (rasterY % 256) as Byte;
      var on, flop := Flags(dma), Flags(expFlop);
      ghost var on0, flop0 := on, flop;
      var i := 0;
      while i < NUM_SPRITES
        invariant 0 <= i <= NUM_SPRITES && |on| == NUM_SPRITES && |flop| == NUM_SPRITES
        invariant forall j :: 0 <= j < NUM_SPRITES ==> mcBase[j] <= 0x3F
        invariant forall j :: 0 <= j < i ==>
          var s := Starts(enable, y, regs, on0, j);
          on[j] == (on0[j] || s) && flop[j] == (flop0[j] || s) &&
          mcBase[j] == (if s then 0 else old(mcBase[j]))
        invariant forall j :: i <= j < NUM_SPRITES ==>
          on[j] == on0[j] && flop[j] == flop0[j] && mcBase[j] == old(mcBase[j])
      {
        if enable[i] && y == regs[2 * i + 1] && !on[i] {
          on := on[i := true];
          mcBase[i] := 0;
          flop := flop[i := true];
        }
        i := i + 1;
      }
      FlagsRoundTrip(on);
      FlagsRoundTrip(flop);
      dma := ByteOfFlags(on);
      expFlop := ByteOfFlags(flop);
    }

    /**
     * `line_crunch` (a write to $D017): every sprite whose Y-expansion
     * bit is written 0 while its flip-flop is clear gets its flip-flop
     * set, and on cycle 14 its MC crunched.
     */
    method LineCrunch(data: Byte, lineCycle: nat)
      requires Valid()
      modifies this`expFlop, mc
      ensures Crunched(old(State()), data, lineCycle)
    {
      var d := Flags(data);
      var flop := Flags(expFlop);
      ghost var flop0 := flop;
      var i := 0;
      while i < NUM_SPRITES
        invariant 0 <= i <= NUM_SPRITES && |flop| == NUM_SPRITES
        invariant forall j :: 0 <= j < NUM_SPRITES ==> mc[j] <= 0x3F
        invariant forall j :: 0 <= j < i ==> flop[j] == (flop0[j] || !d[j])
        invariant forall j :: i <= j < NUM_SPRITES ==> flop[j] == flop0[j]
        invariant forall j :: 0 <= j < i ==>
          mc[j] == (if !d[j] && !flop0[j] && lineCycle == 14
                    then Crunch(mcBase[j], old(mc[j])) else old(mc[j]))
        invariant forall j :: i <= j < NUM_SPRITES ==> mc[j] == old(mc[j])
      {
        if !d[i] && !flop[i] {
          if lineCycle == 14 {
            CounterBounds(mcBase[i], mc[i]);
            mc[i] := Crunch(mcBase[i], mc[i]);
          }
          flop := flop[i := true];
        }
        i := i + 1;
      }
      FlagsRoundTrip(flop);
      expFlop := ByteOfFlags(flop);
    }

    /** `is_dma`: some sprite in `val` has DMA on. */
    function IsDma(val: Byte): (r: bool)
      reads this
      ensures r == exists i :: 0 <= i < NUM_SPRITES && Flags(val)[i] && Flags(dma)[i]
    {
      SharedFlag(dma, val);
      dma & val != 0
    }
  }
}
