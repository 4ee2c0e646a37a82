/**
 * The simplified VIC-II of the PSID player's memory bus: a raster counter
 * advanced in whole lines, a raster-compare interrupt, badline cycle
 * stealing and a shadow of the 64 register bytes.
 */
module PlayerVic {
  import opened Common

  /** First and last raster line on which a badline can occur. */
  const FIRST_DMA_LINE: int := 0x30
  const LAST_DMA_LINE: int := 0xF7
  /** CPU cycles a badline takes away. */
  const BADLINE_STEAL_CYCLES: nat := 40

  /** Display enable, bit 4 of $D011. */
  function Den(d011: Byte): bool
  {
    d011 & 0x10 != 0
  }

  /** Vertical fine scroll, bits 0-2 of $D011. */
  function YScroll(d011: Byte): int
  {
    (d011 & 0x07) as int
  }

  lemma YScrollRange(d011: Byte)
    ensures 0 <= YScroll(d011) < 8
  {
  }

  /** `is_badline`: display on, line inside the DMA window and matching the fine scroll. */
  predicate IsBadline(line: int, den: bool, yscroll: int)
  {
    den && FIRST_DMA_LINE <= line <= LAST_DMA_LINE && line % 8 == yscroll
  }

  /**
   * The part of the VIC state one raster line changes: the line, whether
   * the compare line has already raised its flag, whether any flag was
   * raised, the stolen cycles and the new-frame flag.
   */
  datatype Beam = Beam(raster: int, triggered: bool, hit: bool, stolen: nat, wrapped: bool)

  /** One iteration of the `tick` loop: the next line, with the badline and compare checks. */
  function NextLine(b: Beam, lpf: nat, compare: int, den: bool, yscroll: int): Beam
  {
    var wrap := b.raster + 1 >= lpf;
    var r := if wrap then 0 else b.raster + 1;
    Beam(r, r == compare, b.hit || (r == compare && !b.triggered),
         b.stolen + (if IsBadline(r, den, yscroll) then BADLINE_STEAL_CYCLES else 0),
         b.wrapped || wrap)
  }

  /** `n` lines in a row. */
  function Lines(b: Beam, n: nat, lpf: nat, compare: int, den: bool, yscroll: int): Beam
  {
    if n == 0 then b else NextLine(Lines(b, n - 1, lpf, compare, den, yscroll), lpf, compare, den, yscroll)
  }

  /** The `i`-th line after `r` on a screen of `lpf` lines. */
  function Visited(r: int, i: nat, lpf: nat): int
    requires lpf > 0
  {
    (r + i) % lpf
  }

  /** Badlines among the `n` lines after `r`. */
  function Badlines(r: int, n: nat, lpf: nat, den: bool, yscroll: int): nat
    requires lpf > 0
  {
    if n == 0 then 0
    else Badlines(r, n - 1, lpf, den, yscroll) + (if IsBadline(Visited(r, n, lpf), den, yscroll) then 1 else 0)
  }

  lemma ModSucc(a: int, m: int)
    requires m > 0 && a >= 0
    ensures (a + 1) % m == if a % m + 1 >= m then 0 else a % m + 1
  {
    var q, r := a / m, a % m;
    if r + 1 >= m {
      DivModUnique(a + 1, m, q + 1, 0);
    } else {
      DivModUnique(a + 1, m, q, r + 1);
    }
  }

  /**
   * After `n` lines the raster is `n` lines further modulo the frame, the
   * new-frame flag is set exactly when the frame end was passed, the
   * compare state records whether the current line is the compare line,
   * and 40 cycles were stolen for each badline passed.
   */
  lemma {:induction false} LinesSpec(b: Beam, n: nat, lpf: nat, compare: int, den: bool, yscroll: int)
    requires 0 <= b.raster < lpf
    ensures var e := Lines(b, n, lpf, compare, den, yscroll);
      e.raster == Visited(b.raster, n, lpf)
      && e.wrapped == (b.wrapped || b.raster + n >= lpf)
      && e.triggered == (if n == 0 then b.triggered else e.raster == compare)
      && e.stolen == b.stolen + BADLINE_STEAL_CYCLES * Badlines(b.raster, n, lpf, den, yscroll)
  {
    if n == 0 {
      DivModUnique(b.raster, lpf, 0, b.raster);
    } else {
      LinesSpec(b, n - 1, lpf, compare, den, yscroll);
      ModSucc(b.raster + n - 1, lpf);
      if b.raster + n - 1 < lpf {
        DivModUnique(b.raster + n - 1, lpf, 0, b.raster + n - 1);
      }
    }
  }

  /**
   * The raster flag is raised during `n` lines exactly when one of them is
   * the compare line and the compare state did not already hold for it:
   * only the first line can find it set, since consecutive lines differ.
   */
  lemma {:induction false} LinesHit(b: Beam, n: nat, lpf: nat, compare: int, den: bool, yscroll: int)
    requires 2 <= lpf && 0 <= b.raster < lpf
    ensures Lines(b, n, lpf, compare, den, yscroll).hit
      == (b.hit || exists i :: 1 <= i <= n && Visited(b.raster, i, lpf) == compare && (i > 1 || !b.triggered))
  {
    if n > 0 {
      LinesHit(b, n - 1, lpf, compare, den, yscroll);
      LinesSpec(b, n - 1, lpf, compare, den, yscroll);
      var prev := Lines(b, n - 1, lpf, compare, den, yscroll);
      var cur := Lines(b, n, lpf, compare, den, yscroll);
      ModSucc(b.raster + n - 1, lpf);
      assert cur.raster == Visited(b.raster, n, lpf);
      if n > 1 && cur.raster == compare {
        assert prev.raster != compare;
      }
    }
  }

  /** Badlines in the half-open line range [lo, hi). */
  function CountIn(lo: int, hi: int, den: bool, yscroll: int): nat
    decreases hi - lo
  {
    if hi <= lo then 0 else CountIn(lo, hi - 1, den, yscroll) + (if IsBadline(hi - 1, den, yscroll) then 1 else 0)
  }

  lemma {:induction false} CountSplit(lo: int, mid: int, hi: int, den: bool, yscroll: int)
    requires lo <= mid <= hi
    ensures CountIn(lo, hi, den, yscroll) == CountIn(lo, mid, den, yscroll) + CountIn(mid, hi, den, yscroll)
    decreases hi - mid
  {
    if hi > mid {
      CountSplit(lo, mid, hi - 1, den, yscroll);
    }
  }

  /** Lines after `r` that do not pass the frame end are a plain range. */
  lemma {:induction false} BadlinesNoWrap(r: int, n: nat, lpf: nat, den: bool, yscroll: int)
    requires 0 <= r && lpf > 0 && r + n < lpf
    ensures Badlines(r, n, lpf, den, yscroll) == CountIn(r + 1, r + n + 1, den, yscroll)
  {
    if n > 0 {
      BadlinesNoWrap(r, n - 1, lpf, den, yscroll);
      DivModUnique(r + n, lpf, 0, r + n);
    }
  }

  /** Lines after `r` that pass the frame end: the rest of this frame, then the start of the next. */
  lemma {:induction false} BadlinesWrap(r: int, n: nat, lpf: nat, den: bool, yscroll: int)
    requires 0 <= r < lpf && lpf <= r + n < 2 * lpf
    ensures Badlines(r, n, lpf, den, yscroll)
      == CountIn(r + 1, lpf, den, yscroll) + CountIn(0, r + n + 1 - lpf, den, yscroll)
  {
    if r + n == lpf {
      BadlinesNoWrap(r, n - 1, lpf, den, yscroll);
      DivModUnique(r + n, lpf, 1, 0);
      assert CountIn(0, 1, den, yscroll) == 0;
    } else {
      BadlinesWrap(r, n - 1, lpf, den, yscroll);
      DivModUnique(r + n, lpf, 1, r + n - lpf);
    }
  }

  /** One block of eight lines inside the DMA window holds exactly one badline when the display is on. */
  lemma BlockOfEight(a: int, den: bool, yscroll: int)
    requires FIRST_DMA_LINE <= a && a + 8 <= LAST_DMA_LINE + 1 && a % 8 == 0 && 0 <= yscroll < 8
    ensures CountIn(a, a + 8, den, yscroll) == if den then 1 else 0
  {
    var k := a / 8;
    assert a == 8 * k;
    var j := 0;
    while j < 8
      invariant 0 <= j <= 8
      invariant CountIn(a, a + j, den, yscroll) == if den && yscroll < j then 1 else 0
    {
      DivModUnique(a + j, 8, k, j);
      j := j + 1;
    }
  }

  lemma {:induction false} WindowCount(k: nat, den: bool, yscroll: int)
    requires k <= 25 && 0 <= yscroll < 8
    ensures CountIn(FIRST_DMA_LINE, FIRST_DMA_LINE + 8 * k, den, yscroll) == if den then k else 0
  {
    if k > 0 {
      WindowCount(k - 1, den, yscroll);
      CountSplit(FIRST_DMA_LINE, FIRST_DMA_LINE + 8 * (k - 1), FIRST_DMA_LINE + 8 * k, den, yscroll);
      BlockOfEight(FIRST_DMA_LINE + 8 * (k - 1), den, yscroll);
    }
  }

  lemma {:induction false} NoneOutside(lo: int, hi: int, den: bool, yscroll: int)
    requires lo <= hi && (hi <= FIRST_DMA_LINE || lo > LAST_DMA_LINE)
    ensures CountIn(lo, hi, den, yscroll) == 0
    decreases hi - lo
  {
    if hi > lo {
      NoneOutside(lo, hi - 1, den, yscroll);
    }
  }

  /**
   * A whole frame passes 25 badlines when the display is on and none when
   * it is off, from whatever line it starts: every frame steals 1000 cycles
   * or none.
   */
  lemma FrameBadlines(r: int, lpf: nat, d011: Byte)
    requires 0 <= r < lpf && LAST_DMA_LINE < lpf
    ensures Badlines(r, lpf, lpf, Den(d011), YScroll(d011)) == if Den(d011) then 25 else 0
  {
    var den, ys := Den(d011), YScroll(d011);
    YScrollRange(d011);
    BadlinesWrap(r, lpf, lpf, den, ys);
    CountSplit(0, r + 1, lpf, den, ys);
    CountSplit(0, FIRST_DMA_LINE, lpf, den, ys);
    CountSplit(FIRST_DMA_LINE, LAST_DMA_LINE + 1, lpf, den, ys);
    NoneOutside(0, FIRST_DMA_LINE, den, ys);
    NoneOutside(LAST_DMA_LINE + 1, lpf, den, ys);
    WindowCount(25, den, ys);
  }

  /** Status after a tick: bit 0 when the compare line was reached, bit 7 when that raised the line. */
  function RasterStatus(status: Byte, hit: bool, fired: bool): Byte
  {
    status | (if hit then 0x01 else 0) | (if fired then 0x80 else 0)
  }

  method RaiseRaster(status: Byte, hit: bool, fired: bool) returns (s: Byte)
    ensures s == RasterStatus(status, hit, fired)
  {
    s := status;
    if hit {
      s := s | 0x01;
    }
    if fired {
      s := s | 0x80;
    }
  }

  /** `irq_status &= !value`, then bit 7 goes when no source bit is left. */
  function AckStatus(status: Byte, value: Byte): Byte
  {
    var s := status & !value;
    if s & 0x0F == 0 then s & !0x80 else s
  }

  /** Acknowledged bits are cleared, the others kept, and bit 7 survives only with a source left. */
  lemma AckStatusSpec(status: Byte, value: Byte)
    ensures AckStatus(status, value) & 0x7F == status & !value & 0x7F
    ensures AckStatus(status, value) & 0x80 != 0 <==> status & !value & 0x80 != 0 && status & !value & 0x0F != 0
  {
  }

  method Acknowledge(status: Byte, value: Byte) returns (s: Byte)
    ensures s == AckStatus(status, value)
  {
    s := status & !value;
    if s & 0x0F == 0 {
      s := s & !0x80;
    }
  }

  /** $D011 read-back: the stored byte with bit 7 replaced by raster bit 8. */
  function ControlRead(d011: Byte, raster: int): Byte
  {
    (d011 & 0x7F) | (if raster > 255 then 0x80 else 0)
  }

  /** Raster line bits 0-7, as read from $D012. */
  function RasterLow(raster: int): Byte
    requires 0 <= raster
  {
    (raster % 256) as Byte
  }

  /** The raster line can be read back from $D011 bit 7 and $D012. */
  lemma RasterReadBack(d011: Byte, raster: int)
    requires 0 <= raster < 512
    ensures var hi := if ControlRead(d011, raster) & 0x80 != 0 then 256 else 0;
      hi + RasterLow(raster) as int == raster
    ensures ControlRead(d011, raster) & 0x7F == d011 & 0x7F
  {
    ByteRoundTrip(raster % 256);
  }

  /** `write($11)`: bit 7 of the value becomes bit 8 of the compare line. */
  function CompareHigh(compare: int, value: Byte): int
    requires 0 <= compare
  {
    compare % 256 + (if value & 0x80 != 0 then 256 else 0)
  }

  /** `write($12)`: the value becomes bits 0-7 of the compare line. */
  function CompareLow(compare: int, value: Byte): int
    requires 0 <= compare
  {
    compare / 256 % 2 * 256 + value as int
  }

  /** Writing $D011 then $D012 sets the compare line to the nine bits written, whatever it held. */
  lemma CompareWrites(compare: int, hi: Byte, lo: Byte)
    requires 0 <= compare
    ensures CompareLow(CompareHigh(compare, hi), lo) == (if hi & 0x80 != 0 then 256 else 0) + lo as int
    ensures 0 <= CompareHigh(compare, hi) < 512 && 0 <= CompareLow(compare, lo) < 512
  {
    var c := CompareHigh(compare, hi);
    var h := if hi & 0x80 != 0 then 1 else 0;
    DivModUnique(c, 256, h, compare % 256);
  }

  /**
   * What a `tick` with `total` accumulated cycles does to the raster: one
   * line per whole `cpl` cycles, starting with no flag raised and nothing
   * stolen.
   */
  function Scan(raster: int, triggered: bool, newFrame: bool, total: nat, cpl: nat, lpf: nat, compare: int, d011: Byte): Beam
    requires cpl > 0
  {
    Lines(Beam(raster, triggered, false, 0, newFrame), total / cpl, lpf, compare, Den(d011), YScroll(d011))
  }

  /**
   * The `tick` loop: while a whole line's worth of cycles is left, take it
   * off and run one line.
   */
  method ScanLines(raster0: int, triggered0: bool, newFrame0: bool, total: nat, cpl: nat, lpf: nat, compare: int, d011: Byte)
    returns (e: Beam, rest: nat)
    requires cpl > 0 && 0 <= raster0 < lpf
    ensures e == Scan(raster0, triggered0, newFrame0, total, cpl, lpf, compare, d011) && rest == total % cpl
    ensures 0 <= e.raster < lpf
  {
    var den, yscroll := Den(d011), YScroll(d011);
    ghost var b := Beam(raster0, triggered0, false, 0, newFrame0);
    rest := total;
    var raster, trig, hit, wrapped := raster0, triggered0, false, newFrame0;
    var stolen: nat := 0;
    var k: nat := 0;
    while rest >= cpl
      invariant rest + k * cpl == total
      invariant Beam(raster, trig, hit, stolen, wrapped) == Lines(b, k, lpf, compare, den, yscroll)
      invariant 0 <= raster < lpf
      decreases rest
    {
      ghost var prev := Beam(raster, trig, hit, stolen, wrapped);
      rest := rest - cpl;
      raster := raster + 1;
      if raster >= lpf {
        raster := 0;
        wrapped := true;
      }
      if IsBadline(raster, den, yscroll) {
        stolen := stolen + BADLINE_STEAL_CYCLES;
      }
      if raster != compare {
        trig := false;
      }
      if raster == compare && !trig {
        trig := true;
        hit := true;
      }
      assert Beam(raster, trig, hit, stolen, wrapped) == NextLine(prev, lpf, compare, den, yscroll);
      k := k + 1;
    }
    DivModUnique(total, cpl, k, rest);
    e := Beam(raster, trig, hit, stolen, wrapped);
  }

  /** The simplified VIC (`Vic`). */
  class Vic {
    var rasterCounter: int
    var rasterCompare: int
    var rasterIrqEnabled: bool
    var irqStatus: Byte
    var cycleAccum: nat
    const cyclesPerLine: nat
    const linesPerFrame: nat
    var d011: Byte
    var irqLine: bool
    var rasterTriggered: bool
    var stolenCycles: nat
    var newFrame: bool
    /** Shadow of the 64 registers, for read-back. */
    const regs: array<Byte>

    /** PAL (63 cycles, 312 lines) or NTSC (65, 263); raster and compare stay in range. */
    predicate Valid()
      reads this`rasterCounter, this`rasterCompare, this`cycleAccum
    {
      regs.Length == 64
      && ((cyclesPerLine == 63 && linesPerFrame == 312) || (cyclesPerLine == 65 && linesPerFrame == 263))
      && 0 <= rasterCounter < linesPerFrame && 0 <= rasterCompare < 512 && cycleAccum < cyclesPerLine
    }

    /** `Vic::new`: power-on registers, compare line $137, raster at 0. */
    constructor (isPal: bool)
      ensures Valid() && fresh(regs)
      ensures cyclesPerLine == (if isPal then 63 else 65) && linesPerFrame == (if isPal then 312 else 263)
      ensures rasterCounter == 0 && rasterCompare == 0x137 && !rasterIrqEnabled && irqStatus == 0
      ensures cycleAccum == 0 && d011 == 0x1B && !irqLine && !rasterTriggered && stolenCycles == 0 && !newFrame
      ensures regs[0x11] == 0x1B && regs[0x16] == 0xC8 && regs[0x18] == 0x14 && regs[0x20] == 0x0E && regs[0x21] == 0x06
      ensures forall i :: 0 <= i < 64 && i !in {0x11, 0x16, 0x18, 0x20, 0x21} ==> regs[i] == 0
    {
      var r := new Byte[64](_ => 0);
      r[0x11] := 0x1B;
      r[0x16] := 0xC8;
      r[0x18] := 0x14;
      r[0x19] := 0x00;
      r[0x1A] := 0x00;
      r[0x20] := 0x0E;
      r[0x21] := 0x06;
      regs := r;
      rasterCounter := 0;
      rasterCompare := 0x137;
      rasterIrqEnabled := false;
      irqStatus := 0;
      cycleAccum := 0;
      cyclesPerLine := if isPal then 63 else 65;
      linesPerFrame := if isPal then 312 else 263;
      d011 := 0x1B;
      irqLine := false;
      rasterTriggered := false;
      stolenCycles := 0;
      newFrame := false;
    }

    /**
     * `tick`: add `cycles` to the accumulator and run one line per whole
     * line's worth of cycles. Returns whether the raster interrupt fired.
     */
    method Tick(cycles: nat) returns (fired: bool)
      requires Valid()
      modifies this`rasterCounter, this`rasterTriggered, this`stolenCycles, this`newFrame
      modifies this`cycleAccum, this`irqStatus, this`irqLine
      ensures Valid()
      ensures var e := Scan(old(rasterCounter), old(rasterTriggered), old(newFrame), old(cycleAccum) + cycles,
                            cyclesPerLine, linesPerFrame, old(rasterCompare), old(d011));
        rasterCounter == e.raster && rasterTriggered == e.triggered && stolenCycles == e.stolen
        && newFrame == e.wrapped && fired == (e.hit && rasterIrqEnabled)
        && irqLine == (old(irqLine) || fired)
        && irqStatus == RasterStatus(old(irqStatus), e.hit, fired)
      ensures cycleAccum == (old(cycleAccum) + cycles) % cyclesPerLine
    {
      var e, rest := ScanLines(rasterCounter, rasterTriggered, newFrame, cycleAccum + cycles,
                               cyclesPerLine, linesPerFrame, rasterCompare, d011);
      fired := e.hit && rasterIrqEnabled;
      var status := RaiseRaster(irqStatus, e.hit, fired);
      rasterCounter, rasterTriggered, stolenCycles, newFrame, cycleAccum := e.raster, e.triggered, e.stolen, e.wrapped, rest;
      irqStatus, irqLine := status, irqLine || fired;
    }

    /** `read`: register `offset & $3F`, with the live raster, status and enable bits. */
    function Read(offset: int): Byte
      requires Valid() && 0 <= offset
      reads this, regs
    {
      var off := offset % 64;
      if off == 0x11 then ControlRead(d011, rasterCounter)
      else if off == 0x12 then RasterLow(rasterCounter)
      else if off == 0x19 then irqStatus
      else if off == 0x1A then (if rasterIrqEnabled then 0x01 else 0x00)
      else if off == 0x1E || off == 0x1F then 0
      else regs[off]
    }

    /**
     * The new state after `write(offset, value)`: the shadow takes the
     * value at $00-$2E; $11 and $12 set the control byte and the compare
     * line; $19 acknowledges status bits and drops the line when no source
     * bit is left; $1A sets the enable bit and raises the line at once when
     * the raster flag is pending; the raster, the accumulator and the
     * line-scan state are unchanged.
     */
    twostate predicate Wrote(offset: int, value: Byte)
      requires 0 <= offset && regs.Length == 64 && old(rasterCompare) >= 0
      reads this, regs
    {
      && (var off := offset % 64;
           (off <= 0x2E ==> regs[..] == old(regs[..])[off := value])
           && (off > 0x2E ==> regs[..] == old(regs[..])))
      && (d011 == if offset % 64 == 0x11 then value else old(d011))
      && (rasterCompare == if offset % 64 == 0x11 then CompareHigh(old(rasterCompare), value)
         else if offset % 64 == 0x12 then CompareLow(old(rasterCompare), value)
         else old(rasterCompare))
      && (irqStatus == if offset % 64 == 0x19 then AckStatus(old(irqStatus), value)
         else if offset % 64 == 0x1A && rasterIrqEnabled && old(irqStatus) & 0x01 != 0 then old(irqStatus) | 0x80
         else old(irqStatus))
      && (rasterIrqEnabled == if offset % 64 == 0x1A then value & 0x01 != 0 else old(rasterIrqEnabled))
      && (irqLine == if offset % 64 == 0x19 then old(irqLine) && AckStatus(old(irqStatus), value) & 0x0F != 0
         else if offset % 64 == 0x1A && rasterIrqEnabled && old(irqStatus) & 0x01 != 0 then true
         else old(irqLine))
      && rasterCounter == old(rasterCounter) && cycleAccum == old(cycleAccum) && rasterTriggered == old(rasterTriggered)
      && stolenCycles == old(stolenCycles) && newFrame == old(newFrame)
    }

    /**
     * `write`: registers $00-$2E are stored for read-back; $11 and $12 set
     * the control byte and the compare line, $19 acknowledges status bits
     * and $1A enables the raster interrupt, raising the line at once when
     * the raster flag is already pending.
     */
    method Write(offset: int, value: Byte)
      requires Valid() && 0 <= offset
      modifies regs, this`d011, this`rasterCompare, this`irqStatus, this`irqLine, this`rasterIrqEnabled
      ensures Valid()
      ensures Wrote(offset, value)
    {
      var off := offset % 64;
      if off <= 0x2E {
        regs[off] := value;
      }
      if off == 0x11 {
        d011 := value;
        CompareWrites(rasterCompare, value, 0);
        rasterCompare := CompareHigh(rasterCompare, value);
      } else if off == 0x12 {
        CompareWrites(rasterCompare, 0, value);
        rasterCompare := CompareLow(rasterCompare, value);
      } else if off == 0x19 {
        var s := Acknowledge(irqStatus, value);
        irqStatus := s;
        if s & 0x0F == 0 {
          irqLine := false;
        }
      } else if off == 0x1A {
        var enabled := value & 0x01 != 0;
        rasterIrqEnabled := enabled;
        if enabled && irqStatus & 0x01 != 0 {
          irqStatus := irqStatus | 0x80;
          irqLine := true;
        }
      }
    }
  }
}
