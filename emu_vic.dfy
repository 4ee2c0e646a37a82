/**
 * The VIC-II video chip as the cycle-level emulator sees it
 * (`c64_emu/vic_ii/mod.rs`): 64 registers, the raster beam position,
 * raster interrupts with edge detection, bad-line detection with the
 * bus-available (BA) line, and the sprite and light-pen units clocked at
 * fixed cycles of each raster line.
 */
module EmuVic {
  import opened Common
  import opened EmuLightpen
  import opened EmuSprites

  /** The chip revisions the emulator knows. */
  datatype VicModel = Mos6567R56A | Mos6567R8 | Mos6569 | Mos6572 | Mos6573

  /** Raster lines per frame and PHI2 cycles per line. */
  datatype ModelData = ModelData(rasterLines: nat, cyclesPerLine: nat)

  /** What one call reports: `Some` on a change of the IRQ or BA line. */
  datatype VicOutput = VicOutput(irq: Option<bool>, ba: Option<bool>)

  const IRQ_RASTER: Byte := 0x01
  const IRQ_LIGHTPEN: Byte := 0x08
  /** Bit 7 of the flag register: the IRQ line is asserted. */
  const IRQ_LINE: Byte := 0x80

  const FIRST_DMA_LINE: nat := 0x30
  const LAST_DMA_LINE: nat := 0xF7
  const FETCH_CYCLE: nat := 11
  const SCREEN_TEXTCOLS: nat := 40

  /** The frame geometry of each model: the old NTSC chip has 64-cycle lines, PAL-B 63, the others 65. */
  function ModelDataOf(m: VicModel): (d: ModelData)
    ensures 262 <= d.rasterLines <= 312 && 63 <= d.cyclesPerLine <= 65
    ensures d.cyclesPerLine == 63 <==> m == Mos6569
    ensures d.rasterLines == 312 <==> m == Mos6569 || m == Mos6572
  {
    match m
    case Mos6567R56A => ModelData(262, 64)
    case Mos6567R8 => ModelData(263, 65)
    case Mos6569 => ModelData(312, 63)
    case Mos6572 => ModelData(312, 65)
    case Mos6573 => ModelData(263, 65)
  }

  /** The register an address selects: its low six bits. */
  function RegIndex(addr: Byte): (a: nat)
    ensures a < 0x40
  {
    addr as nat % 0x40
  }

  /** The line the raster interrupt compares against: $D012 plus bit 7 of $D011 as bit 8. */
  function RasterIrqLine(r11: Byte, r12: Byte): nat
  {
    r12 as nat + if r11 & 0x80 != 0 then 0x100 else 0
  }

  /** The compare line is below 512: its low byte is $D012, bit 8 is bit 7 of $D011. */
  lemma RasterIrqLineSpec(r11: Byte, r12: Byte)
    ensures RasterIrqLine(r11, r12) < 0x200 && RasterIrqLine(r11, r12) % 0x100 == r12 as nat
    ensures RasterIrqLine(r11, r12) >= 0x100 <==> r11 & 0x80 != 0
  {
  }

  /** Bit 8 of the raster line, shown as bit 7 of $D011. */
  function RasterHigh(y: nat): Byte
  {
    if (y / 0x100) % 2 == 1 then 0x80 else 0
  }

  /** The low byte of the raster line ($D012). */
  function RasterLow(y: nat): (b: Byte)
    ensures b as int == y % 0x100
  {
    ByteRoundTrip(y % 0x100);
    (y % 0x100) as Byte
  }

  /**
   * A register read: the raster position in $D011/$D012, the light pen in
   * $D013/$D014, the interrupt flags and mask with their unused bits set,
   * the colour registers with their upper nibble set, $2F-$3F unconnected.
   */
  function ReadReg(regs: seq<Byte>, rasterY: nat, lpx: Byte, lpy: Byte, flags: Byte, mask: Byte, a: nat): Byte
    requires |regs| == 0x40 && a < 0x40
  {
    if a == 0x11 then (regs[0x11] & 0x7F) | RasterHigh(rasterY)
    else if a == 0x12 then RasterLow(rasterY)
    else if a == 0x13 then lpx
    else if a == 0x14 then lpy
    else if a == 0x19 then flags | 0x70
    else if a == 0x1A then mask | 0xF0
    else if a < 0x20 then regs[a]
    else if a < 0x2F then regs[a] | 0xF0
    else 0xFF
  }

  /** The raster registers show the beam: bit 8 of the line in bit 7 of $D011, the low byte in $D012. */
  lemma ReadRasterSpec(regs: seq<Byte>, rasterY: nat, lpx: Byte, lpy: Byte, flags: Byte, mask: Byte)
    requires |regs| == 0x40
    ensures var r := ReadReg(regs, rasterY, lpx, lpy, flags, mask, 0x11);
      r & 0x7F == regs[0x11] & 0x7F && (r & 0x80 != 0 <==> (rasterY / 0x100) % 2 == 1)
    ensures ReadReg(regs, rasterY, lpx, lpy, flags, mask, 0x12) as int == rasterY % 0x100
  {
  }

  /**
   * Unused bits read as 1: bits 4-6 of the flags, the upper nibble of the
   * mask and of the colour registers $20-$2E; $2F-$3F read $FF. The
   * other bits show the stored values.
   */
  lemma ReadForcedBits(regs: seq<Byte>, rasterY: nat, lpx: Byte, lpy: Byte, flags: Byte, mask: Byte, a: nat)
    requires |regs| == 0x40 && a < 0x40
    ensures var r := ReadReg(regs, rasterY, lpx, lpy, flags, mask, a);
      (a == 0x19 ==> r & 0x70 == 0x70 && r & 0x8F == flags & 0x8F) &&
      (a == 0x1A ==> r & 0xF0 == 0xF0 && r & 0x0F == mask & 0x0F) &&
      (0x20 <= a < 0x2F ==> r & 0xF0 == 0xF0 && r & 0x0F == regs[a] & 0x0F) &&
      (a >= 0x2F ==> r == 0xFF)
  {
  }

  /** Every other register below $20 reads back as stored; $13/$14 read the light pen latch. */
  lemma ReadPlain(regs: seq<Byte>, rasterY: nat, lpx: Byte, lpy: Byte, flags: Byte, mask: Byte, a: nat)
    requires |regs| == 0x40 && a < 0x20 && a != 0x11 && a != 0x12 && a != 0x19 && a != 0x1A
    ensures var r := ReadReg(regs, rasterY, lpx, lpy, flags, mask, a);
      (a == 0x13 ==> r == lpx) && (a == 0x14 ==> r == lpy) &&
      (a != 0x13 && a != 0x14 ==> r == regs[a])
  {
  }

  // ---------------------------------------------------------------------------
  //  Interrupt flag arithmetic
  // ---------------------------------------------------------------------------

  /** Some enabled source has its flag set: the IRQ line should be asserted. */
  predicate Pending(flags: Byte, mask: Byte)
  {
    flags & mask & 0x0F != 0
  }

  /** Only the raster and light-pen flags and the line bit are ever set; the line bit mirrors the line. */
  predicate IrqConsistent(flags: Byte, line: bool)
  {
    flags & 0x76 == 0 && (flags & IRQ_LINE != 0 <==> line)
  }

  /** The flags after acknowledging `data` through $D019: written 1s clear their flags. */
  function Acknowledge(flags: Byte, data: Byte): Byte
  {
    flags & ((!data & 0x0F) | IRQ_LINE)
  }

  /** The flags with the line bit set or cleared. */
  function WithLine(flags: Byte, line: bool): Byte
  {
    if line then flags | IRQ_LINE else flags & 0x7F
  }

  /** An acknowledge clears exactly the written source flags and keeps the line bit. */
  lemma AcknowledgeSpec(flags: Byte, data: Byte)
    requires flags & 0x76 == 0
    ensures Acknowledge(flags, data) & 0x0F == flags & 0x0F & !data
    ensures Acknowledge(flags, data) & 0x80 == flags & 0x80
    ensures Acknowledge(flags, data) & 0x76 == 0
  {
  }

  /** Setting or clearing the line bit leaves the source flags alone. */
  lemma WithLineSpec(flags: Byte, line: bool)
    ensures WithLine(flags, line) & 0x7F == flags & 0x7F
    ensures (WithLine(flags, line) & IRQ_LINE != 0) == line
  {
  }

  /** The flags with a source flag raised when `on`. */
  function Raised(flags: Byte, flag: Byte, on: bool): Byte
  {
    if on then flags | flag else flags
  }

  /**
   * Raising the raster or light-pen flag sets that flag exactly when
   * asked to (or when it was set), and keeps the other flag, the line
   * bit and the unused bits.
   */
  lemma RaisedSpec(flags: Byte, flag: Byte, on: bool)
    requires flag == IRQ_RASTER || flag == IRQ_LIGHTPEN
    ensures Raised(flags, flag, on) & 0x80 == flags & 0x80
    ensures Raised(flags, flag, on) & 0x76 == flags & 0x76
    ensures (Raised(flags, flag, on) & flag != 0) == (on || flags & flag != 0)
    ensures Raised(flags, flag, on) & (0x09 ^ flag) == flags & (0x09 ^ flag)
  {
  }

  /** The line bit does not take part in the pending test. */
  lemma PendingIgnoresLine(flags: Byte, line: bool, mask: Byte)
    ensures Pending(WithLine(flags, line), mask) == Pending(flags, mask)
  {
  }

  /** The bad-line condition of a raster line. */
  predicate BadLine(enabled: bool, rasterY: nat, yscroll: nat)
  {
    enabled && FIRST_DMA_LINE <= rasterY <= LAST_DMA_LINE && rasterY % 8 == yscroll
  }

  /**
   * The bad-line enable after the start of a line: switched on on the
   * first DMA line when the display is on, off on the last one, and
   * looked at again when the beam arrives on the first DMA line.
   */
  function BadLinesAfter(enabled: bool, y: nat, blanking: bool, den: bool): (e: bool)
    ensures y == LAST_DMA_LINE ==> !e
    ensures y != LAST_DMA_LINE && y + 1 != FIRST_DMA_LINE && y != FIRST_DMA_LINE ==> e == enabled
  {
    var e1 := enabled || (y == FIRST_DMA_LINE && den);
    var e2 := if y == LAST_DMA_LINE then false else e1;
    if !blanking && y + 1 == FIRST_DMA_LINE && !e2 then den else e2
  }

  /** The mask register reads back the written value with the upper nibble set. */
  lemma MaskReadBack(data: Byte)
    ensures (data & 0x0F) | 0xF0 == data | 0xF0
  {
  }

  /** The flags, line and report of re-evaluating the IRQ line. */
  datatype IrqUpdate = IrqUpdate(flags: Byte, line: bool, report: Option<bool>)

  /**
   * `handle_irq_state`: the line is asserted when some enabled source is
   * pending and released when none is; the line bit follows and a change
   * is reported.
   */
  function HandleIrq(flags: Byte, mask: Byte, line: bool): IrqUpdate
  {
    var pending := Pending(flags, mask);
    if pending && !line then IrqUpdate(WithLine(flags, true), true, Some(true))
    else if !pending && line then IrqUpdate(WithLine(flags, false), false, Some(false))
    else IrqUpdate(flags, line, None)
  }

  /**
   * Re-evaluating the line makes it mirror the pending test, keeps the
   * flags consistent and the source flags untouched, and reports exactly
   * the changes.
   */
  lemma {:induction false} HandleIrqSpec(flags: Byte, mask: Byte, line: bool)
    requires IrqConsistent(flags, line)
    ensures var u := HandleIrq(flags, mask, line);
      u.line == Pending(flags, mask) && Pending(u.flags, mask) == u.line &&
      IrqConsistent(u.flags, u.line) && u.flags & 0x7F == flags & 0x7F &&
      u.report == (if u.line != line then Some(u.line) else None)
  {
    WithLineSpec(flags, true);
    WithLineSpec(flags, false);
    PendingIgnoresLine(flags, true, mask);
    PendingIgnoresLine(flags, false, mask);
  }

  /** The bad-line enable, the bad-line state and the BA report after a $D011 write. */
  datatype BadLineState = BadLineState(enabled: bool, bad: bool, ba: Option<bool>)

  /**
   * The bad-line part of a $D011 write: the enable is re-read on the
   * first DMA line at cycle 0 and latched after it when the display is
   * on; a change of the vertical scroll that makes or unmakes a bad line
   * inside the DMA window starts one up to cycle 57, cancels one before
   * cycle 11, and reports BA.
   */
  function BadLineWrite(enabled: bool, bad: bool, y: nat, prevY: nat, cycle: nat, den: bool,
                        oldScroll: nat, newScroll: nat): BadLineState
  {
    var e1 := if y == FIRST_DMA_LINE && cycle == 0 then den else enabled;
    var e := e1 || (prevY == FIRST_DMA_LINE && den);
    var wasBad := e && oldScroll == y % 8;
    var nowBad := e && newScroll == y % 8;
    if FIRST_DMA_LINE <= y <= LAST_DMA_LINE && nowBad != wasBad then
      var b := if nowBad && cycle <= FETCH_CYCLE + SCREEN_TEXTCOLS + 6 then true
               else if wasBad && cycle < FETCH_CYCLE then false
               else bad;
      BadLineState(e, b, Some(!b))
    else BadLineState(e, bad, None)
  }

  /**
   * A $D011 write reports BA exactly when it changes the bad-line
   * condition of a line inside the DMA window, reporting the new BA
   * level; before the fetch cycle the bad-line state follows the new
   * condition, past cycle 57 (or without a report) it stays, and a write
   * that keeps the scroll changes nothing but the enable.
   */
  lemma {:induction false} BadLineWriteSpec(enabled: bool, bad: bool, y: nat, prevY: nat, cycle: nat, den: bool,
                                            oldScroll: nat, newScroll: nat)
    requires oldScroll < 8 && newScroll < 8
    ensures var s := BadLineWrite(enabled, bad, y, prevY, cycle, den, oldScroll, newScroll);
      (s.ba.Some? <==>
         FIRST_DMA_LINE <= y <= LAST_DMA_LINE && BadLine(s.enabled, y, newScroll) != BadLine(s.enabled, y, oldScroll)) &&
      (s.ba.Some? ==> s.ba.value == !s.bad) &&
      (s.ba.Some? && cycle < FETCH_CYCLE ==> s.bad == BadLine(s.enabled, y, newScroll)) &&
      (s.ba.None? || cycle > FETCH_CYCLE + SCREEN_TEXTCOLS + 6 ==> s.bad == bad) &&
      (oldScroll == newScroll ==> s.ba == None && s.bad == bad) &&
      (prevY == FIRST_DMA_LINE && den ==> s.enabled)
  {
  }

  // ---------------------------------------------------------------------------
  //  The chip's state as values
  // ---------------------------------------------------------------------------

  /**
   * The registers of the chip that the beam and the register writes
   * update: the raster line and vertical scroll, the bad-line enable and
   * state, the raster compare condition, vertical blanking, the interrupt
   * flags, mask and line, and the new-frame flag.
   */
  datatype ChipState = ChipState(rasterY: nat, yscroll: nat, areBadLinesEnabled: bool, isBadLine: bool,
                                 rasterYIrqCondition: bool, vblanking: bool, irqFlags: Byte, irqMask: Byte,
                                 irqState: bool, newFrame: bool)

  /** `raster_y_irq_edge_detect`: the compare against `compareLine` runs; a rising edge raises the raster flag. */
  function EdgeDetected(s: ChipState, compareLine: nat): ChipState
  {
    var cond := s.rasterY == compareLine;
    s.(rasterYIrqCondition := cond, irqFlags := Raised(s.irqFlags, IRQ_RASTER, !s.rasterYIrqCondition && cond))
  }

  /** `handle_irq_state`: the state with the line re-evaluated, and the report. */
  function IrqHandled(s: ChipState): (ChipState, Option<bool>)
  {
    var u := HandleIrq(s.irqFlags, s.irqMask, s.irqState);
    (s.(irqFlags := u.flags, irqState := u.line), u.report)
  }

  /**
   * The scroll part of a $D011 write of `data`: the new vertical scroll
   * and the bad-line update of `BadLineWrite` (`prevY` the line before,
   * `cycle` the line cycle, `den` the display enable), with the BA report.
   */
  function ScrollWrite(s: ChipState, data: Byte, prevY: nat, cycle: nat, den: bool): (ChipState, Option<bool>)
  {
    var scroll := data as nat % 8;
    var bl := BadLineWrite(s.areBadLinesEnabled, s.isBadLine, s.rasterY, prevY, cycle, den, s.yscroll, scroll);
    (s.(yscroll := scroll, areBadLinesEnabled := bl.enabled, isBadLine := bl.bad), bl.ba)
  }

  /**
   * The state after the side effects of `write(a, data)`, with its answer:
   * $D011 writes the scroll, runs the compare and re-evaluates the line;
   * $D012 runs the compare and re-evaluates; $D019 acknowledges and
   * re-evaluates; $D01A sets the mask and re-evaluates; any other
   * register has no effect here.
   */
  function RegisterWrite(s: ChipState, a: nat, data: Byte, prevY: nat, cycle: nat, den: bool, compareLine: nat)
    : (ChipState, VicOutput)
  {
    if a == 0x11 then
      var (s1, ba) := ScrollWrite(s, data, prevY, cycle, den);
      var (s2, irq) := IrqHandled(EdgeDetected(s1, compareLine));
      (s2, VicOutput(irq, ba))
    else if a == 0x12 || a == 0x19 || a == 0x1A then
      var s1 :=
        if a == 0x12 then EdgeDetected(s, compareLine)
        else if a == 0x19 then s.(irqFlags := Acknowledge(s.irqFlags, data))
        else s.(irqMask := data & 0x0F);
      var (s2, irq) := IrqHandled(s1);
      (s2, VicOutput(irq, None))
    else (s, VicOutput(None, None))
  }

  /**
   * The beam part of `check_vblank`: blanking starts on the last line,
   * otherwise the beam moves down one line; the bad-line enable follows
   * `BadLinesAfter` and the new line's bad-line state is decided.
   */
  function BeamMoved(s: ChipState, maxRasters: nat, den: bool): ChipState
  {
    var blank := s.vblanking || s.rasterY + 1 == maxRasters;
    var enabled := BadLinesAfter(s.areBadLinesEnabled, s.rasterY, blank, den);
    var y := if blank then s.rasterY else s.rasterY + 1;
    s.(vblanking := blank, areBadLinesEnabled := enabled, rasterY := y, isBadLine := BadLine(enabled, y, s.yscroll))
  }

  /** `check_vblank`: the beam moves, and on a new line the compare runs. */
  function VblankChecked(s: ChipState, maxRasters: nat, den: bool, compareLine: nat): ChipState
  {
    var s1 := BeamMoved(s, maxRasters, den);
    if s1.vblanking then s1 else EdgeDetected(s1, compareLine)
  }

  /** Cycle 0: `check_vblank`, then `handle_irq_state`. */
  function LineStarted(s: ChipState, maxRasters: nat, den: bool, compareLine: nat): (ChipState, Option<bool>)
  {
    IrqHandled(VblankChecked(s, maxRasters, den, compareLine))
  }

  /**
   * `vblank` at cycle 1: after the last line the beam wraps to line 0, a
   * new frame is flagged and the compare runs; a pen still down
   * (`penDown`) re-latches at once and raises its flag. On any other line
   * nothing happens.
   */
  function FrameStarted(s: ChipState, penDown: bool, compareLine: nat): ChipState
  {
    if !s.vblanking then s
    else
      var s1 := EdgeDetected(s.(vblanking := false, rasterY := 0, newFrame := true), compareLine);
      s1.(irqFlags := Raised(s1.irqFlags, IRQ_LIGHTPEN, penDown))
  }

  /** The beam events of a tick arriving at line cycle `cycle`, with the IRQ report. */
  function BeamStep(s: ChipState, cycle: nat, maxRasters: nat, penDown: bool, den: bool, compareLine: nat)
    : (ChipState, Option<bool>)
  {
    if cycle == 0 then LineStarted(s, maxRasters, den, compareLine)
    else if cycle == 1 then (FrameStarted(s, penDown, compareLine), None)
    else (s, None)
  }

  /** A re-evaluation reports exactly a change of the line. */
  lemma IrqHandledReport(s: ChipState)
    ensures var (t, r) := IrqHandled(s);
      r == (if t.irqState != s.irqState then Some(t.irqState) else None)
  {
  }

  /**
   * A re-evaluation makes the line mirror the pending test, keeps the
   * flags consistent and the source flags as they were, and changes
   * nothing but the flags and the line.
   */
  lemma IrqHandledSpec(s: ChipState)
    requires IrqConsistent(s.irqFlags, s.irqState)
    ensures var (t, r) := IrqHandled(s);
      t.irqState == Pending(t.irqFlags, t.irqMask) && IrqConsistent(t.irqFlags, t.irqState) &&
      t.irqFlags & 0x7F == s.irqFlags & 0x7F && t.(irqFlags := s.irqFlags, irqState := s.irqState) == s
  {
    HandleIrqSpec(s.irqFlags, s.irqMask, s.irqState);
  }

  /**
   * The compare sets the condition to "on the compare line" and raises
   * the raster flag exactly on its rising edge; the line bit, the other
   * flag and the rest of the state are kept.
   */
  lemma EdgeDetectedSpec(s: ChipState, compareLine: nat)
    requires IrqConsistent(s.irqFlags, s.irqState)
    ensures var t := EdgeDetected(s, compareLine);
      t.rasterYIrqCondition == (s.rasterY == compareLine) &&
      (t.irqFlags & IRQ_RASTER != 0) == (s.irqFlags & IRQ_RASTER != 0 || (!s.rasterYIrqCondition && t.rasterYIrqCondition)) &&
      t.irqFlags & IRQ_LIGHTPEN == s.irqFlags & IRQ_LIGHTPEN && IrqConsistent(t.irqFlags, t.irqState) &&
      t.(rasterYIrqCondition := s.rasterYIrqCondition, irqFlags := s.irqFlags) == s
  {
    var cond := s.rasterY == compareLine;
    RaisedSpec(s.irqFlags, IRQ_RASTER, !s.rasterYIrqCondition && cond);
  }

  /**
   * Every register write keeps the flags consistent and the mask in its
   * low nibble, never moves the beam or touches the frame flag; $D011,
   * $D012, $D019 and $D01A end with the line mirroring the pending test
   * and report exactly its change; every other register leaves the state
   * as it was and reports nothing.
   */
  lemma {:induction false} RegisterWriteSpec(s: ChipState, a: nat, data: Byte, prevY: nat, cycle: nat, den: bool,
                                             compareLine: nat)
    requires IrqConsistent(s.irqFlags, s.irqState) && s.irqMask & 0xF0 == 0
    ensures var (t, out) := RegisterWrite(s, a, data, prevY, cycle, den, compareLine);
      IrqConsistent(t.irqFlags, t.irqState) && t.irqMask & 0xF0 == 0 &&
      t.rasterY == s.rasterY && t.vblanking == s.vblanking && t.newFrame == s.newFrame &&
      (a == 0x11 || a == 0x12 || a == 0x19 || a == 0x1A ==>
         t.irqState == Pending(t.irqFlags, t.irqMask) &&
         out.irq == (if t.irqState != s.irqState then Some(t.irqState) else None)) &&
      (!(a == 0x11 || a == 0x12 || a == 0x19 || a == 0x1A) ==> t == s && out == VicOutput(None, None))
  {
    if a == 0x11 {
      Control1WriteSpec(s, data, prevY, cycle, den, compareLine);
    } else if a == 0x12 || a == 0x19 || a == 0x1A {
      IrqSourceWriteSpec(s, a, data, prevY, cycle, den, compareLine);
    }
  }

  /**
   * A $D011 write sets the scroll to the low three bits of the byte,
   * updates the bad-line state and reports BA as `BadLineWrite` says,
   * runs the compare against the (new) compare line, keeps the mask, the
   * beam and the frame flag, and ends with the line mirroring the pending
   * test, reporting exactly its change.
   */
  lemma {:induction false} Control1WriteSpec(s: ChipState, data: Byte, prevY: nat, cycle: nat, den: bool,
                                             compareLine: nat)
    requires IrqConsistent(s.irqFlags, s.irqState) && s.irqMask & 0xF0 == 0
    ensures var (t, out) := RegisterWrite(s, 0x11, data, prevY, cycle, den, compareLine);
      t.yscroll == data as nat % 8 &&
      BadLineState(t.areBadLinesEnabled, t.isBadLine, out.ba) ==
        BadLineWrite(s.areBadLinesEnabled, s.isBadLine, s.rasterY, prevY, cycle, den, s.yscroll, t.yscroll) &&
      t.rasterYIrqCondition == (s.rasterY == compareLine) &&
      (t.irqFlags & IRQ_RASTER != 0) == (s.irqFlags & IRQ_RASTER != 0 || (!s.rasterYIrqCondition && t.rasterYIrqCondition)) &&
      t.irqMask == s.irqMask && IrqConsistent(t.irqFlags, t.irqState) &&
      t.rasterY == s.rasterY && t.vblanking == s.vblanking && t.newFrame == s.newFrame &&
      t.irqState == Pending(t.irqFlags, t.irqMask) &&
      out.irq == (if t.irqState != s.irqState then Some(t.irqState) else None)
  {
    var s1 := ScrollWrite(s, data, prevY, cycle, den).0;
    EdgeDetectedSpec(s1, compareLine);
    IrqHandledSpec(EdgeDetected(s1, compareLine));
    IrqHandledReport(EdgeDetected(s1, compareLine));
  }

  /**
   * Writes to $D012, $D019 and $D01A keep the scroll, the bad-line state,
   * the beam and the frame flag, and report no BA. $D012 runs the
   * compare; $D019 clears exactly the written source flags; $D01A sets
   * the mask to the low nibble and keeps the source flags; the other two
   * keep the mask, and only $D012 touches the compare condition. The
   * line ends mirroring the pending test, and exactly its change is
   * reported.
   */
  lemma {:induction false} IrqSourceWriteSpec(s: ChipState, a: nat, data: Byte, prevY: nat, cycle: nat, den: bool,
                                              compareLine: nat)
    requires IrqConsistent(s.irqFlags, s.irqState) && s.irqMask & 0xF0 == 0
    requires a == 0x12 || a == 0x19 || a == 0x1A
    ensures var (t, out) := RegisterWrite(s, a, data, prevY, cycle, den, compareLine);
      t.yscroll == s.yscroll && t.areBadLinesEnabled == s.areBadLinesEnabled && t.isBadLine == s.isBadLine &&
      out.ba == None && t.rasterY == s.rasterY && t.vblanking == s.vblanking && t.newFrame == s.newFrame &&
      (a == 0x12 ==>
         t.rasterYIrqCondition == (s.rasterY == compareLine) &&
         (t.irqFlags & IRQ_RASTER != 0) == (s.irqFlags & IRQ_RASTER != 0 || (!s.rasterYIrqCondition && t.rasterYIrqCondition))) &&
      (a != 0x12 ==> t.rasterYIrqCondition == s.rasterYIrqCondition) &&
      (a == 0x19 ==> t.irqFlags & 0x0F == s.irqFlags & 0x0F & !data) &&
      (a == 0x1A ==> t.irqMask == data & 0x0F && t.irqFlags & 0x7F == s.irqFlags & 0x7F) &&
      (a != 0x1A ==> t.irqMask == s.irqMask) &&
      IrqConsistent(t.irqFlags, t.irqState) && t.irqMask & 0xF0 == 0 &&
      t.irqState == Pending(t.irqFlags, t.irqMask) &&
      out.irq == (if t.irqState != s.irqState then Some(t.irqState) else None)
  {
    var s1 :=
      if a == 0x12 then EdgeDetected(s, compareLine)
      else if a == 0x19 then s.(irqFlags := Acknowledge(s.irqFlags, data))
      else s.(irqMask := data & 0x0F);
    if a == 0x12 {
      EdgeDetectedSpec(s, compareLine);
    } else if a == 0x19 {
      AcknowledgeSpec(s.irqFlags, data);
    }
    IrqHandledSpec(s1);
    IrqHandledReport(s1);
  }

  /**
   * Cycle 0: blanking starts exactly on the last line, otherwise the beam
   * is one line further down; the enable follows `BadLinesAfter` and the
   * bad-line state is that of the new line; on a new line the compare
   * runs; the line then mirrors the pending test and a change is
   * reported. The scroll, the mask and the frame flag are kept.
   */
  lemma {:induction false} LineStartedSpec(s: ChipState, maxRasters: nat, den: bool, compareLine: nat)
    requires s.rasterY < maxRasters && (s.vblanking ==> s.rasterY + 1 == maxRasters)
    requires IrqConsistent(s.irqFlags, s.irqState)
    ensures var (t, r) := LineStarted(s, maxRasters, den, compareLine);
      t.vblanking == (s.rasterY + 1 == maxRasters) &&
      t.rasterY == (if t.vblanking then s.rasterY else s.rasterY + 1) && t.rasterY < maxRasters &&
      t.areBadLinesEnabled == BadLinesAfter(s.areBadLinesEnabled, s.rasterY, t.vblanking, den) &&
      t.isBadLine == BadLine(t.areBadLinesEnabled, t.rasterY, t.yscroll) &&
      (!t.vblanking ==>
         t.rasterYIrqCondition == (t.rasterY == compareLine) &&
         (t.irqFlags & IRQ_RASTER != 0) == (s.irqFlags & IRQ_RASTER != 0 || (!s.rasterYIrqCondition && t.rasterYIrqCondition))) &&
      (t.vblanking ==> t.rasterYIrqCondition == s.rasterYIrqCondition && t.irqFlags & 0x7F == s.irqFlags & 0x7F) &&
      t.irqFlags & IRQ_LIGHTPEN == s.irqFlags & IRQ_LIGHTPEN &&
      t.irqState == Pending(t.irqFlags, t.irqMask) && IrqConsistent(t.irqFlags, t.irqState) &&
      r == (if t.irqState != s.irqState then Some(t.irqState) else None) &&
      t.yscroll == s.yscroll && t.irqMask == s.irqMask && t.newFrame == s.newFrame
  {
    var s1 := BeamMoved(s, maxRasters, den);
    var s2 := VblankChecked(s, maxRasters, den, compareLine);
    if !s1.vblanking {
      EdgeDetectedSpec(s1, compareLine);
    }
    IrqHandledSpec(s2);
    IrqHandledReport(s2);
  }

  /**
   * Cycle 1: blanking always ends. After the last line the beam is on
   * line 0, a new frame is flagged, the compare runs and the light-pen
   * flag is raised when the pen is down; the line is not re-evaluated.
   * On any other line nothing changes.
   */
  lemma {:induction false} FrameStartedSpec(s: ChipState, penDown: bool, compareLine: nat)
    requires IrqConsistent(s.irqFlags, s.irqState)
    ensures var t := FrameStarted(s, penDown, compareLine);
      !t.vblanking && IrqConsistent(t.irqFlags, t.irqState) && t.irqState == s.irqState &&
      (s.vblanking ==>
         t.rasterY == 0 && t.newFrame && t.rasterYIrqCondition == (0 == compareLine) &&
         (t.irqFlags & IRQ_RASTER != 0) == (s.irqFlags & IRQ_RASTER != 0 || (!s.rasterYIrqCondition && t.rasterYIrqCondition)) &&
         (t.irqFlags & IRQ_LIGHTPEN != 0) == (s.irqFlags & IRQ_LIGHTPEN != 0 || penDown)) &&
      (!s.vblanking ==> t == s)
  {
    if s.vblanking {
      var s0 := s.(vblanking := false, rasterY := 0, newFrame := true);
      EdgeDetectedSpec(s0, compareLine);
      var s1 := EdgeDetected(s0, compareLine);
      RaisedSpec(s1.irqFlags, IRQ_LIGHTPEN, penDown);
    }
  }

  /**
   * Across a tick's beam events the raster line only goes back when it
   * wraps to line 0 at the end of vertical blanking, which is exactly
   * when a new frame is flagged; past cycle 1 nothing changes.
   */
  lemma {:induction false} BeamStepFrames(s: ChipState, cycle: nat, maxRasters: nat, penDown: bool, den: bool,
                                          compareLine: nat)
    ensures var (t, r) := BeamStep(s, cycle, maxRasters, penDown, den, compareLine);
      (t.rasterY < s.rasterY ==> t.rasterY == 0 && t.newFrame && s.vblanking && cycle == 1) &&
      t.newFrame == (s.newFrame || (cycle == 1 && s.vblanking)) &&
      (cycle > 1 ==> t == s && r == None)
  {
    if cycle == 0 {
      var s1 := BeamMoved(s, maxRasters, den);
      assert s1.rasterY >= s.rasterY && s1.newFrame == s.newFrame;
      var s2 := VblankChecked(s, maxRasters, den, compareLine);
      assert s2.rasterY == s1.rasterY && s2.newFrame == s1.newFrame;
    } else if cycle == 1 && s.vblanking {
      var s1 := EdgeDetected(s.(vblanking := false, rasterY := 0, newFrame := true), compareLine);
      assert s1.rasterY == 0 && s1.newFrame;
    }
  }

  /** Only cycle 0 re-evaluates the line, and then reports exactly its change. */
  lemma BeamStepReport(s: ChipState, cycle: nat, maxRasters: nat, penDown: bool, den: bool, compareLine: nat)
    ensures var (t, r) := BeamStep(s, cycle, maxRasters, penDown, den, compareLine);
      r == (if t.irqState != s.irqState then Some(t.irqState) else None)
  {
    if cycle == 0 {
      IrqHandledReport(VblankChecked(s, maxRasters, den, compareLine));
    }
  }

  /**
   * BA's edge at `cycle`: on a bad line it drops at the fetch cycle and
   * rises again three cycles after the text fetch, unless sprite 0 is
   * fetching; no edge otherwise.
   */
  function BaEdge(cycle: nat, badLine: bool, sprite0Dma: bool): Option<bool>
  {
    if cycle == FETCH_CYCLE && badLine then Some(false)
    else if cycle == FETCH_CYCLE + SCREEN_TEXTCOLS + 3 && badLine && !sprite0Dma then Some(true)
    else None
  }

  /**
   * A VIC-II's state as values: the chip state, the register file, the
   * line cycle, the raster line a write compares against, the light-pen
   * latch, the BA line and the sprite unit.
   */
  datatype VicState = VicState(st: ChipState, regs: seq<Byte>, lineCycle: nat, prevY: nat, pen: PenLatch,
                               baState: bool, sprites: SpriteRegs)

  // ---------------------------------------------------------------------------
  //  The chip
  // ---------------------------------------------------------------------------

  class Mos656x {
    const regs: array<Byte>
    var model: VicModel
    var cyclesPerLine: nat
    var maxRasters: nat
    var lineCycle: nat
    /** The raster, bad-line and interrupt registers, updated together by the beam and the writes. */
    var st: ChipState
    var lpAsserted: bool
    const lp: Lightpen
    const sprites: Sprites
    /** The BA line as last driven. */
    var baState: bool

    /** The geometry is the model's, and the light pen knows it; the register file and counters are separate. */
    predicate Shape()
      reads this`model, this`maxRasters, this`cyclesPerLine, lp`lastLine, lp`cyclesPerLine
    {
      regs.Length == 0x40 && regs != sprites.mc && regs != sprites.mcBase &&
      ModelDataOf(model) == ModelData(maxRasters, cyclesPerLine) &&
      lp.lastLine == maxRasters - 1 && lp.cyclesPerLine == cyclesPerLine
    }

    /** The beam is on the screen; vertical blanking only lasts from cycle 0 to cycle 1 of the last line. */
    predicate Beam()
      reads this`lineCycle, this`st, this`maxRasters, this`cyclesPerLine
    {
      lineCycle < cyclesPerLine && st.rasterY < maxRasters && st.yscroll < 8 &&
      (st.vblanking ==> lineCycle == 0 && st.rasterY == maxRasters - 1)
    }

    /** The flag register only ever holds the raster and light-pen flags and the line bit, which mirrors the line. */
    predicate IrqValid()
      reads this`st
    {
      IrqConsistent(st.irqFlags, st.irqState) && st.irqMask & 0xF0 == 0
    }

    predicate Valid()
      reads this, lp, sprites, sprites.mc, sprites.mcBase
    {
      Shape() && sprites.Valid() && Beam() && IrqValid()
    }

    /** The chip's state as values. */
    ghost function Snapshot(): VicState
      requires Valid()
      reads this, regs, lp, sprites, sprites.mc, sprites.mcBase
    {
      VicState(st, regs[..], lineCycle, OldRasterY(), lp.Latch(), baState, sprites.State())
    }

    /**
     * The state a `write` of `data` to register `a` leaves from `s`: the
     * byte stored, the chip state `RegisterWrite` gives for the register
     * (against the line before the current one and the compare line and
     * DEN bit now in the registers), a $D017 write crunching the sprite
     * lines and any other write leaving the sprite unit; beam position,
     * light pen and BA stay.
     */
    ghost predicate WrittenFrom(s: VicState, a: nat, data: Byte)
      requires Valid()
      reads this, regs, lp, sprites, sprites.mc, sprites.mcBase
    {
      |s.regs| == 0x40 && a < 0x40 && regs[..] == s.regs[a := data] &&
      st == RegisterWrite(s.st, a, data, s.prevY, lineCycle, ReadDen(), CompareLine()).0 &&
      lineCycle == s.lineCycle && lp.Latch() == s.pen && baState == s.baState &&
      (a == 0x17 ==> sprites.Crunched(s.sprites, data, lineCycle)) &&
      (a != 0x17 ==> sprites.State() == s.sprites)
    }

    /**
     * The state one `tick` leaves from `s`: the next line cycle; the chip
     * state `BeamStep` gives at it; the light pen re-latched at the first
     * cycle of a new frame; BA following its edge; the sprite unit clocked
     * for the cycle (`Clocked`); the registers kept.
     */
    ghost predicate TickedFrom(s: VicState)
      requires Valid()
      reads this, regs, lp, sprites, sprites.mc, sprites.mcBase
    {
      |s.regs| == 0x40 && regs[..] == s.regs &&
      lineCycle == (if s.lineCycle + 1 == cyclesPerLine then 0 else s.lineCycle + 1) &&
      st == BeamStep(s.st, lineCycle, maxRasters, lpAsserted, ReadDen(), CompareLine()).0 &&
      lp.Latch() == FramePen(s.pen, lineCycle == 1 && s.st.vblanking, lpAsserted, cyclesPerLine) &&
      baState == (var e := BaEdge(lineCycle, st.isBadLine, s.sprites.dma & 0x01 != 0);
                  if e.Some? then e.value else s.baState) &&
      sprites.Clocked(s.sprites, lineCycle, st.rasterY, regs[..])
    }

    /** `new`: a PAL-B chip on the last line, everything clear, BA high. */
    constructor ()
      ensures Valid() && fresh(regs) && fresh(lp) && fresh(sprites) && fresh(sprites.mc) && fresh(sprites.mcBase)
      ensures model == Mos6569 && maxRasters == 312 && cyclesPerLine == 63
      ensures lineCycle == 0 && regs[..] == seq(0x40, _ => 0) && baState
      ensures st == ChipState(311, 0, false, false, false, false, 0, 0, false, false)
    {
      regs := new Byte[0x40](_ => 0);
      model, cyclesPerLine, maxRasters := Mos6569, 63, 312;
      lineCycle := 0;
      st := ChipState(311, 0, false, false, false, false, 0, 0, false, false);
      lpAsserted, baState := false, true;
      var pen := new Lightpen();
      pen.SetScreenSize(312, 63);
      lp := pen;
      sprites := new Sprites();
    }

    /** `chip`: takes the model's geometry, tells the light pen, then resets. */
    method Chip(m: VicModel)
      requires Valid()
      modifies this, regs, lp, sprites, sprites.mc, sprites.mcBase
      ensures Valid() && model == m
      ensures maxRasters == ModelDataOf(m).rasterLines && cyclesPerLine == ModelDataOf(m).cyclesPerLine
      ensures lineCycle == 0 && regs[..] == seq(0x40, _ => 0) && baState
      ensures st == ChipState(maxRasters - 1, 0, false, false, false, false, 0, 0, false, false)
    {
      var md := ModelDataOf(m);
      model, maxRasters, cyclesPerLine := m, md.rasterLines, md.cyclesPerLine;
      lp.SetScreenSize(md.rasterLines, md.cyclesPerLine);
      Reset();
    }

    /**
     * `reset`: registers, flags and mask zero, the beam at cycle 0 of the
     * last line with no bad lines, pen up and the latch clear, BA high.
     */
    method Reset()
      requires regs.Length == 0x40 && sprites.Valid() && regs != sprites.mc && regs != sprites.mcBase
      requires ModelDataOf(model) == ModelData(maxRasters, cyclesPerLine)
      requires lp.lastLine == maxRasters - 1 && lp.cyclesPerLine == cyclesPerLine
      modifies this, regs, lp, sprites, sprites.mc, sprites.mcBase
      ensures Valid() && model == old(model) && maxRasters == old(maxRasters) && cyclesPerLine == old(cyclesPerLine)
      ensures lineCycle == 0 && regs[..] == seq(0x40, _ => 0) && baState && !lpAsserted
      ensures st == ChipState(maxRasters - 1, 0, false, false, false, false, 0, 0, false, false)
      ensures lp.Latch() == PenLatch(0, 0, false)
      ensures sprites.expFlop == 0xFF && sprites.dma == 0
    {
      ClearRegs(regs);
      lp.Reset();
      sprites.Reset();
      lineCycle := 0;
      st := ChipState(maxRasters - 1, 0, false, false, false, false, 0, 0, false, false);
      lpAsserted, baState := false, true;
    }

    /** `regs.fill(0)`. */
    static method ClearRegs(r: array<Byte>)
      modifies r
      ensures r[..] == seq(r.Length, _ => 0)
    {
      forall i | 0 <= i < r.Length {
        r[i] := 0;
      }
    }

    /** `read`: a side-effect-free register read. */
    function Read(addr: Byte): Byte
      reads this, regs, lp
      requires regs.Length == 0x40
    {
      ReadReg(regs[..], st.rasterY, lp.lpx, lp.lpy, st.irqFlags, st.irqMask, RegIndex(addr))
    }

    /** `irq_mask_has_raster`. */
    function IrqMaskHasRaster(): (b: bool)
      reads this
      ensures b <==> Pending(IRQ_RASTER, st.irqMask)
    {
      st.irqMask & 0x01 != 0
    }

    /** `old_raster_y`: the line before the current one, wrapping to the last line. */
    function OldRasterY(): (y: nat)
      reads this`st, this`maxRasters
      requires st.rasterY < maxRasters
      ensures y < maxRasters
      ensures (y + 1) % maxRasters == st.rasterY
    {
      if st.rasterY > 0 then st.rasterY - 1 else maxRasters - 1
    }

    /** `read_den`: the display-enable bit of $D011. */
    function ReadDen(): bool
      reads regs
      requires regs.Length == 0x40
    {
      regs[0x11] & 0x10 != 0
    }

    /** The line the raster compare uses, from $D011 and $D012. */
    function CompareLine(): nat
      reads regs
      requires regs.Length == 0x40
    {
      RasterIrqLine(regs[0x11], regs[0x12])
    }

    // -------------------------------------------------------------------------
    //  Interrupts
    // -------------------------------------------------------------------------

    /** `handle_irq_state` on the chip's flags and line. */
    method HandleIrqState() returns (r: Option<bool>)
      requires IrqValid()
      modifies this`st
      ensures (st, r) == IrqHandled(old(st)) && IrqValid()
    {
      var u := HandleIrq(st.irqFlags, st.irqMask, st.irqState);
      HandleIrqSpec(st.irqFlags, st.irqMask, st.irqState);
      st := st.(irqFlags := u.flags, irqState := u.line);
      r := u.report;
    }

    /**
     * `trigger_lightpen`: the pen is down; a trigger the latch accepts
     * raises the light-pen flag (the line follows at the next line start).
     */
    method TriggerLightpen()
      requires Valid()
      modifies this`lpAsserted, this`st, lp`lpx, lp`lpy, lp`isTriggered
      ensures Valid() && lpAsserted && lp.isTriggered
      ensures var fired := !old(lp.isTriggered) && !(st.rasterY == lp.lastLine && lineCycle > 0);
        st == old(st).(irqFlags := Raised(old(st.irqFlags), IRQ_LIGHTPEN, fired)) &&
        (fired ==> lp.lpx == LpxAt(lineCycle, cyclesPerLine) && lp.lpy == RasterLow(st.rasterY)) &&
        (!fired ==> lp.lpx == old(lp.lpx) && lp.lpy == old(lp.lpy))
    {
      lpAsserted := true;
      var fired := lp.Trigger(lineCycle, st.rasterY);
      var flags := Raised(st.irqFlags, IRQ_LIGHTPEN, fired);
      RaisedSpec(st.irqFlags, IRQ_LIGHTPEN, fired);
      st := st.(irqFlags := flags);
    }

    /** `clear_lightpen`: the pen is up. */
    method ClearLightpen()
      modifies this`lpAsserted
      ensures !lpAsserted
    {
      lpAsserted := false;
    }

    // -------------------------------------------------------------------------
    //  Register writes
    // -------------------------------------------------------------------------

    /**
     * `write`: the byte is always stored; the chip then moves to the state
     * `RegisterWrite` gives for the register, and answers as it says. The
     * sprite unit only changes on a $D017 write, which crunches its lines.
     * Plain registers read back what was written.
     */
    method Write(addr: Byte, data: Byte) returns (out: VicOutput)
      requires Valid()
      modifies regs, this`st, sprites`expFlop, sprites.mc
      ensures Valid() && WrittenFrom(old(Snapshot()), RegIndex(addr), data)
      ensures out == RegisterWrite(old(st), RegIndex(addr), data, old(OldRasterY()), lineCycle, ReadDen(), CompareLine()).1
      ensures var a := RegIndex(addr);
        (a < 0x20 && a != 0x11 && a != 0x12 && a != 0x13 && a != 0x14 && a != 0x19 && a != 0x1A ==>
           Read(addr) == data) &&
        (0x20 <= a < 0x2F ==> Read(addr) == data | 0xF0) &&
        (a == 0x1A ==> Read(addr) == data | 0xF0)
    {
      var a := RegIndex(addr);
      regs[a] := data;
      out := WriteEffect(a, data);
      ReadBack(a, data);
    }

    /** What a write does besides storing the byte, dispatched on the register. */
    method WriteEffect(a: nat, data: Byte) returns (out: VicOutput)
      requires Valid() && a < 0x40 && regs[a] == data
      modifies this`st, sprites`expFlop, sprites.mc
      ensures (st, out) == RegisterWrite(old(st), a, data, old(OldRasterY()), lineCycle, ReadDen(), CompareLine())
      ensures Valid()
      ensures a == 0x17 ==> sprites.Crunched(old(sprites.State()), data, lineCycle)
      ensures a != 0x17 ==> sprites.State() == old(sprites.State())
    {
      if a == 0x11 {
        out := WriteControl1(data);
      } else if a == 0x12 || a == 0x19 || a == 0x1A {
        var irq := WriteIrqSource(a, data);
        out := VicOutput(irq, None);
      } else if a == 0x17 {
        sprites.LineCrunch(data, lineCycle);
        out := VicOutput(None, None);
      } else {
        out := VicOutput(None, None);
      }
    }

    /** The read-back facts of a write just stored. */
    lemma ReadBack(a: nat, data: Byte)
      requires regs.Length == 0x40 && a < 0x40 && regs[a] == data
      requires a == 0x1A ==> st.irqMask == data & 0x0F
      ensures (a < 0x20 && a != 0x11 && a != 0x12 && a != 0x13 && a != 0x14 && a != 0x19 && a != 0x1A ==>
                 ReadReg(regs[..], st.rasterY, lp.lpx, lp.lpy, st.irqFlags, st.irqMask, a) == data)
      ensures 0x20 <= a < 0x2F ==> ReadReg(regs[..], st.rasterY, lp.lpx, lp.lpy, st.irqFlags, st.irqMask, a) == data | 0xF0
      ensures a == 0x1A ==> ReadReg(regs[..], st.rasterY, lp.lpx, lp.lpy, st.irqFlags, st.irqMask, a) == data | 0xF0
    {
      if a == 0x1A {
        MaskReadBack(data);
      }
    }

    /**
     * A $D011 write (already stored): the new vertical scroll and the
     * bad-line trick, then the raster compare against the new compare
     * line and the IRQ line.
     */
    method WriteControl1(data: Byte) returns (out: VicOutput)
      requires Valid() && regs[0x11] == data
      modifies this`st
      ensures (st, out) == RegisterWrite(old(st), 0x11, data, old(OldRasterY()), lineCycle, ReadDen(), CompareLine())
      ensures Valid()
    {
      var scroll := data as nat % 8;
      var bl := BadLineWrite(st.areBadLinesEnabled, st.isBadLine, st.rasterY, OldRasterY(), lineCycle, ReadDen(),
                             st.yscroll, scroll);
      st := st.(yscroll := scroll, areBadLinesEnabled := bl.enabled, isBadLine := bl.bad);
      EdgeDetect();
      var irq := HandleIrqState();
      out := VicOutput(irq, bl.ba);
    }

    /**
     * A write to $D012, $D019 or $D01A (already stored): the raster
     * compare runs again, the written flags are acknowledged, or the
     * mask takes the low nibble; then the IRQ line follows.
     */
    method WriteIrqSource(a: nat, data: Byte) returns (irq: Option<bool>)
      requires Valid() && (a == 0x12 || a == 0x19 || a == 0x1A)
      modifies this`st
      ensures (st, VicOutput(irq, None)) ==
        RegisterWrite(old(st), a, data, old(OldRasterY()), lineCycle, ReadDen(), CompareLine())
      ensures Valid()
    {
      if a == 0x12 {
        EdgeDetect();
      } else if a == 0x19 {
        AcknowledgeFlags(data);
      } else {
        SetMask(data);
      }
      irq := HandleIrqState();
    }

    /** $D019: written 1s clear their source flags; the line bit is kept. */
    method AcknowledgeFlags(data: Byte)
      requires IrqValid()
      modifies this`st
      ensures st == old(st).(irqFlags := Acknowledge(old(st.irqFlags), data)) && IrqValid()
    {
      var acked := Acknowledge(st.irqFlags, data);
      AcknowledgeSpec(st.irqFlags, data);
      st := st.(irqFlags := acked);
    }

    /** $D01A: the mask takes the low nibble of the written byte. */
    method SetMask(data: Byte)
      requires IrqValid()
      modifies this`st
      ensures st == old(st).(irqMask := data & 0x0F) && IrqValid()
    {
      st := st.(irqMask := data & 0x0F);
    }

    // -------------------------------------------------------------------------
    //  The clock
    // -------------------------------------------------------------------------

    /**
     * `tick`: one PHI2 cycle. The line cycle advances and wraps at the
     * line length; the beam events of `BeamStep` follow (a new line at
     * cycle 0, the end of vertical blanking at cycle 1, which also
     * re-arms the light pen as `FramePen` says); a bad line pulls BA low
     * at cycle 11 and releases it at cycle 54 unless sprite 0 is
     * fetching; the sprite unit does its share (`Clocked`).
     */
    method Tick() returns (out: VicOutput)
      requires Valid()
      modifies this`lineCycle, this`st, this`baState, lp`lpx, lp`lpy, lp`isTriggered,
        sprites`dma, sprites`expFlop, sprites.mc, sprites.mcBase
      ensures (st, out.irq) == BeamStep(old(st), lineCycle, maxRasters, lpAsserted, ReadDen(), CompareLine())
      ensures Valid()
      ensures lineCycle == (if old(lineCycle) + 1 == cyclesPerLine then 0 else old(lineCycle) + 1)
      ensures lp.Latch() == FramePen(old(lp.Latch()), lineCycle == 1 && old(st.vblanking), lpAsserted, cyclesPerLine)
      ensures out.ba == BaEdge(lineCycle, st.isBadLine, old(sprites.IsDma(0x01)))
      ensures baState == (if out.ba.Some? then out.ba.value else old(baState))
      ensures sprites.Clocked(old(sprites.State()), lineCycle, st.rasterY, regs[..])
    {
      lineCycle := if lineCycle + 1 >= cyclesPerLine then 0 else lineCycle + 1;
      var irq := LineEvents();
      var ba := FetchPhase();
      out := VicOutput(irq, ba);
    }

    /**
     * The fetch events of a tick: BA for a bad line, then the sprite unit.
     * The sprite unit has nothing to do on the two BA cycles (11 and 54),
     * so the sprite 0 DMA bit BA consults is the same before and after it.
     */
    method FetchPhase() returns (ba: Option<bool>)
      requires Valid()
      modifies this`baState, sprites`dma, sprites`expFlop, sprites.mc, sprites.mcBase
      ensures Valid()
      ensures ba == BaEdge(lineCycle, st.isBadLine, old(sprites.IsDma(0x01)))
      ensures baState == (if ba.Some? then ba.value else old(baState))
      ensures sprites.Clocked(old(sprites.State()), lineCycle, st.rasterY, regs[..])
    {
      ba := BaPhase();
      SpritePhase();
    }

    /** The beam events of a tick: `check_vblank` and the IRQ line at cycle 0, `vblank` at cycle 1. */
    method LineEvents() returns (irq: Option<bool>)
      requires Shape() && sprites.Valid() && IrqValid()
      requires lineCycle < cyclesPerLine && st.rasterY < maxRasters && st.yscroll < 8
      requires st.vblanking ==> lineCycle == 1 && st.rasterY == maxRasters - 1
      modifies this`st, lp`lpx, lp`lpy, lp`isTriggered
      ensures (st, irq) == BeamStep(old(st), lineCycle, maxRasters, lpAsserted, ReadDen(), CompareLine())
      ensures lp.Latch() == FramePen(old(lp.Latch()), lineCycle == 1 && old(st.vblanking), lpAsserted, cyclesPerLine)
      ensures Valid()
    {
      irq := None;
      if lineCycle == 0 {
        irq := LineStart();
      } else if lineCycle == 1 {
        Vblank();
      }
    }

    /** Cycle 0: `check_vblank`, then the IRQ line follows. */
    method LineStart() returns (irq: Option<bool>)
      requires Valid() && lineCycle == 0
      modifies this`st
      ensures (st, irq) == LineStarted(old(st), maxRasters, ReadDen(), CompareLine())
      ensures Valid()
    {
      CheckVblank();
      irq := HandleIrqState();
    }

    /** `check_vblank` (cycle 0): the beam moves (`BeamMoved`); on a new line the raster compare runs. */
    method CheckVblank()
      requires Valid() && lineCycle == 0
      modifies this`st
      ensures st == VblankChecked(old(st), maxRasters, ReadDen(), CompareLine())
      ensures Valid()
    {
      NextLine();
      if !st.vblanking {
        EdgeDetect();
      }
    }

    /** The beam part of `check_vblank`: blanking, the next line, the bad-line enable and state. */
    method NextLine()
      requires Valid() && lineCycle == 0
      modifies this`st
      ensures st == BeamMoved(old(st), maxRasters, ReadDen())
      ensures Beam()
    {
      var y := st.rasterY;
      var blank := st.vblanking || y + 1 == maxRasters;
      var enabled := BadLinesAfter(st.areBadLinesEnabled, y, blank, ReadDen());
      var next := if blank then y else y + 1;
      st := st.(vblanking := blank, areBadLinesEnabled := enabled, rasterY := next,
                isBadLine := BadLine(enabled, next, st.yscroll));
    }

    /** `raster_y_irq_edge_detect` against the compare line in $D011/$D012. */
    method EdgeDetect()
      requires IrqValid() && regs.Length == 0x40
      modifies this`st
      ensures st == EdgeDetected(old(st), CompareLine())
      ensures IrqValid()
    {
      var cond := st.rasterY == CompareLine();
      var flags := Raised(st.irqFlags, IRQ_RASTER, !st.rasterYIrqCondition && cond);
      RaisedSpec(st.irqFlags, IRQ_RASTER, !st.rasterYIrqCondition && cond);
      st := st.(rasterYIrqCondition := cond, irqFlags := flags);
    }

    /** `vblank` (cycle 1), as `FrameStarted` and `FramePen` say. */
    method Vblank()
      requires Shape() && IrqValid() && lineCycle == 1 && lineCycle < cyclesPerLine
      requires st.rasterY < maxRasters && st.yscroll < 8 && (st.vblanking ==> st.rasterY == maxRasters - 1)
      modifies this`st, lp`lpx, lp`lpy, lp`isTriggered
      ensures st == FrameStarted(old(st), lpAsserted, CompareLine())
      ensures lp.Latch() == FramePen(old(lp.Latch()), old(st.vblanking), lpAsserted, cyclesPerLine)
      ensures Shape() && IrqValid() && Beam()
    {
      if st.vblanking {
        st := st.(vblanking := false, rasterY := 0, newFrame := true);
        EdgeDetect();
        RelatchPen();
      }
    }

    /** The light pen at the start of a frame: released, re-latched when the pen is down, which raises its flag. */
    method RelatchPen()
      requires IrqValid()
      modifies this`st, lp`lpx, lp`lpy, lp`isTriggered
      ensures st == old(st).(irqFlags := Raised(old(st.irqFlags), IRQ_LIGHTPEN, lpAsserted))
      ensures lp.Latch() == FramePen(old(lp.Latch()), true, lpAsserted, cyclesPerLine)
      ensures IrqValid()
    {
      lp.Untrigger();
      var fired := false;
      if lpAsserted {
        fired := lp.Retrigger(cyclesPerLine);
      }
      var flags := Raised(st.irqFlags, IRQ_LIGHTPEN, fired);
      RaisedSpec(st.irqFlags, IRQ_LIGHTPEN, fired);
      st := st.(irqFlags := flags);
    }

    /** BA low at cycle 11 of a bad line; BA high at cycle 54 of one unless sprite 0 has DMA. */
    method BaPhase() returns (ba: Option<bool>)
      modifies this`baState
      ensures ba == BaEdge(lineCycle, st.isBadLine, sprites.IsDma(0x01))
      ensures baState == (if ba.Some? then ba.value else old(baState))
    {
      ba := None;
      if lineCycle == FETCH_CYCLE && st.isBadLine {
        baState := false;
        ba := Some(false);
      }
      if lineCycle == FETCH_CYCLE + SCREEN_TEXTCOLS + 3 && st.isBadLine {
        var fetching := sprites.IsDma(0x01);
        if !fetching {
          baState := true;
          ba := Some(true);
        }
      }
    }

    /** The sprite unit's share of the cycle, on the current raster line and register file. */
    method SpritePhase()
      requires regs.Length == 0x40 && sprites.Valid() && regs != sprites.mc && regs != sprites.mcBase
      modifies sprites`dma, sprites`expFlop, sprites.mc, sprites.mcBase
      ensures sprites.Valid() && sprites.Clocked(old(sprites.State()), lineCycle, st.rasterY, regs[..])
    {
      sprites.Clock(lineCycle, st.rasterY, regs[..]);
    }
  }
}
