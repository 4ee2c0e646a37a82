/**
 * The VIC-II light pen latch (`c64_emu/vic_ii/lightpen.rs`): the first
 * trigger in a frame latches the beam position into LPX/LPY; the latch is
 * released once per frame.
 */
module EmuLightpen {
  import opened Common

  /** Cycles per line of the 65-cycle models, which skip one X position. */
  const WIDE_LINE: nat := 65

  /**
   * The beam X position a trigger at `lineCycle` latches: the cycle
   * counted from cycle 13 (wrapping into the previous line), one fewer
   * past cycle 61 on 65-cycle lines, times four plus two, truncated to a
   * byte.
   */
  function LpxAt(lineCycle: nat, cyclesPerLine: nat): Byte
    requires lineCycle >= 13 || lineCycle + cyclesPerLine >= 13
  {
    var adjusted0 := (if lineCycle < 13 then lineCycle + cyclesPerLine else lineCycle) - 13;
    var adjusted := if cyclesPerLine == WIDE_LINE && adjusted0 > 61 - 13 then adjusted0 - 1 else adjusted0;
    ((adjusted * 4 + 2) % 256) as Byte
  }

  /** The latched X position of a trigger is always 2 modulo 4. */
  lemma LpxAlignment(lineCycle: nat, cyclesPerLine: nat)
    requires lineCycle >= 13 || lineCycle + cyclesPerLine >= 13
    ensures LpxAt(lineCycle, cyclesPerLine) as int % 4 == 2
  {
    var adjusted0 := (if lineCycle < 13 then lineCycle + cyclesPerLine else lineCycle) - 13;
    var adjusted := if cyclesPerLine == WIDE_LINE && adjusted0 > 61 - 13 then adjusted0 - 1 else adjusted0;
    var v := (adjusted * 4 + 2) % 256;
    ByteRoundTrip(v);
    var q := (adjusted * 4 + 2) / 256;
    assert adjusted * 4 + 2 == q * 256 + v;
    assert v == (adjusted - 64 * q) * 4 + 2;
    DivModUnique(v, 4, adjusted - 64 * q, 2);
  }

  /** The latch as a value: the two coordinates and whether the latch is taken. */
  datatype PenLatch = PenLatch(lpx: Byte, lpy: Byte, triggered: bool)

  /**
   * The latch after the start of a frame (`frameStart`): released, and
   * re-taken at once at the fixed position ($D5 on 65-cycle lines, $D1
   * otherwise, line 0) when the pen is still down; unchanged mid-frame.
   */
  function FramePen(p: PenLatch, frameStart: bool, penDown: bool, cyclesPerLine: nat): PenLatch
  {
    if !frameStart then p
    else if penDown then PenLatch(if cyclesPerLine == WIDE_LINE then 0xD5 else 0xD1, 0, true)
    else p.(triggered := false)
  }

  /**
   * At a frame start the latch is taken exactly when the pen is down; a
   * pen down latches the fixed position, a pen up keeps the coordinates.
   */
  lemma FramePenSpec(p: PenLatch, penDown: bool, cyclesPerLine: nat)
    ensures var q := FramePen(p, true, penDown, cyclesPerLine);
      q.triggered == penDown &&
      (penDown ==> q.lpx as int == (if cyclesPerLine == WIDE_LINE then 0xD5 else 0xD1) && q.lpy == 0) &&
      (!penDown ==> q.lpx == p.lpx && q.lpy == p.lpy)
  {
  }

  class Lightpen {
    var lastLine: nat
    var cyclesPerLine: nat
    var lpx: Byte
    var lpy: Byte
    var isTriggered: bool

    /** `new`: a 63-cycle screen with last line 0, nothing latched. */
    constructor ()
      ensures lastLine == 0 && cyclesPerLine == 63 && lpx == 0 && lpy == 0 && !isTriggered
    {
      lastLine, cyclesPerLine, lpx, lpy, isTriggered := 0, 63, 0, 0, false;
    }

    /** `set_screen_size`: the last raster line (height − 1, saturating) and the line width. */
    method SetScreenSize(height: nat, width: nat)
      modifies this`lastLine, this`cyclesPerLine
      ensures lastLine == SatSub(height, 1) && cyclesPerLine == width
    {
      lastLine := SatSub(height, 1);
      cyclesPerLine := width;
    }

    /** `reset`: both coordinates zero, trigger released. */
    method Reset()
      modifies this`lpx, this`lpy, this`isTriggered
      ensures lpx == 0 && lpy == 0 && !isTriggered
    {
      lpx, lpy, isTriggered := 0, 0, false;
    }

    /** The latch as a value. */
    function Latch(): PenLatch
      reads this`lpx, this`lpy, this`isTriggered
    {
      PenLatch(lpx, lpy, isTriggered)
    }

    function GetX(): Byte reads this { lpx }
    function GetY(): Byte reads this { lpy }

    /**
     * `retrigger`: at the start of a frame with the pen still down, latch
     * the fixed position ($D5 on 65-cycle lines, $D1 otherwise) on line 0,
     * unless already triggered.
     */
    method Retrigger(lineWidth: nat) returns (fired: bool)
      modifies this`lpx, this`lpy, this`isTriggered
      ensures fired == !old(isTriggered) && isTriggered
      ensures fired ==> lpx == (if lineWidth == WIDE_LINE then 0xD5 else 0xD1) && lpy == 0
      ensures !fired ==> lpx == old(lpx) && lpy == old(lpy)
    {
      if isTriggered {
        return false;
      }
      isTriggered := true;
      lpx := if lineWidth == WIDE_LINE then 0xD5 else 0xD1;
      lpy := 0;
      fired := true;
    }

    /**
     * `trigger`: the first trigger latches the beam position; one on the
     * last line past cycle 0 only marks the latch as used.
     */
    method Trigger(lineCycle: nat, rasterY: nat) returns (fired: bool)
      requires lineCycle >= 13 || lineCycle + cyclesPerLine >= 13
      modifies this`lpx, this`lpy, this`isTriggered
      ensures isTriggered
      ensures fired == (!old(isTriggered) && !(rasterY == lastLine && lineCycle > 0))
      ensures fired ==> lpx == LpxAt(lineCycle, cyclesPerLine) && lpy == (rasterY % 256) as Byte
      ensures !fired ==> lpx == old(lpx) && lpy == old(lpy)
    {
      if isTriggered {
        return false;
      }
      isTriggered := true;
      if rasterY == lastLine && lineCycle > 0 {
        return false;
      }
      lpx := LpxAt(lineCycle, cyclesPerLine);
      lpy := (rasterY % 256) as Byte;
      fired := true;
    }

    /** `untrigger`: releases the latch for the next frame. */
    method Untrigger()
      modifies this`isTriggered
      ensures !isTriggered
    {
      isTriggered := false;
    }
  }
}
