/**
 * One interval timer of the cycle-level CIA (`c64_emu/cia/timer.rs`):
 * a 16-bit down counter, its latch and the VICE-style state word whose
 * bits pipeline the start, load and one-shot requests through the
 * cycles that follow a control write.
 */
module EmuCiaTimer {
  import opened Common

  // Control and pipeline bits of the state word.
  const CR_START: bv32 := 0x01
  const STEP: bv32 := 0x04
  const CR_ONESHOT: bv32 := 0x08
  const CR_FLOAD: bv32 := 0x10
  const PHI2IN: bv32 := 0x20
  /** START | ONESHOT | FLOAD | PHI2IN: the bits a control write replaces. */
  const CR_MASK: bv32 := 0x39
  const COUNT2: bv32 := 0x100
  const COUNT3: bv32 := 0x200
  const ONESHOT0: bv32 := 0x800
  const ONESHOT: bv32 := 0x8_0000
  const LOAD1: bv32 := 0x1000
  const LOAD: bv32 := 0x10_0000
  const OUT: bv32 := 0x8000_0000

  /** The state of a continuously counting timer in its steady state. */
  const RUNNING: bv32 := CR_START | PHI2IN | COUNT2 | COUNT3

  /** A timer's registers as a value: counter and latch are `u16`. */
  datatype TimerRegs = TimerRegs(counter: int, latch: int, state: bv32, pbToggle: bool, lastControl: Byte)

  predicate InWord(v: int) { 0 <= v < 0x1_0000 }

  predicate RegsValid(t: TimerRegs) { InWord(t.counter) && InWord(t.latch) }

  /** `wrapping_sub(1)` on a `u16`. */
  function Decrement(counter: int): int
  {
    (counter - 1) % 0x1_0000
  }

  /**
   * The state word one cycle on, before underflow and reload: START,
   * ONESHOT and PHI2IN stay; COUNT2 follows START with PHI2IN; COUNT3
   * follows COUNT2 or a cascade STEP of a started timer; FLOAD, ONESHOT,
   * LOAD1 and ONESHOT0 move eight bits up.
   */
  function Pipeline(state: bv32): bv32
  {
    var kept := state & (CR_START | CR_ONESHOT | PHI2IN);
    var c2 := if state & (CR_START | PHI2IN) == CR_START | PHI2IN then kept | COUNT2 else kept;
    var c3 := if state & COUNT2 != 0 || state & (STEP | CR_START) == STEP | CR_START then c2 | COUNT3 else c2;
    c3 | ((state & (CR_FLOAD | CR_ONESHOT | LOAD1 | ONESHOT0)) << 8)
  }

  /** The output toggle after an underflow, from the last control byte. */
  function ToggleAfter(lastControl: Byte, pbToggle: bool): bool
  {
    lastControl & 0x06 == 6 && !pbToggle
  }

  /** `tick_phi2` on a value: the registers one cycle on and whether the counter underflowed. */
  function Step(t: TimerRegs): (TimerRegs, bool)
  {
    var counter := if t.state & COUNT3 != 0 then Decrement(t.counter) else t.counter;
    var s := Pipeline(t.state);
    var underflow := counter == 0 && s & COUNT3 != 0;
    var fired := s | LOAD | OUT;
    var s' := if !underflow then s
              else if fired & (ONESHOT | ONESHOT0) != 0 then fired & !(CR_START | COUNT2)
              else fired;
    var pb := if underflow then ToggleAfter(t.lastControl, t.pbToggle) else t.pbToggle;
    if s' & LOAD != 0 then (TimerRegs(t.latch, t.latch, s' & !COUNT3, pb, t.lastControl), underflow)
    else (TimerRegs(counter, t.latch, s', pb, t.lastControl), underflow)
  }

  /** `n` cycles of `tick_phi2`, with the number of underflows they reported. */
  function Ticks(t: TimerRegs, n: nat): (TimerRegs, nat)
    decreases n
  {
    if n == 0 then (t, 0)
    else
      var (t1, u) := Step(t);
      var (t2, k) := Ticks(t1, n - 1);
      (t2, k + (if u then 1 else 0))
  }

  /** `set_control` on the state word. */
  function ControlState(state: bv32, cr: Byte): bv32
  {
    (state & !CR_MASK) | ((cr as bv32 & CR_MASK) ^ PHI2IN)
  }

  /** `latch_lo` and `latch_hi` on the latch value. */
  function LatchLo(latch: int, data: Byte): int { (latch / 0x100) * 0x100 + data as int }
  function LatchHi(latch: int, data: Byte): int { data as int * 0x100 + latch % 0x100 }

  /** The registers after `latch_lo`: the low latch byte, with the counter following while LOAD is set. */
  function LoWritten(t: TimerRegs, data: Byte): TimerRegs
  {
    var l := LatchLo(t.latch, data);
    t.(latch := l, counter := if t.state & LOAD != 0 then l else t.counter)
  }

  /** The registers after `latch_hi`: as for the low byte, but a stopped timer without LOAD schedules LOAD1. */
  function HiWritten(t: TimerRegs, data: Byte): TimerRegs
  {
    var l := LatchHi(t.latch, data);
    if t.state & LOAD != 0 then t.(latch := l, counter := l)
    else if t.state & CR_START == 0 then t.(latch := l, state := t.state | LOAD1)
    else t.(latch := l)
  }

  /** The registers after a control write: new control bits, the byte remembered, the toggle set by a start edge. */
  function ControlWritten(t: TimerRegs, startEdge: bool, cr: Byte): TimerRegs
  {
    t.(state := ControlState(t.state, cr), pbToggle := t.pbToggle || startEdge, lastControl := cr)
  }

  // ---------------------------------------------------------------------------
  //  The timer object
  // ---------------------------------------------------------------------------

  class Timer {
    var counter: int
    var latch: int
    var state: bv32
    var pbToggle: bool
    var lastControl: Byte

    predicate Valid()
      reads this
    {
      InWord(counter) && InWord(latch)
    }

    function Regs(): (t: TimerRegs)
      reads this
      ensures Valid() ==> RegsValid(t)
    {
      TimerRegs(counter, latch, state, pbToggle, lastControl)
    }

    /** `new`: counter and latch $FFFF, state clear, toggle low. */
    constructor ()
      ensures Valid() && counter == 0xFFFF && latch == 0xFFFF && state == 0 && !pbToggle && lastControl == 0
    {
      counter, latch, state, pbToggle, lastControl := 0xFFFF, 0xFFFF, 0, false, 0;
    }

    /** `reset`: as `new`. */
    method Reset()
      modifies this
      ensures Valid() && counter == 0xFFFF && latch == 0xFFFF && state == 0 && !pbToggle && lastControl == 0
    {
      counter, latch, state, pbToggle, lastControl := 0xFFFF, 0xFFFF, 0, false, 0;
    }

    /** `started`: the START bit. */
    function Started(): bool
      reads this
    {
      state & CR_START != 0
    }

    /** `set_control`: replaces the control bits of the state and remembers the byte. */
    method SetControl(cr: Byte)
      requires Valid()
      modifies this`state, this`lastControl
      ensures Valid() && state == ControlState(old(state), cr) && lastControl == cr
    {
      state := ControlState(state, cr);
      lastControl := cr;
    }

    /** `latch_lo`: the latch's low byte; the counter follows while LOAD is set. */
    method SetLatchLo(data: Byte)
      requires Valid()
      modifies this`latch, this`counter
      ensures Valid() && latch == LatchLo(old(latch), data)
      ensures counter == (if state & LOAD != 0 then latch else old(counter))
      ensures Regs() == LoWritten(old(Regs()), data)
    {
      LatchBytes(latch, data);
      latch := LatchLo(latch, data);
      if state & LOAD != 0 {
        counter := latch;
      }
    }

    /**
     * `latch_hi`: the latch's high byte; the counter follows while LOAD is
     * set, and a stopped timer schedules a load (LOAD1) instead.
     */
    method SetLatchHi(data: Byte)
      requires Valid()
      modifies this`latch, this`counter, this`state
      ensures Valid() && latch == LatchHi(old(latch), data)
      ensures counter == (if state & LOAD != 0 then latch else old(counter))
      ensures state == (if old(state) & LOAD == 0 && old(state) & CR_START == 0 then old(state) | LOAD1 else old(state))
      ensures Regs() == HiWritten(old(Regs()), data)
    {
      LatchBytes(latch, data);
      var r := HiWritten(Regs(), data);
      latch, counter, state := r.latch, r.counter, r.state;
    }

    /** `cascade_step`: one timer A underflow for a timer B that counts them. */
    method CascadeStep()
      modifies this`state
      ensures state == old(state) | STEP
      ensures Regs() == old(Regs()).(state := old(state) | STEP)
    {
      state := state | STEP;
    }

    /** `tick_phi2`. */
    method TickPhi2() returns (underflow: bool)
      requires Valid()
      modifies this
      ensures Valid()
      ensures Regs() == Step(old(Regs())).0 && underflow == Step(old(Regs())).1
    {
      var r := Step(Regs());
      StepSpec(Regs());
      counter, latch, state, pbToggle, lastControl := r.0.counter, r.0.latch, r.0.state, r.0.pbToggle, r.0.lastControl;
      underflow := r.1;
    }

    /** `get_pb`: the toggle when bit 2 of the control byte asks for it, the OUT pulse otherwise. */
    function GetPb(reg: Byte): (pb: bool)
      reads this
      ensures reg & 0x04 != 0 ==> pb == pbToggle
      ensures reg & 0x04 == 0 ==> pb == (state & OUT != 0)
    {
      if reg & 0x04 != 0 then pbToggle else state & OUT != 0
    }
  }

  // ---------------------------------------------------------------------------
  //  Properties
  // ---------------------------------------------------------------------------

  /** A latch write changes only its own byte. */
  lemma LatchBytes(latch: int, data: Byte)
    requires InWord(latch)
    ensures InWord(LatchLo(latch, data)) && InWord(LatchHi(latch, data))
    ensures LatchLo(latch, data) / 0x100 == latch / 0x100 && LatchLo(latch, data) % 0x100 == data as int
    ensures LatchHi(latch, data) / 0x100 == data as int && LatchHi(latch, data) % 0x100 == latch % 0x100
  {
    DivModUnique(LatchLo(latch, data), 0x100, latch / 0x100, data as int);
    DivModUnique(LatchHi(latch, data), 0x100, data as int, latch % 0x100);
  }

  /**
   * A control write sets the control bits to the byte's START, ONESHOT and
   * FLOAD bits and PHI2IN to the inverse of its bit 5; every other bit of
   * the state is kept.
   */
  lemma ControlStateSpec(state: bv32, cr: Byte)
    ensures ControlState(state, cr) & !CR_MASK == state & !CR_MASK
    ensures (ControlState(state, cr) & CR_START != 0) == (cr & 0x01 != 0)
    ensures (ControlState(state, cr) & CR_ONESHOT != 0) == (cr & 0x08 != 0)
    ensures (ControlState(state, cr) & CR_FLOAD != 0) == (cr & 0x10 != 0)
    ensures (ControlState(state, cr) & PHI2IN != 0) == (cr & 0x20 == 0)
  {
  }

  /**
   * One cycle: the counter counts down (wrapping) only when COUNT3 was
   * set on entry; an underflow is reported exactly when the counted value
   * is 0 while COUNT3 is set after the pipeline step, and it raises LOAD
   * and OUT and, in one-shot mode, stops the timer; whenever LOAD ends up
   * set the counter holds the latch and COUNT3 is clear.
   */
  lemma StepSpec(t: TimerRegs)
    requires RegsValid(t)
    ensures RegsValid(Step(t).0) && Step(t).0.latch == t.latch && Step(t).0.lastControl == t.lastControl
    ensures Step(t).1 == ((if t.state & COUNT3 != 0 then Decrement(t.counter) else t.counter) == 0 &&
                          Pipeline(t.state) & COUNT3 != 0)
    ensures Step(t).1 ==> Step(t).0.state & (LOAD | OUT) == LOAD | OUT && Step(t).0.counter == t.latch
    ensures Step(t).1 && Pipeline(t.state) & (ONESHOT | ONESHOT0) != 0 ==>
      Step(t).0.state & (CR_START | COUNT2) == 0
    ensures Step(t).0.state & LOAD != 0 ==> Step(t).0.counter == t.latch && Step(t).0.state & COUNT3 == 0
    ensures Step(t).0.state & LOAD == 0 ==>
      Step(t).0.counter == (if t.state & COUNT3 != 0 then Decrement(t.counter) else t.counter)
  {
  }

  /**
   * A stopped timer with nothing in its pipeline stays stopped, never
   * underflows and keeps its counter unless a load is pending.
   */
  lemma StoppedTimerHolds(t: TimerRegs)
    requires RegsValid(t) && t.state & (CR_START | COUNT2 | COUNT3) == 0
    ensures !Step(t).1
    ensures Step(t).0.state & (CR_START | COUNT2 | COUNT3) == 0
    ensures Step(t).0.state & LOAD == 0 ==> Step(t).0.counter == t.counter
  {
  }

  /**
   * Starting a timer (state START with PHI2IN after the control write)
   * takes two cycles to reach the steady counting state: the counter
   * first moves on the third cycle.
   */
  lemma StartLatency(t: TimerRegs)
    requires RegsValid(t) && t.state == CR_START | PHI2IN && t.counter >= 2
    ensures Step(t) == (t.(state := CR_START | PHI2IN | COUNT2), false)
    ensures Step(Step(t).0) == (t.(state := RUNNING), false)
    ensures Step(Step(Step(t).0).0) == (t.(state := RUNNING, counter := t.counter - 1), false)
  {
  }

  /** `Ticks` over `a + b` cycles is `Ticks` over `a` and then over `b`. */
  lemma {:induction false} TicksSplit(t: TimerRegs, a: nat, b: nat)
    ensures Ticks(t, a + b).0 == Ticks(Ticks(t, a).0, b).0
    ensures Ticks(t, a + b).1 == Ticks(t, a).1 + Ticks(Ticks(t, a).0, b).1
    decreases a
  {
    if a > 0 {
      TicksSplit(Step(t).0, a - 1, b);
      assert a + b - 1 == (a - 1) + b;
    }
  }

  /** A running timer counts down one per cycle while it stays above zero. */
  lemma {:induction false} CountDown(t: TimerRegs, k: nat)
    requires RegsValid(t) && t.state == RUNNING && k < t.counter
    ensures Ticks(t, k) == (t.(counter := t.counter - k), 0)
    decreases k
  {
    if k > 0 {
      var t1 := t.(counter := t.counter - 1);
      assert Step(t) == (t1, false);
      CountDown(t1, k - 1);
    }
  }

  /**
   * A continuously running timer with counter `c` ≥ 1 and latch `L` ≥ 1
   * underflows exactly once in the next `c + 1` cycles and ends in the
   * same steady state with the counter reloaded from the latch; from a
   * reload on, the timer therefore fires every `L + 1` cycles.
   */
  lemma {:induction false} Period(t: TimerRegs)
    requires RegsValid(t) && t.state == RUNNING && t.counter >= 1 && t.latch >= 1
    ensures Ticks(t, t.counter + 1) ==
      (t.(counter := t.latch, pbToggle := ToggleAfter(t.lastControl, t.pbToggle)), 1)
  {
    var c := t.counter;
    CountDown(t, c - 1);
    var t1 := t.(counter := 1);
    assert Ticks(t, c - 1).0 == t1;
    var pb := ToggleAfter(t.lastControl, t.pbToggle);
    var reloaded := t.(counter := t.latch, state := (RUNNING | LOAD | OUT) & !COUNT3, pbToggle := pb);
    assert Step(t1) == (reloaded, true);
    var t3 := t.(counter := t.latch, pbToggle := pb);
    assert Step(reloaded) == (t3, false);
    assert Ticks(reloaded, 1) == (t3, 0);
    assert Ticks(t1, 2) == (t3, 1);
    TicksSplit(t, c - 1, 2);
  }
}
