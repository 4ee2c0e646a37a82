/**
 * The complete cycle-level CIA (`c64_emu/cia/mod.rs`): sixteen
 * registers over two interval timers, the time-of-day clock, the serial
 * shift counter and the interrupt logic, read, written and clocked one
 * PHI2 cycle at a time.
 */
module EmuCia {
  import opened Common
  import opened EmuCiaInterrupt
  import opened EmuCiaTimer
  import opened EmuCiaTod

  // Register offsets.
  const PRA: nat := 0
  const PRB: nat := 1
  const DDRA: nat := 2
  const DDRB: nat := 3
  const TAL: nat := 4
  const TAH: nat := 5
  const TBL: nat := 6
  const TBH: nat := 7
  const TOD_TEN: nat := 8
  const TOD_HR: nat := 11
  const SDR: nat := 12
  const ICR: nat := 13
  const CRA: nat := 14
  const CRB: nat := 15

  // Interrupt flag bits.
  const INT_UNDERFLOW_A: Byte := 0x01
  const INT_UNDERFLOW_B: Byte := 0x02
  const INT_ALARM: Byte := 0x04
  const INT_SP: Byte := 0x08
  const INT_FLAG: Byte := 0x10

  /** The register a bus address selects: its low four bits. */
  function RegIndex(addr: Byte): (i: nat)
    ensures i < 16
  {
    (addr & 0x0F) as nat
  }

  /** A data port as read: output bits show the port latch, input bits float high. */
  function PortValue(port: Byte, ddr: Byte): Byte
  {
    port | !ddr
  }

  /** `adjust_data_port`: timer outputs on PB6 (CRA bit 1) and PB7 (CRB bit 1). */
  function AdjustDataPort(data: Byte, cra: Byte, crb: Byte, pbA: bool, pbB: bool): Byte
  {
    var d6 := if cra & 0x02 != 0 then (data & 0xBF) | (if pbA then 0x40 else 0) else data;
    if crb & 0x02 != 0 then (d6 & 0x7F) | (if pbB then 0x80 else 0) else d6
  }

  /** A control register as read: bit 4 (force load) reads 0 and bit 0 shows the timer running. */
  function ControlRead(cr: Byte, started: bool): Byte
  {
    (cr & 0xEE) | (if started then 1 else 0)
  }

  /** The low and high bytes of a timer's counter. */
  function CounterLo(counter: int): Byte
    requires InWord(counter)
  {
    (counter % 0x100) as Byte
  }

  function CounterHi(counter: int): Byte
    requires InWord(counter)
  {
    (counter / 0x100) as Byte
  }

  /** The input timer B is given by a CRB write: bit 6 also sets the PHI2IN-inverting bit 5. */
  function CrbControl(data: Byte): Byte
  {
    data | ((data & 0x40) >> 1)
  }

  /** Whether a timer A underflow steps timer B (CRB bits 6:5 = 10 with bit 0 set, and B running). */
  predicate Cascades(crb: Byte, bStarted: bool)
  {
    crb & 0x61 == 0x41 && bStarted
  }

  /** CRA bit 6: the serial port shifts out on timer A's underflows. */
  predicate SerialOutput(cra: Byte)
  {
    cra & 0x40 != 0
  }

  /** The shift counter after a timer A underflow in output mode: it wraps after eight. */
  function ShiftAfter(count: nat): nat
  {
    if count + 1 >= 8 then 0 else count + 1
  }

  /** The timer B that takes this cycle's step: with a cascade count when A underflowed in cascade mode. */
  function TimerBInput(aFired: bool, b: TimerRegs, crb: Byte): TimerRegs
  {
    if aFired && Cascades(crb, b.state & CR_START != 0) then b.(state := b.state | STEP) else b
  }

  // ---------------------------------------------------------------------------
  //  Register-level facts
  // ---------------------------------------------------------------------------

  /** Output bits read the latch, input bits read 1. */
  lemma PortValueSpec(port: Byte, ddr: Byte)
    ensures PortValue(port, ddr) & ddr == port & ddr
    ensures PortValue(port, ddr) & !ddr == !ddr
  {
  }

  /**
   * With CRA bit 1 set, PB6 shows timer A's output; with CRB bit 1 set,
   * PB7 shows timer B's; bits 0-5 always read the port.
   */
  lemma AdjustDataPortSpec(data: Byte, cra: Byte, crb: Byte, pbA: bool, pbB: bool)
    ensures AdjustDataPort(data, cra, crb, pbA, pbB) & 0x3F == data & 0x3F
    ensures cra & 0x02 != 0 ==> (AdjustDataPort(data, cra, crb, pbA, pbB) & 0x40 != 0) == pbA
    ensures cra & 0x02 == 0 ==> AdjustDataPort(data, cra, crb, pbA, pbB) & 0x40 == data & 0x40
    ensures crb & 0x02 != 0 ==> (AdjustDataPort(data, cra, crb, pbA, pbB) & 0x80 != 0) == pbB
    ensures crb & 0x02 == 0 ==> AdjustDataPort(data, cra, crb, pbA, pbB) & 0x80 == data & 0x80
  {
  }

  /** A control read shows the stored byte except bit 4 (0) and bit 0 (running). */
  lemma ControlReadSpec(cr: Byte, started: bool)
    ensures ControlRead(cr, started) & 0xEE == cr & 0xEE
    ensures ControlRead(cr, started) & 0x10 == 0
    ensures (ControlRead(cr, started) & 0x01 != 0) == started
  {
  }

  /** The two counter bytes put back together give the counter. */
  lemma CounterBytesSpec(counter: int)
    requires InWord(counter)
    ensures CounterHi(counter) as int * 0x100 + CounterLo(counter) as int == counter
  {
    ByteRoundTrip(counter % 0x100);
    ByteRoundTrip(counter / 0x100);
  }

  /** Two data register values with the same flags agree on every flag bit. */
  lemma SameFlagBits(x: Byte, y: Byte)
    requires Flags(x) == Flags(y)
    ensures x & INT_UNDERFLOW_A == y & INT_UNDERFLOW_A && x & INT_UNDERFLOW_B == y & INT_UNDERFLOW_B
    ensures x & INT_ALARM == y & INT_ALARM && x & INT_SP == y & INT_SP && x & 0x70 == y & 0x70
  {
  }

  /** The shift counter stays below eight and wraps exactly on the eighth underflow. */
  lemma ShiftAfterSpec(count: nat)
    requires count < 8
    ensures ShiftAfter(count) < 8
    ensures ShiftAfter(count) == 0 <==> count == 7
  {
  }

  // ---------------------------------------------------------------------------
  //  The chip
  // ---------------------------------------------------------------------------

  /**
   * A CIA's state as values: the register file, both timers, the serial
   * counter, the cycle count, the interrupt mask, data and line, the TOD,
   * the divider the TOD's next cycle would leave, the chip model and the
   * pending trigger.
   */
  datatype CiaState = CiaState(regs: seq<Byte>, timerA: TimerRegs, timerB: TimerRegs, sdrShiftCount: nat,
                               clock: nat, icr: Byte, idr: Byte, asserted: bool, tod: TodState, todNext: Divider,
                               model: CiaModel, pending: Option<Byte>)

  /**
   * The last flag a cycle raises, in the order `tick` raises them:
   * UNDERFLOW_A, SP, UNDERFLOW_B, then ALARM.
   */
  function LastRaised(underflowA: bool, serialDone: bool, underflowB: bool, alarm: bool): (r: Option<Byte>)
    ensures r.Some? <==> underflowA || serialDone || underflowB || alarm
    ensures alarm ==> r == Some(INT_ALARM)
  {
    Later(Later(Later(FlagIf(underflowA, INT_UNDERFLOW_A), FlagIf(serialDone, INT_SP)),
                FlagIf(underflowB, INT_UNDERFLOW_B)), FlagIf(alarm, INT_ALARM))
  }

  /**
   * The line and pending trigger after one cycle from `s` whose last raised
   * flag is `last`, leaving data `idr`: the line is up when it was up, when
   * a pending trigger was delivered with an enabled flag set, or when a
   * flag was raised and an enabled flag is now set; the 6526 models then
   * hold the last raised flag as the pending trigger, otherwise nothing is
   * pending.
   */
  predicate LineTicked(s: CiaState, last: Option<Byte>, idr: Byte, asserted: bool, pending: Option<Byte>)
  {
    LineFrom(s.asserted || (s.pending.Some? && Enabled(s.idr, s.icr)), None, s.model, Enabled(idr, s.icr), last,
             asserted, pending)
  }

  /** The last flag of a cycle's run, begun with no flag raised. */
  lemma RunLast(r0: Run, underflowA: bool, serialDone: bool, underflowB: bool, alarm: bool)
    requires r0.last == None
    ensures r0.Then(FlagIf(underflowA, INT_UNDERFLOW_A)).Then(FlagIf(serialDone, INT_SP))
              .Then(FlagIf(underflowB, INT_UNDERFLOW_B)).Then(FlagIf(alarm, INT_ALARM))
            == r0.(last := LastRaised(underflowA, serialDone, underflowB, alarm))
  {
  }

  class Mos652x {
    const regs: array<Byte>
    const timerA: Timer
    const timerB: Timer
    const tod: Tod
    const interrupt: InterruptSource
    /** Cycles elapsed (`u64`, unbounded here). */
    var clock: nat
    /** Timer A underflows in serial output mode since the transfer began. */
    var sdrShiftCount: nat

    predicate Valid()
      reads this, timerA, timerB, tod, interrupt
    {
      regs.Length == 16 && timerA != timerB &&
      timerA.Valid() && timerB.Valid() && tod.Valid() && interrupt.Valid() &&
      regs != tod.clock && regs != tod.latch && regs != tod.alarm &&
      sdrShiftCount < 8
    }

    /** The chip's state as values. */
    ghost function Snapshot(): (s: CiaState)
      requires Valid()
      reads this, regs, timerA, timerB, tod, tod.clock, tod.latch, tod.alarm, interrupt
    {
      CiaState(regs[..], timerA.Regs(), timerB.Regs(), sdrShiftCount, clock,
               interrupt.icr, interrupt.idr, interrupt.asserted, tod.State(), tod.NextTicks(regs[CRA]),
               interrupt.model, interrupt.pendingTrigger)
    }

    /**
     * What a `read` of register `a` answers and leaves, from `s`: ports
     * float their input bits high (PRB with the timer outputs), timers
     * show their counters, the TOD registers go through its latch, ICR
     * hands over the pending flags and clears them, the control registers
     * show the running bit. Only an ICR read changes the interrupt data;
     * registers and timers stay.
     */
    ghost predicate ReadFrom(s: CiaState, a: nat, v: Byte)
      requires Valid()
      reads this, regs, timerA, timerB, tod, interrupt
    {
      |s.regs| == 16 && |s.tod.clock| == 4 && |s.tod.latch| == 4 &&
      regs[..] == s.regs && timerA.Regs() == s.timerA && timerB.Regs() == s.timerB &&
      (a == PRA ==> v == PortValue(s.regs[PRA], s.regs[DDRA])) &&
      (a == PRB ==> v == AdjustDataPort(PortValue(s.regs[PRB], s.regs[DDRB]), s.regs[CRA], s.regs[CRB],
                                        timerA.GetPb(s.regs[CRA]), timerB.GetPb(s.regs[CRB]))) &&
      (a == TAL ==> v == CounterLo(timerA.counter)) &&
      (a == TAH ==> v == CounterHi(timerA.counter)) &&
      (a == TBL ==> v == CounterLo(timerB.counter)) &&
      (a == TBH ==> v == CounterHi(timerB.counter)) &&
      (TOD_TEN <= a <= TOD_HR ==>
         v == (if s.tod.isLatched then s.tod.latch[a - TOD_TEN] else s.tod.clock[a - TOD_TEN])) &&
      (a == ICR ==> v == s.idr && interrupt.idr == 0 && !interrupt.asserted) &&
      interrupt.model == s.model && interrupt.pendingTrigger == s.pending &&
      (a != ICR ==> interrupt.idr == s.idr) &&
      (a == CRA ==> v == ControlRead(s.regs[CRA], timerA.Started())) &&
      (a == CRB ==> v == ControlRead(s.regs[CRB], timerB.Started())) &&
      (a == SDR || a == DDRA || a == DDRB ==> v == s.regs[a])
    }

    /**
     * The state a `write` of `data` to register `a` leaves from `s`: the
     * byte stored; the latch writes and control writes reloading or
     * restarting their timer as `LoWritten`, `HiWritten` and
     * `ControlWritten` say (CRB through `CrbControl`), the other timer
     * kept; a TOD register written as the TOD says, with CRB bit 7
     * choosing the alarm; an SDR write in output mode restarting the
     * serial counter; an ICR write moving the mask, any other write
     * leaving the interrupt logic alone.
     */
    ghost predicate WrittenFrom(s: CiaState, a: nat, data: Byte)
      requires Valid()
      reads this, regs, timerA, timerB, tod, tod.clock, tod.latch, tod.alarm, interrupt
    {
      |s.regs| == 16 && a < 16 &&
      clock == s.clock && regs[..] == s.regs[a := data] &&
      (a == ICR ==> interrupt.icr == MaskAfter(s.icr, data)) &&
      (a != ICR ==> interrupt.icr == s.icr && interrupt.idr == s.idr && interrupt.asserted == s.asserted) &&
      interrupt.model == s.model && interrupt.pendingTrigger == s.pending &&
      timerA.Regs() ==
        (if a == TAL then LoWritten(s.timerA, data)
         else if a == TAH then HiWritten(s.timerA, data)
         else if a == CRA then ControlWritten(s.timerA, data & 1 != 0 && s.regs[CRA] & 1 == 0, data)
         else s.timerA) &&
      timerB.Regs() ==
        (if a == TBL then LoWritten(s.timerB, data)
         else if a == TBH then HiWritten(s.timerB, data)
         else if a == CRB then ControlWritten(s.timerB, data & 1 != 0 && s.regs[CRB] & 1 == 0, CrbControl(data))
         else s.timerB) &&
      (TOD_TEN <= a <= TOD_HR ==> tod.Written(s.tod, a - TOD_TEN, data, s.regs[CRB])) &&
      (!(TOD_TEN <= a <= TOD_HR) ==> tod.State() == s.tod) &&
      sdrShiftCount == (if a == SDR && SerialOutput(s.regs[CRA]) then 0 else s.sdrShiftCount)
    }

    /**
     * The state one `tick` leaves from `s`: timer A steps; its underflow
     * feeds timer B's input and, in serial output mode, the shift counter;
     * timer B steps; the TOD reaches the divider it was due. Each underflow,
     * a finished serial byte and a matched alarm set their flag in the
     * interrupt data, which keeps every other flag; the mask stays. The
     * line is up when it was up, when a pending trigger was delivered with
     * an enabled flag set, or when this cycle raised a flag and an enabled
     * flag is now set; the 6526 models then hold the last flag raised as
     * the pending trigger, and otherwise nothing is pending.
     */
    ghost predicate TickedFrom(s: CiaState)
      requires Valid()
      reads this, regs, timerA, timerB, tod, tod.clock, interrupt
    {
      |s.regs| == 16 &&
      var (a, underflowA) := Step(s.timerA);
      var (b, underflowB) := Step(TimerBInput(underflowA, s.timerB, s.regs[CRB]));
      var shifted := underflowA && SerialOutput(s.regs[CRA]);
      clock == s.clock + 1 && regs[..] == s.regs && timerA.Regs() == a && timerB.Regs() == b &&
      sdrShiftCount == (if shifted then ShiftAfter(s.sdrShiftCount) else s.sdrShiftCount) &&
      tod.Reached(s.todNext, s.tod.cycles) &&
      interrupt.icr == s.icr && interrupt.model == s.model &&
      (interrupt.idr & INT_UNDERFLOW_A != 0) == (s.idr & INT_UNDERFLOW_A != 0 || underflowA) &&
      (interrupt.idr & INT_SP != 0) == (s.idr & INT_SP != 0 || (shifted && ShiftAfter(s.sdrShiftCount) == 0)) &&
      (interrupt.idr & INT_UNDERFLOW_B != 0) == (s.idr & INT_UNDERFLOW_B != 0 || underflowB) &&
      (interrupt.idr & INT_ALARM != 0) == (s.idr & INT_ALARM != 0 || s.todNext.alarmed) &&
      interrupt.idr & 0x70 == s.idr & 0x70 &&
      LineTicked(s, LastRaised(underflowA, shifted && ShiftAfter(s.sdrShiftCount) == 0, underflowB, s.todNext.alarmed),
                 interrupt.idr, interrupt.asserted, interrupt.pendingTrigger)
    }

    /**
     * `new`: fresh parts, each already in the state `reset` gives it, so
     * the chip starts as `Reset` leaves it, with the cycle count at zero.
     */
    constructor (model: CiaModel)
      ensures Valid() && fresh(regs) && fresh(timerA) && fresh(timerB) && fresh(interrupt)
      ensures fresh(tod) && fresh(tod.clock) && fresh(tod.latch) && fresh(tod.alarm)
      ensures interrupt.model == model && clock == 0 && sdrShiftCount == 0
      ensures forall i :: 0 <= i < 16 ==> regs[i] == 0
      ensures timerA.Regs() == TimerRegs(0xFFFF, 0xFFFF, 0, false, 0) && timerB.Regs() == timerA.Regs()
      ensures tod.clock[..] == [0, 0, 0, 1] && tod.isStopped
      ensures interrupt.idr == 0 && interrupt.icr == 0 && !interrupt.asserted
    {
      regs := new Byte[16](_ => 0);
      timerA := new Timer();
      timerB := new Timer();
      tod := new Tod();
      interrupt := new InterruptSource(model);
      clock := 0;
      sdrShiftCount := 0;
    }

    /** `set_model`: a fresh interrupt source of the new model. */
    method SetModel(model: CiaModel)
      requires Valid()
      modifies interrupt
      ensures Valid() && interrupt.model == model
      ensures interrupt.icr == 0 && interrupt.idr == 0 && !interrupt.asserted
    {
      interrupt.Renew(model);
    }

    /** `reset`: registers zero and every part reset; the cycle count keeps running. */
    method Reset()
      requires Valid()
      modifies this, regs, timerA, timerB, tod, tod.clock, tod.latch, tod.alarm, interrupt
      ensures Valid() && clock == old(clock) && sdrShiftCount == 0
      ensures forall i :: 0 <= i < 16 ==> regs[i] == 0
      ensures timerA.Regs() == TimerRegs(0xFFFF, 0xFFFF, 0, false, 0) && timerB.Regs() == timerA.Regs()
      ensures tod.clock[..] == [0, 0, 0, 1] && tod.isStopped
      ensures interrupt.idr == 0 && interrupt.icr == 0 && !interrupt.asserted
    {
      forall i | 0 <= i < 16 {
        regs[i] := 0;
      }
      timerA.Reset();
      timerB.Reset();
      tod.Reset();
      interrupt.Reset();
      sdrShiftCount := 0;
    }

    /** `interrupt_asserted`. */
    function InterruptAsserted(): (b: bool)
      reads this, timerA, timerB, tod, interrupt
      requires Valid()
      ensures b == Requested(interrupt.idr)
    {
      interrupt.asserted
    }

    /** `set_day_of_time_rate`. */
    method SetDayOfTimeRate(rate: nat)
      requires Valid() && rate < 0x1_0000_0000
      modifies tod
      ensures Valid() && tod.period == rate * 128
    {
      tod.SetPeriod(rate);
    }

    /**
     * `set_flag`: a falling edge on FLAG triggers the FLAG source, with
     * `trigger`'s answer, flags and pending trigger.
     */
    method SetFlag() returns (r: Option<bool>)
      requires Valid()
      modifies interrupt
      ensures Valid() && interrupt.model == old(interrupt.model) && interrupt.icr == old(interrupt.icr)
      ensures r == (if !old(interrupt.asserted) && interrupt.asserted then Some(true) else None)
      ensures r == (if Enabled(old(interrupt.idr) | INT_FLAG, interrupt.icr) && !Requested(old(interrupt.idr))
                    then Some(true) else None)
      ensures interrupt.idr == (if r.Some? then Raise(old(interrupt.idr) | INT_FLAG) else old(interrupt.idr) | INT_FLAG)
      ensures interrupt.pendingTrigger ==
        (if Enabled(old(interrupt.idr) | INT_FLAG, interrupt.icr) && interrupt.model != Mos8521
         then Some(INT_FLAG) else old(interrupt.pendingTrigger))
      ensures interrupt.idr & INT_FLAG != 0
    {
      var fired := interrupt.Trigger(INT_FLAG);
      FlagRecorded(old(interrupt.idr), interrupt.idr, INT_FLAG, interrupt.icr);
      r := if fired then Some(true) else None;
    }

    // -------------------------------------------------------------------------
    //  Reads
    // -------------------------------------------------------------------------

    /**
     * `read`: ports float their input bits high (PRB with the timer
     * outputs), timers show their counters, the TOD registers go through
     * its latch, ICR acknowledges (reporting the line released when it was
     * asserted) and the control registers show the running bit.
     */
    method Read(addr: Byte) returns (val: Byte, irqDelta: Option<bool>)
      requires Valid()
      modifies tod.latch, tod, interrupt
      ensures Valid()
      ensures ReadFrom(old(Snapshot()), RegIndex(addr), val)
      ensures irqDelta == (if RegIndex(addr) == ICR && Requested(old(interrupt.idr)) then Some(false) else None)
      ensures RegIndex(addr) != ICR ==> interrupt.idr == old(interrupt.idr)
    {
      var a := RegIndex(addr);
      irqDelta := None;
      if a == PRA {
        val := PortValue(regs[PRA], regs[DDRA]);
      } else if a == PRB {
        val := AdjustDataPort(PortValue(regs[PRB], regs[DDRB]), regs[CRA], regs[CRB],
                              timerA.GetPb(regs[CRA]), timerB.GetPb(regs[CRB]));
      } else if a == TAL {
        val := CounterLo(timerA.counter);
      } else if a == TAH {
        val := CounterHi(timerA.counter);
      } else if a == TBL {
        val := CounterLo(timerB.counter);
      } else if a == TBH {
        val := CounterHi(timerB.counter);
      } else if TOD_TEN <= a <= TOD_HR {
        val := tod.Read(a - TOD_TEN);
      } else if a == ICR {
        val := interrupt.Clear();
        if Requested(val) {
          irqDelta := Some(false);
        }
      } else if a == CRA {
        val := ControlRead(regs[CRA], timerA.Started());
      } else if a == CRB {
        val := ControlRead(regs[CRB], timerB.Started());
      } else {
        val := regs[a];
      }
    }

    // -------------------------------------------------------------------------
    //  Writes
    // -------------------------------------------------------------------------

    /**
     * `write`: the byte is always stored in the register file; then the
     * timer latches, the TOD, the serial counter, the mask or a control
     * register react. Only an ICR write can report an interrupt change.
     */
    method Write(addr: Byte, data: Byte) returns (irqDelta: Option<bool>)
      requires Valid()
      modifies this, regs, timerA, timerB, tod.clock, tod.alarm, tod, interrupt
      ensures Valid() && WrittenFrom(old(Snapshot()), RegIndex(addr), data)
      ensures RegIndex(addr) != ICR ==> irqDelta == None && unchanged(interrupt)
      ensures RegIndex(addr) == ICR ==>
        irqDelta == (if Enabled(old(interrupt.idr), interrupt.icr) && !Requested(old(interrupt.idr))
                     then Some(true) else None)
    {
      var a := RegIndex(addr);
      var prev, cra, crb := regs[a], regs[CRA], regs[CRB];
      regs[a] := data;
      irqDelta := WriteEffect(a, prev, data, cra, crb);
    }

    /**
     * What a write of `data` to register `a` does beyond storing it, given
     * the register's previous value `prev` and the control registers as
     * they were before the write.
     */
    method WriteEffect(a: nat, prev: Byte, data: Byte, cra: Byte, crb: Byte) returns (irqDelta: Option<bool>)
      requires Valid() && a < 16
      modifies this`sdrShiftCount, timerA, timerB, tod.clock, tod.alarm, tod, interrupt
      ensures Valid()
      ensures a != ICR ==> irqDelta == None && unchanged(interrupt)
      ensures interrupt.model == old(interrupt.model) && interrupt.pendingTrigger == old(interrupt.pendingTrigger)
      ensures a == ICR ==>
        interrupt.icr == MaskAfter(old(interrupt.icr), data) &&
        irqDelta == (if Enabled(old(interrupt.idr), interrupt.icr) && !Requested(old(interrupt.idr))
                     then Some(true) else None)
      ensures a == TAL ==> timerA.Regs() == LoWritten(old(timerA.Regs()), data)
      ensures a == TAH ==> timerA.Regs() == HiWritten(old(timerA.Regs()), data)
      ensures a == TBL ==> timerB.Regs() == LoWritten(old(timerB.Regs()), data)
      ensures a == TBH ==> timerB.Regs() == HiWritten(old(timerB.Regs()), data)
      ensures a == CRA ==> timerA.Regs() == ControlWritten(old(timerA.Regs()), data & 1 != 0 && prev & 1 == 0, data)
      ensures a == CRB ==>
        timerB.Regs() == ControlWritten(old(timerB.Regs()), data & 1 != 0 && prev & 1 == 0, CrbControl(data))
      ensures a !in {TAL, TAH, CRA} ==> timerA.Regs() == old(timerA.Regs())
      ensures a !in {TBL, TBH, CRB} ==> timerB.Regs() == old(timerB.Regs())
      ensures TOD_TEN <= a <= TOD_HR ==> tod.Written(old(tod.State()), a - TOD_TEN, data, crb)
      ensures !(TOD_TEN <= a <= TOD_HR) ==> unchanged(tod, tod.clock, tod.alarm)
      ensures sdrShiftCount == (if a == SDR && SerialOutput(cra) then 0 else old(sdrShiftCount))
    {
      irqDelta := None;
      if a == TAL {
        timerA.SetLatchLo(data);
      } else if a == TAH {
        timerA.SetLatchHi(data);
      } else if a == TBL {
        timerB.SetLatchLo(data);
      } else if a == TBH {
        timerB.SetLatchHi(data);
      } else if TOD_TEN <= a <= TOD_HR {
        tod.Write(a - TOD_TEN, data, cra, crb);
      } else if a == SDR {
        if SerialOutput(cra) {
          sdrShiftCount := 0;
        }
      } else if a == ICR {
        irqDelta := interrupt.SetMask(data);
      } else if a == CRA {
        WriteControl(timerA, prev, data, data);
      } else if a == CRB {
        WriteControl(timerB, prev, data, CrbControl(data));
      }
    }

    /** A control write: a 0 → 1 start bit sets the timer's toggle, then the control bits go in. */
    static method WriteControl(t: Timer, prev: Byte, data: Byte, cr: Byte)
      requires t.Valid()
      modifies t
      ensures t.Valid() && t.Regs() == ControlWritten(old(t.Regs()), data & 1 != 0 && prev & 1 == 0, cr)
    {
      if data & 1 != 0 && prev & 1 == 0 {
        t.pbToggle := true;
      }
      t.SetControl(cr);
    }

    // -------------------------------------------------------------------------
    //  The clock
    // -------------------------------------------------------------------------

    /**
     * `tick`: one PHI2 cycle — the delayed interrupt of the older models,
     * timer A (with the cascade into timer B and the serial counter),
     * timer B and the TOD, in that order. Answers `Some(true)` exactly
     * when the interrupt line went up during this cycle, and never
     * `Some(false)`.
     */
    method Tick() returns (r: Option<bool>)
      requires Valid()
      modifies this, timerA, timerB, tod, tod.clock, interrupt
      ensures Valid() && TickedFrom(old(Snapshot()))
      ensures r == (if !old(interrupt.asserted) && interrupt.asserted then Some(true) else None)
    {
      ghost var s := Snapshot();
      clock := clock + 1;
      var delayed := interrupt.TickDelayed();
      SameFlagBits(interrupt.idr, old(interrupt.idr));
      interrupt.BeginRun();
      ghost var r0 := interrupt.run;
      var fromTimers := TimersPhase(regs[CRA], regs[CRB], s, r0);
      var fromTod := TodPhase(regs[CRA], s, r0);
      r := if delayed || fromTimers || fromTod then Some(true) else None;
    }

    /**
     * The state is `s` after the cycle's first step: the clock counted
     * and the delayed interrupt delivered, which keeps every flag; the run
     * of triggers begins from the line that step left.
     */
    ghost predicate DelayedFrom(s: CiaState)
      requires Valid()
      reads this, regs, timerA, timerB, tod, tod.clock, tod.alarm, interrupt
    {
      |s.regs| == 16 && clock == s.clock + 1 && regs[..] == s.regs &&
      timerA.Regs() == s.timerA && timerB.Regs() == s.timerB && sdrShiftCount == s.sdrShiftCount &&
      tod.NextTicks(regs[CRA]) == s.todNext && tod.cycles == s.tod.cycles &&
      interrupt.icr == s.icr && interrupt.model == s.model &&
      interrupt.idr & INT_UNDERFLOW_A == s.idr & INT_UNDERFLOW_A && interrupt.idr & INT_UNDERFLOW_B == s.idr & INT_UNDERFLOW_B &&
      interrupt.idr & INT_ALARM == s.idr & INT_ALARM && interrupt.idr & INT_SP == s.idr & INT_SP &&
      interrupt.idr & 0x70 == s.idr & 0x70 &&
      interrupt.run.asserted == (s.asserted || (s.pending.Some? && Enabled(s.idr, s.icr))) &&
      interrupt.run.pending == None && interrupt.run.last == None
    }

    /**
     * The state is `s` after the timers' phase of a tick: the clock
     * counted, both timers stepped, the serial shift made, their flags set
     * and the TOD and the ALARM flag not yet touched; the run of triggers
     * began at `r0`, from the line the delayed interrupt left.
     */
    ghost predicate TimersFrom(s: CiaState, r0: Run)
      requires Valid()
      reads this, regs, timerA, timerB, tod, tod.clock, tod.alarm, interrupt
    {
      |s.regs| == 16 &&
      var (a, underflowA) := Step(s.timerA);
      var (b, underflowB) := Step(TimerBInput(underflowA, s.timerB, s.regs[CRB]));
      var shifted := underflowA && SerialOutput(s.regs[CRA]);
      var serialDone := shifted && ShiftAfter(s.sdrShiftCount) == 0;
      clock == s.clock + 1 && regs[..] == s.regs && timerA.Regs() == a && timerB.Regs() == b &&
      sdrShiftCount == (if shifted then ShiftAfter(s.sdrShiftCount) else s.sdrShiftCount) &&
      tod.NextTicks(regs[CRA]) == s.todNext && tod.cycles == s.tod.cycles &&
      interrupt.icr == s.icr && interrupt.model == s.model &&
      (interrupt.idr & INT_UNDERFLOW_A != 0) == (s.idr & INT_UNDERFLOW_A != 0 || underflowA) &&
      (interrupt.idr & INT_SP != 0) == (s.idr & INT_SP != 0 || serialDone) &&
      (interrupt.idr & INT_UNDERFLOW_B != 0) == (s.idr & INT_UNDERFLOW_B != 0 || underflowB) &&
      interrupt.idr & INT_ALARM == s.idr & INT_ALARM && interrupt.idr & 0x70 == s.idr & 0x70 &&
      r0.asserted == (s.asserted || (s.pending.Some? && Enabled(s.idr, s.icr))) && r0.pending == None && r0.last == None &&
      interrupt.InRun() &&
      interrupt.run == r0.Then(FlagIf(underflowA, INT_UNDERFLOW_A)).Then(FlagIf(serialDone, INT_SP))
                        .Then(FlagIf(underflowB, INT_UNDERFLOW_B))
    }

    /**
     * Both timers' cycle, after the delayed interrupt: timer A (with its
     * cascade into B and the serial shift), then timer B.
     */
    method TimersPhase(cra: Byte, crb: Byte, ghost s: CiaState, ghost r0: Run) returns (fired: bool)
      requires Valid() && cra == regs[CRA] && crb == regs[CRB] && interrupt.InRun()
      requires DelayedFrom(s) && interrupt.run == r0
      modifies this`sdrShiftCount, timerA, timerB, interrupt
      ensures Valid() && TimersFrom(s, r0)
      ensures (old(interrupt.asserted) ==> interrupt.asserted) && fired == (!old(interrupt.asserted) && interrupt.asserted)
    {
      fired := TimerAPhase(cra, crb);
      var fromB := TimerBPhase();
      fired := fired || fromB;
    }

    /**
     * Timer A's cycle: an underflow flags UNDERFLOW_A, gives timer B a
     * cascade count in cascade mode and shifts the serial counter in
     * output mode.
     */
    method TimerAPhase(cra: Byte, crb: Byte) returns (fired: bool)
      requires Valid() && cra == regs[CRA] && crb == regs[CRB] && interrupt.InRun()
      modifies this`sdrShiftCount, timerA, timerB, interrupt
      ensures Valid()
      ensures timerA.Regs() == Step(old(timerA.Regs())).0
      ensures (old(interrupt.asserted) ==> interrupt.asserted) && fired == (!old(interrupt.asserted) && interrupt.asserted)
      ensures timerB.Regs() == TimerBInput(Step(old(timerA.Regs())).1, old(timerB.Regs()), crb)
      ensures sdrShiftCount ==
        (if Step(old(timerA.Regs())).1 && SerialOutput(cra) then ShiftAfter(old(sdrShiftCount)) else old(sdrShiftCount))
      ensures interrupt.icr == old(interrupt.icr) && interrupt.model == old(interrupt.model)
      ensures (interrupt.idr & INT_UNDERFLOW_A != 0) == (old(interrupt.idr) & INT_UNDERFLOW_A != 0 || Step(old(timerA.Regs())).1)
      ensures (interrupt.idr & INT_SP != 0) ==
        (old(interrupt.idr) & INT_SP != 0 || (Step(old(timerA.Regs())).1 && SerialOutput(cra) && ShiftAfter(old(sdrShiftCount)) == 0))
      ensures interrupt.idr & 0x76 == old(interrupt.idr) & 0x76
      ensures var ua := Step(old(timerA.Regs())).1;
        interrupt.InRun() &&
        interrupt.run == old(interrupt.run)
          .Then(FlagIf(ua, INT_UNDERFLOW_A))
          .Then(FlagIf(ua && SerialOutput(cra) && ShiftAfter(old(sdrShiftCount)) == 0, INT_SP))
    {
      var ua := timerA.TickPhi2();
      fired := interrupt.TriggerIf(ua, INT_UNDERFLOW_A);
      CascadeB(ua, crb);
      var sp := SerialOnUnderflow(ua, cra);
      fired := fired || sp;
    }

    /** Timer B's cascade count on an underflow of timer A, in cascade mode. */
    method CascadeB(ua: bool, crb: Byte)
      requires timerB.Valid()
      modifies timerB
      ensures timerB.Valid() && timerB.Regs() == TimerBInput(ua, old(timerB.Regs()), crb)
    {
      if ua && Cascades(crb, timerB.Started()) {
        timerB.CascadeStep();
      }
    }

    /** The serial shift an underflow of timer A makes in output mode. */
    method SerialOnUnderflow(ua: bool, cra: Byte) returns (fired: bool)
      requires Valid() && cra == regs[CRA] && interrupt.InRun()
      modifies this`sdrShiftCount, interrupt
      ensures Valid()
      ensures (old(interrupt.asserted) ==> interrupt.asserted) && fired == (!old(interrupt.asserted) && interrupt.asserted)
      ensures sdrShiftCount == (if ua && SerialOutput(cra) then ShiftAfter(old(sdrShiftCount)) else old(sdrShiftCount))
      ensures interrupt.icr == old(interrupt.icr) && interrupt.model == old(interrupt.model)
      ensures ua && SerialOutput(cra) && sdrShiftCount == 0 ==> Flags(interrupt.idr) == Flags(old(interrupt.idr) | INT_SP)
      ensures !(ua && SerialOutput(cra) && sdrShiftCount == 0) ==> interrupt.idr == old(interrupt.idr)
      ensures interrupt.InRun() &&
        interrupt.run == old(interrupt.run)
          .Then(FlagIf(ua && SerialOutput(cra) && sdrShiftCount == 0, INT_SP))
    {
      if ua && SerialOutput(cra) {
        fired := ShiftSerial();
      } else {
        fired := false;
      }
    }

    /** One bit shifted out in serial output mode; the eighth completes the byte and flags SP. */
    method ShiftSerial() returns (fired: bool)
      requires Valid() && interrupt.InRun()
      modifies this`sdrShiftCount, interrupt
      ensures Valid() && sdrShiftCount == ShiftAfter(old(sdrShiftCount))
      ensures (old(interrupt.asserted) ==> interrupt.asserted) && fired == (!old(interrupt.asserted) && interrupt.asserted)
      ensures interrupt.icr == old(interrupt.icr) && interrupt.model == old(interrupt.model)
      ensures sdrShiftCount == 0 ==> Flags(interrupt.idr) == Flags(old(interrupt.idr) | INT_SP)
      ensures sdrShiftCount != 0 ==> interrupt.idr == old(interrupt.idr)
      ensures interrupt.InRun() &&
        interrupt.run == old(interrupt.run)
          .Then(FlagIf(sdrShiftCount == 0, INT_SP))
    {
      sdrShiftCount := sdrShiftCount + 1;
      fired := false;
      if sdrShiftCount >= 8 {
        sdrShiftCount := 0;
        fired := interrupt.TriggerIf(true, INT_SP);
      }
    }

    /** Timer B's cycle: an underflow flags UNDERFLOW_B. */
    method TimerBPhase() returns (fired: bool)
      requires Valid() && interrupt.InRun()
      modifies timerB, interrupt
      ensures Valid() && timerB.Regs() == Step(old(timerB.Regs())).0
      ensures (old(interrupt.asserted) ==> interrupt.asserted) && fired == (!old(interrupt.asserted) && interrupt.asserted)
      ensures interrupt.icr == old(interrupt.icr) && interrupt.model == old(interrupt.model)
      ensures (interrupt.idr & INT_UNDERFLOW_B != 0) == (old(interrupt.idr) & INT_UNDERFLOW_B != 0 || Step(old(timerB.Regs())).1)
      ensures interrupt.idr & 0x7D == old(interrupt.idr) & 0x7D
      ensures interrupt.InRun() &&
        interrupt.run == old(interrupt.run)
          .Then(FlagIf(Step(old(timerB.Regs())).1, INT_UNDERFLOW_B))
    {
      var ub := timerB.TickPhi2();
      fired := interrupt.TriggerIf(ub, INT_UNDERFLOW_B);
    }

    /**
     * The TOD's cycle, after the timers' phase: a matched alarm flags
     * ALARM, which completes the tick from `s`.
     */
    method TodPhase(cra: Byte, ghost s: CiaState, ghost r0: Run) returns (fired: bool)
      requires Valid() && cra == regs[CRA] && TimersFrom(s, r0)
      modifies tod, tod.clock, interrupt
      ensures Valid() && TickedFrom(s)
      ensures (old(interrupt.asserted) ==> interrupt.asserted) && fired == (!old(interrupt.asserted) && interrupt.asserted)
    {
      ghost var ua := Step(s.timerA).1;
      RunLast(r0, ua, ua && SerialOutput(s.regs[CRA]) && ShiftAfter(s.sdrShiftCount) == 0,
              Step(TimerBInput(ua, s.timerB, s.regs[CRB])).1, s.todNext.alarmed);
      fired := TodStep(cra);
    }

    /** The TOD's tick and a matched alarm's ALARM flag. */
    method TodStep(cra: Byte) returns (fired: bool)
      requires Valid() && cra == regs[CRA] && interrupt.InRun()
      modifies tod, tod.clock, interrupt
      ensures Valid()
      ensures (old(interrupt.asserted) ==> interrupt.asserted) && fired == (!old(interrupt.asserted) && interrupt.asserted)
      ensures tod.Reached(old(tod.NextTicks(cra)), old(tod.cycles))
      ensures interrupt.icr == old(interrupt.icr) && interrupt.model == old(interrupt.model)
      ensures (interrupt.idr & INT_ALARM != 0) == (old(interrupt.idr) & INT_ALARM != 0 || old(tod.NextTicks(cra)).alarmed)
      ensures interrupt.idr & INT_UNDERFLOW_A == old(interrupt.idr) & INT_UNDERFLOW_A
      ensures interrupt.idr & INT_UNDERFLOW_B == old(interrupt.idr) & INT_UNDERFLOW_B
      ensures interrupt.idr & INT_SP == old(interrupt.idr) & INT_SP && interrupt.idr & 0x70 == old(interrupt.idr) & 0x70
      ensures interrupt.InRun() &&
        interrupt.run == old(interrupt.run).Then(FlagIf(old(tod.NextTicks(cra)).alarmed, INT_ALARM))
    {
      var alarm := tod.Tick(cra);
      fired := interrupt.TriggerIf(alarm, INT_ALARM);
    }
  }

  /**
   * An underflow of timer A whose flag the mask enables brings the line up
   * within the tick (so `tick` reports an interrupt when the line was
   * released before).
   */
  lemma TimerAUnderflowRaises(c: Mos652x, s: CiaState)
    requires c.Valid() && c.TickedFrom(s)
    requires Step(s.timerA).1 && s.icr & INT_UNDERFLOW_A != 0
    ensures c.interrupt.asserted
  {
    EnabledBy(c.interrupt.idr, s.icr, INT_UNDERFLOW_A);
  }

  /**
   * A tick that raises no flag, from a released line with nothing
   * pending, leaves the line released and nothing pending.
   */
  lemma QuietTickKeepsLine(c: Mos652x, s: CiaState)
    requires c.Valid() && c.TickedFrom(s)
    requires !s.asserted && s.pending.None? && !Step(s.timerA).1 && !s.todNext.alarmed
    requires !Step(TimerBInput(false, s.timerB, s.regs[CRB])).1
    ensures !c.interrupt.asserted && c.interrupt.pendingTrigger.None?
  {
  }
}
