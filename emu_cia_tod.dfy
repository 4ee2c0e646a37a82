/**
 * The time-of-day clock of the cycle-level CIA (`c64_emu/cia/tod.rs`):
 * tenths, seconds, minutes and hours with an AM/PM flag, all in BCD,
 * driven by a fixed-point divider of the system clock and a three-bit
 * ring counter that turns 50 or 60 power-line ticks into ten tenths.
 */
module EmuCiaTod {
  import opened Common

  const TENTHS: nat := 0
  const SECONDS: nat := 1
  const MINUTES: nat := 2
  const HOURS: nat := 3

  /** Tenths of a second in a whole day. */
  const DAY_TENTHS: int := 864000

  // ---------------------------------------------------------------------------
  //  The counter chain on digits
  // ---------------------------------------------------------------------------

  /**
   * The clock registers split into their BCD digits: `ts` tenths, `sl`/`sh`
   * seconds, `ml`/`mh` minutes, `hl`/`hh` hours and `pm` the value of
   * bit 7 of the hours register (0 or 0x80).
   */
  datatype Digits = Digits(ts: int, sl: int, sh: int, ml: int, mh: int, hl: int, hh: int, pm: int)

  /**
   * Reading the digits out of the four registers. The masks and shifts
   * of the source (`& 0x0F`, `>> 4 & 0x07`, `>> 4 & 0x01`, `& 0x80`) are
   * written as division and remainder on the byte's value.
   */
  function Unpack(c: seq<Byte>): Digits
    requires |c| == 4
  {
    Digits((c[0] as int) % 16,
           (c[1] as int) % 16, (c[1] as int) / 16 % 8,
           (c[2] as int) % 16, (c[2] as int) / 16 % 8,
           (c[3] as int) % 16, (c[3] as int) / 16 % 2, (c[3] as int) / 128 * 128)
  }

  /** Writing the digits back: `ts`, `sl | sh << 4`, `ml | mh << 4`, `hl | hh << 4 | pm`. */
  function Pack(d: Digits): seq<Byte>
    requires DigitRanges(d)
  {
    [d.ts as Byte, (d.sl + 16 * d.sh) as Byte, (d.ml + 16 * d.mh) as Byte, (d.hl + 16 * d.hh + d.pm) as Byte]
  }

  /** The widths the digit fields can take. */
  predicate DigitRanges(d: Digits)
  {
    0 <= d.ts < 16 && 0 <= d.sl < 16 && 0 <= d.sh < 8 && 0 <= d.ml < 16 && 0 <= d.mh < 8 &&
    0 <= d.hl < 16 && 0 <= d.hh < 2 && (d.pm == 0 || d.pm == 0x80)
  }

  /**
   * `update_counters` on the digits: one tenth on, carrying into seconds
   * at 10, minutes at 60, hours at 60; the hour goes 09 → 10, 12 → 01 and
   * otherwise counts on, flipping PM when it reaches 12.
   */
  function AdvanceDigits(d: Digits): Digits
    requires DigitRanges(d)
  {
    var ts := (d.ts + 1) % 16;
    if ts != 10 then d.(ts := ts)
    else
      var sl := (d.sl + 1) % 16;
      if sl != 10 then d.(ts := 0, sl := sl)
      else
        var sh := (d.sh + 1) % 8;
        if sh != 6 then d.(ts := 0, sl := 0, sh := sh)
        else
          var ml := (d.ml + 1) % 16;
          if ml != 10 then d.(ts := 0, sl := 0, sh := 0, ml := ml)
          else
            var mh := (d.mh + 1) % 8;
            if mh != 6 then d.(ts := 0, sl := 0, sh := 0, ml := 0, mh := mh)
            else
              var zero := d.(ts := 0, sl := 0, sh := 0, ml := 0, mh := 0);
              if (d.hl == 2 && d.hh == 1) || (d.hl == 9 && d.hh == 0) then
                zero.(hl := d.hh, hh := 1 - d.hh)
              else
                var hl := (d.hl + 1) % 16;
                zero.(hl := hl, pm := if hl == 2 && d.hh == 1 then 0x80 - d.pm else d.pm)
  }

  /** `update_counters` on the four clock registers. */
  function UpdateCounters(c: seq<Byte>): (r: seq<Byte>)
    requires |c| == 4
    ensures |r| == 4
  {
    UnpackRanges(c);
    var d := AdvanceDigits(Unpack(c));
    AdvanceRanges(Unpack(c));
    Pack(d)
  }

  lemma UnpackRanges(c: seq<Byte>)
    requires |c| == 4
    ensures DigitRanges(Unpack(c))
  {
    var h := c[3] as int;
    assert h / 128 == 0 || h / 128 == 1;
  }

  lemma AdvanceRanges(d: Digits)
    requires DigitRanges(d)
    ensures DigitRanges(AdvanceDigits(d))
  {
  }

  /** A proper BCD time of a 12-hour clock: hours 1 to 12, minutes and seconds 00 to 59. */
  predicate ValidTime(d: Digits)
  {
    DigitRanges(d) && d.ts <= 9 && d.sl <= 9 && d.sh <= 5 && d.ml <= 9 && d.mh <= 5 &&
    ((d.hh == 0 && 1 <= d.hl <= 9) || (d.hh == 1 && d.hl <= 2))
  }

  /** The hour of the day, 0-23: 12 AM is hour 0 and 12 PM hour 12. */
  function HourOfDay(d: Digits): int
  {
    var h := d.hl + 10 * d.hh;
    (if h == 12 then 0 else h) + (if d.pm == 0x80 then 12 else 0)
  }

  /** The time of day in tenths of a second since midnight. */
  function DayTenths(d: Digits): int
  {
    d.ts + 10 * (d.sl + 10 * d.sh) + 600 * (d.ml + 10 * d.mh) + 36000 * HourOfDay(d)
  }

  /** Below the hour carry, one step adds one tenth. */
  lemma {:induction false} AdvanceWithinHour(d: Digits)
    requires ValidTime(d) && !(d.ts == 9 && d.sl == 9 && d.sh == 5 && d.ml == 9 && d.mh == 5)
    ensures ValidTime(AdvanceDigits(d)) && DayTenths(AdvanceDigits(d)) == DayTenths(d) + 1
  {
    var a := AdvanceDigits(d);
    if d.ts < 9 {
      assert (d.ts + 1) % 16 == d.ts + 1;
      assert a == d.(ts := d.ts + 1);
    } else if d.sl < 9 {
      assert (d.ts + 1) % 16 == 10 && (d.sl + 1) % 16 == d.sl + 1;
      assert a == d.(ts := 0, sl := d.sl + 1);
    } else if d.sh < 5 {
      assert (d.ts + 1) % 16 == 10 && (d.sl + 1) % 16 == 10 && (d.sh + 1) % 8 == d.sh + 1;
      assert a == d.(ts := 0, sl := 0, sh := d.sh + 1);
    } else if d.ml < 9 {
      assert (d.ts + 1) % 16 == 10 && (d.sl + 1) % 16 == 10 && (d.sh + 1) % 8 == 6;
      assert (d.ml + 1) % 16 == d.ml + 1;
      assert a == d.(ts := 0, sl := 0, sh := 0, ml := d.ml + 1);
    } else {
      assert (d.ts + 1) % 16 == 10 && (d.sl + 1) % 16 == 10 && (d.sh + 1) % 8 == 6;
      assert (d.ml + 1) % 16 == 10 && (d.mh + 1) % 8 == d.mh + 1;
      assert a == d.(ts := 0, sl := 0, sh := 0, ml := 0, mh := d.mh + 1);
    }
    assert HourOfDay(a) == HourOfDay(d);
  }

  /** At xx:59:59.9 the hour moves on; 11 → 12 flips AM/PM and 11 PM wraps to midnight. */
  lemma {:induction false} AdvanceHour(d: Digits)
    requires ValidTime(d) && d.ts == 9 && d.sl == 9 && d.sh == 5 && d.ml == 9 && d.mh == 5
    ensures ValidTime(AdvanceDigits(d))
    ensures DayTenths(AdvanceDigits(d)) == (if HourOfDay(d) == 23 then 0 else DayTenths(d) + 1)
  {
    var a := AdvanceDigits(d);
    assert a.ts == 0 && a.sl == 0 && a.sh == 0 && a.ml == 0 && a.mh == 0;
    if d.hh == 1 && d.hl == 2 {
      assert a.hl == 1 && a.hh == 0 && a.pm == d.pm;
      assert HourOfDay(a) == HourOfDay(d) + 1;
    } else if d.hh == 0 && d.hl == 9 {
      assert a.hl == 0 && a.hh == 1 && a.pm == d.pm;
      assert HourOfDay(a) == HourOfDay(d) + 1;
    } else if d.hh == 1 && d.hl == 1 {
      assert a.hl == 2 && a.hh == 1 && a.pm == 0x80 - d.pm;
      if d.pm == 0 {
        assert HourOfDay(d) == 11 && HourOfDay(a) == 12;
      } else {
        assert HourOfDay(d) == 23 && HourOfDay(a) == 0;
      }
    } else {
      assert a.hl == d.hl + 1 && a.hh == d.hh && a.pm == d.pm;
      assert HourOfDay(a) == HourOfDay(d) + 1;
    }
  }

  /**
   * On a proper time, `update_counters` is one tenth of a second on a
   * 24-hour day: 11:59:59.9 AM becomes 12:00:00.0 PM and 11:59:59.9 PM
   * becomes 12:00:00.0 AM.
   */
  lemma {:induction false} AdvanceIsOneTenth(d: Digits)
    requires ValidTime(d)
    ensures ValidTime(AdvanceDigits(d))
    ensures DayTenths(AdvanceDigits(d)) == (if DayTenths(d) + 1 == DAY_TENTHS then 0 else DayTenths(d) + 1)
  {
    if d.ts == 9 && d.sl == 9 && d.sh == 5 && d.ml == 9 && d.mh == 5 {
      AdvanceHour(d);
    } else {
      AdvanceWithinHour(d);
      assert HourOfDay(d) <= 23;
    }
  }

  /** The values of the packed registers. */
  lemma {:induction false} PackValues(d: Digits)
    requires DigitRanges(d)
    ensures Pack(d)[0] as int == d.ts
    ensures Pack(d)[1] as int == d.sl + 16 * d.sh
    ensures Pack(d)[2] as int == d.ml + 16 * d.mh
    ensures Pack(d)[3] as int == d.hl + 16 * d.hh + d.pm
  {
    ByteRoundTrip(d.ts);
    ByteRoundTrip(d.sl + 16 * d.sh);
    ByteRoundTrip(d.ml + 16 * d.mh);
    ByteRoundTrip(d.hl + 16 * d.hh + d.pm);
  }

  /** Registers holding the packed values read back as those digits. */
  lemma {:induction false} UnpackValues(c: seq<Byte>, d: Digits)
    requires |c| == 4 && DigitRanges(d)
    requires c[0] as int == d.ts
    requires c[1] as int == d.sl + 16 * d.sh
    requires c[2] as int == d.ml + 16 * d.mh
    requires c[3] as int == d.hl + 16 * d.hh + d.pm
    ensures Unpack(c) == d
  {
    DivModUnique(c[0] as int, 16, 0, d.ts);
    DivModUnique(c[1] as int, 16, d.sh, d.sl);
    DivModUnique(d.sh, 8, 0, d.sh);
    DivModUnique(c[2] as int, 16, d.mh, d.ml);
    DivModUnique(d.mh, 8, 0, d.mh);
    var h := c[3] as int;
    DivModUnique(h, 16, d.hh + d.pm / 16, d.hl);
    DivModUnique(d.hh + d.pm / 16, 2, d.pm / 32, d.hh);
    DivModUnique(h, 128, d.pm / 128, d.hl + 16 * d.hh);
  }

  /** Packing digits of the right widths and reading them back gives the same digits. */
  lemma {:induction false} UnpackPack(d: Digits)
    requires DigitRanges(d)
    ensures Unpack(Pack(d)) == d
  {
    PackValues(d);
    UnpackValues(Pack(d), d);
  }

  /** The registers hold a proper time. */
  predicate ValidClock(c: seq<Byte>)
  {
    |c| == 4 && ValidTime(Unpack(c))
  }

  /**
   * `update_counters` keeps a proper time proper and moves it on by
   * exactly one tenth of a second, wrapping at midnight.
   */
  lemma UpdateCountersSpec(c: seq<Byte>)
    requires ValidClock(c)
    ensures ValidClock(UpdateCounters(c))
    ensures DayTenths(Unpack(UpdateCounters(c))) ==
      (if DayTenths(Unpack(c)) + 1 == DAY_TENTHS then 0 else DayTenths(Unpack(c)) + 1)
  {
    var d := Unpack(c);
    AdvanceIsOneTenth(d);
    UnpackPack(AdvanceDigits(d));
  }

  // ---------------------------------------------------------------------------
  //  The power-line divider
  // ---------------------------------------------------------------------------

  /** The 3-bit ring counter's next value: 000 → 100 → 110 → 111 → 011 → 001 → 000. */
  function RingNext(tc: Byte): Byte
  {
    (tc >> 1) | ((!tc << 2) & 0x04)
  }

  /** The ring value that completes a tenth: 3 at 50 Hz (CRA bit 7 set), 1 at 60 Hz. */
  function RingMatch(cra: Byte): Byte
  {
    0x01 | ((cra & 0x80) >> 6)
  }

  /** The state one power-line tick changes. */
  datatype Divider = Divider(tickCounter: Byte, clock: seq<Byte>, alarmed: bool)

  /** One power-line tick of a running clock. */
  function PowerTick(s: Divider, alarm: seq<Byte>, cra: Byte): Divider
    requires |s.clock| == 4
  {
    if s.tickCounter == RingMatch(cra) then
      var c := UpdateCounters(s.clock);
      Divider(0, c, s.alarmed || alarm == c)
    else s.(tickCounter := RingNext(s.tickCounter))
  }

  /** `n` power-line ticks; a stopped clock ignores them all. */
  function PowerTicks(s: Divider, alarm: seq<Byte>, cra: Byte, stopped: bool, n: nat): (r: Divider)
    requires |s.clock| == 4
    ensures |r.clock| == 4
    decreases n
  {
    if n == 0 || stopped then s
    else PowerTick(PowerTicks(s, alarm, cra, stopped, n - 1), alarm, cra)
  }

  /** The number of power-line ticks per tenth: five at 50 Hz, six at 60 Hz. */
  function TicksPerTenth(cra: Byte): nat
  {
    if cra & 0x80 != 0 then 5 else 6
  }

  /**
   * From a fresh ring counter, a running clock stays put for the first
   * ticks of a tenth and advances by one tenth, with the ring back at 0,
   * on tick five (50 Hz) or six (60 Hz).
   */
  lemma {:induction false} RingPeriod(c: seq<Byte>, alarm: seq<Byte>, cra: Byte, k: nat)
    requires |c| == 4
    ensures k < TicksPerTenth(cra) ==> PowerTicks(Divider(0, c, false), alarm, cra, false, k).clock == c
    ensures PowerTicks(Divider(0, c, false), alarm, cra, false, TicksPerTenth(cra)) ==
      Divider(0, UpdateCounters(c), alarm == UpdateCounters(c))
  {
    var s0 := Divider(0, c, false);
    var s1 := PowerTicks(s0, alarm, cra, false, 1);
    var s2 := PowerTicks(s0, alarm, cra, false, 2);
    var s3 := PowerTicks(s0, alarm, cra, false, 3);
    var s4 := PowerTicks(s0, alarm, cra, false, 4);
    var s5 := PowerTicks(s0, alarm, cra, false, 5);
    assert s1 == Divider(4, c, false);
    assert s2 == Divider(6, c, false);
    assert s3 == Divider(7, c, false);
    assert s4 == Divider(3, c, false);
    if cra & 0x80 != 0 {
      assert RingMatch(cra) == 3;
    } else {
      assert RingMatch(cra) == 1;
      assert s5 == Divider(1, c, false);
    }
  }

  /** The divider step of `tick`: `period` is added, whole ticks leave, 7 fraction bits stay. */
  lemma AccumulatorSpec(cycles: nat, period: nat)
    requires cycles < 128
    ensures (cycles + period) / 128 * 128 + (cycles + period) % 128 == cycles + period
    ensures cycles + period < 128 ==> (cycles + period) / 128 == 0
  {
  }

  // ---------------------------------------------------------------------------
  //  Register writes
  // ---------------------------------------------------------------------------

  /**
   * The value a TOD write stores: tenths keep 4 bits, seconds and minutes
   * 7, hours 0x9F; a time (not alarm) write of hour 12 flips the PM bit.
   */
  function WriteValue(reg: nat, data: Byte, crb: Byte): Byte
  {
    if reg == TENTHS then data & 0x0F
    else if reg == SECONDS || reg == MINUTES then data & 0x7F
    else if reg == HOURS then
      var h := data & 0x9F;
      if h & 0x1F == 0x12 && crb & 0x80 == 0 then h ^ 0x80 else h
    else data
  }

  lemma WriteValueSpec(reg: nat, data: Byte, crb: Byte)
    ensures reg == TENTHS ==> WriteValue(reg, data, crb) & 0xF0 == 0
    ensures (reg == SECONDS || reg == MINUTES) ==> WriteValue(reg, data, crb) == data & 0x7F
    ensures reg == HOURS ==>
      (WriteValue(reg, data, crb) & 0x60 == 0 && WriteValue(reg, data, crb) & 0x1F == data & 0x1F)
    ensures reg == HOURS ==>
      (WriteValue(reg, data, crb) & 0x80 != data & 0x80 <==> data & 0x1F == 0x12 && crb & 0x80 == 0)
  {
  }

  // ---------------------------------------------------------------------------
  //  The clock object
  // ---------------------------------------------------------------------------

  /** The clock's registers, latch, alarm, flags, accumulator and ring counter as values. */
  datatype TodState = TodState(clock: seq<Byte>, latch: seq<Byte>, alarm: seq<Byte>, isLatched: bool,
                               isStopped: bool, cycles: int, tickCounter: Byte)

  class Tod {
    const clock: array<Byte>
    const latch: array<Byte>
    const alarm: array<Byte>
    var isLatched: bool
    var isStopped: bool
    /** Fixed-point cycle accumulator (7 fraction bits). */
    var cycles: int
    /** Divider period, the cycles per power-line tick times 128. */
    var period: int
    var tickCounter: Byte

    predicate Valid()
      reads this
    {
      clock.Length == 4 && latch.Length == 4 && alarm.Length == 4 &&
      clock != latch && clock != alarm && latch != alarm &&
      0 <= cycles < 128 && period >= 0
    }

    /** The divider the next `tick` leaves: the accumulator's whole ticks run on the ring counter and the clock. */
    function NextTicks(cra: Byte): (r: Divider)
      requires Valid()
      reads this, clock, alarm
      ensures |r.clock| == 4
    {
      PowerTicks(Divider(tickCounter, clock[..], false), alarm[..], cra, isStopped, (cycles + period) / 128)
    }

    /**
     * The clock and ring counter are those of `r`, and the accumulator
     * holds the fraction left of `cycles0 + period`.
     */
    predicate Reached(r: Divider, cycles0: int)
      reads this, clock
    {
      tickCounter == r.tickCounter && clock[..] == r.clock && cycles == (cycles0 + period) % 128
    }

    /** The clock's state as values. */
    function State(): (s: TodState)
      reads this, clock, latch, alarm
      ensures Valid() ==> |s.clock| == 4 && |s.latch| == 4 && |s.alarm| == 4
    {
      TodState(clock[..], latch[..], alarm[..], isLatched, isStopped, cycles, tickCounter)
    }

    /**
     * The state a `write` of `reg` leaves from `s0`: with CRB bit 7 only
     * the alarm register changes; otherwise only the clock register does,
     * an hours write stops the clock and a tenths write restarts a stopped
     * one with a fresh ring counter.
     */
    predicate Written(s0: TodState, reg: nat, data: Byte, crb: Byte)
      reads this, clock, alarm
    {
      reg < |s0.clock| && reg < |s0.alarm| &&
      (crb & 0x80 != 0 ==>
        alarm[..] == s0.alarm[reg := WriteValue(reg, data, crb)] && clock[..] == s0.clock &&
        isStopped == s0.isStopped && tickCounter == s0.tickCounter) &&
      (crb & 0x80 == 0 ==>
        clock[..] == s0.clock[reg := WriteValue(reg, data, crb)] && alarm[..] == s0.alarm &&
        isStopped == (if reg == TENTHS then false else if reg == HOURS then true else s0.isStopped) &&
        tickCounter == (if reg == TENTHS && s0.isStopped then 0 else s0.tickCounter))
    }

    /** `new`: 1:00:00.0, alarm zero, unlatched and stopped; the period a placeholder until set. */
    constructor ()
      ensures Valid() && fresh(clock) && fresh(latch) && fresh(alarm)
      ensures clock[..] == [0, 0, 0, 1] && latch[..] == [0, 0, 0, 1] && alarm[..] == [0, 0, 0, 0]
      ensures !isLatched && isStopped && cycles == 0 && tickCounter == 0
      ensures period == 0x1_0000_0000_0000_0000 - 1
    {
      clock := new Byte[4] (i => if i == 3 then 1 else 0);
      latch := new Byte[4] (i => if i == 3 then 1 else 0);
      alarm := new Byte[4] (_ => 0);
      isLatched, isStopped, cycles, tickCounter := false, true, 0, 0;
      period := 0x1_0000_0000_0000_0000 - 1;
    }

    /** `reset`: as `new`, keeping the period. */
    method Reset()
      requires Valid()
      modifies this, clock, latch, alarm
      ensures Valid() && period == old(period)
      ensures clock[..] == [0, 0, 0, 1] && latch[..] == [0, 0, 0, 1] && alarm[..] == [0, 0, 0, 0]
      ensures !isLatched && isStopped && cycles == 0 && tickCounter == 0
    {
      cycles, tickCounter := 0, 0;
      clock[0], clock[1], clock[2], clock[3] := 0, 0, 0, 1;
      latch[0], latch[1], latch[2], latch[3] := 0, 0, 0, 1;
      alarm[0], alarm[1], alarm[2], alarm[3] := 0, 0, 0, 0;
      isLatched, isStopped := false, true;
    }

    /** `set_period`: the rate in fixed point. */
    method SetPeriod(rate: nat)
      requires Valid() && rate < 0x1_0000_0000
      modifies this`period
      ensures Valid() && period == rate * 128
    {
      period := rate * 128;
    }

    /**
     * `read`: an unlatched clock is copied into the latch first; reading
     * the hours freezes the latch, reading the tenths releases it.
     */
    method Read(reg: nat) returns (v: Byte)
      requires Valid() && reg < 4
      modifies latch, this`isLatched
      ensures Valid()
      ensures latch[..] == (if old(isLatched) then old(latch[..]) else clock[..])
      ensures v == latch[reg]
      ensures isLatched == (if reg == TENTHS then false else if reg == HOURS then true else old(isLatched))
    {
      if !isLatched {
        latch[0], latch[1], latch[2], latch[3] := clock[0], clock[1], clock[2], clock[3];
      }
      if reg == TENTHS {
        isLatched := false;
      } else if reg == HOURS {
        isLatched := true;
      }
      v := latch[reg];
    }

    /**
     * `write`: CRB bit 7 sends the value to the alarm, otherwise to the
     * clock; a time write of the hours stops the clock and one of the
     * tenths restarts a stopped clock with a fresh ring counter. The
     * alarm comparison that ends the source's `write` has no effect.
     */
    method Write(reg: nat, data: Byte, cra: Byte, crb: Byte)
      requires Valid() && reg < 4
      modifies clock, alarm, this`isStopped, this`tickCounter
      ensures Valid()
      ensures Written(old(State()), reg, data, crb)
    {
      var v := WriteValue(reg, data, crb);
      if crb & 0x80 != 0 {
        alarm[reg] := v;
      } else {
        if reg == TENTHS {
          if isStopped {
            tickCounter := 0;
            isStopped := false;
          }
        } else if reg == HOURS {
          isStopped := true;
        }
        clock[reg] := v;
      }
    }

    /**
     * `tick`: one system cycle. The period is added to the accumulator;
     * its whole ticks each step the ring counter of a running clock and,
     * once per tenth, the counter chain. Answers whether any update left
     * the clock equal to the alarm.
     */
    method Tick(cra: Byte) returns (alarmed: bool)
      requires Valid()
      modifies clock, this`cycles, this`tickCounter
      ensures Valid()
      ensures Reached(old(NextTicks(cra)), old(cycles)) && alarmed == old(NextTicks(cra)).alarmed
    {
      var sum := cycles + period;
      var start := Divider(tickCounter, clock[..], false);
      if sum < 128 {
        cycles := sum;
        alarmed := false;
        assert sum / 128 == 0 && sum % 128 == sum;
        assert PowerTicks(start, alarm[..], cra, isStopped, 0) == start;
        return;
      }
      cycles := sum % 128;
      var s := RunTicks(start, alarm[..], cra, isStopped, sum / 128);
      tickCounter := s.tickCounter;
      clock[0], clock[1], clock[2], clock[3] := s.clock[0], s.clock[1], s.clock[2], s.clock[3];
      assert clock[..] == s.clock;
      alarmed := s.alarmed;
    }
  }

  /** The power-line loop of `tick`: `n` ticks, each a no-op for a stopped clock. */
  method RunTicks(s0: Divider, alarm: seq<Byte>, cra: Byte, stopped: bool, n: nat) returns (s: Divider)
    requires |s0.clock| == 4
    ensures s == PowerTicks(s0, alarm, cra, stopped, n)
  {
    s := s0;
    var i := 0;
    while i < n
      invariant 0 <= i <= n
      invariant |s.clock| == 4
      invariant s == PowerTicks(s0, alarm, cra, stopped, i)
    {
      if !stopped {
        ghost var prev := s;
        if s.tickCounter == RingMatch(cra) {
          var c := UpdateCounters(s.clock);
          s := Divider(0, c, s.alarmed || alarm == c);
        } else {
          s := s.(tickCounter := RingNext(s.tickCounter));
        }
        assert s == PowerTick(prev, alarm, cra) == PowerTicks(s0, alarm, cra, stopped, i + 1);
      } else {
        assert s == s0 == PowerTicks(s0, alarm, cra, stopped, i + 1);
      }
      i := i + 1;
    }
  }

  /** A stopped clock never advances and never raises the alarm, however many ticks pass. */
  lemma StoppedClockHolds(s: Divider, alarm: seq<Byte>, cra: Byte, n: nat)
    requires |s.clock| == 4
    ensures PowerTicks(s, alarm, cra, true, n) == s
  {
  }
}
