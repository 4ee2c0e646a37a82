/**
 * The simplified CIA of the PSID player's memory bus: two interval timers
 * counting whole batches of cycles, an interrupt control register, data
 * ports, PB6/PB7 timer outputs and a free-running time-of-day clock.
 */
module PlayerCia {
  import opened Common

  /** One CIA timer (`CiaTimer`), shared by timer A and timer B. */
  class CiaTimer {
    var counter: int
    var latch: int
    var running: bool
    var oneshot: bool
    var underflow: bool

    /** Counter and latch are `u16` values. */
    predicate Valid()
      reads this
    {
      0 <= counter <= 0xFFFF && 0 <= latch <= 0xFFFF
    }

    function Regs(): TimerState
      reads this
    {
      TimerState(counter, latch, running, oneshot, underflow)
    }

    constructor ()
      ensures Valid()
      ensures counter == 0xFFFF && latch == 0xFFFF && !running && !oneshot && !underflow
    {
      counter := 0xFFFF;
      latch := 0xFFFF;
      running := false;
      oneshot := false;
      underflow := false;
    }

    /**
     * `tick`: advance by `cycles` clocks and return the number of
     * underflows. The first underflow uses up counter+1 cycles, every later
     * one latch+1 cycles; what is left is taken off the reloaded counter. A
     * one-shot timer stops at its first underflow.
     */
    method Tick(cycles: nat) returns (fires: nat)
      requires Valid()
      modifies this
      ensures Valid() && latch == old(latch) && oneshot == old(oneshot)
      ensures !old(running) ==> fires == 0 && unchanged(this)
      ensures old(running) && cycles <= old(counter) ==>
        fires == 0 && running && counter == old(counter) - cycles && underflow == old(underflow)
      ensures old(running) && cycles > old(counter) && oneshot ==>
        fires == 1 && !running && counter == latch && underflow
      ensures old(running) && cycles > old(counter) && !oneshot ==>
        fires == PeriodicFires(old(counter), latch, cycles)
        && counter == PeriodicCounter(old(counter), latch, cycles)
        && running && underflow
      ensures fires == Fires(old(running), oneshot, old(counter), latch, cycles)
      ensures Regs() == Ticked(old(Regs()), cycles)
    {
      if !running {
        return 0;
      }
      fires := 0;
      var remaining: nat := cycles;
      ghost var c0 := counter;
      ghost var r1 := cycles - c0 - 1;
      while remaining > 0 && running
        invariant Valid() && latch == old(latch) && oneshot == old(oneshot)
        invariant fires == 0 && remaining > 0 ==>
          running && remaining == cycles && counter == c0 && underflow == old(underflow)
        invariant fires == 0 && remaining == 0 ==>
          running && cycles <= c0 && counter == c0 - cycles && underflow == old(underflow)
        invariant fires > 0 ==> underflow && cycles > c0
        invariant fires > 0 && oneshot ==> fires == 1 && !running && counter == latch
        invariant fires > 0 && !oneshot ==>
          running && 0 <= r1 - (fires - 1) * (latch + 1)
          && ((counter == latch && remaining == r1 - (fires - 1) * (latch + 1))
              || (remaining == 0 && r1 - (fires - 1) * (latch + 1) <= latch
                  && counter == latch - (r1 - (fires - 1) * (latch + 1))))
        decreases remaining
      {
        if remaining > counter {
          remaining := remaining - (counter + 1);
          underflow := true;
          assert fires * (latch + 1) == (fires - 1) * (latch + 1) + latch + 1;
          fires := fires + 1;
          if oneshot {
            running := false;
            counter := latch;
          } else {
            counter := latch;
          }
        } else {
          counter := counter - remaining;
          remaining := 0;
        }
      }
      if fires > 0 && !oneshot {
        DivModUnique(r1, latch + 1, fires - 1, r1 - (fires - 1) * (latch + 1));
      }
    }

    /** `tick_once`: one count for timer B chained to timer A underflows. */
    method TickOnce() returns (fired: bool)
      requires Valid()
      modifies this
      ensures Valid() && latch == old(latch) && oneshot == old(oneshot)
      ensures fired <==> old(running) && old(counter) == 0
      ensures !old(running) ==> unchanged(this)
      ensures old(running) && old(counter) > 0 ==>
        counter == old(counter) - 1 && running && underflow == old(underflow)
      ensures fired ==> underflow && counter == latch && running == !oneshot
      ensures Regs() == Once(old(Regs()))
    {
      if !running {
        return false;
      }
      if counter == 0 {
        underflow := true;
        if oneshot {
          running := false;
        }
        counter := latch;
        fired := true;
      } else {
        counter := counter - 1;
        fired := false;
      }
    }

    /** `write_lo`: replace the low latch byte. */
    method WriteLo(value: Byte)
      requires Valid()
      modifies this`latch
      ensures Valid()
      ensures latch / 256 == old(latch) / 256 && latch % 256 == value as int
      ensures Regs() == old(Regs()).(latch := old(latch) / 256 * 256 + value as int)
    {
      latch := (latch / 256) * 256 + value as int;
    }

    /** `write_hi`: replace the high latch byte; a stopped timer also reloads its counter. */
    method WriteHi(value: Byte)
      requires Valid()
      modifies this`latch, this`counter
      ensures Valid()
      ensures latch % 256 == old(latch) % 256 && latch / 256 == value as int
      ensures counter == if running then old(counter) else latch
      ensures Regs() == HiWritten(old(Regs()), value)
    {
      latch := latch % 256 + value as int * 256;
      if !running {
        counter := latch;
      }
    }

    /**
     * `write_control`: bit 0 starts/stops, bit 3 selects one-shot, and the
     * counter is reloaded on the force-load bit 4 or when a stopped timer starts.
     */
    method WriteControl(value: Byte)
      requires Valid()
      modifies this`running, this`oneshot, this`counter
      ensures Valid()
      ensures running == (value & 0x01 != 0) && oneshot == (value & 0x08 != 0)
      ensures counter == if value & 0x10 != 0 || (!old(running) && running) then latch else old(counter)
      ensures Regs() == ControlWritten(old(Regs()), value)
    {
      var wasRunning := running;
      running := value & 0x01 != 0;
      oneshot := value & 0x08 != 0;
      if value & 0x10 != 0 {
        counter := latch;
      }
      if !wasRunning && running {
        counter := latch;
      }
    }
  }

  /** The registers of one timer, as a value. */
  datatype TimerState = TimerState(counter: int, latch: int, running: bool, oneshot: bool, underflow: bool)

  /**
   * A timer after `cycles` clocks: a stopped timer keeps its state; a
   * running one lowers its counter until it passes zero, after which it
   * has underflowed, a one-shot timer stops with its counter reloaded
   * and a free-running one is left with `PeriodicCounter`.
   */
  function Ticked(t: TimerState, cycles: nat): (r: TimerState)
    requires 0 <= t.counter && 0 <= t.latch
    ensures r.latch == t.latch && r.oneshot == t.oneshot && 0 <= r.counter
    ensures t.counter <= 0xFFFF && t.latch <= 0xFFFF ==> r.counter <= 0xFFFF
  {
    if !t.running || cycles <= t.counter then t.(counter := if t.running then t.counter - cycles else t.counter)
    else if t.oneshot then t.(counter := t.latch, running := false, underflow := true)
    else
      PeriodicAccounting(t.counter, t.latch, cycles);
      t.(counter := PeriodicCounter(t.counter, t.latch, cycles), underflow := true)
  }

  /** One `tick_once` count: a running timer at zero underflows and reloads, else it counts down. */
  function Once(t: TimerState): TimerState
  {
    if !t.running then t
    else if t.counter == 0 then t.(underflow := true, running := !t.oneshot, counter := t.latch)
    else t.(counter := t.counter - 1)
  }

  /** `k` counts of `tick_once`, as the cascade of timer B performs them. */
  function Cascaded(t: TimerState, k: nat): TimerState
  {
    if k == 0 then t else Once(Cascaded(t, k - 1))
  }

  /**
   * Counting `k` timer A underflows one at a time leaves timer B exactly
   * where a tick of `k` cycles would: the cascade and the batch agree.
   */
  lemma {:induction false} CascadeMatchesTicked(t: TimerState, k: nat)
    requires 0 <= t.counter && 0 <= t.latch
    ensures Cascaded(t, k) == Ticked(t, k)
  {
    if k > 0 {
      CascadeMatchesTicked(t, k - 1);
      TickedStep(t, k - 1);
    }
  }

  /** One more count after `n` cycles is the tick of `n + 1` cycles. */
  lemma TickedStep(t: TimerState, n: nat)
    requires 0 <= t.counter && 0 <= t.latch
    ensures Once(Ticked(t, n)) == Ticked(t, n + 1)
  {
    if t.running && n + 1 > t.counter {
      if n == t.counter {
        assert Ticked(t, n).counter == 0;
        if !t.oneshot {
          assert PeriodicCounter(t.counter, t.latch, n + 1) == t.latch;
        }
      } else if !t.oneshot {
        PeriodicStep(t.counter, t.latch, n);
      }
    }
  }

  /** A free-running timer past its first underflow: one more cycle counts down, or reloads at zero. */
  lemma PeriodicStep(counter: nat, latch: nat, n: int)
    requires counter < n
    ensures var c := PeriodicCounter(counter, latch, n);
      PeriodicCounter(counter, latch, n + 1) == if c == 0 then latch else c - 1
  {
    ModSucc(n - counter - 1, latch + 1);
  }

  /** The remainder of a successor: it wraps to 0 after `m - 1`. */
  lemma ModSucc(x: nat, m: int)
    requires m > 0
    ensures (x + 1) % m == if x % m == m - 1 then 0 else x % m + 1
  {
    var q, r := x / m, x % m;
    if r == m - 1 {
      DivModUnique(x + 1, m, q + 1, 0);
    } else {
      DivModUnique(x + 1, m, q, r + 1);
    }
  }

  /** `write_hi`: the high latch byte replaced, and a stopped timer's counter reloaded from the new latch. */
  function HiWritten(t: TimerState, value: Byte): TimerState
  {
    var l := t.latch % 256 + value as int * 256;
    t.(latch := l, counter := if t.running then t.counter else l)
  }

  /** `write_control`: run and one-shot bits taken; the counter reloaded on force-load or on a start. */
  function ControlWritten(t: TimerState, value: Byte): TimerState
  {
    var run := value & 0x01 != 0;
    t.(running := run, oneshot := value & 0x08 != 0,
       counter := if value & 0x10 != 0 || (!t.running && run) then t.latch else t.counter)
  }

  /** The number of underflows `tick` reports for a timer in the given state. */
  function Fires(running: bool, oneshot: bool, counter: int, latch: int, cycles: nat): nat
    requires 0 <= counter && 0 <= latch
  {
    if !running || cycles <= counter then 0
    else if oneshot then 1
    else PeriodicFires(counter, latch, cycles)
  }

  /** A timer reports an underflow exactly when it runs and is given more cycles than its counter holds. */
  lemma FiresPositive(running: bool, oneshot: bool, counter: int, latch: int, cycles: nat)
    requires 0 <= counter && 0 <= latch
    ensures Fires(running, oneshot, counter, latch, cycles) > 0 <==> running && cycles > counter
  {
    if running && cycles > counter && !oneshot {
      assert (cycles - counter - 1) / (latch + 1) >= 0;
    }
  }

  /** Underflows of a free-running timer given more cycles than its counter holds. */
  function PeriodicFires(counter: int, latch: int, cycles: int): nat
    requires 0 <= counter < cycles && 0 <= latch
  {
    1 + (cycles - counter - 1) / (latch + 1)
  }

  /** The counter a free-running timer is left with after those underflows. */
  function PeriodicCounter(counter: int, latch: int, cycles: int): int
    requires 0 <= counter < cycles && 0 <= latch
  {
    latch - (cycles - counter - 1) % (latch + 1)
  }

  /**
   * Cycle accounting of a free-running timer: the first underflow takes
   * counter+1 cycles, each further one latch+1, and the rest is what the
   * reloaded counter has been lowered by; so every cycle is counted once.
   */
  lemma PeriodicAccounting(counter: int, latch: int, cycles: int)
    requires 0 <= counter < cycles && 0 <= latch
    ensures var f := PeriodicFires(counter, latch, cycles);
      var c := PeriodicCounter(counter, latch, cycles);
      f >= 1 && 0 <= c <= latch
      && cycles == (counter + 1) + (f - 1) * (latch + 1) + (latch - c)
  {
    var r1 := cycles - counter - 1;
    assert r1 == (r1 / (latch + 1)) * (latch + 1) + r1 % (latch + 1);
  }

  /**
   * `bcd_inc`: add one to the low nibble, carrying into the high nibble
   * past 9; a result above `max` becomes 0. `(hi << 4) | lo` wraps in a
   * `u8`, which the final `% 256` writes out.
   */
  function BcdInc(val: Byte, max: Byte): Byte
  {
    BcdIncValue(val as int, max as int) as Byte
  }

  function BcdIncValue(v: int, m: int): (r: int)
    requires 0 <= v < 256
    ensures 0 <= r < 256
  {
    var lo := v % 16 + 1;
    var hi := v / 16;
    var lo' := if lo > 9 then 0 else lo;
    var hi' := if lo > 9 then hi + 1 else hi;
    var result := (hi' * 16 + lo') % 256;
    if result > m then 0 else result
  }

  /** A byte holding two decimal digits. */
  predicate IsBcd(b: Byte)
  {
    IsBcdValue(b as int)
  }

  predicate IsBcdValue(v: int)
  {
    0 <= v && v / 16 <= 9 && v % 16 <= 9
  }

  function FromBcd(b: Byte): nat
  {
    FromBcdValue(b as int)
  }

  function FromBcdValue(v: int): nat
    requires 0 <= v
  {
    v / 16 * 10 + v % 16
  }

  function ToBcd(n: nat): Byte
    requires n < 100
  {
    ToBcdValue(n) as Byte
  }

  function ToBcdValue(n: nat): nat
  {
    n / 10 * 16 + n % 10
  }

  /**
   * On two-digit BCD values `bcd_inc` is decimal increment, and a value
   * past `max` wraps to 0.
   */
  lemma BcdIncSpec(val: Byte, max: Byte)
    requires IsBcd(val) && IsBcd(max)
    ensures var n := FromBcd(val) + 1;
      BcdInc(val, max) == if n > FromBcd(max) then 0 else ToBcd(n)
  {
    BcdIncValueSpec(val as int, max as int);
  }

  lemma BcdIncValueSpec(v: int, m: int)
    requires 0 <= v < 256 && IsBcdValue(v) && IsBcdValue(m)
    ensures var n := FromBcdValue(v) + 1;
      n <= 100
      && BcdIncValue(v, m) == if n > FromBcdValue(m) then 0 else n / 10 * 16 + n % 10
  {
    var h, l := v / 16, v % 16;
    assert v == h * 16 + l;
    var n := h * 10 + l + 1;
    var r := if l == 9 then (h + 1) * 16 else h * 16 + l + 1;
    BcdIncResult(v, m, h, l, r);
    if l == 9 {
      DivModUnique(n, 10, h + 1, 0);
    } else {
      DivModUnique(n, 10, h, l + 1);
    }
    BcdOrder(r / 16, r % 16, m / 16, m % 16);
  }

  /** The nibble arithmetic of `bcd_inc` without the final comparison. */
  lemma BcdIncResult(v: int, m: int, h: int, l: int, r: int)
    requires 0 <= v < 256 && IsBcdValue(v) && h == v / 16 && l == v % 16
    requires r == if l == 9 then (h + 1) * 16 else h * 16 + l + 1
    ensures BcdIncValue(v, m) == if r > m then 0 else r
    ensures r / 16 == (if l == 9 then h + 1 else h) && r % 16 == (if l == 9 then 0 else l + 1)
  {
    if l == 9 {
      DivModUnique(r, 16, h + 1, 0);
    } else {
      DivModUnique(r, 16, h, l + 1);
    }
  }

  /** Comparing two BCD bytes is comparing the numbers they hold. */
  lemma BcdOrder(h1: int, l1: int, h2: int, l2: int)
    requires 0 <= h1 <= 10 && 0 <= l1 <= 9 && 0 <= h2 <= 9 && 0 <= l2 <= 9
    ensures (h1 * 16 + l1 > h2 * 16 + l2) == (h1 * 10 + l1 > h2 * 10 + l2)
  {
  }

  /** The time-of-day clock of the simple CIA: tenths, BCD seconds, minutes, hours and the cycle accumulator. */
  datatype Tod = Tod(tenths: Byte, sec: Byte, min: Byte, hr: Byte, tick: nat)

  /**
   * The TOD step of `Cia::tick`: at most one tenth per call, once the
   * accumulator reaches 100000 cycles; tenths carry into BCD seconds,
   * minutes and hours.
   */
  function TodAdvance(t: Tod, cycles: nat): Tod
  {
    var acc := t.tick + cycles;
    if acc < 100_000 then t.(tick := acc)
    else if t.tenths + 1 < 10 then t.(tick := acc - 100_000, tenths := t.tenths + 1)
    else
      var sec := BcdInc(t.sec, 0x59);
      var min := if sec == 0 then BcdInc(t.min, 0x59) else t.min;
      var hr := if sec == 0 && min == 0 then BcdInc(t.hr, 0x12) else t.hr;
      Tod(0, sec, min, hr, acc - 100_000)
  }

  /** Seconds and minutes 00-59 and hours 00-12, all in BCD, tenths 0-9. */
  predicate TodValid(t: Tod)
  {
    t.tenths <= 9
    && IsBcd(t.sec) && FromBcd(t.sec) <= 59
    && IsBcd(t.min) && FromBcd(t.min) <= 59
    && IsBcd(t.hr) && FromBcd(t.hr) <= 12
  }

  /** The TOD clock never leaves valid BCD time and advances by at most one tenth. */
  lemma TodAdvanceValid(t: Tod, cycles: nat)
    requires TodValid(t)
    ensures var t' := TodAdvance(t, cycles);
      TodValid(t')
      && (t.tick + cycles < 100_000 ==> t' == t.(tick := t.tick + cycles))
      && (t.tick + cycles >= 100_000 ==>
            t'.tick == t.tick + cycles - 100_000 && t'.tenths == (if t.tenths == 9 then 0 else t.tenths + 1))
  {
    var acc := t.tick + cycles;
    if acc >= 100_000 && t.tenths == 9 {
      TodCarryValid(t, acc);
    }
  }

  /** The carry out of tenths keeps seconds, minutes and hours valid. */
  lemma TodCarryValid(t: Tod, acc: nat)
    requires TodValid(t) && acc >= 100_000 && t.tenths == 9
    ensures var sec := BcdInc(t.sec, 0x59);
      var min := if sec == 0 then BcdInc(t.min, 0x59) else t.min;
      var hr := if sec == 0 && min == 0 then BcdInc(t.hr, 0x12) else t.hr;
      TodValid(Tod(0, sec, min, hr, acc - 100_000))
  {
    assert FromBcd(0x59) == 59 && FromBcd(0x12) == 12;
    BcdIncStaysValid(t.sec, 0x59);
    BcdIncStaysValid(t.min, 0x59);
    BcdIncStaysValid(t.hr, 0x12);
  }

  /** `bcd_inc` on a valid digit pair not above `max` gives 0 or the next number, never more than `max`. */
  lemma BcdIncStaysValid(val: Byte, max: Byte)
    requires IsBcd(val) && IsBcd(max) && FromBcd(val) <= FromBcd(max)
    ensures var r := BcdInc(val, max);
      IsBcd(r) && FromBcd(r) <= FromBcd(max) && (r == 0 || FromBcd(r) == FromBcd(val) + 1)
  {
    BcdIncSpec(val, max);
    var n := FromBcd(val) + 1;
    if n <= FromBcd(max) {
      ToBcdSpec(n);
    }
  }

  lemma ToBcdSpec(n: nat)
    requires n < 100
    ensures IsBcd(ToBcd(n)) && FromBcd(ToBcd(n)) == n
  {
    var v := ToBcdValue(n);
    assert v < 256;
    ByteRoundTrip(v);
    DivModUnique(v, 16, n / 10, n % 10);
  }

  /** Whether timer B underflows during a tick: counting cycles, or timer A's underflows in cascade mode. */
  function BFired(countsA: bool, running: bool, counter: int, aFires: nat, cycles: nat): bool
  {
    running && (if countsA then aFires > counter else cycles > counter)
  }

  /** ICR data after a tick: bit 0 for a timer A underflow, bit 1 for timer B. */
  function IcrAfter(data: Byte, aFired: bool, bFired: bool): Byte
  {
    data | (if aFired then 0x01 else 0) | (if bFired then 0x02 else 0)
  }

  /** PB6 after `aFires` timer A underflows: flipped once each in toggle mode, high in pulse mode. */
  function Pb6After(pb6: bool, cra: Byte, aFires: nat): bool
  {
    if aFires > 0 && cra & 0x02 != 0
    then (if cra & 0x04 != 0 then pb6 != (aFires % 2 == 1) else true)
    else pb6
  }

  /** PB7 after a tick: flipped on a timer B underflow in toggle mode, high in pulse mode. */
  function Pb7After(pb7: bool, crb: Byte, bFired: bool): bool
  {
    if bFired && crb & 0x02 != 0
    then (if crb & 0x04 != 0 then !pb7 else true)
    else pb7
  }

  /** ICR bits 0/1 are set for the timers that underflowed; bits 2-7 are left alone. */
  lemma IcrAfterSpec(data: Byte, aFired: bool, bFired: bool)
    ensures var d := IcrAfter(data, aFired, bFired);
      (d & 0x01 != 0 <==> data & 0x01 != 0 || aFired)
      && (d & 0x02 != 0 <==> data & 0x02 != 0 || bFired)
      && d & 0xFC == data & 0xFC
  {
  }

  /** The interrupt line after a tick: it goes up, and stays up, once an enabled source has fired. */
  function LineAfter(line: bool, data: Byte, mask: Byte): bool
  {
    line || data & mask != 0
  }

  /** ICR bits 0/1 of `Cia::tick` for the timers that underflowed. */
  method RaiseIcr(data: Byte, aFired: bool, bFired: bool) returns (data': Byte)
    ensures data' == IcrAfter(data, aFired, bFired)
  {
    data' := data;
    if aFired {
      data' := data' | 0x01;
    }
    if bFired {
      data' := data' | 0x02;
    }
  }

  /** The interrupt line of `Cia::tick` (and of an ICR mask write): raised when an enabled source has fired. */
  method RaiseLine(line: bool, data: Byte, mask: Byte) returns (line': bool)
    ensures line' == LineAfter(line, data, mask)
  {
    line' := line;
    if data & mask != 0 {
      line' := true;
    }
  }

  /** The PB6 output after timer A underflows, as CRA bits 1 and 2 select. */
  method DrivePb6(pb6: bool, cra: Byte, aFires: nat) returns (pb6': bool)
    ensures pb6' == Pb6After(pb6, cra, aFires)
  {
    pb6' := pb6;
    if aFires > 0 && cra & 0x02 != 0 {
      if cra & 0x04 != 0 {
        pb6' := Toggled(pb6, aFires);
      } else {
        pb6' := true;
      }
    }
  }

  /** The PB7 output after a timer B underflow, as CRB bits 1 and 2 select. */
  method DrivePb7(pb7: bool, crb: Byte, bFired: bool) returns (pb7': bool)
    ensures pb7' == Pb7After(pb7, crb, bFired)
  {
    pb7' := pb7;
    if bFired && crb & 0x02 != 0 {
      if crb & 0x04 != 0 {
        pb7' := !pb7;
      } else {
        pb7' := true;
      }
    }
  }

  /** PB6 in toggle mode: flipped once per timer A underflow. */
  method Toggled(pb6: bool, n: nat) returns (r: bool)
    ensures r == (pb6 != (n % 2 == 1))
  {
    r := pb6;
    var k := 0;
    while k < n
      invariant 0 <= k <= n
      invariant r == (pb6 != (k % 2 == 1))
    {
      r := !r;
      k := k + 1;
    }
  }

  /** The simple TOD clock: one tenth per 100000 accumulated cycles, carried in BCD. */
  method TodStep(t: Tod, cycles: nat) returns (t': Tod)
    ensures t' == TodAdvance(t, cycles)
  {
    var tenths, sec, min, hr, tick := t.tenths, t.sec, t.min, t.hr, t.tick + cycles;
    if tick >= 100_000 {
      tick := tick - 100_000;
      tenths := tenths + 1;
      if tenths >= 10 {
        tenths := 0;
        sec := BcdInc(sec, 0x59);
        if sec == 0 {
          min := BcdInc(min, 0x59);
          if min == 0 {
            hr := BcdInc(hr, 0x12);
          }
        }
      }
    }
    t' := Tod(tenths, sec, min, hr, tick);
  }

  /** A port read: output bits where the direction register says output, input lines elsewhere. */
  function PortValue(port: Byte, ddr: Byte, ext: Byte): Byte
  {
    (port & ddr) | (ext & !ddr)
  }

  lemma PortValueSpec(port: Byte, ddr: Byte, ext: Byte)
    ensures PortValue(port, ddr, ext) & ddr == port & ddr
    ensures PortValue(port, ddr, ext) & !ddr == ext & !ddr
  {
  }

  /** Port B read of port value `v`: PB6 and PB7 show the timer outputs when CRA/CRB bit 1 routes them there. */
  function PortBValue(v: Byte, cra: Byte, crb: Byte, pb6: bool, pb7: bool): Byte
  {
    var v6 := if cra & 0x02 == 0 then v else if pb6 then v | 0x40 else v & !0x40;
    if crb & 0x02 == 0 then v6 else if pb7 then v6 | 0x80 else v6 & !0x80
  }

  lemma PortBValueSpec(v: Byte, cra: Byte, crb: Byte, pb6: bool, pb7: bool)
    ensures var r := PortBValue(v, cra, crb, pb6, pb7);
      r & 0x3F == v & 0x3F
      && r & 0x40 == (if cra & 0x02 == 0 then v & 0x40 else if pb6 then 0x40 else 0)
      && r & 0x80 == (if crb & 0x02 == 0 then v & 0x80 else if pb7 then 0x80 else 0)
  {
  }

  /** An ICR read: the five source flags, and bit 7 while the interrupt line is up. */
  function IcrValue(data: Byte, line: bool): Byte
  {
    (data & 0x1F) | (if line then 0x80 else 0)
  }

  lemma IcrValueSpec(data: Byte, line: bool)
    ensures IcrValue(data, line) & 0x1F == data & 0x1F
    ensures IcrValue(data, line) & 0x60 == 0
    ensures (IcrValue(data, line) & 0x80 != 0) == line
  {
  }

  /** The ICR mask after writing `value` to $0D: bit 7 set sets the selected bits, clear clears them. */
  function MaskAfter(mask: Byte, value: Byte): Byte
  {
    if value & 0x80 != 0 then mask | (value & 0x1F) else mask & !(value & 0x1F)
  }

  /** Bits selected by `value` take bit 7 of `value`; all others keep their state. */
  lemma MaskAfterSpec(mask: Byte, value: Byte)
    ensures var sel := value & 0x1F;
      MaskAfter(mask, value) & !sel == mask & !sel
      && MaskAfter(mask, value) & sel == (if value & 0x80 != 0 then sel else 0)
  {
  }

  /** Low byte of a timer counter, as read from $04/$06. */
  function CounterLo(counter: int): Byte
    requires 0 <= counter <= 0xFFFF
  {
    (counter % 256) as Byte
  }

  /** High byte of a timer counter, as read from $05/$07. */
  function CounterHi(counter: int): Byte
    requires 0 <= counter <= 0xFFFF
  {
    (counter / 256) as Byte
  }

  /** The two counter bytes together give back the counter. */
  lemma CounterBytes(counter: int)
    requires 0 <= counter <= 0xFFFF
    ensures CounterHi(counter) as int * 256 + CounterLo(counter) as int == counter
  {
    ByteRoundTrip(counter % 256);
    ByteRoundTrip(counter / 256);
  }

  /** `write` to $0D: bit 7 set sets the selected mask bits, clear clears them. */
  method UpdateMask(mask: Byte, value: Byte) returns (mask': Byte)
    ensures mask' == MaskAfter(mask, value)
  {
    if value & 0x80 != 0 {
      mask' := mask | (value & 0x1F);
    } else {
      mask' := mask & !(value & 0x1F);
    }
  }

  /** ICR data once the flags of stopped timers are cleared. */
  function StaleCleared(data: Byte, aRunning: bool, bRunning: bool): Byte
  {
    var d := if aRunning then data else data & !0x01;
    if bRunning then d else d & !0x02
  }

  /** A stopped timer's flag is gone; every other flag is kept. */
  lemma StaleClearedSpec(data: Byte, aRunning: bool, bRunning: bool)
    ensures var d := StaleCleared(data, aRunning, bRunning);
      (d & 0x01 != 0 <==> aRunning && data & 0x01 != 0)
      && (d & 0x02 != 0 <==> bRunning && data & 0x02 != 0)
      && d & 0xFC == data & 0xFC
  {
  }

  /** The interrupt line after `clear_stale_ints`: kept only while an enabled source is pending. */
  function LineKept(line: bool, data: Byte, mask: Byte): bool
  {
    line && data & mask != 0
  }

  /** The flag clearing of `clear_stale_ints`, one timer at a time. */
  method StaleClear(data: Byte, aRunning: bool, bRunning: bool) returns (d: Byte)
    ensures d == StaleCleared(data, aRunning, bRunning)
  {
    d := data;
    if !aRunning {
      d := d & !0x01;
    }
    if !bRunning {
      d := d & !0x02;
    }
  }

  /** The line recalculation of `clear_stale_ints`. */
  method KeepLine(line: bool, data: Byte, mask: Byte) returns (l: bool)
    ensures l == LineKept(line, data, mask)
  {
    l := line;
    if data & mask == 0 {
      l := false;
    }
  }

  /** One CIA (`Cia`): CIA1 raises IRQ, CIA2 raises NMI. */
  class Cia {
    const timerA: CiaTimer
    const timerB: CiaTimer
    /** Which sources can fire (bits 0-4). */
    var intMask: Byte
    /** Which sources have fired (bits 0-4). */
    var intData: Byte
    /** The interrupt line, latched until ICR is read. */
    var intLine: bool
    /** Timer B counts timer A underflows instead of cycles. */
    var timerBCountsA: bool
    var cra: Byte
    var crb: Byte
    var portA: Byte
    var portB: Byte
    var ddrA: Byte
    var ddrB: Byte
    /** External input lines; nothing drives them in a SID player. */
    const extA: Byte := 0xFF
    const extB: Byte := 0xFF
    var pb6Toggle: bool
    var pb7Toggle: bool
    var tod10ths: Byte
    var todSec: Byte
    var todMin: Byte
    var todHr: Byte
    var todTick: nat

    predicate Valid()
      reads timerA, timerB
    {
      timerA != timerB && timerA.Valid() && timerB.Valid()
    }

    /** The registers a tick leaves alone: ICR mask, CRA, CRB, the cascade bit, ports and directions. */
    function Control(): (Byte, Byte, Byte, bool, Byte, Byte, Byte, Byte)
      reads this
    {
      (intMask, cra, crb, timerBCountsA, portA, portB, ddrA, ddrB)
    }

    function TodState(): Tod
      reads this
    {
      Tod(tod10ths, todSec, todMin, todHr, todTick)
    }

    constructor ()
      ensures Valid() && fresh(timerA) && fresh(timerB)
      ensures intMask == 0 && intData == 0 && !intLine && !timerBCountsA && cra == 0 && crb == 0
      ensures portA == 0xFF && portB == 0xFF && ddrA == 0 && ddrB == 0
      ensures pb6Toggle && pb7Toggle
      ensures TodState() == Tod(0, 0, 0, 0x01, 0)
      ensures !timerA.running && !timerB.running && timerA.counter == 0xFFFF && timerB.counter == 0xFFFF
    {
      timerA := new CiaTimer();
      timerB := new CiaTimer();
      intMask, intData, intLine := 0, 0, false;
      timerBCountsA := false;
      cra, crb := 0, 0;
      portA, portB, ddrA, ddrB := 0xFF, 0xFF, 0x00, 0x00;
      pb6Toggle, pb7Toggle := true, true;
      tod10ths, todSec, todMin, todHr, todTick := 0, 0, 0, 0x01, 0;
    }

    /** `setup_rsid_defaults`: timer A free-running at the frame rate, its interrupt enabled. */
    method SetupRsidDefaults(isPal: bool)
      requires Valid()
      modifies this, timerA
      ensures Valid() && unchanged(timerB)
      ensures timerA.latch == (if isPal then 0x4025 else 0x4295) && timerA.counter == timerA.latch
      ensures timerA.running && !timerA.oneshot && timerA.underflow == old(timerA.underflow)
      ensures cra == 0x01 && intMask == 0x01
      ensures intData == old(intData) && intLine == old(intLine) && crb == old(crb)
    {
      var latch := if isPal then 0x4025 else 0x4295;
      timerA.latch := latch;
      timerA.counter := latch;
      timerA.running := true;
      timerA.oneshot := false;
      cra := 0x01;
      intMask := 0x01;
    }

    /** `int_pending`: the line is up and an enabled source has fired. */
    function IntPending(): bool
      reads this
    {
      intLine && intData & intMask != 0
    }

    /**
     * `tick`: run both timers and the TOD clock for `cycles` cycles. Timer
     * underflows set ICR bits 0/1, drive PB6/PB7 when enabled in CRA/CRB,
     * and raise the interrupt line when an enabled source has fired.
     */
    method Tick(cycles: nat) returns (fired: bool)
      requires Valid()
      modifies this`intData, this`intLine, this`pb6Toggle, this`pb7Toggle
      modifies this`tod10ths, this`todSec, this`todMin, this`todHr, this`todTick, timerA, timerB
      ensures Valid()
      ensures var aFires := Fires(old(timerA.running), old(timerA.oneshot), old(timerA.counter), old(timerA.latch), cycles);
        var bFired := BFired(old(timerBCountsA), old(timerB.running), old(timerB.counter), aFires, cycles);
        fired == (aFires > 0 || bFired)
        && intData == IcrAfter(old(intData), aFires > 0, bFired)
        && intLine == LineAfter(old(intLine), intData, old(intMask))
        && pb6Toggle == Pb6After(old(pb6Toggle), old(cra), aFires)
        && pb7Toggle == Pb7After(old(pb7Toggle), old(crb), bFired)
        && timerA.Regs() == Ticked(old(timerA.Regs()), cycles)
        && timerB.Regs() == Ticked(old(timerB.Regs()), if old(timerBCountsA) then aFires else cycles)
      ensures Tod(tod10ths, todSec, todMin, todHr, todTick)
        == TodAdvance(Tod(old(tod10ths), old(todSec), old(todMin), old(todHr), old(todTick)), cycles)
    {
      var data0, line0, pb60, pb70, mask, a, b := intData, intLine, pb6Toggle, pb7Toggle, intMask, cra, crb;
      var aFires, bFired := TickTimers(cycles);
      var data := RaiseIcr(data0, aFires > 0, bFired);
      var pb6 := DrivePb6(pb60, a, aFires);
      var pb7 := DrivePb7(pb70, b, bFired);
      var line := RaiseLine(line0, data, mask);
      var tod := TodStep(Tod(tod10ths, todSec, todMin, todHr, todTick), cycles);
      intData, intLine, pb6Toggle, pb7Toggle := data, line, pb6, pb7;
      tod10ths, todSec, todMin, todHr, todTick := tod.tenths, tod.sec, tod.min, tod.hr, tod.tick;
      fired := aFires > 0 || bFired;
    }

    /**
     * The value `read` returns at a register offset. Reading has one side
     * effect, on $0D, which `Read` performs.
     */
    function Peek(offset: Byte): Byte
      reads this, timerA, timerB
      requires Valid()
    {
      if offset == 0x00 then PortValue(portA, ddrA, extA)
      else if offset == 0x01 then PortBValue(PortValue(portB, ddrB, extB), cra, crb, pb6Toggle, pb7Toggle)
      else if offset == 0x02 then ddrA
      else if offset == 0x03 then ddrB
      else if offset == 0x04 then CounterLo(timerA.counter)
      else if offset == 0x05 then CounterHi(timerA.counter)
      else if offset == 0x06 then CounterLo(timerB.counter)
      else if offset == 0x07 then CounterHi(timerB.counter)
      else if offset == 0x08 then tod10ths
      else if offset == 0x09 then todSec
      else if offset == 0x0A then todMin
      else if offset == 0x0B then todHr
      else if offset == 0x0D then IcrValue(intData, intLine)
      else if offset == 0x0E then cra
      else if offset == 0x0F then crb
      else 0
    }

    /** `read`: reading the ICR ($0D) acknowledges every flag and drops the interrupt line. */
    method Read(offset: Byte) returns (val: Byte)
      requires Valid()
      modifies this`intData, this`intLine
      ensures Valid()
      ensures val == old(Peek(offset))
      ensures offset == 0x0D ==> intData == 0 && !intLine && !IntPending()
      ensures offset != 0x0D ==> intData == old(intData) && intLine == old(intLine)
    {
      val := Peek(offset);
      if offset == 0x0D {
        intData, intLine := 0, false;
      }
    }

    /**
     * The new state after `write(offset, value)`: ports and directions take
     * the value; $04/$06 replace a latch's low byte; $05/$07 its high byte,
     * reloading a stopped timer; the TOD registers take the value as
     * written; $0D updates the mask and may raise the line; $0E/$0F set a
     * timer's control bits, reloading it on force-load or on a start; the
     * rest is unchanged.
     */
    twostate predicate Wrote(offset: Byte, value: Byte)
      reads this, timerA, timerB
    {
      && portA == (if offset == 0x00 then value else old(portA))
      && portB == (if offset == 0x01 then value else old(portB))
      && ddrA == (if offset == 0x02 then value else old(ddrA))
      && ddrB == (if offset == 0x03 then value else old(ddrB))
      && tod10ths == (if offset == 0x08 then value else old(tod10ths))
      && todSec == (if offset == 0x09 then value else old(todSec))
      && todMin == (if offset == 0x0A then value else old(todMin))
      && todHr == (if offset == 0x0B then value else old(todHr))
      && intMask == (if offset == 0x0D then MaskAfter(old(intMask), value) else old(intMask))
      && intLine == (if offset == 0x0D then LineAfter(old(intLine), intData, intMask) else old(intLine))
      && cra == (if offset == 0x0E then value & 0xEF else old(cra))
      && crb == (if offset == 0x0F then value & 0xEF else old(crb))
      && timerBCountsA == (if offset == 0x0F then value & 0x40 != 0 else old(timerBCountsA))
      && (offset != 0x04 && offset != 0x05 && offset != 0x0E ==> unchanged(timerA))
      && (offset != 0x06 && offset != 0x07 && offset != 0x0F ==> unchanged(timerB))
      && (offset == 0x04 ==> timerA.Regs() == old(timerA.Regs()).(latch := old(timerA.latch) / 256 * 256 + value as int))
      && (offset == 0x06 ==> timerB.Regs() == old(timerB.Regs()).(latch := old(timerB.latch) / 256 * 256 + value as int))
      && (offset == 0x05 ==> timerA.Regs() == HiWritten(old(timerA.Regs()), value))
      && (offset == 0x07 ==> timerB.Regs() == HiWritten(old(timerB.Regs()), value))
      && (offset == 0x0E ==> timerA.Regs() == ControlWritten(old(timerA.Regs()), value))
      && (offset == 0x0F ==> timerB.Regs() == ControlWritten(old(timerB.Regs()), value))
      && intData == old(intData) && pb6Toggle == old(pb6Toggle) && pb7Toggle == old(pb7Toggle) && todTick == old(todTick)
    }

    /**
     * `write`: ports and directions, timer latches and control, TOD
     * registers and the ICR mask. Other offsets are ignored.
     */
    method Write(offset: Byte, value: Byte)
      requires Valid()
      modifies this`portA, this`portB, this`ddrA, this`ddrB, this`tod10ths, this`todSec, this`todMin, this`todHr
      modifies this`intMask, this`intLine, this`cra, this`crb, this`timerBCountsA, timerA, timerB
      ensures Valid()
      ensures Wrote(offset, value)
    {
      if offset <= 0x03 {
        WritePort(offset, value);
      } else if offset <= 0x07 {
        WriteTimer(offset, value);
      } else if offset <= 0x0B {
        WriteTod(offset, value);
      } else {
        WriteInterruptControl(offset, value);
      }
    }

    /** `write` to $0C-$0F: the ICR mask and the two control registers; $0C is ignored. */
    method WriteInterruptControl(offset: Byte, value: Byte)
      requires Valid() && 0x0C <= offset
      modifies this`intMask, this`intLine, this`cra, this`crb, this`timerBCountsA, timerA, timerB
      ensures Valid()
      ensures Wrote(offset, value)
    {
      if offset == 0x0D {
        WriteMask(value);
      } else if offset == 0x0E {
        WriteCra(value);
      } else if offset == 0x0F {
        WriteCrb(value);
      }
    }

    /** `write` to $0D: the mask update, raising the line when an enabled source is already pending. */
    method WriteMask(value: Byte)
      modifies this`intMask, this`intLine
      ensures Wrote(0x0D, value)
    {
      var mask := UpdateMask(intMask, value);
      var line := RaiseLine(intLine, intData, mask);
      intMask, intLine := mask, line;
    }

    /** `write` to $0E: CRA without its force-load bit, and timer A's control. */
    method WriteCra(value: Byte)
      requires Valid()
      modifies this`cra, timerA
      ensures Valid() && Wrote(0x0E, value)
    {
      cra := value & 0xEF;
      timerA.WriteControl(value);
    }

    /** `write` to $0F: CRB without its force-load bit, the cascade bit, and timer B's control. */
    method WriteCrb(value: Byte)
      requires Valid()
      modifies this`crb, this`timerBCountsA, timerB
      ensures Valid() && Wrote(0x0F, value)
    {
      crb := value & 0xEF;
      timerBCountsA := value & 0x40 != 0;
      timerB.WriteControl(value);
    }

    /** `write` to $00-$03: the port and direction registers. */
    method WritePort(offset: Byte, value: Byte)
      requires offset <= 0x03
      modifies this`portA, this`portB, this`ddrA, this`ddrB
      ensures Wrote(offset, value)
    {
      if offset == 0x00 {
        portA := value;
      } else if offset == 0x01 {
        portB := value;
      } else if offset == 0x02 {
        ddrA := value;
      } else {
        ddrB := value;
      }
    }

    /** `write` to $04-$07: the timer latches. */
    method WriteTimer(offset: Byte, value: Byte)
      requires Valid() && 0x04 <= offset <= 0x07
      modifies timerA, timerB
      ensures Valid()
      ensures Wrote(offset, value)
    {
      if offset == 0x04 {
        timerA.WriteLo(value);
      } else if offset == 0x05 {
        timerA.WriteHi(value);
      } else if offset == 0x06 {
        timerB.WriteLo(value);
      } else {
        timerB.WriteHi(value);
      }
    }

    /** `write` to $08-$0B: the TOD registers, stored as written. */
    method WriteTod(offset: Byte, value: Byte)
      requires 0x08 <= offset <= 0x0B
      modifies this`tod10ths, this`todSec, this`todMin, this`todHr
      ensures Wrote(offset, value)
    {
      if offset == 0x08 {
        tod10ths := value;
      } else if offset == 0x09 {
        todSec := value;
      } else if offset == 0x0A {
        todMin := value;
      } else {
        todHr := value;
      }
    }

    /**
     * `clear_stale_ints`: drop the underflow flags of timers that are no
     * longer running, then drop the interrupt line unless an enabled source
     * is still pending.
     */
    method ClearStaleInts()
      requires Valid()
      modifies this`intData, this`intLine, timerA`underflow, timerB`underflow
      ensures Valid()
      ensures intData == StaleCleared(old(intData), timerA.running, timerB.running)
      ensures intLine == LineKept(old(intLine), intData, intMask)
      ensures timerA.underflow == (old(timerA.underflow) && timerA.running)
      ensures timerB.underflow == (old(timerB.underflow) && timerB.running)
    {
      var data := StaleClear(intData, timerA.running, timerB.running);
      var line := KeepLine(intLine, data, intMask);
      if !timerA.running {
        timerA.underflow := false;
      }
      if !timerB.running {
        timerB.underflow := false;
      }
      intData, intLine := data, line;
    }

    /** Both timers of `tick`: A counts cycles, B cycles or A's underflows. */
    method TickTimers(cycles: nat) returns (aFires: nat, bFired: bool)
      requires Valid()
      modifies timerA, timerB
      ensures Valid()
      ensures aFires == Fires(old(timerA.running), old(timerA.oneshot), old(timerA.counter), old(timerA.latch), cycles)
      ensures bFired == BFired(timerBCountsA, old(timerB.running), old(timerB.counter), aFires, cycles)
      ensures timerA.Regs() == Ticked(old(timerA.Regs()), cycles)
      ensures timerB.Regs() == Ticked(old(timerB.Regs()), if timerBCountsA then aFires else cycles)
    {
      aFires := timerA.Tick(cycles);
      bFired := TickB(cycles, aFires);
    }

    /** Timer B counts cycles, or timer A underflows in cascade mode; true when it underflowed. */
    method TickB(cycles: nat, aFires: nat) returns (bFired: bool)
      requires Valid()
      modifies timerB
      ensures Valid()
      ensures bFired == BFired(timerBCountsA, old(timerB.running), old(timerB.counter), aFires, cycles)
      ensures timerB.Regs() == Ticked(old(timerB.Regs()), if timerBCountsA then aFires else cycles)
    {
      if timerBCountsA {
        bFired := CascadeB(aFires);
      } else {
        ghost var b0Running, b0Oneshot, b0Counter := timerB.running, timerB.oneshot, timerB.counter;
        var bFires := timerB.Tick(cycles);
        FiresPositive(b0Running, b0Oneshot, b0Counter, timerB.latch, cycles);
        bFired := bFires > 0;
      }
    }

    /** Timer B in cascade mode: one `tick_once` per timer A underflow. */
    method CascadeB(aFires: nat) returns (fired: bool)
      requires Valid()
      modifies timerB
      ensures Valid()
      ensures fired == (old(timerB.running) && aFires > old(timerB.counter))
      ensures timerB.Regs() == Ticked(old(timerB.Regs()), aFires)
    {
      ghost var b0Running, b0Counter := timerB.running, timerB.counter;
      ghost var b0 := timerB.Regs();
      fired := false;
      var k := 0;
      while k < aFires
        invariant 0 <= k <= aFires
        invariant Valid()
        invariant !b0Running ==> !fired && !timerB.running && timerB.counter == b0Counter
        invariant b0Running ==> (fired <==> k > b0Counter)
        invariant b0Running && k <= b0Counter ==> timerB.running && timerB.counter == b0Counter - k
        invariant timerB.Regs() == Cascaded(b0, k)
      {
        var f := timerB.TickOnce();
        if f {
          fired := true;
        }
        k := k + 1;
      }
      CascadeMatchesTicked(b0, aFires);
    }
  }
}
