/**
 * The software SID sink: up to three emulated SID chips, one mainboard RC
 * output filter per chip, and the stereo audio buffer the sound card drains.
 * The chips themselves belong to a foreign emulation library; here each is
 * the log of the calls made on it, and the samples it returns are inputs.
 */
module SidEmulated {
  import opened Common

  const PAL_CLOCK: nat := 985_248
  const NTSC_CLOCK: nat := 1_022_727
  const PAL_CYCLES_PER_FRAME: nat := 19_705
  const NTSC_CYCLES_PER_FRAME: nat := 17_045
  /** Registers per chip. */
  const SID_REGS: nat := 0x20
  /** The audio buffer's capacity in stereo pairs. */
  const MAX_BUFFER_SAMPLES: nat := 8192

  /** A signed 16-bit sample. */
  type I16 = x: int | -0x8000 <= x < 0x8000

  /** A call made on one emulated chip. */
  datatype SidOp = Sampling(clock: nat, rate: nat) | Write(reg: Byte, val: Byte) | Clock(cycles: nat) | Reset

  /** The samples the chips return for one clocking call, chip by chip. */
  datatype Chunk = Chunk(s1: seq<I16>, s2: seq<I16>, s3: seq<I16>)

  /** A cycle-stamped write as the ring carries it: (delta, register, value). */
  datatype RingEntry = RingEntry(delta: nat, reg: Byte, val: Byte)

  // ---------------------------------------------------------------------------
  // Register routing

  /** `write_to_sid`'s routing: chip `reg / $20`, register `reg % $20`; only chips 0-2 exist. */
  function Route(reg: Byte): Option<(nat, Byte)>
  {
    var chip := reg as int / SID_REGS;
    if chip < 3 then Some((chip, reg % 0x20)) else None
  }

  /** A routed register decomposes the byte, and only registers $60 and up go nowhere. */
  lemma RouteSpec(reg: Byte)
    ensures Route(reg).None? <==> reg >= 0x60
    ensures Route(reg).Some? ==>
      var (chip, local) := Route(reg).value;
      chip < 3 && local < 0x20 && reg as int == SID_REGS * chip + local as int
  {
  }

  /** What a write does to chip `k`'s log when the chip is present. */
  function WriteOps(k: nat, reg: Byte, val: Byte): seq<SidOp>
  {
    if Route(reg).Some? && Route(reg).value.0 == k then [Write(Route(reg).value.1, val)] else []
  }

  /** Appends to an optional chip: an absent chip stays absent. */
  function Extend(chip: Option<seq<SidOp>>, ops: seq<SidOp>): (r: Option<seq<SidOp>>)
    ensures r.Some? <==> chip.Some?
    ensures r.Some? ==> r.value == chip.value + ops
  {
    if chip.Some? && ops != [] then Some(chip.value + ops) else chip
  }

  lemma ExtendTwice(chip: Option<seq<SidOp>>, a: seq<SidOp>, b: seq<SidOp>)
    ensures Extend(Extend(chip, a), b) == Extend(chip, a + b)
  {
    if chip.Some? {
      assert chip.value + a + b == chip.value + (a + b);
    }
  }

  // ---------------------------------------------------------------------------
  // The ring of cycle-stamped writes

  /** Chip `k`'s calls for one ring entry: clocked by a positive delta, then written. */
  function EntryOps(k: nat, e: RingEntry): seq<SidOp>
  {
    (if e.delta > 0 then [Clock(e.delta)] else []) + WriteOps(k, e.reg, e.val)
  }

  /** Chip `k`'s calls for a whole ring, in ring order. */
  function RingOps(k: nat, ws: seq<RingEntry>): seq<SidOp>
  {
    if ws == [] then [] else RingOps(k, ws[..|ws| - 1]) + EntryOps(k, ws[|ws| - 1])
  }

  /** The sum of the positive deltas: the cycles a ring accounts to the frame. */
  function DeltaSum(ws: seq<RingEntry>): nat
  {
    if ws == [] then 0 else DeltaSum(ws[..|ws| - 1]) + ws[|ws| - 1].delta
  }

  /** The writes among a chip's calls, in order. */
  function WritesOf(ops: seq<SidOp>): seq<(Byte, Byte)>
  {
    if ops == [] then []
    else WritesOf(ops[..|ops| - 1]) + (if ops[|ops| - 1].Write? then [(ops[|ops| - 1].reg, ops[|ops| - 1].val)] else [])
  }

  /** The cycles a chip was clocked by, in total. */
  function Clocked(ops: seq<SidOp>): nat
  {
    if ops == [] then 0 else Clocked(ops[..|ops| - 1]) + (if ops[|ops| - 1].Clock? then ops[|ops| - 1].cycles else 0)
  }

  /** The ring entries chip `k` receives, as (local register, value), in ring order. */
  function RoutedTo(k: nat, ws: seq<RingEntry>): seq<(Byte, Byte)>
  {
    if ws == [] then []
    else
      var e := ws[|ws| - 1];
      var here := if Route(e.reg).Some? && Route(e.reg).value.0 == k then [(Route(e.reg).value.1, e.val)] else [];
      RoutedTo(k, ws[..|ws| - 1]) + here
  }

  lemma {:induction false} WritesOfAppend(a: seq<SidOp>, b: seq<SidOp>)
    ensures WritesOf(a + b) == WritesOf(a) + WritesOf(b)
    decreases |b|
  {
    if b == [] {
      assert a + b == a;
    } else {
      assert (a + b)[..|a + b| - 1] == a + b[..|b| - 1];
      WritesOfAppend(a, b[..|b| - 1]);
    }
  }

  lemma {:induction false} ClockedAppend(a: seq<SidOp>, b: seq<SidOp>)
    ensures Clocked(a + b) == Clocked(a) + Clocked(b)
    decreases |b|
  {
    if b == [] {
      assert a + b == a;
    } else {
      assert (a + b)[..|a + b| - 1] == a + b[..|b| - 1];
      ClockedAppend(a, b[..|b| - 1]);
    }
  }

  /**
   * A chip sees exactly the ring writes routed to it, in ring order, and is
   * clocked by exactly the cycles the ring accounts to the frame.
   */
  lemma {:induction false} RingOpsSpec(k: nat, ws: seq<RingEntry>)
    ensures WritesOf(RingOps(k, ws)) == RoutedTo(k, ws)
    ensures Clocked(RingOps(k, ws)) == DeltaSum(ws)
    decreases |ws|
  {
    if ws != [] {
      var e := ws[|ws| - 1];
      RingOpsSpec(k, ws[..|ws| - 1]);
      WritesOfAppend(RingOps(k, ws[..|ws| - 1]), EntryOps(k, e));
      ClockedAppend(RingOps(k, ws[..|ws| - 1]), EntryOps(k, e));
      var c: seq<SidOp> := if e.delta > 0 then [Clock(e.delta)] else [];
      WritesOfAppend(c, WriteOps(k, e.reg, e.val));
      ClockedAppend(c, WriteOps(k, e.reg, e.val));
      assert WritesOf(c) == [] by {
        if e.delta > 0 {
          assert c[..0] == [];
        }
      }
      assert Clocked(c) == e.delta by {
        if e.delta > 0 {
          assert c[..0] == [];
        }
      }
      var w := WriteOps(k, e.reg, e.val);
      if w != [] {
        assert w[..0] == [];
      }
    }
  }

  /**
   * A frame's clocking: a ring that accounts `t` cycles followed by a flush
   * that clocks the saturating rest leaves every chip clocked by the frame
   * length, or by `t` when the ring overran it.
   */
  lemma FrameClocking(k: nat, ws: seq<RingEntry>, cyclesPerFrame: nat)
    ensures var rest := SatSub(cyclesPerFrame, DeltaSum(ws));
      Clocked(RingOps(k, ws) + (if rest > 0 then [Clock(rest)] else [])) == Max(cyclesPerFrame, DeltaSum(ws))
  {
    var rest := SatSub(cyclesPerFrame, DeltaSum(ws));
    var tail: seq<SidOp> := if rest > 0 then [Clock(rest)] else [];
    RingOpsSpec(k, ws);
    ClockedAppend(RingOps(k, ws), tail);
    if rest > 0 {
      assert tail[..0] == [];
    }
  }

  // ---------------------------------------------------------------------------
  // The mainboard RC output filter

  /** The filter's two integrators, fixed point times 2^11. */
  datatype FilterState = FilterState(vlp: int, vhp: int)

  /** Rust's `clamp` to the `i16` range. */
  function Clamp16(x: int): (r: I16)
    ensures -0x8000 <= x < 0x8000 ==> r == x
    ensures x < -0x8000 ==> r == -0x8000
    ensures x >= 0x8000 ==> r == 0x7FFF
  {
    if x < -0x8000 then -0x8000 else if x >= 0x8000 then 0x7FFF else x
  }

  /**
   * One sample through both stages: the input scaled by 2^11, the low-pass
   * step `w0lp * (vi - vlp) >> 7`, the high-pass step `w0hp * (vlp - vhp) >> 17`
   * on the low-pass value from before the step, the output `(vlp - vhp) >> 11`
   * clamped. Arithmetic shifts floor, as Dafny's division by a positive
   * divisor does.
   */
  function FilterStep(w0lp: int, w0hp: int, st: FilterState, x: I16): (FilterState, I16)
  {
    var vi := x * 2048;
    var dvlp := (w0lp * (vi - st.vlp)) / 128;
    var dvhp := (w0hp * (st.vlp - st.vhp)) / 131072;
    var st' := FilterState(st.vlp + dvlp, st.vhp + dvhp);
    (st', Clamp16((st'.vlp - st'.vhp) / 2048))
  }

  /** A run of samples through the filter, in order. */
  function FilterRun(w0lp: int, w0hp: int, st: FilterState, xs: seq<I16>): (r: (FilterState, seq<I16>))
    ensures |r.1| == |xs|
  {
    if xs == [] then (st, [])
    else
      var (s, ys) := FilterRun(w0lp, w0hp, st, xs[..|xs| - 1]);
      var (s', y) := FilterStep(w0lp, w0hp, s, xs[|xs| - 1]);
      (s', ys + [y])
  }

  /** A reset filter fed silence stays at rest and outputs silence, whatever its coefficients. */
  lemma {:induction false} SilenceStaysSilent(w0lp: int, w0hp: int, xs: seq<I16>)
    requires forall i :: 0 <= i < |xs| ==> xs[i] == 0
    ensures FilterRun(w0lp, w0hp, FilterState(0, 0), xs).0 == FilterState(0, 0)
    ensures forall i :: 0 <= i < |xs| ==> FilterRun(w0lp, w0hp, FilterState(0, 0), xs).1[i] == 0
    decreases |xs|
  {
    if xs != [] {
      SilenceStaysSilent(w0lp, w0hp, xs[..|xs| - 1]);
    }
  }

  /** The low-pass coefficient `dt/(dt+RC) * 2^7` rounded, for RC = 10 us: 12 at the PAL clock, 11 at NTSC. */
  function LowPassCoefficient(isPal: bool): int
  {
    if isPal then 12 else 11
  }

  /** The high-pass coefficient `dt/(dt+RC) * 2^17` rounded, for RC = 0.1 s: 1 at both clocks. */
  const HIGH_PASS_COEFFICIENT: int := 1

  class ExternalFilter {
    var vlp: int
    var vhp: int
    var w0lp: int
    var w0hp: int

    /** `new` followed by `set_clock_frequency` for the clock. */
    constructor (isPal: bool)
      ensures vlp == 0 && vhp == 0 && w0lp == LowPassCoefficient(isPal) && w0hp == HIGH_PASS_COEFFICIENT
    {
      vlp, vhp := 0, 0;
      w0lp, w0hp := LowPassCoefficient(isPal), HIGH_PASS_COEFFICIENT;
    }

    function State(): FilterState
      reads this
    {
      FilterState(vlp, vhp)
    }

    /** `set_clock_frequency`: the coefficients of the clock; the integrators stay. */
    method SetClock(isPal: bool)
      modifies this`w0lp, this`w0hp
      ensures w0lp == LowPassCoefficient(isPal) && w0hp == HIGH_PASS_COEFFICIENT
    {
      w0lp, w0hp := LowPassCoefficient(isPal), HIGH_PASS_COEFFICIENT;
    }

    /** `reset`: both integrators at zero, so the filter is at rest. */
    method Reset()
      modifies this`vlp, this`vhp
      ensures State() == FilterState(0, 0)
    {
      vlp, vhp := 0, 0;
    }

    /** `clock`: one sample in, one sample out, always inside the `i16` range. */
    method Clock(input: I16) returns (out: I16)
      modifies this`vlp, this`vhp
      ensures (State(), out) == FilterStep(w0lp, w0hp, old(State()), input)
    {
      var vi := input * 2048;
      var dvlp := (w0lp * (vi - vlp)) / 128;
      var dvhp := (w0hp * (vlp - vhp)) / 131072;
      vlp := vlp + dvlp;
      vhp := vhp + dvhp;
      out := Clamp16((vlp - vhp) / 2048);
    }

    /** `iter().map(clock)`: the samples through the filter in order. */
    method ClockAll(xs: seq<I16>) returns (ys: seq<I16>)
      modifies this`vlp, this`vhp
      ensures (State(), ys) == FilterRun(w0lp, w0hp, old(State()), xs)
    {
      ys := [];
      var i := 0;
      while i < |xs|
        invariant 0 <= i <= |xs|
        invariant (State(), ys) == FilterRun(w0lp, w0hp, old(State()), xs[..i])
      {
        var y := Clock(xs[i]);
        ys := ys + [y];
        assert xs[..i + 1][..i] == xs[..i];
        i := i + 1;
      }
      assert xs[..i] == xs;
    }
  }

  // ---------------------------------------------------------------------------
  // Mixing into the stereo buffer

  /** Rust's `i16` division by two, truncating toward zero. */
  function Half(x: I16): I16
  {
    var n := x as int;
    if n >= 0 then n / 2 else -((-n) / 2)
  }

  /** `saturating_add` on `i16`. */
  function SatAdd16(a: I16, b: I16): I16
  {
    Clamp16(a + b)
  }

  /**
   * Stereo pair `i`: SID 1 on the left; SID 2 on the right, or SID 1 again
   * when SID 2 gave nothing; SID 3 at half level added to both sides.
   */
  function MixPair(f1: seq<I16>, f2: seq<I16>, f3: seq<I16>, i: nat): (I16, I16)
    requires i < |f1|
  {
    var left := f1[i];
    var right := if f2 != [] then (if i < |f2| then f2[i] else 0) else left;
    if f3 != [] then
      var centre := Half(if i < |f3| then f3[i] else 0);
      (SatAdd16(left, centre), SatAdd16(right, centre))
    else (left, right)
  }

  /** The first `count` stereo pairs. */
  function Mix(f1: seq<I16>, f2: seq<I16>, f3: seq<I16>, count: nat): (r: seq<(I16, I16)>)
    requires count <= |f1|
    ensures |r| == count
    ensures forall i :: 0 <= i < count ==> r[i] == MixPair(f1, f2, f3, i)
  {
    seq(count, i requires 0 <= i < count => MixPair(f1, f2, f3, i))
  }

  /** A single SID plays the same signal on both sides. */
  lemma MonoMirrors(f1: seq<I16>, count: nat)
    requires count <= |f1|
    ensures forall i :: 0 <= i < count ==> Mix(f1, [], [], count)[i] == (f1[i], f1[i])
  {
  }

  /** The pushing loop of `clock_and_push`. */
  method MixPairs(f1: seq<I16>, f2: seq<I16>, f3: seq<I16>, count: nat) returns (pairs: seq<(I16, I16)>)
    requires count <= |f1|
    ensures pairs == Mix(f1, f2, f3, count)
  {
    pairs := [];
    var i := 0;
    while i < count
      invariant 0 <= i <= count
      invariant pairs == Mix(f1, f2, f3, i)
    {
      var left := f1[i];
      var right := if f2 != [] then (if i < |f2| then f2[i] else 0) else left;
      if f3 != [] {
        var centre := Half(if i < |f3| then f3[i] else 0);
        pairs := pairs + [(SatAdd16(left, centre), SatAdd16(right, centre))];
      } else {
        pairs := pairs + [(left, right)];
      }
      i := i + 1;
    }
  }

  // ---------------------------------------------------------------------------
  // The device

  class EmulatedDevice {
    var sid1: seq<SidOp>
    var sid2: Option<seq<SidOp>>
    var sid3: Option<seq<SidOp>>
    const ext1: ExternalFilter
    const ext2: ExternalFilter
    const ext3: ExternalFilter
    var clockFreq: nat
    const sampleRate: nat
    var cyclesPerFrame: nat
    var cyclesThisFrame: nat
    /** The audio ring the sound card drains, oldest pair first. */
    var buffer: seq<(I16, I16)>
    var audioShutdown: bool

    ghost predicate Valid()
      reads this
    {
      ext1 != ext2 && ext1 != ext3 && ext2 != ext3 && |buffer| <= MAX_BUFFER_SAMPLES
    }

    /**
     * `open`, given the rate the audio thread reports: SID 1 sampling at the
     * PAL clock, filters set for PAL, no SID 2 or 3, an empty buffer.
     */
    constructor (sampleRate: nat)
      ensures Valid()
      ensures sid1 == [Sampling(PAL_CLOCK, sampleRate)] && sid2 == None && sid3 == None
      ensures clockFreq == PAL_CLOCK && cyclesPerFrame == PAL_CYCLES_PER_FRAME && cyclesThisFrame == 0
      ensures buffer == [] && !audioShutdown
      ensures ext1.State() == ext2.State() == ext3.State() == FilterState(0, 0)
    {
      sid1 := [Sampling(PAL_CLOCK, sampleRate)];
      sid2, sid3 := None, None;
      ext1 := new ExternalFilter(true);
      ext2 := new ExternalFilter(true);
      ext3 := new ExternalFilter(true);
      clockFreq, this.sampleRate := PAL_CLOCK, sampleRate;
      cyclesPerFrame, cyclesThisFrame := PAL_CYCLES_PER_FRAME, 0;
      buffer, audioShutdown := [], false;
    }

    /** `make_sid`: a new chip sampling at the current clock and output rate. */
    function MakeSid(): (chip: seq<SidOp>)
      reads this
      ensures chip == [Sampling(clockFreq, sampleRate)]
    {
      [Sampling(clockFreq, sampleRate)]
    }

    /** `write_to_sid`: the write reaches the chip its register routes to, if that chip is present. */
    method WriteToSid(reg: Byte, val: Byte)
      modifies this`sid1, this`sid2, this`sid3
      ensures sid1 == old(sid1) + WriteOps(0, reg, val)
      ensures sid2 == Extend(old(sid2), WriteOps(1, reg, val))
      ensures sid3 == Extend(old(sid3), WriteOps(2, reg, val))
    {
      var chip := reg as int / SID_REGS;
      var local := reg % 0x20;
      if chip == 0 {
        sid1 := sid1 + [Write(local, val)];
      } else if chip == 1 {
        if sid2.Some? {
          sid2 := Some(sid2.value + [Write(local, val)]);
        }
      } else if chip == 2 {
        if sid3.Some? {
          sid3 := Some(sid3.value + [Write(local, val)]);
        }
      }
    }

    /** `clock_sid` on every present chip: each is clocked by `delta`. */
    method ClockChips(delta: nat)
      requires delta > 0
      modifies this`sid1, this`sid2, this`sid3
      ensures sid1 == old(sid1) + [Clock(delta)]
      ensures sid2 == Extend(old(sid2), [Clock(delta)]) && sid3 == Extend(old(sid3), [Clock(delta)])
    {
      sid1 := sid1 + [Clock(delta)];
      if sid2.Some? {
        sid2 := Some(sid2.value + [Clock(delta)]);
      }
      if sid3.Some? {
        sid3 := Some(sid3.value + [Clock(delta)]);
      }
    }

    /**
     * `clock_and_push`: every present chip is clocked by a positive `delta`;
     * when SID 1 returned samples, each chip's samples go through its filter
     * and as many stereo pairs as fit below `MAX_BUFFER_SAMPLES` are
     * appended, so the buffer never outgrows it.
     */
    method ClockAndPush(delta: nat, chunk: Chunk)
      requires Valid()
      modifies this`sid1, this`sid2, this`sid3, this`buffer, ext1`vlp, ext1`vhp, ext2`vlp, ext2`vhp, ext3`vlp, ext3`vhp
      ensures Valid()
      ensures sid1 == old(sid1) + (if delta > 0 then [Clock(delta)] else [])
      ensures sid2 == Extend(old(sid2), if delta > 0 then [Clock(delta)] else [])
      ensures sid3 == Extend(old(sid3), if delta > 0 then [Clock(delta)] else [])
      ensures delta == 0 || chunk.s1 == [] ==>
        buffer == old(buffer) && ext1.State() == old(ext1.State())
        && ext2.State() == old(ext2.State()) && ext3.State() == old(ext3.State())
      ensures delta > 0 && chunk.s1 != [] ==>
        buffer == old(buffer) + Mix(Filtered(ext1, old(ext1.State()), chunk.s1),
                                    if sid2.Some? then Filtered(ext2, old(ext2.State()), chunk.s2) else [],
                                    if sid3.Some? then Filtered(ext3, old(ext3.State()), chunk.s3) else [],
                                    Min(|chunk.s1|, MAX_BUFFER_SAMPLES - |old(buffer)|))
      ensures delta > 0 && chunk.s1 != [] ==>
        ext1.State() == Settled(ext1, old(ext1.State()), chunk.s1)
        && ext2.State() == (if sid2.Some? then Settled(ext2, old(ext2.State()), chunk.s2) else old(ext2.State()))
        && ext3.State() == (if sid3.Some? then Settled(ext3, old(ext3.State()), chunk.s3) else old(ext3.State()))
    {
      if delta == 0 {
        return;
      }
      ClockChips(delta);
      if chunk.s1 == [] {
        return;
      }
      PushSamples(chunk);
    }

    /** A filter's outputs for `xs` from state `st`, at its current coefficients. */
    ghost function Filtered(ext: ExternalFilter, st: FilterState, xs: seq<I16>): (ys: seq<I16>)
      reads ext
      ensures |ys| == |xs|
    {
      FilterRun(ext.w0lp, ext.w0hp, st, xs).1
    }

    /** A filter's state after `xs` from state `st`, at its current coefficients. */
    ghost function Settled(ext: ExternalFilter, st: FilterState, xs: seq<I16>): FilterState
      reads ext
    {
      FilterRun(ext.w0lp, ext.w0hp, st, xs).0
    }

    /** The filtering and pushing half of `clock_and_push`, once SID 1 has returned samples. */
    method PushSamples(chunk: Chunk)
      requires Valid() && chunk.s1 != []
      modifies this`buffer, ext1`vlp, ext1`vhp, ext2`vlp, ext2`vhp, ext3`vlp, ext3`vhp
      ensures Valid()
      ensures buffer == old(buffer) + Mix(Filtered(ext1, old(ext1.State()), chunk.s1),
                                          if sid2.Some? then Filtered(ext2, old(ext2.State()), chunk.s2) else [],
                                          if sid3.Some? then Filtered(ext3, old(ext3.State()), chunk.s3) else [],
                                          Min(|chunk.s1|, MAX_BUFFER_SAMPLES - |old(buffer)|))
      ensures ext1.State() == Settled(ext1, old(ext1.State()), chunk.s1)
      ensures ext2.State() == if sid2.Some? then Settled(ext2, old(ext2.State()), chunk.s2) else old(ext2.State())
      ensures ext3.State() == if sid3.Some? then Settled(ext3, old(ext3.State()), chunk.s3) else old(ext3.State())
    {
      var f1 := ext1.ClockAll(chunk.s1);
      var f2: seq<I16> := [];
      if sid2.Some? {
        f2 := ext2.ClockAll(chunk.s2);
      }
      var f3: seq<I16> := [];
      if sid3.Some? {
        f3 := ext3.ClockAll(chunk.s3);
      }
      var room := SatSub(MAX_BUFFER_SAMPLES, |buffer|);
      var count := Min(|f1|, room);
      var pairs := MixPairs(f1, f2, f3, count);
      buffer := buffer + pairs;
    }

    /** `init`: nothing to open. */
    method Init() returns (r: Result<(), string>)
      ensures r.Ok?
    {
      r := Ok(());
    }

    /**
     * `set_clock_rate`: the clock and frame length of the video standard,
     * every present chip resampled at the new clock, the filter coefficients
     * of that clock.
     */
    method SetClockRate(isPal: bool)
      requires Valid()
      modifies this`clockFreq, this`cyclesPerFrame, this`sid1, this`sid2, this`sid3
      modifies ext1`w0lp, ext1`w0hp, ext2`w0lp, ext2`w0hp, ext3`w0lp, ext3`w0hp
      ensures Valid()
      ensures clockFreq == (if isPal then PAL_CLOCK else NTSC_CLOCK)
      ensures cyclesPerFrame == (if isPal then PAL_CYCLES_PER_FRAME else NTSC_CYCLES_PER_FRAME)
      ensures sid1 == old(sid1) + [Sampling(clockFreq, sampleRate)]
      ensures sid2 == Extend(old(sid2), [Sampling(clockFreq, sampleRate)])
      ensures sid3 == Extend(old(sid3), [Sampling(clockFreq, sampleRate)])
      ensures ext1.w0lp == ext2.w0lp == ext3.w0lp == LowPassCoefficient(isPal)
      ensures ext1.w0hp == ext2.w0hp == ext3.w0hp == HIGH_PASS_COEFFICIENT
    {
      clockFreq := if isPal then PAL_CLOCK else NTSC_CLOCK;
      cyclesPerFrame := if isPal then PAL_CYCLES_PER_FRAME else NTSC_CYCLES_PER_FRAME;
      var op := Sampling(clockFreq, sampleRate);
      AppendAll(op);
      ext1.SetClock(isPal);
      ext2.SetClock(isPal);
      ext3.SetClock(isPal);
    }

    /** One call made on every present chip. */
    method AppendAll(op: SidOp)
      modifies this`sid1, this`sid2, this`sid3
      ensures sid1 == old(sid1) + [op] && sid2 == Extend(old(sid2), [op]) && sid3 == Extend(old(sid3), [op])
    {
      sid1 := sid1 + [op];
      if sid2.Some? {
        sid2 := Some(sid2.value + [op]);
      }
      if sid3.Some? {
        sid3 := Some(sid3.value + [op]);
      }
    }

    /** The filters at rest, the frame's cycle count at zero, the audio buffer empty. */
    method Quiet()
      requires Valid()
      modifies this`cyclesThisFrame, this`buffer, ext1`vlp, ext1`vhp, ext2`vlp, ext2`vhp, ext3`vlp, ext3`vhp
      ensures Valid()
      ensures ext1.State() == ext2.State() == ext3.State() == FilterState(0, 0)
      ensures cyclesThisFrame == 0 && buffer == []
    {
      ext1.Reset();
      ext2.Reset();
      ext3.Reset();
      cyclesThisFrame := 0;
      buffer := [];
    }

    /** `reset`: every present chip is reset, the filters rest, the frame count and the buffer are cleared. */
    method Reset()
      requires Valid()
      modifies this`sid1, this`sid2, this`sid3, this`cyclesThisFrame, this`buffer
      modifies ext1`vlp, ext1`vhp, ext2`vlp, ext2`vhp, ext3`vlp, ext3`vhp
      ensures Valid()
      ensures sid1 == old(sid1) + [SidOp.Reset]
      ensures sid2 == Extend(old(sid2), [SidOp.Reset]) && sid3 == Extend(old(sid3), [SidOp.Reset])
      ensures ext1.State() == ext2.State() == ext3.State() == FilterState(0, 0)
      ensures cyclesThisFrame == 0 && buffer == []
    {
      AppendAll(SidOp.Reset);
      Quiet();
    }

    /**
     * `set_stereo`: mode 1 or more adds SID 2 and mode 2 or more SID 3 when
     * missing, each new chip with a rested filter; mode 0 removes both; a
     * present chip is kept as it is, and a negative mode changes nothing.
     */
    method SetStereo(mode: int)
      requires Valid()
      modifies this`sid2, this`sid3, ext2`vlp, ext2`vhp, ext3`vlp, ext3`vhp
      ensures Valid()
      ensures mode >= 1 ==> sid2 == if old(sid2).Some? then old(sid2) else Some(MakeSid())
      ensures mode >= 2 ==> sid3 == if old(sid3).Some? then old(sid3) else Some(MakeSid())
      ensures mode == 1 || mode < 0 ==> sid3 == old(sid3)
      ensures mode < 0 ==> sid2 == old(sid2)
      ensures mode == 0 ==> sid2 == None && sid3 == None
      ensures mode == 0 ==> ext2.State() == ext3.State() == FilterState(0, 0)
      ensures unchanged(ext1)
    {
      if mode >= 1 && sid2.None? {
        sid2 := Some(MakeSid());
        ext2.Reset();
      }
      if mode >= 2 && sid3.None? {
        sid3 := Some(MakeSid());
        ext3.Reset();
      }
      if mode == 0 {
        sid2, sid3 := None, None;
        ext2.Reset();
        ext3.Reset();
      }
    }

    /** `write`: the same as `write_to_sid`. */
    method WriteRegister(reg: Byte, val: Byte)
      modifies this`sid1, this`sid2, this`sid3
      ensures sid1 == old(sid1) + WriteOps(0, reg, val)
      ensures sid2 == Extend(old(sid2), WriteOps(1, reg, val))
      ensures sid3 == Extend(old(sid3), WriteOps(2, reg, val))
    {
      WriteToSid(reg, val);
    }

    /**
     * `ring_cycled`: in ring order, every present chip is clocked by each
     * positive delta before the entry's write is routed, and the positive
     * deltas add up in `cyclesThisFrame`. `chunks[i]` holds the samples the
     * chips return while clocked for entry `i`.
     */
    method RingCycled(writes: seq<RingEntry>, chunks: seq<Chunk>)
      requires Valid() && |chunks| == |writes|
      modifies this`sid1, this`sid2, this`sid3, this`buffer, this`cyclesThisFrame
      modifies ext1`vlp, ext1`vhp, ext2`vlp, ext2`vhp, ext3`vlp, ext3`vhp
      ensures Valid()
      ensures sid1 == old(sid1) + RingOps(0, writes)
      ensures sid2 == Extend(old(sid2), RingOps(1, writes)) && sid3 == Extend(old(sid3), RingOps(2, writes))
      ensures cyclesThisFrame == old(cyclesThisFrame) + DeltaSum(writes)
      ensures old(buffer) <= buffer
    {
      var i := 0;
      assert writes[..0] == [];
      assert sid1 == old(sid1) + [];
      while i < |writes|
        invariant 0 <= i <= |writes|
        invariant Valid()
        invariant sid1 == old(sid1) + RingOps(0, writes[..i])
        invariant sid2 == Extend(old(sid2), RingOps(1, writes[..i]))
        invariant sid3 == Extend(old(sid3), RingOps(2, writes[..i]))
        invariant cyclesThisFrame == old(cyclesThisFrame) + DeltaSum(writes[..i])
        invariant old(buffer) <= buffer
      {
        assert writes[..i + 1][..i] == writes[..i];
        RingEntryStep(writes[i], chunks[i]);
        ExtendTwice(old(sid2), RingOps(1, writes[..i]), EntryOps(1, writes[i]));
        ExtendTwice(old(sid3), RingOps(2, writes[..i]), EntryOps(2, writes[i]));
        i := i + 1;
      }
      assert writes[..i] == writes;
    }

    /** One ring entry: a positive delta is clocked out and counted, then the write is routed. */
    method RingEntryStep(e: RingEntry, chunk: Chunk)
      requires Valid()
      modifies this`sid1, this`sid2, this`sid3, this`buffer, this`cyclesThisFrame
      modifies ext1`vlp, ext1`vhp, ext2`vlp, ext2`vhp, ext3`vlp, ext3`vhp
      ensures Valid()
      ensures sid1 == old(sid1) + EntryOps(0, e)
      ensures sid2 == Extend(old(sid2), EntryOps(1, e)) && sid3 == Extend(old(sid3), EntryOps(2, e))
      ensures cyclesThisFrame == old(cyclesThisFrame) + e.delta
      ensures old(buffer) <= buffer
    {
      var c: seq<SidOp> := if e.delta > 0 then [Clock(e.delta)] else [];
      if e.delta > 0 {
        ClockAndPush(e.delta, chunk);
        cyclesThisFrame := cyclesThisFrame + e.delta;
      }
      WriteToSid(e.reg, e.val);
      assert sid1 == old(sid1) + c + WriteOps(0, e.reg, e.val);
      ExtendTwice(old(sid2), c, WriteOps(1, e.reg, e.val));
      ExtendTwice(old(sid3), c, WriteOps(2, e.reg, e.val));
    }

    /**
     * `flush`: the rest of the frame, `cyclesPerFrame` minus the cycles
     * already accounted and never below zero, is clocked out; the frame's
     * count starts again at zero.
     */
    method Flush(chunk: Chunk)
      requires Valid()
      modifies this`sid1, this`sid2, this`sid3, this`buffer, this`cyclesThisFrame
      modifies ext1`vlp, ext1`vhp, ext2`vlp, ext2`vhp, ext3`vlp, ext3`vhp
      ensures Valid()
      ensures var rest := SatSub(old(cyclesPerFrame), old(cyclesThisFrame));
        sid1 == old(sid1) + (if rest > 0 then [Clock(rest)] else [])
        && sid2 == Extend(old(sid2), if rest > 0 then [Clock(rest)] else [])
        && sid3 == Extend(old(sid3), if rest > 0 then [Clock(rest)] else [])
      ensures cyclesThisFrame == 0 && old(buffer) <= buffer
    {
      var rest := SatSub(cyclesPerFrame, cyclesThisFrame);
      if rest > 0 {
        ClockAndPush(rest, chunk);
      }
      cyclesThisFrame := 0;
    }

    /**
     * `mute`: the volume register $18 of every present chip is written 0;
     * the filters rest, the frame count and the buffer are cleared.
     */
    method Mute()
      requires Valid()
      modifies this`sid1, this`sid2, this`sid3, this`cyclesThisFrame, this`buffer
      modifies ext1`vlp, ext1`vhp, ext2`vlp, ext2`vhp, ext3`vlp, ext3`vhp
      ensures Valid()
      ensures sid1 == old(sid1) + [Write(0x18, 0)]
      ensures sid2 == Extend(old(sid2), [Write(0x18, 0)]) && sid3 == Extend(old(sid3), [Write(0x18, 0)])
      ensures ext1.State() == ext2.State() == ext3.State() == FilterState(0, 0)
      ensures cyclesThisFrame == 0 && buffer == []
    {
      AppendAll(Write(0x18, 0));
      Quiet();
    }

    /** `close`: mute, then reset. */
    method Close()
      requires Valid()
      modifies this`sid1, this`sid2, this`sid3, this`cyclesThisFrame, this`buffer
      modifies ext1`vlp, ext1`vhp, ext2`vlp, ext2`vhp, ext3`vlp, ext3`vhp
      ensures Valid()
      ensures sid1 == old(sid1) + [Write(0x18, 0), SidOp.Reset]
      ensures sid2 == Extend(old(sid2), [Write(0x18, 0), SidOp.Reset])
      ensures sid3 == Extend(old(sid3), [Write(0x18, 0), SidOp.Reset])
      ensures cyclesThisFrame == 0 && buffer == []
    {
      Mute();
      Reset();
      assert [Write(0x18, 0)] + [SidOp.Reset] == [Write(0x18, 0), SidOp.Reset];
      ExtendTwice(old(sid2), [Write(0x18, 0)], [SidOp.Reset]);
      ExtendTwice(old(sid3), [Write(0x18, 0)], [SidOp.Reset]);
    }

    /** `shutdown`: close, then tell the audio thread to stop. */
    method Shutdown()
      requires Valid()
      modifies this`sid1, this`sid2, this`sid3, this`cyclesThisFrame, this`buffer, this`audioShutdown
      modifies ext1`vlp, ext1`vhp, ext2`vlp, ext2`vhp, ext3`vlp, ext3`vhp
      ensures Valid()
      ensures sid1 == old(sid1) + [Write(0x18, 0), SidOp.Reset]
      ensures audioShutdown && buffer == []
    {
      Close();
      audioShutdown := true;
    }

    /** `drop`: mute, then tell the audio thread to stop. */
    method Drop()
      requires Valid()
      modifies this`sid1, this`sid2, this`sid3, this`cyclesThisFrame, this`buffer, this`audioShutdown
      modifies ext1`vlp, ext1`vhp, ext2`vlp, ext2`vhp, ext3`vlp, ext3`vhp
      ensures Valid()
      ensures sid1 == old(sid1) + [Write(0x18, 0)]
      ensures audioShutdown && buffer == []
    {
      Mute();
      audioShutdown := true;
    }
  }
}
