/**
 * The interrupt control logic of the cycle-level CIA
 * (`c64_emu/cia/interrupt.rs`): a mask register (ICR), a data register
 * of pending flags (IDR) whose bit 7 mirrors the interrupt line, and the
 * pending trigger the older chip models keep for one cycle.
 */
module EmuCiaInterrupt {
  import opened Common

  /** The chip revisions the emulator distinguishes. */
  datatype CiaModel = Mos6526 | Mos8521 | Mos6526W4485

  /** Bit 7 of the data register: the line is asserted. */
  const INT_REQUEST: Byte := 0x80

  /** Some pending flag is enabled by the mask (only the five source bits count). */
  predicate Enabled(idr: Byte, icr: Byte)
  {
    idr & icr & 0x1F != 0
  }

  /** The request bit of a data register value. */
  predicate Requested(idr: Byte)
  {
    idr & INT_REQUEST != 0
  }

  /** A data register value with the request bit raised. */
  function Raise(idr: Byte): Byte
  {
    idr | INT_REQUEST
  }

  /**
   * The mask after an ICR write: with bit 7 set the other bits of the
   * value are added to the mask, with bit 7 clear they are removed.
   */
  function MaskAfter(icr: Byte, data: Byte): Byte
  {
    if data & INT_REQUEST != 0 then icr | (data & !INT_REQUEST) else icr & !data
  }

  /** The flag bits of a data register value: all but the request bit. */
  function Flags(idr: Byte): Byte
  {
    idr & 0x7F
  }

  /** Raising the request bit sets bit 7 and keeps the flag bits. */
  lemma RaiseSpec(idr: Byte)
    ensures Requested(Raise(idr)) && Raise(idr) & 0x7F == idr & 0x7F
  {
  }

  /**
   * An ICR write with bit 7 set turns on exactly the given bits and keeps
   * the rest; with bit 7 clear it turns off exactly the given bits and
   * keeps the rest. A mask without bit 7 never gains it.
   */
  lemma MaskAfterSpec(icr: Byte, data: Byte)
    ensures data & INT_REQUEST != 0 ==>
      (MaskAfter(icr, data) & (data & 0x7F) == data & 0x7F &&
       MaskAfter(icr, data) & !(data & 0x7F) == icr & !(data & 0x7F))
    ensures data & INT_REQUEST == 0 ==>
      (MaskAfter(icr, data) & data == 0 && MaskAfter(icr, data) & !data == icr & !data)
    ensures icr & INT_REQUEST == 0 ==> MaskAfter(icr, data) & INT_REQUEST == 0
  {
  }

  /** Raising the request bit leaves the enabled flags as they were. */
  lemma RaiseKeepsEnabled(idr: Byte, icr: Byte)
    ensures Enabled(Raise(idr), icr) == Enabled(idr, icr)
  {
  }

  /** One flag raised by `trigger` never touches the request bit. */
  lemma FlagKeepsRequest(idr: Byte, flag: Byte)
    requires flag & INT_REQUEST == 0
    ensures Requested(idr | flag) == Requested(idr)
    ensures (idr | flag) & flag == flag
  {
  }

  /**
   * Whether or not `trigger` raised the line, the flag ends up recorded
   * and whether an enabled flag is set is decided by the flags alone; an
   * enabled flag stays enabled.
   */
  lemma FlagRecorded(before: Byte, after: Byte, flag: Byte, icr: Byte)
    requires flag & INT_REQUEST == 0 && (after == before | flag || after == Raise(before | flag))
    ensures after & flag == flag
    ensures Enabled(after, icr) == Enabled(before | flag, icr)
    ensures Enabled(before, icr) ==> Enabled(after, icr)
  {
  }

  /** A flag that is set and enabled by the mask makes some pending flag enabled. */
  lemma EnabledBy(idr: Byte, icr: Byte, flag: Byte)
    requires flag == 0x01 || flag == 0x02 || flag == 0x04 || flag == 0x08 || flag == 0x10
    requires idr & flag != 0 && icr & flag != 0
    ensures Enabled(idr, icr)
  {
  }

  /**
   * The flags `trigger` leaves, raised or not: an enabled flag is set
   * exactly when one is set among the old flags and the new one, so an
   * enabled flag stays enabled.
   */
  lemma TriggerEnables(before: Byte, flag: Byte, icr: Byte)
    requires flag & INT_REQUEST == 0
    ensures Requested(before | flag) == Requested(before) && Requested(Raise(before | flag))
    ensures Enabled(Raise(before | flag), icr) == Enabled(before | flag, icr)
    ensures Enabled(before, icr) ==> Enabled(before | flag, icr)
  {
  }

  /**
   * The line and the pending trigger after a run of triggers whose last
   * raised flag is `last` (`None` when no flag was raised), from line
   * `a0` and pending trigger `p0`, where `enabled` says whether an enabled
   * flag is now set: the line is up when it was up or when a flag was
   * raised and an enabled flag is set; the 6526 models then hold the last
   * raised flag as the pending trigger, and otherwise the pending trigger
   * is kept.
   */
  predicate LineFrom(a0: bool, p0: Option<Byte>, m: CiaModel, enabled: bool, last: Option<Byte>,
                     a: bool, p: Option<Byte>)
  {
    a == (a0 || (last.Some? && enabled)) &&
    p == (if last.Some? && m != Mos8521 && enabled then last else p0)
  }

  /** `Some(flag)` when the flag was raised. */
  function FlagIf(raised: bool, flag: Byte): Option<Byte>
  {
    if raised then Some(flag) else None
  }

  /** The later of two runs' last raised flags. */
  function Later(first: Option<Byte>, second: Option<Byte>): Option<Byte>
  {
    if second.Some? then second else first
  }

  /**
   * Over a run of triggers whose last raised flag is `last`, an enabled
   * flag stays enabled (`e0` before, `e` after), and nothing changes
   * when no flag was raised.
   */
  predicate StaysEnabled(e0: bool, e: bool, last: Option<Byte>)
  {
    (e0 ==> e) && (last.None? ==> e == e0)
  }

  /** Two runs of triggers in a row are one run. */
  lemma LineChain(a0: bool, p0: Option<Byte>, m: CiaModel, e0: bool,
                  e1: bool, l1: Option<Byte>, a1: bool, p1: Option<Byte>,
                  e2: bool, l2: Option<Byte>, a2: bool, p2: Option<Byte>)
    requires LineFrom(a0, p0, m, e1, l1, a1, p1) && StaysEnabled(e0, e1, l1)
    requires LineFrom(a1, p1, m, e2, l2, a2, p2) && StaysEnabled(e1, e2, l2)
    ensures LineFrom(a0, p0, m, e2, Later(l1, l2), a2, p2) && StaysEnabled(e0, e2, Later(l1, l2))
  {
  }

  /**
   * A run of triggers: the line and pending trigger when it began,
   * whether an enabled flag was set then, and the last flag raised in it.
   */
  datatype Run = Run(asserted: bool, pending: Option<Byte>, enabled: bool, last: Option<Byte>)
  {
    /** The run extended by a step that raised `raised` (`None`: no flag). */
    function Then(raised: Option<Byte>): Run
    {
      this.(last := Later(last, raised))
    }
  }

  class InterruptSource {
    var model: CiaModel
    /** Interrupt mask (ICR). */
    var icr: Byte
    /** Pending flags (IDR); bit 7 is the request bit. */
    var idr: Byte
    /** The line as the chip drives it. */
    var asserted: bool
    /** A trigger held for the one-cycle delay of the older models. */
    var pendingTrigger: Option<Byte>

    /** The current run of triggers (proof bookkeeping only). */
    ghost var run: Run

    /** The line always mirrors the request bit of the data register. */
    predicate Valid()
      reads this
    {
      asserted == Requested(idr)
    }

    /**
     * The line and pending trigger are those the run of triggers from the
     * recorded start leaves, and an enabled flag set at the start is
     * still set.
     */
    ghost predicate InRun()
      reads this
    {
      LineFrom(run.asserted, run.pending, model, Enabled(idr, icr), run.last, asserted, pendingTrigger) &&
      StaysEnabled(run.enabled, Enabled(idr, icr), run.last)
    }

    /** Starts a new run of triggers from the current state. */
    ghost method BeginRun()
      modifies this`run
      ensures InRun() && run == Run(asserted, pendingTrigger, Enabled(idr, icr), None)
    {
      run := Run(asserted, pendingTrigger, Enabled(idr, icr), None);
    }

    /** `new`: empty mask, no flags, line released, nothing pending. */
    constructor (m: CiaModel)
      ensures Valid() && model == m
      ensures icr == 0 && idr == 0 && !asserted && pendingTrigger == None
    {
      model, icr, idr, asserted, pendingTrigger := m, 0, 0, false, None;
    }

    /** `InterruptSource::new(model)` assigned over an existing source. */
    method Renew(m: CiaModel)
      modifies this
      ensures Valid() && model == m
      ensures icr == 0 && idr == 0 && !asserted && pendingTrigger == None
    {
      model, icr, idr, asserted, pendingTrigger := m, 0, 0, false, None;
    }

    /** `reset`: as `new`, keeping the model. */
    method Reset()
      modifies this
      ensures Valid() && model == old(model)
      ensures icr == 0 && idr == 0 && !asserted && pendingTrigger == None
    {
      icr, idr, asserted, pendingTrigger := 0, 0, false, None;
    }

    /**
     * `set_mask`: updates the mask and, when an already pending flag is
     * now enabled and the line is released, raises it and reports
     * `Some(true)`.
     */
    method SetMask(data: Byte) returns (r: Option<bool>)
      requires Valid()
      modifies this
      ensures Valid() && model == old(model) && pendingTrigger == old(pendingTrigger)
      ensures icr == MaskAfter(old(icr), data)
      ensures r == (if Enabled(old(idr), icr) && !Requested(old(idr)) then Some(true) else None)
      ensures idr == (if r.Some? then Raise(old(idr)) else old(idr))
    {
      var m := MaskAfter(icr, data);
      icr := m;
      if Enabled(idr, m) && !Requested(idr) {
        var raised := Raise(idr);
        RaiseSpec(idr);
        idr, asserted := raised, true;
        r := Some(true);
      } else {
        r := None;
      }
    }

    /**
     * `trigger`: records the flag; when an enabled flag is pending and
     * the line is released, raises it and answers true. Every model
     * asserts at once; the 6526 variants also keep the flag as the
     * pending trigger. The flag is one of the five source bits.
     */
    method Trigger(flag: Byte) returns (fired: bool)
      requires Valid() && flag & INT_REQUEST == 0
      modifies this`idr, this`asserted, this`pendingTrigger
      ensures Valid() && model == old(model) && icr == old(icr)
      ensures fired == (Enabled(old(idr) | flag, icr) && !Requested(old(idr)))
      ensures idr == (if fired then Raise(old(idr) | flag) else old(idr) | flag)
      ensures pendingTrigger ==
        (if Enabled(old(idr) | flag, icr) && model != Mos8521 then Some(flag) else old(pendingTrigger))
      ensures (old(asserted) ==> asserted) && fired == (!old(asserted) && asserted)
    {
      var flagged := idr | flag;
      TriggerEnables(idr, flag, icr);
      idr := flagged;
      fired := false;
      if Enabled(flagged, icr) {
        if model != Mos8521 {
          pendingTrigger := Some(flag);
        }
        if !Requested(flagged) {
          var raised := Raise(flagged);
          idr, asserted := raised, true;
          fired := true;
        }
      }
    }

    /**
     * `trigger(flag)` when the flag was `raised`, with `trigger`'s
     * answer, flags, line and pending trigger; nothing changes otherwise.
     * Within a run of triggers the line and pending trigger stay those
     * the run leaves, with this flag as the last one raised.
     */
    method TriggerIf(raised: bool, flag: Byte) returns (fired: bool)
      requires Valid() && flag & INT_REQUEST == 0 && InRun()
      modifies this
      ensures Valid() && model == old(model) && icr == old(icr)
      ensures fired == (raised && Enabled(old(idr) | flag, icr) && !Requested(old(idr)))
      ensures raised ==> idr == (if fired then Raise(old(idr) | flag) else old(idr) | flag)
      ensures raised ==>
        pendingTrigger == (if Enabled(old(idr) | flag, icr) && model != Mos8521 then Some(flag) else old(pendingTrigger))
      ensures !raised ==> unchanged(this)
      ensures (old(asserted) ==> asserted) && fired == (!old(asserted) && asserted)
      ensures InRun() && run == old(run).Then(FlagIf(raised, flag))
    {
      if raised {
        fired := Trigger(flag);
        LineChain(run.asserted, run.pending, model, run.enabled, old(Enabled(idr, icr)), run.last,
                  old(asserted), old(pendingTrigger), Enabled(idr, icr), Some(flag), asserted, pendingTrigger);
        run := run.Then(Some(flag));
      } else {
        fired := false;
      }
    }

    /**
     * `tick_delayed`: consumes the pending trigger; raises the line only
     * when one was pending, an enabled flag is set and the line is released.
     */
    method TickDelayed() returns (fired: bool)
      requires Valid()
      modifies this`idr, this`asserted, this`pendingTrigger
      ensures Valid() && model == old(model) && icr == old(icr) && pendingTrigger == None
      ensures fired == (old(pendingTrigger).Some? && Enabled(old(idr), icr) && !Requested(old(idr)))
      ensures idr == (if fired then Raise(old(idr)) else old(idr))
      ensures Flags(idr) == Flags(old(idr)) && Enabled(idr, icr) == Enabled(old(idr), icr)
      ensures asserted == (old(asserted) || (old(pendingTrigger).Some? && Enabled(old(idr), icr)))
    {
      var had := pendingTrigger;
      pendingTrigger := None;
      fired := false;
      if had.Some? && Enabled(idr, icr) && !Requested(idr) {
        var raised := Raise(idr);
        RaiseSpec(idr);
        RaiseKeepsEnabled(idr, icr);
        idr, asserted := raised, true;
        fired := true;
      }
    }

    /** `clear`: acknowledges, answering the flags as they were. */
    method Clear() returns (flags: Byte)
      requires Valid()
      modifies this`idr, this`asserted
      ensures Valid() && flags == old(idr) && idr == 0 && !asserted
    {
      flags := idr;
      idr, asserted := 0, false;
    }

    /** `icr_mask`. */
    function IcrMask(): (m: Byte)
      reads this
      ensures m == icr
    {
      icr
    }
  }
}
