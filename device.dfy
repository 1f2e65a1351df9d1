/**
 * The controller object: its register file and per-pin arrays, updated in
 * place by the entry points (a source transition on an input pin, a guest
 * read, a guest write, and reset). Each entry point is proved to perform
 * on the arrays exactly the state transition of the same name in
 * IntcDevice; the properties of those transitions, the device invariant
 * among them, are proved there and in the per-pin modules.
 */
module AspeedIntc {
  import opened IntcConfig
  import opened IntcLayout
  import opened Words
  import opened PinMachine
  import opened PinRaise
  import opened PinEnable
  import opened PinStatus
  import opened IntcSelect
  import opened IntcOutput
  import opened IntcDevice

  /** What an entry point reports; the error cases are the guest-error logs. */
  datatype Outcome = Done | InvalidInpin | InvalidOutpin | InvalidData

  /**
   * What a step of input pin p reports, given whether it drives output pin
   * p: aspeed_intc_update refuses an output pin the variant does not have.
   */
  function Reported(cfg: Config, p: nat, drives: bool): Outcome {
    if drives && p >= cfg.numOutpins then InvalidOutpin else Done
  }

  class Intc {
    const cfg: Config
    /** The 32-bit register file, nr_regs entries. */
    const regs: array<bv32>
    /** Per input pin: enabled lines, masked lines, queued lines. */
    const enable: array<bv32>
    const mask: array<bv32>
    const pending: array<bv32>
    /** Per input pin, the levels of its OR gate's source lines, as the caller drives them. */
    var levels: seq<seq<bool>>
    /** Every level the controller has driven an output pin to, in order. */
    var events: seq<Event>

    /** The arrays have the sizes the configuration gives them and do not alias. */
    ghost predicate Valid()
      reads this
    {
      && WellFormed(cfg)
      && regs.Length == cfg.nrRegs
      && enable.Length == MaxInpins && mask.Length == MaxInpins && pending.Length == MaxInpins
      && regs != enable && regs != mask && regs != pending
      && enable != mask && enable != pending && mask != pending
      && |levels| == cfg.numInpins
      && (forall p :: 0 <= p < |levels| ==> cfg.numLines <= |levels[p]|)
    }

    /** The device's state as a value. */
    ghost function Snap(): (s: State)
      reads this, regs, enable, mask, pending
      requires Valid()
      ensures Sized(cfg, s)
    {
      State(regs[..], enable[..], mask[..], pending[..], events)
    }

    /**
     * aspeed_intc_update: drive output pin `outpin` to `level`, refusing
     * an input or output pin index the variant does not have.
     */
    method Update(inpin: nat, outpin: nat, level: int) returns (o: Outcome)
      modifies this
      ensures o == (if inpin >= cfg.numInpins then InvalidInpin
                    else if outpin >= cfg.numOutpins then InvalidOutpin
                    else Done)
      ensures events == old(events) + (if o == Done then [SetLevel(outpin, level)] else [])
      ensures levels == old(levels)
    {
      if inpin >= cfg.numInpins {
        return InvalidInpin;
      }
      if outpin >= cfg.numOutpins {
        return InvalidOutpin;
      }
      events := events + [SetLevel(outpin, level)];
      o := Done;
    }

    /** The queue branch of aspeed_intc_set_irq: pending[irq] |= select. */
    method Queue(irq: nat, select: bv32)
      requires Valid() && irq < cfg.numInpins
      modifies pending
      ensures Valid()
      ensures Snap() == Queued(cfg, old(Snap()), irq, select)
    {
      pending[irq] := pending[irq] | select;
    }

    /** The notify branch of aspeed_intc_set_irq: publish `select` and raise output pin irq. */
    method Notify(irq: nat, select: bv32) returns (o: Outcome)
      requires Valid() && irq < cfg.numInpins
      modifies this, regs
      ensures Valid() && levels == old(levels)
      ensures o == Reported(cfg, irq, true)
      ensures Snap() == Notified(cfg, old(Snap()), irq, select)
    {
      regs[StatusReg(irq)] := select;
      o := Update(irq, irq, 1);
    }

    /**
     * The second half of aspeed_intc_set_irq, once `select` is known: a
     * busy pin queues the lines, an idle one publishes them in its status
     * register and raises its output.
     */
    method Deliver(irq: nat, select: bv32) returns (o: Outcome)
      requires Valid() && irq < cfg.numInpins
      modifies this, regs, pending
      ensures Valid() && levels == old(levels)
      ensures o == Reported(cfg, irq, Notifies(cfg, old(Snap()), irq, select))
      ensures Snap() == TakeStep(cfg, old(Snap()), irq, Raise(PinOf(cfg, old(Snap()), irq), select))
    {
      ghost var s := Snap();
      RaiseIdle(cfg, s, irq, select);
      RaiseQueued(cfg, s, irq, select);
      RaiseNotified(cfg, s, irq, select);
      o := Done;
      if select == 0 {
      } else if mask[irq] != 0 || regs[StatusReg(irq)] != 0 {
        Queue(irq, select);
      } else {
        o := Notify(irq, select);
      }
    }

    /** The scan and delivery of aspeed_intc_set_irq on a rising edge of input pin irq. */
    method RisingEdge(irq: nat) returns (o: Outcome)
      requires Valid() && irq < cfg.numInpins
      modifies this, regs, pending
      ensures Valid() && levels == old(levels)
      ensures o == Reported(cfg, irq, Notifies(cfg, old(Snap()), irq,
                                               Selected(levels[irq], old(Snap()).enable[irq], cfg.numLines)))
      ensures Snap() == IntcDevice.SetIrq(cfg, old(Snap()), irq, 1, HighLines(levels[irq], cfg.numLines))
    {
      var select := ComputeSelect(levels[irq], enable[irq], cfg.numLines);
      o := Deliver(irq, select);
    }

    /**
     * aspeed_intc_set_irq: the OR gate of input pin irq changed to `level`.
     * An unknown pin is refused, and it and a falling edge change nothing;
     * a rising edge scans the gate's lines for the enabled, high ones and
     * raises the pin with them, reporting an output pin the variant lacks.
     */
    method SetIrq(irq: nat, level: int) returns (o: Outcome)
      requires Valid()
      modifies this, regs, pending
      ensures Valid() && levels == old(levels)
      ensures o == (if irq >= cfg.numInpins then InvalidInpin
                    else if level == 0 then Done
                    else Reported(cfg, irq, Notifies(cfg, old(Snap()), irq,
                                                     Selected(levels[irq], old(Snap()).enable[irq], cfg.numLines))))
      ensures irq >= cfg.numInpins || level == 0 ==> Snap() == old(Snap())
      ensures irq < cfg.numInpins ==>
        Snap() == IntcDevice.SetIrq(cfg, old(Snap()), irq, level, HighLines(levels[irq], cfg.numLines))
    {
      if irq >= cfg.numInpins {
        return InvalidInpin;
      }
      if level == 0 {
        return Done;
      }
      o := RisingEdge(irq);
    }

    /** Store `data` in register reg. */
    method Store(reg: nat, data: bv32)
      requires Valid() && reg < cfg.nrRegs
      modifies regs
      ensures Valid()
      ensures Snap() == old(Snap()).(regs := old(Snap()).regs[reg := data])
    {
      regs[reg] := data;
    }

    /** enable[irq] |= data, reporting whether that enabled a new line. */
    method OrEnable(irq: nat, data: bv32) returns (grew: bool)
      requires Valid() && irq < cfg.numInpins
      modifies enable
      ensures Valid()
      ensures Snap() == Grown(cfg, old(Snap()), irq, data)
      ensures grew == (enable[irq] != old(enable[irq]))
    {
      var oldEnable := enable[irq];
      enable[irq] := enable[irq] | data;
      grew := oldEnable != enable[irq];
    }

    /** mask[irq] = m. */
    method SetMask(irq: nat, m: bv32)
      requires Valid() && irq < cfg.numInpins
      modifies mask
      ensures Valid()
      ensures Snap() == old(Snap()).(mask := old(Snap()).mask[irq := m])
    {
      mask[irq] := m;
    }

    /**
     * The mask toggle of aspeed_intc_enable_handler, then the store of
     * the written word in the enable register reg.
     */
    method ToggleAndStore(irq: nat, reg: nat, data: bv32)
      requires Valid() && irq < cfg.numInpins && reg == EnableReg(irq) && reg < cfg.nrRegs
      modifies regs, mask
      ensures Valid()
      ensures Snap() == old(Snap()).(regs := old(Snap()).regs[reg := data],
                                    mask := old(Snap()).mask[irq := Toggle(old(mask[irq]), old(regs[reg]), data)])
    {
      SetMask(irq, Toggle(mask[irq], regs[reg], data));
      Store(reg, data);
    }

    /** The first branch of aspeed_intc_enable_handler: a zero write to a pin with no enabled line. */
    method EnableIdle(offset: HwAddr, data: bv32, irq: nat, reg: nat)
      requires Valid() && irq == PinField(offset) && irq < cfg.numInpins
      requires reg == EnableReg(irq) && reg < cfg.nrRegs
      requires data == 0 && enable[irq] == 0
      modifies regs
      ensures Valid()
      ensures Snap() == EnableWrite(cfg, old(Snap()), offset, data)
    {
      EnableWriteIdle(cfg, Snap(), offset, data, irq);
      Store(reg, data);
    }

    /**
     * The rest of aspeed_intc_enable_handler: enable grows by the written
     * bits; if that enabled nothing new, the mask toggles.
     */
    method EnableChange(offset: HwAddr, data: bv32, irq: nat, reg: nat)
      requires Valid() && irq == PinField(offset) && irq < cfg.numInpins
      requires reg == EnableReg(irq) && reg < cfg.nrRegs
      requires !(data == 0 && enable[irq] == 0)
      modifies regs, enable, mask
      ensures Valid()
      ensures Snap() == EnableWrite(cfg, old(Snap()), offset, data)
    {
      ghost var s := Snap();
      EnableWriteAdds(cfg, s, offset, data, irq);
      EnableWriteToggles(cfg, s, offset, data, irq);
      var grew := OrEnable(irq, data);
      if grew {
        Store(reg, data);
      } else {
        ToggleAndStore(irq, reg, data);
      }
    }

    /**
     * aspeed_intc_enable_handler: a guest write of `data` to the enable
     * register at `offset`. An unknown pin is refused. A zero write to a
     * pin with no enabled line only stores the register; a write that
     * enables new lines grows enable; any other write toggles the mask by
     * the bits that differ from the register's previous contents.
     */
    method EnableHandler(offset: HwAddr, data: bv32) returns (o: Outcome)
      requires Valid() && Aligned(offset) && RegIndex(offset) in EnableRegs
      modifies regs, enable, mask
      ensures Valid()
      ensures o == (if PinField(offset) >= cfg.numInpins then InvalidInpin else Done)
      ensures o != Done ==> Snap() == old(Snap())
      ensures Snap() == EnableWrite(cfg, old(Snap()), offset, data)
    {
      var reg := RegIndex(offset);
      var irq := PinField(offset);
      if irq >= cfg.numInpins {
        return InvalidInpin;
      }
      DecodeEnable(offset);
      PinRegs(cfg, irq);
      if data == 0 && enable[irq] == 0 {
        EnableIdle(offset, data, irq, reg);
      } else {
        EnableChange(offset, data, irq, reg);
      }
      o := Done;
    }

    /** The clear of aspeed_intc_status_handler: regs[reg] &= ~data. */
    method ClearStatus(irq: nat, reg: nat, data: bv32)
      requires Valid() && irq < cfg.numInpins && reg == StatusReg(irq) && reg < cfg.nrRegs
      modifies regs
      ensures Valid()
      ensures Snap() == Cleared(cfg, old(Snap()), irq, data)
    {
      regs[reg] := regs[reg] & !data;
    }

    /**
     * The replay of aspeed_intc_status_handler: the queued lines move into
     * status register reg, the queue empties, and output pin irq is raised.
     */
    method Replay(irq: nat, reg: nat) returns (o: Outcome)
      requires Valid() && irq < cfg.numInpins && reg == StatusReg(irq) && reg < cfg.nrRegs
      modifies this, regs, pending
      ensures Valid() && levels == old(levels)
      ensures o == Reported(cfg, irq, true)
      ensures Snap() == old(Snap()).(regs := old(Snap()).regs[reg := old(pending[irq])],
                                    pending := old(Snap()).pending[irq := 0],
                                    events := old(events) + Driven(cfg, irq, Set(1)))
    {
      regs[reg] := pending[irq];
      pending[irq] := 0;
      o := Update(irq, irq, 1);
    }

    /** With nothing queued, aspeed_intc_status_handler lowers output pin irq. */
    method Lower(irq: nat) returns (o: Outcome)
      requires Valid() && irq < cfg.numInpins
      modifies this
      ensures Valid() && levels == old(levels)
      ensures o == Reported(cfg, irq, true)
      ensures Snap() == old(Snap()).(events := old(events) + Driven(cfg, irq, Set(0)))
    {
      o := Update(irq, irq, 0);
    }

    /**
     * aspeed_intc_status_handler past its argument checks: clear the
     * written bits; unless all ones were written, a register that drained
     * to zero takes the queued lines and raises the output, or lowers it
     * when nothing is queued.
     */
    method Acknowledge(offset: HwAddr, data: bv32, irq: nat, reg: nat) returns (o: Outcome)
      requires Valid() && irq == PinField(offset) && irq < cfg.numInpins
      requires reg == StatusReg(irq) && reg < cfg.nrRegs && data != 0
      modifies this, regs, pending
      ensures Valid() && levels == old(levels)
      ensures o == Reported(cfg, irq, Redrives(cfg, old(Snap()), irq, data))
      ensures Snap() == StatusWrite(cfg, old(Snap()), offset, data)
    {
      ghost var s := Snap();
      StatusWriteClears(cfg, s, offset, data, irq);
      StatusWriteReplays(cfg, s, offset, data, irq);
      StatusWriteLowers(cfg, s, offset, data, irq);
      ClearStatus(irq, reg, data);
      o := Done;
      if data == AllOnes {
        return;
      }
      if regs[reg] == 0 {
        if pending[irq] != 0 {
          o := Replay(irq, reg);
        } else {
          o := Lower(irq);
        }
      }
    }

    /**
     * aspeed_intc_status_handler: a guest write of `data` to the status
     * register at `offset`. Zero is refused first, then an unknown pin.
     */
    method StatusHandler(offset: HwAddr, data: bv32) returns (o: Outcome)
      requires Valid() && Aligned(offset) && RegIndex(offset) in StatusRegs
      modifies this, regs, pending
      ensures Valid() && levels == old(levels)
      ensures o == (if data == 0 then InvalidData
                    else if PinField(offset) >= cfg.numInpins then InvalidInpin
                    else Reported(cfg, PinField(offset), Redrives(cfg, old(Snap()), PinField(offset), data)))
      ensures o == InvalidData || o == InvalidInpin ==> Snap() == old(Snap())
      ensures Snap() == StatusWrite(cfg, old(Snap()), offset, data)
    {
      if data == 0 {
        return InvalidData;
      }
      var reg := RegIndex(offset);
      var irq := PinField(offset);
      if irq >= cfg.numInpins {
        return InvalidInpin;
      }
      DecodeStatus(offset);
      PinRegs(cfg, irq);
      o := Acknowledge(offset, data, irq, reg);
    }
 
    /**
     * aspeed_intc_write: a guest write of `data` at `offset`. The enable
     * and status registers go to their handlers; any other register of the
     * window stores the data as written.
     */
    method Write(offset: HwAddr, data: bv32) returns (o: Outcome)
      requires Valid() && Aligned(offset) && RegIndex(offset) < cfg.nrRegs
      modifies this, regs, enable, mask, pending
      ensures Valid() && levels == old(levels)
      ensures o == (if RegIndex(offset) in EnableRegs then
                      (if PinField(offset) >= cfg.numInpins then InvalidInpin else Done)
                    else if RegIndex(offset) in StatusRegs then
                      (if data == 0 then InvalidData
                       else if PinField(offset) >= cfg.numInpins then InvalidInpin
                       else Reported(cfg, PinField(offset), Redrives(cfg, old(Snap()), PinField(offset), data)))
                    else Done)
      ensures Snap() == IntcDevice.Write(cfg, old(Snap()), offset, data)
    {
      var reg := RegIndex(offset);
      if reg in EnableRegs {
        o := EnableHandler(offset, data);
      } else if reg in StatusRegs {
        o := StatusHandler(offset, data);
      } else {
        Store(reg, data);
        o := Done;
      }
    }

    /** aspeed_intc_read: the register at `offset`; nothing changes. */
    method Read(offset: HwAddr) returns (value: bv32)
      requires Valid() && RegIndex(offset) < cfg.nrRegs
      ensures value == IntcDevice.Read(cfg, Snap(), offset)
    {
      value := regs[RegIndex(offset)];
    }

    /**
     * aspeed_intc_reset: the register file and the enable, mask and
     * pending arrays are cleared; what the output pins were driven to stays.
     */
    method Reset()
      requires Valid()
      modifies regs, enable, mask, pending
      ensures Valid()
      ensures Snap() == IntcDevice.Reset(cfg, old(Snap()))
    {
      forall i | 0 <= i < regs.Length {
        regs[i] := 0;
      }
      forall i | 0 <= i < enable.Length {
        enable[i] := 0;
      }
      forall i | 0 <= i < mask.Length {
        mask[i] := 0;
      }
      forall i | 0 <= i < pending.Length {
        pending[i] := 0;
      }
      assert regs[..] == seq(cfg.nrRegs, _ => 0);
      assert enable[..] == seq(MaxInpins, _ => 0);
      assert mask[..] == seq(MaxInpins, _ => 0);
      assert pending[..] == seq(MaxInpins, _ => 0);
    }

    /**
     * aspeed_intc_realize followed by reset: the register file and the
     * per-pin arrays are allocated and cleared, every source line is low,
     * and no output pin has been driven.
     */
    constructor (c: Config)
      requires WellFormed(c)
      ensures Valid() && cfg == c
      ensures fresh(regs) && fresh(enable) && fresh(mask) && fresh(pending)
      ensures levels == seq(c.numInpins, _ => seq(c.numLines, _ => false))
      ensures Snap() == State(seq(c.nrRegs, _ => 0), seq(MaxInpins, _ => 0), seq(MaxInpins, _ => 0),
                              seq(MaxInpins, _ => 0), [])
      ensures Invariant(cfg, Snap())
    {
      cfg := c;
      regs := new bv32[c.nrRegs](_ => 0);
      enable := new bv32[MaxInpins](_ => 0);
      mask := new bv32[MaxInpins](_ => 0);
      pending := new bv32[MaxInpins](_ => 0);
      levels := seq(c.numInpins, _ => seq(c.numLines, _ => false));
      events := [];
      new;
      ghost var s := Snap();
      assert s == IntcDevice.Reset(cfg, s);
      ResetEstablishes(cfg, s);
    }

    /**
     * A source line of input pin irq's OR gate changes level. The gate
     * device, which then hands its new output level to SetIrq, is not part
     * of this model; only the line's level is recorded.
     */
    method SetLine(irq: nat, line: nat, high: bool)
      requires Valid() && irq < cfg.numInpins && line < cfg.numLines
      modifies this
      ensures Valid() && Snap() == old(Snap())
      ensures levels == old(levels)[irq := old(levels)[irq][line := high]]
    {
      levels := levels[irq := levels[irq][line := high]];
    }
  }
}
