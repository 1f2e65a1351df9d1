/** A guest write to one pin's status register: write-one-to-clear. */
module PinStatus {
  import opened Words
  import opened PinMachine

  /** An ordinary acknowledgement that leaves the status register empty. */
  predicate Drains(p: Pin, data: bv32) {
    data != 0 && data != AllOnes && p.status & !data == 0
  }

  /**
   * A write of `data` to the pin's status register: write-one-to-clear.
   * Zero is refused. All ones re-initialises the register and does nothing
   * else. Otherwise, once the register drains to zero, queued lines are
   * promoted to it and the output is raised again, or, with nothing queued,
   * the output is lowered.
   */
  function WriteStatus(p: Pin, data: bv32): Step {
    if data == 0 then Step(p, Keep)
    else
      var cleared := p.status & !data;
      if data == AllOnes || cleared != 0 then Step(p.(status := cleared), Keep)
      else if p.pending != 0 then Step(p.(status := p.pending, pending := 0), Set(1))
      else Step(p.(status := 0), Set(0))
  }

  /**
   * A nonzero write that re-initialises the register, or leaves bits set
   * in it, only clears the written bits.
   */
  lemma WriteStatusClears(p: Pin, data: bv32)
    ensures data != 0 && (data == AllOnes || p.status & !data != 0) ==>
      WriteStatus(p, data) == Step(p.(status := p.status & !data), Keep)
  {
  }

  /** Zero is refused: nothing changes. */
  lemma WriteStatusZero(p: Pin)
    ensures WriteStatus(p, 0) == Step(p, Keep)
  {
  }

  lemma ReinitStep(p: Pin)
    ensures WriteStatus(p, AllOnes) == Step(p.(status := p.status & !AllOnes), Keep)
  {
  }

  /** All ones clears the register and does nothing else, even though it drains it. */
  lemma WriteStatusReinit(p: Pin)
    ensures WriteStatus(p, AllOnes) == Step(p.(status := 0), Keep)
  {
    ReinitStep(p);
    ClearAll(p.status);
  }

  /** An acknowledgement that leaves bits set clears the written bits and nothing else. */
  lemma WriteStatusPartial(p: Pin, data: bv32)
    requires data != 0 && data != AllOnes && !Drains(p, data)
    ensures WriteStatus(p, data) == Step(p.(status := p.status & !data), Keep)
  {
  }

  /** Draining with lines queued promotes them and raises the output exactly once. */
  lemma WriteStatusReplays(p: Pin, data: bv32)
    requires Drains(p, data) && p.pending != 0
    ensures WriteStatus(p, data) == Step(p.(status := p.pending, pending := 0), Set(1))
  {
  }

  /** Draining with nothing queued lowers the output exactly once. */
  lemma WriteStatusIdles(p: Pin, data: bv32)
    requires Drains(p, data) && p.pending == 0
    ensures WriteStatus(p, data) == Step(p.(status := 0), Set(0))
  {
  }

  /** A status write drives the output exactly when it drains the register and is not all ones. */
  lemma WriteStatusDrives(p: Pin, data: bv32)
    ensures WriteStatus(p, data).drive.Set? == (data != 0 && data != AllOnes && p.status & !data == 0)
  {
  }

  /** A status write never touches enable, mask or the enable register. */
  lemma WriteStatusFrame(p: Pin, data: bv32)
    ensures var r := WriteStatus(p, data).pin;
      r.enable == p.enable && r.mask == p.mask && r.enableReg == p.enableReg
  {
    if data == 0 {
      WriteStatusZero(p);
    } else if data == AllOnes {
      ReinitStep(p);
    } else if !Drains(p, data) {
      WriteStatusPartial(p, data);
    } else if p.pending != 0 {
      WriteStatusReplays(p, data);
    } else {
      WriteStatusIdles(p, data);
    }
  }

  lemma ReplayOutstanding(p: Pin, data: bv32)
    requires p.status & !data == 0
    ensures Outstanding(p.(status := p.pending, pending := 0)) == (p.status & !data) | p.pending
  {
    OrZero(p.pending);
  }

  lemma ZeroOutstanding(p: Pin)
    ensures Outstanding(WriteStatus(p, 0).pin) == (p.status & !0) | p.pending
  {
    WriteStatusZero(p);
    ClearNone(p.status);
  }

  lemma ReinitOutstanding(p: Pin)
    ensures Outstanding(WriteStatus(p, AllOnes).pin) == (p.status & !AllOnes) | p.pending
  {
    ReinitStep(p);
  }

  lemma PartialOutstanding(p: Pin, data: bv32)
    requires data != 0 && data != AllOnes && !Drains(p, data)
    ensures Outstanding(WriteStatus(p, data).pin) == (p.status & !data) | p.pending
  {
    WriteStatusPartial(p, data);
  }

  lemma ReplaysOutstanding(p: Pin, data: bv32)
    requires Drains(p, data) && p.pending != 0
    ensures Outstanding(WriteStatus(p, data).pin) == (p.status & !data) | p.pending
  {
    WriteStatusReplays(p, data);
    ReplayOutstanding(p, data);
  }

  lemma IdlesOutstanding(p: Pin, data: bv32)
    requires Drains(p, data) && p.pending == 0
    ensures Outstanding(WriteStatus(p, data).pin) == (p.status & !data) | p.pending
  {
    WriteStatusIdles(p, data);
  }

  /**
   * A status write drops from what the pin owes firmware exactly the
   * acknowledged lines of the status register: queued lines are kept.
   */
  lemma WriteStatusOutstanding(p: Pin, data: bv32)
    ensures Outstanding(WriteStatus(p, data).pin) == (p.status & !data) | p.pending
  {
    if data == 0 {
      ZeroOutstanding(p);
    } else if data == AllOnes {
      ReinitOutstanding(p);
    } else if !Drains(p, data) {
      PartialOutstanding(p, data);
    } else if p.pending != 0 {
      ReplaysOutstanding(p, data);
    } else {
      IdlesOutstanding(p, data);
    }
  }

  lemma ClearPreserves(p: Pin, data: bv32, high: bool)
    requires Contained(p) && Signalled(p, high)
    ensures Contained(p.(status := p.status & !data))
    ensures Signalled(p.(status := p.status & !data), high)
  {
    ClearWithin(p.status, data, p.enable);
    if p.status & !data != 0 {
      ClearedNonzero(p.status, data);
    }
  }

  lemma ReinitPreserves(p: Pin, high: bool)
    requires Contained(p) && Signalled(p, high)
    ensures Contained(WriteStatus(p, AllOnes).pin)
    ensures Signalled(WriteStatus(p, AllOnes).pin, After(high, WriteStatus(p, AllOnes).drive))
  {
    ReinitStep(p);
    ClearPreserves(p, AllOnes, high);
  }

  lemma PartialPreserves(p: Pin, data: bv32, high: bool)
    requires Contained(p) && Signalled(p, high)
    requires data != 0 && data != AllOnes && !Drains(p, data)
    ensures Contained(WriteStatus(p, data).pin)
    ensures Signalled(WriteStatus(p, data).pin, After(high, WriteStatus(p, data).drive))
  {
    WriteStatusPartial(p, data);
    ClearPreserves(p, data, high);
  }

  lemma ReplaysPreserves(p: Pin, data: bv32)
    requires Contained(p) && Drains(p, data) && p.pending != 0
    ensures Contained(WriteStatus(p, data).pin)
    ensures WriteStatus(p, data).drive == Set(1)
  {
    WriteStatusReplays(p, data);
    ZeroWithin(p.enable);
  }

  lemma IdlesPreserves(p: Pin, data: bv32)
    requires Contained(p) && Drains(p, data) && p.pending == 0
    ensures Contained(WriteStatus(p, data).pin)
    ensures WriteStatus(p, data).pin.status == 0
  {
    WriteStatusIdles(p, data);
    ZeroWithin(p.enable);
  }

  /**
   * A status write keeps the pin invariant, and leaves the output high
   * whenever the status register is nonzero.
   */
  lemma WriteStatusPreserves(p: Pin, data: bv32, high: bool)
    requires Contained(p) && Signalled(p, high)
    ensures Contained(WriteStatus(p, data).pin)
    ensures Signalled(WriteStatus(p, data).pin, After(high, WriteStatus(p, data).drive))
  {
    if data == 0 {
      WriteStatusZero(p);
    } else if data == AllOnes {
      ReinitPreserves(p, high);
    } else if !Drains(p, data) {
      PartialPreserves(p, data, high);
    } else if p.pending != 0 {
      ReplaysPreserves(p, data);
    } else {
      IdlesPreserves(p, data);
    }
  }
}
