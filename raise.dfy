/** A rising source transition on one pin. */
module PinRaise {
  import opened Words
  import opened PinMachine

  /** The pin is in its service routine, or firmware has not acknowledged yet. */
  predicate Busy(p: Pin) {
    p.mask != 0 || p.status != 0
  }

  /**
   * A rising edge whose enabled, high lines are `select`. Nothing happens
   * when no line is selected; while the pin is busy the lines are queued;
   * otherwise they are published in the status register and the output is
   * raised.
   */
  function Raise(p: Pin, select: bv32): Step {
    if select == 0 then Step(p, Keep)
    else if Busy(p) then Step(p.(pending := p.pending | select), Keep)
    else Step(p.(status := select), Set(1))
  }

  /** No enabled line is high: nothing changes and the output is not touched. */
  lemma RaiseNothing(p: Pin)
    ensures Raise(p, 0) == Step(p, Keep)
  {
  }

  /** A busy pin only queues: pending gains the lines, status and output stay. */
  lemma RaiseQueues(p: Pin, select: bv32)
    requires select != 0 && Busy(p)
    ensures Raise(p, select) == Step(p.(pending := p.pending | select), Keep)
  {
  }

  /** An idle pin publishes exactly the selected lines and raises its output once. */
  lemma RaiseNotifies(p: Pin, select: bv32)
    requires select != 0 && !Busy(p)
    ensures Raise(p, select) == Step(p.(status := select), Set(1))
  {
  }

  /** A rising edge never touches enable, mask or the enable register. */
  lemma RaiseFrame(p: Pin, select: bv32)
    ensures var r := Raise(p, select).pin;
      r.enable == p.enable && r.mask == p.mask && r.enableReg == p.enableReg
  {
    if select == 0 {
      RaiseNothing(p);
    } else if Busy(p) {
      RaiseQueues(p, select);
    } else {
      RaiseNotifies(p, select);
    }
  }

  lemma QueueOutstanding(p: Pin, select: bv32)
    ensures Outstanding(p.(pending := p.pending | select)) == Outstanding(p) | select
  {
    OrAssoc(p.status, p.pending, select);
  }

  lemma PublishOutstanding(p: Pin, select: bv32)
    requires p.status == 0
    ensures Outstanding(p.(status := select)) == Outstanding(p) | select
  {
    OrIntoZero(p.pending, select);
  }

  /** A rising edge owes firmware every selected line and drops none it owed. */
  lemma RaiseOutstanding(p: Pin, select: bv32)
    ensures Outstanding(Raise(p, select).pin) == Outstanding(p) | select
  {
    if select == 0 {
      RaiseNothing(p);
      OrZero(Outstanding(p));
    } else if Busy(p) {
      RaiseQueues(p, select);
      QueueOutstanding(p, select);
    } else {
      RaiseNotifies(p, select);
      PublishOutstanding(p, select);
    }
  }

  lemma QueueContained(p: Pin, select: bv32)
    requires Contained(p) && Within(select, p.enable)
    ensures Contained(p.(pending := p.pending | select))
  {
    WithinOr(p.pending, select, p.enable);
  }

  /**
   * A rising edge of enabled lines keeps the pin invariant, and leaves the
   * output high whenever the status register is nonzero.
   */
  lemma RaisePreserves(p: Pin, select: bv32, high: bool)
    requires Contained(p) && Signalled(p, high) && Within(select, p.enable)
    ensures Contained(Raise(p, select).pin)
    ensures Signalled(Raise(p, select).pin, After(high, Raise(p, select).drive))
  {
    if select == 0 {
      RaiseNothing(p);
    } else if Busy(p) {
      RaiseQueues(p, select);
      QueueContained(p, select);
    } else {
      RaiseNotifies(p, select);
    }
  }
}
