/**
 * The controller's service protocol traced through one pin: a line that
 * fires while firmware has not acknowledged the previous notification is
 * queued, and the acknowledgement hands it to firmware in the same write.
 */
module PinScenario {
  import opened Words
  import opened PinMachine
  import opened PinRaise
  import opened PinEnable
  import opened PinStatus

  /**
   * While status holds an unacknowledged notification, a rising edge of
   * `select` is queued without touching the output; acknowledging exactly
   * the notified lines then publishes everything queued and raises the
   * output again.
   */
  lemma QueueThenReplay(p: Pin, select: bv32)
    requires p.status != 0 && p.status != AllOnes && select != 0
    ensures var q := Raise(p, select).pin;
      && Raise(p, select).drive == Keep
      && WriteStatus(q, p.status) == Step(q.(status := p.pending | select, pending := 0), Set(1))
  {
    RaiseQueues(p, select);
    var q := p.(pending := p.pending | select);
    ClearSelf(p.status);
    OrNonzero(p.pending, select);
    WriteStatusReplays(q, p.status);
  }

  /**
   * Acknowledging a notification with nothing queued clears the status
   * register and lowers the output; the next rising edge of enabled lines
   * is then published at once.
   */
  lemma AcknowledgeThenNotify(p: Pin, select: bv32)
    requires p.status != 0 && p.status != AllOnes && p.pending == 0 && p.mask == 0 && select != 0
    ensures var q := WriteStatus(p, p.status);
      && q == Step(p.(status := 0), Set(0))
      && Raise(q.pin, select) == Step(p.(status := select), Set(1))
  {
    ClearSelf(p.status);
    WriteStatusIdles(p, p.status);
    RaiseNotifies(p.(status := 0), select);
  }

  /**
   * One service round of line 3 on a pin, from reset: enable the line, it
   * fires and is published; firmware masks it by writing 0 to the enable
   * register; it fires again and is queued; the acknowledgement publishes
   * the queued line and raises the output again; firmware unmasks it by
   * writing the enable word back; the last acknowledgement lowers the output.
   */
  lemma ServiceRound()
    ensures
      var enabled := WriteEnable(Idle, 8);
      var fired := Raise(enabled, enabled.enable & 8);
      var masked := WriteEnable(fired.pin, 0);
      var queued := Raise(masked, masked.enable & 8);
      var replayed := WriteStatus(queued.pin, 8);
      var unmasked := WriteEnable(replayed.pin, 8);
      var done := WriteStatus(unmasked, 8);
      && enabled == Pin(8, 0, 0, 8, 0)
      && fired == Step(Pin(8, 0, 0, 8, 8), Set(1))
      && masked == Pin(8, 8, 0, 0, 8)
      && queued == Step(Pin(8, 8, 8, 0, 8), Keep)
      && replayed == Step(Pin(8, 8, 0, 0, 8), Set(1))
      && unmasked == Pin(8, 0, 0, 8, 8)
      && done == Step(Pin(8, 0, 0, 8, 0), Set(0))
  {
  }
}
