/** A guest write to one pin's enable register. */
module PinEnable {
  import opened Words
  import opened PinMachine

  /** A zero write to a pin with no enabled line. */
  predicate IdleWrite(p: Pin, data: bv32) {
    data == 0 && p.enable == 0
  }

  /** Or-ing the written word into enable changes it: the write enables new lines. */
  predicate AddsLines(p: Pin, data: bv32) {
    p.enable | data != p.enable
  }

  /** Some bit that differs from the register's previous contents is set in the written word. */
  predicate Unmasking(p: Pin, data: bv32) {
    (p.enableReg ^ data) & data != 0
  }

  /**
   * The mask after a toggle by a write of `data` over register contents
   * `reg`: the bits that differ leave the mask when some of them are set
   * in `data`, and join it otherwise.
   */
  function Toggle(mask: bv32, reg: bv32, data: bv32): bv32 {
    var change := reg ^ data;
    if change & data != 0 then mask & !change else mask | change
  }

  lemma ToggleUnmasks(mask: bv32, reg: bv32, data: bv32)
    ensures (reg ^ data) & data != 0 ==> Toggle(mask, reg, data) == mask & !(reg ^ data)
  {
  }

  lemma ToggleMasks(mask: bv32, reg: bv32, data: bv32)
    ensures (reg ^ data) & data == 0 ==> Toggle(mask, reg, data) == mask | (reg ^ data)
  {
  }

  /**
   * A write of `data` to the pin's enable register. A zero write to a pin
   * with no enabled line only stores the register. A write that adds lines
   * grows the enable word. Any other write is a mask toggle decided by the
   * bits that differ from the register's previous contents: if some of them
   * are set in `data` they are unmasked, otherwise they are masked.
   */
  function WriteEnable(p: Pin, data: bv32): Pin {
    if IdleWrite(p, data) then p.(enableReg := data)
    else if AddsLines(p, data) then p.(enable := p.enable | data, enableReg := data)
    else p.(mask := Toggle(p.mask, p.enableReg, data), enableReg := data)
  }

  /** A write that adds lines has a bit that enable lacks. */
  lemma AddsLinesNew(p: Pin, data: bv32)
    requires AddsLines(p, data)
    ensures data & !p.enable != 0
  {
    OrChanged(p.enable, data);
  }

  /** A write with a bit that enable lacks adds lines. */
  lemma NewAddsLines(p: Pin, data: bv32)
    requires data & !p.enable != 0
    ensures AddsLines(p, data)
  {
    OrChanges(p.enable, data);
  }

  /** A zero write to a pin with no enabled line only stores the register. */
  lemma WriteEnableIdle(p: Pin, data: bv32)
    requires IdleWrite(p, data)
    ensures WriteEnable(p, data) == p.(enableReg := data)
  {
  }

  lemma GrowStep(p: Pin, data: bv32)
    requires !IdleWrite(p, data) && AddsLines(p, data)
    ensures WriteEnable(p, data) == p.(enable := p.enable | data, enableReg := data)
  {
  }

  /** A write that enables new lines adds them to enable and leaves the mask alone. */
  lemma WriteEnableAdds(p: Pin, data: bv32)
    requires AddsLines(p, data)
    ensures WriteEnable(p, data) == p.(enable := p.enable | data, enableReg := data)
  {
    OrChangedNonzero(p.enable, data);
    GrowStep(p, data);
  }

  /** A write that is not idle and enables nothing new toggles the mask. */
  lemma WriteEnableToggles(p: Pin, data: bv32)
    ensures !IdleWrite(p, data) && !AddsLines(p, data) ==>
      WriteEnable(p, data) == p.(mask := Toggle(p.mask, p.enableReg, data), enableReg := data)
  {
  }

  /**
   * A write that enables nothing new, in which some of the bits that
   * differ from the register's previous contents are set, unmasks all the
   * differing bits.
   */
  lemma WriteEnableUnmasks(p: Pin, data: bv32)
    requires !IdleWrite(p, data) && !AddsLines(p, data)
    requires Unmasking(p, data)
    ensures WriteEnable(p, data).mask == p.mask & !(p.enableReg ^ data)
  {
    WriteEnableToggles(p, data);
    ToggleUnmasks(p.mask, p.enableReg, data);
  }

  /**
   * A write that enables nothing new, in which none of the differing bits
   * is set, masks all of them.
   */
  lemma WriteEnableMasks(p: Pin, data: bv32)
    requires !IdleWrite(p, data) && !AddsLines(p, data)
    requires !Unmasking(p, data)
    ensures WriteEnable(p, data).mask == p.mask | (p.enableReg ^ data)
  {
    WriteEnableToggles(p, data);
    ToggleMasks(p.mask, p.enableReg, data);
  }

  lemma TogglesKeepEnable(p: Pin, data: bv32)
    requires !IdleWrite(p, data) && !AddsLines(p, data)
    ensures var r := WriteEnable(p, data);
      r.enable == p.enable && r.enableReg == data && r.status == p.status && r.pending == p.pending
  {
    WriteEnableToggles(p, data);
  }

  /** An enable write stores the register and leaves status and pending alone. */
  lemma WriteEnableFrame(p: Pin, data: bv32)
    ensures var r := WriteEnable(p, data);
      r.enableReg == data && r.status == p.status && r.pending == p.pending
  {
    if IdleWrite(p, data) {
      WriteEnableIdle(p, data);
    } else if AddsLines(p, data) {
      WriteEnableAdds(p, data);
    } else {
      TogglesKeepEnable(p, data);
    }
  }

  lemma GrowsIdle(p: Pin, data: bv32)
    requires IdleWrite(p, data)
    ensures WriteEnable(p, data).enable == p.enable | data
  {
    WriteEnableIdle(p, data);
    OrZero(p.enable);
  }

  lemma GrowsToggle(p: Pin, data: bv32)
    requires !IdleWrite(p, data) && !AddsLines(p, data)
    ensures WriteEnable(p, data).enable == p.enable | data
  {
    TogglesKeepEnable(p, data);
  }

  /**
   * Enable is a set union: after any enable write it is the old enable
   * word with the written bits added, so no enabled line is ever cleared.
   */
  lemma WriteEnableGrows(p: Pin, data: bv32)
    ensures WriteEnable(p, data).enable == p.enable | data
  {
    if IdleWrite(p, data) {
      GrowsIdle(p, data);
    } else if AddsLines(p, data) {
      WriteEnableAdds(p, data);
    } else {
      GrowsToggle(p, data);
    }
  }

  /** Only a write that enables nothing new touches the mask. */
  lemma WriteEnableKeepsMask(p: Pin, data: bv32)
    requires AddsLines(p, data) || IdleWrite(p, data)
    ensures WriteEnable(p, data).mask == p.mask
  {
    if IdleWrite(p, data) {
      WriteEnableIdle(p, data);
    } else {
      WriteEnableAdds(p, data);
    }
  }

  /** An enable write keeps the pin invariant and does not touch the output. */
  lemma WriteEnablePreserves(p: Pin, data: bv32, high: bool)
    requires Contained(p) && Signalled(p, high)
    ensures Contained(WriteEnable(p, data)) && Signalled(WriteEnable(p, data), high)
  {
    WriteEnableFrame(p, data);
    WriteEnableGrows(p, data);
    WithinGrow(p.status, p.enable, data);
    WithinGrow(p.pending, p.enable, data);
  }
}
