/**
 * The whole controller as a value: the register file, the three per-pin
 * arrays and the log of output-pin levels. Each entry point of the device
 * is a function from one such state to the next; the device class is
 * proved to perform exactly these functions on its arrays.
 */
module IntcDevice {
  import opened IntcConfig
  import opened IntcLayout
  import opened Words
  import opened PinMachine
  import opened PinRaise
  import opened PinEnable
  import opened PinStatus
  import opened IntcSelect
  import opened IntcOutput

  /** Register file, enable, mask and pending arrays, and the output log. */
  datatype State = State(
    regs: seq<bv32>,
    enable: seq<bv32>,
    mask: seq<bv32>,
    pending: seq<bv32>,
    events: seq<Event>)

  /** The arrays have the sizes the configuration gives them. */
  predicate Sized(cfg: Config, s: State) {
    && WellFormed(cfg)
    && |s.regs| == cfg.nrRegs
    && |s.enable| == MaxInpins && |s.mask| == MaxInpins && |s.pending| == MaxInpins
  }

  /** The bookkeeping of input pin p. */
  function PinOf(cfg: Config, s: State, p: nat): Pin
    requires Sized(cfg, s) && p < cfg.numInpins
  {
    assert StatusReg(p) < |s.regs|;
    Pin(s.enable[p], s.mask[p], s.pending[p], s.regs[EnableReg(p)], s.regs[StatusReg(p)])
  }

  /** The state with input pin p's bookkeeping replaced by q. */
  function WithPin(cfg: Config, s: State, p: nat, q: Pin): (r: State)
    requires Sized(cfg, s) && p < cfg.numInpins
    ensures Sized(cfg, r)
  {
    assert StatusReg(p) < |s.regs|;
    s.(regs := s.regs[EnableReg(p) := q.enableReg][StatusReg(p) := q.status],
       enable := s.enable[p := q.enable],
       mask := s.mask[p := q.mask],
       pending := s.pending[p := q.pending])
  }

  /** The events aspeed_intc_update emits for a drive on pin p: none if there is no output pin p. */
  function Driven(cfg: Config, p: nat, d: Drive): seq<Event>
  {
    if p < cfg.numOutpins then Emitted(p, d) else []
  }

  /** Pin p takes the step: its new bookkeeping, and its drive on the output log. */
  function TakeStep(cfg: Config, s: State, p: nat, st: Step): (r: State)
    requires Sized(cfg, s) && p < cfg.numInpins
    ensures Sized(cfg, r)
  {
    WithPin(cfg, s, p, st.pin).(events := s.events + Driven(cfg, p, st.drive))
  }

  /** Is output pin o high? */
  function High(s: State, o: nat): bool {
    OutputLevel(s.events, o) != 0
  }

  /**
   * The device invariant: every input pin notifies firmware of, and
   * queues, only enabled lines, and while its status register is nonzero
   * its output pin of the same index (when there is one) is high.
   */
  predicate Invariant(cfg: Config, s: State)
    requires Sized(cfg, s)
  {
    forall p: nat :: p < cfg.numInpins ==> PinHolds(cfg, s, p)
  }

  /** Input pin p's share of the device invariant. */
  predicate PinHolds(cfg: Config, s: State, p: nat)
    requires Sized(cfg, s) && p < cfg.numInpins
  {
    && Contained(PinOf(cfg, s, p))
    && (p < cfg.numOutpins ==> Signalled(PinOf(cfg, s, p), High(s, p)))
  }

  // ---------------------------------------------------------------------
  // The entry points as state transitions

  /**
   * aspeed_intc_set_irq: input pin irq's OR gate changed to `level`, with
   * `high` the bitmap of the gate's high lines. An unknown pin or a
   * falling edge changes nothing; a rising edge raises the pin with its
   * enabled, high lines.
   */
  function SetIrq(cfg: Config, s: State, irq: nat, level: int, high: bv32): State
    requires Sized(cfg, s)
  {
    if irq >= cfg.numInpins || level == 0 then s
    else TakeStep(cfg, s, irq, Raise(PinOf(cfg, s, irq), s.enable[irq] & high))
  }

  /** aspeed_intc_enable_handler on an enable register's offset. */
  function EnableWrite(cfg: Config, s: State, offset: HwAddr, data: bv32): State
    requires Sized(cfg, s)
  {
    var p := PinField(offset);
    if p >= cfg.numInpins then s
    else TakeStep(cfg, s, p, Step(WriteEnable(PinOf(cfg, s, p), data), Keep))
  }

  /** aspeed_intc_status_handler on a status register's offset. */
  function StatusWrite(cfg: Config, s: State, offset: HwAddr, data: bv32): State
    requires Sized(cfg, s)
  {
    var p := PinField(offset);
    if data == 0 || p >= cfg.numInpins then s
    else TakeStep(cfg, s, p, WriteStatus(PinOf(cfg, s, p), data))
  }

  /** aspeed_intc_write: decode the register and hand the write to its handler, or store it. */
  function Write(cfg: Config, s: State, offset: HwAddr, data: bv32): State
    requires Sized(cfg, s) && RegIndex(offset) < cfg.nrRegs
  {
    var reg := RegIndex(offset);
    if reg in EnableRegs then EnableWrite(cfg, s, offset, data)
    else if reg in StatusRegs then StatusWrite(cfg, s, offset, data)
    else s.(regs := s.regs[reg := data])
  }

  /** aspeed_intc_reset: every register and every per-pin word is zero; the output log stays. */
  function Reset(cfg: Config, s: State): State
    requires Sized(cfg, s)
  {
    State(seq(cfg.nrRegs, _ => 0), seq(MaxInpins, _ => 0), seq(MaxInpins, _ => 0),
          seq(MaxInpins, _ => 0), s.events)
  }

  /** aspeed_intc_read: the register the offset addresses; nothing changes. */
  function Read(cfg: Config, s: State, offset: HwAddr): bv32
    requires Sized(cfg, s) && RegIndex(offset) < cfg.nrRegs
  {
    s.regs[RegIndex(offset)]
  }

  // ---------------------------------------------------------------------
  // Frames: a step on one pin touches no other pin and no other output

  /** Writing back an element's own value changes nothing. */
  lemma UpdateSame<T>(a: seq<T>, i: nat)
    requires i < |a|
    ensures a[i := a[i]] == a
  {
  }

  /** A step that keeps pin p's words and drives nothing leaves the state alone. */
  lemma TakeStepSame(cfg: Config, s: State, p: nat)
    requires Sized(cfg, s) && p < cfg.numInpins
    ensures TakeStep(cfg, s, p, Step(PinOf(cfg, s, p), Keep)) == s
  {
    UpdateSame(s.regs, EnableReg(p));
    UpdateSame(s.regs, StatusReg(p));
    UpdateSame(s.enable, p);
    UpdateSame(s.mask, p);
    UpdateSame(s.pending, p);
    assert s.events + [] == s.events;
  }

  /** Changing only pin p's queued lines is a write to pending[p]. */
  lemma TakeStepPending(cfg: Config, s: State, p: nat, v: bv32)
    requires Sized(cfg, s) && p < cfg.numInpins
    ensures TakeStep(cfg, s, p, Step(PinOf(cfg, s, p).(pending := v), Keep))
         == s.(pending := s.pending[p := v])
  {
    UpdateSame(s.regs, EnableReg(p));
    UpdateSame(s.regs, StatusReg(p));
    UpdateSame(s.enable, p);
    UpdateSame(s.mask, p);
    assert s.events + [] == s.events;
  }

  /** Changing only pin p's status register is a write to that register, plus the drive. */
  lemma TakeStepStatus(cfg: Config, s: State, p: nat, v: bv32, d: Drive)
    requires Sized(cfg, s) && p < cfg.numInpins
    ensures TakeStep(cfg, s, p, Step(PinOf(cfg, s, p).(status := v), d))
         == s.(regs := s.regs[StatusReg(p) := v], events := s.events + Driven(cfg, p, d))
  {
    UpdateSame(s.regs, EnableReg(p));
    UpdateSame(s.enable, p);
    UpdateSame(s.mask, p);
    UpdateSame(s.pending, p);
  }

  /** Replaying pin p's queue: its status register takes v, pending[p] is cleared, plus the drive. */
  lemma TakeStepReplay(cfg: Config, s: State, p: nat, v: bv32, d: Drive)
    requires Sized(cfg, s) && p < cfg.numInpins
    ensures TakeStep(cfg, s, p, Step(PinOf(cfg, s, p).(status := v, pending := 0), d))
         == s.(regs := s.regs[StatusReg(p) := v], pending := s.pending[p := 0],
               events := s.events + Driven(cfg, p, d))
  {
    UpdateSame(s.regs, EnableReg(p));
    UpdateSame(s.enable, p);
    UpdateSame(s.mask, p);
  }

  /** Changing pin p's enable word and enable register. */
  lemma TakeStepEnable(cfg: Config, s: State, p: nat, e: bv32, data: bv32)
    requires Sized(cfg, s) && p < cfg.numInpins
    ensures TakeStep(cfg, s, p, Step(PinOf(cfg, s, p).(enable := e, enableReg := data), Keep))
         == s.(regs := s.regs[EnableReg(p) := data], enable := s.enable[p := e])
  {
    assert StatusReg(p) < |s.regs|;
    assert s.regs[EnableReg(p) := data][StatusReg(p) := s.regs[StatusReg(p)]] == s.regs[EnableReg(p) := data];
    UpdateSame(s.mask, p);
    UpdateSame(s.pending, p);
    assert s.events + [] == s.events;
  }

  /** Changing pin p's mask word and enable register. */
  lemma TakeStepMask(cfg: Config, s: State, p: nat, m: bv32, data: bv32)
    requires Sized(cfg, s) && p < cfg.numInpins
    ensures TakeStep(cfg, s, p, Step(PinOf(cfg, s, p).(mask := m, enableReg := data), Keep))
         == s.(regs := s.regs[EnableReg(p) := data], mask := s.mask[p := m])
  {
    assert StatusReg(p) < |s.regs|;
    assert s.regs[EnableReg(p) := data][StatusReg(p) := s.regs[StatusReg(p)]] == s.regs[EnableReg(p) := data];
    UpdateSame(s.enable, p);
    UpdateSame(s.pending, p);
    assert s.events + [] == s.events;
  }

  /** After replacing pin p's bookkeeping, pin p holds the replacement. */
  lemma PinOfWithPin(cfg: Config, s: State, p: nat, q: Pin)
    requires Sized(cfg, s) && p < cfg.numInpins
    ensures PinOf(cfg, WithPin(cfg, s, p, q), p) == q
  {
  }

  /** Replacing pin p's bookkeeping leaves every other pin's alone. */
  lemma PinOfWithPinOther(cfg: Config, s: State, p: nat, q: Pin, j: nat)
    requires Sized(cfg, s) && p < cfg.numInpins && j < cfg.numInpins && j != p
    ensures PinOf(cfg, WithPin(cfg, s, p, q), j) == PinOf(cfg, s, j)
  {
    assert EnableReg(j) != EnableReg(p) && EnableReg(j) != StatusReg(p);
    assert StatusReg(j) != EnableReg(p) && StatusReg(j) != StatusReg(p);
  }

  /** A step on pin p drives output pin p as its drive says, when that output exists. */
  lemma HighTakeStep(cfg: Config, s: State, p: nat, st: Step)
    requires Sized(cfg, s) && p < cfg.numInpins && p < cfg.numOutpins
    ensures High(TakeStep(cfg, s, p, st), p) == After(High(s, p), st.drive)
  {
    EmittedHigh(s.events, p, st.drive);
  }

  /** A step on pin p leaves every other output pin's level alone. */
  lemma HighTakeStepOther(cfg: Config, s: State, p: nat, st: Step, o: nat)
    requires Sized(cfg, s) && p < cfg.numInpins && o != p
    ensures High(TakeStep(cfg, s, p, st), o) == High(s, o)
  {
    if p < cfg.numOutpins {
      EmittedOther(s.events, p, o, st.drive);
    } else {
      assert s.events + [] == s.events;
    }
  }

  /**
   * A step keeps the device invariant as soon as the stepping pin keeps
   * its own: nothing else changes.
   */
  lemma TakeStepPreserves(cfg: Config, s: State, p: nat, st: Step)
    requires Sized(cfg, s) && Invariant(cfg, s) && p < cfg.numInpins
    requires Contained(st.pin)
    requires p < cfg.numOutpins ==> Signalled(st.pin, After(High(s, p), st.drive))
    ensures Invariant(cfg, TakeStep(cfg, s, p, st))
  {
    var r := TakeStep(cfg, s, p, st);
    forall j: nat | j < cfg.numInpins
      ensures PinHolds(cfg, r, j)
    {
      if j == p {
        PinOfWithPin(cfg, s, p, st.pin);
        if p < cfg.numOutpins {
          HighTakeStep(cfg, s, p, st);
        }
      } else {
        assert PinHolds(cfg, s, j);
        PinOfWithPinOther(cfg, s, p, st.pin, j);
        HighTakeStepOther(cfg, s, p, st, j);
      }
    }
  }

  // ---------------------------------------------------------------------
  // The register writes, branch by branch, as updates of the state

  /** On a pin the variant has, an enable write is that pin's step. */
  lemma EnableWriteIs(cfg: Config, s: State, offset: HwAddr, data: bv32, p: nat)
    requires Sized(cfg, s) && p == PinField(offset) && p < cfg.numInpins
    ensures EnableWrite(cfg, s, offset, data)
         == TakeStep(cfg, s, p, Step(WriteEnable(PinOf(cfg, s, p), data), Keep))
  {
  }

  lemma StepEnableIdle(cfg: Config, s: State, p: nat, data: bv32)
    requires Sized(cfg, s) && p < cfg.numInpins
    requires IdleWrite(PinOf(cfg, s, p), data)
    ensures TakeStep(cfg, s, p, Step(WriteEnable(PinOf(cfg, s, p), data), Keep))
         == s.(regs := s.regs[EnableReg(p) := data])
  {
    var q := PinOf(cfg, s, p);
    WriteEnableIdle(q, data);
    TakeStepEnable(cfg, s, p, q.enable, data);
    UpdateSame(s.enable, p);
  }

  /** The state once the written bits have been or-ed into pin p's enable word. */
  function Grown(cfg: Config, s: State, p: nat, data: bv32): (r: State)
    requires Sized(cfg, s) && p < cfg.numInpins
    ensures Sized(cfg, r)
  {
    s.(enable := s.enable[p := s.enable[p] | data])
  }

  /** Pin p growing its enable word by `data` and storing `data` in its enable register. */
  lemma TakeStepGrows(cfg: Config, s: State, p: nat, st: Step, data: bv32)
    requires Sized(cfg, s) && p < cfg.numInpins
    requires st == Step(PinOf(cfg, s, p).(enable := PinOf(cfg, s, p).enable | data, enableReg := data), Keep)
    ensures TakeStep(cfg, s, p, st) == Grown(cfg, s, p, data).(regs := s.regs[EnableReg(p) := data])
  {
    TakeStepEnable(cfg, s, p, PinOf(cfg, s, p).enable | data, data);
  }

  /** Pin p toggling its mask and storing `data` in its enable register. */
  lemma TakeStepToggles(cfg: Config, s: State, p: nat, st: Step, data: bv32)
    requires Sized(cfg, s) && p < cfg.numInpins
    requires st == Step(PinOf(cfg, s, p).(mask := Toggle(PinOf(cfg, s, p).mask, PinOf(cfg, s, p).enableReg, data),
                                          enableReg := data), Keep)
    ensures TakeStep(cfg, s, p, st)
         == s.(regs := s.regs[EnableReg(p) := data],
               mask := s.mask[p := Toggle(s.mask[p], PinOf(cfg, s, p).enableReg, data)])
  {
    TakeStepMask(cfg, s, p, Toggle(PinOf(cfg, s, p).mask, PinOf(cfg, s, p).enableReg, data), data);
  }

  /** Growing enable changes pin p's word exactly when the write adds lines. */
  lemma GrownAdds(cfg: Config, s: State, p: nat, data: bv32)
    requires Sized(cfg, s) && p < cfg.numInpins
    ensures (Grown(cfg, s, p, data).enable[p] != s.enable[p]) == AddsLines(PinOf(cfg, s, p), data)
  {
  }

  /** When growing enable changes nothing, the grown state is the state itself. */
  lemma GrownSame(cfg: Config, s: State, p: nat, data: bv32)
    requires Sized(cfg, s) && p < cfg.numInpins
    ensures Grown(cfg, s, p, data).enable[p] == s.enable[p] ==> Grown(cfg, s, p, data) == s
  {
    if Grown(cfg, s, p, data).enable[p] == s.enable[p] {
      assert Grown(cfg, s, p, data).enable == s.enable;
    }
  }

  /** A zero write to a pin with no enabled line only stores the register. */
  lemma EnableWriteIdle(cfg: Config, s: State, offset: HwAddr, data: bv32, p: nat)
    requires Sized(cfg, s) && p == PinField(offset) && p < cfg.numInpins
    ensures data == 0 && s.enable[p] == 0 ==>
      EnableWrite(cfg, s, offset, data) == s.(regs := s.regs[EnableReg(p) := data])
  {
    if data == 0 && s.enable[p] == 0 {
      EnableWriteIs(cfg, s, offset, data, p);
      StepEnableIdle(cfg, s, p, data);
    }
  }

  /** A write that enables new lines adds them to enable and stores the register. */
  lemma EnableWriteAdds(cfg: Config, s: State, offset: HwAddr, data: bv32, p: nat)
    requires Sized(cfg, s) && p == PinField(offset) && p < cfg.numInpins
    ensures var g := Grown(cfg, s, p, data);
      g.enable[p] != s.enable[p] ==>
      EnableWrite(cfg, s, offset, data) == g.(regs := g.regs[EnableReg(p) := data])
  {
    var q := PinOf(cfg, s, p);
    GrownAdds(cfg, s, p, data);
    if AddsLines(q, data) {
      EnableWriteIs(cfg, s, offset, data, p);
      WriteEnableAdds(q, data);
      TakeStepGrows(cfg, s, p, Step(WriteEnable(q, data), Keep), data);
    }
  }

  /** Any other write stores the register and toggles the mask. */
  lemma EnableWriteToggles(cfg: Config, s: State, offset: HwAddr, data: bv32, p: nat)
    requires Sized(cfg, s) && p == PinField(offset) && p < cfg.numInpins
    ensures var g := Grown(cfg, s, p, data);
      !(data == 0 && s.enable[p] == 0) && g.enable[p] == s.enable[p] ==>
      EnableWrite(cfg, s, offset, data)
        == g.(regs := g.regs[EnableReg(p) := data],
              mask := g.mask[p := Toggle(g.mask[p], PinOf(cfg, g, p).enableReg, data)])
  {
    var q := PinOf(cfg, s, p);
    GrownAdds(cfg, s, p, data);
    GrownSame(cfg, s, p, data);
    if !IdleWrite(q, data) && !AddsLines(q, data) {
      EnableWriteIs(cfg, s, offset, data, p);
      WriteEnableToggles(q, data);
      TakeStepToggles(cfg, s, p, Step(WriteEnable(q, data), Keep), data);
    }
  }

  /** The state once pin p's status register has had the written bits cleared. */
  function Cleared(cfg: Config, s: State, p: nat, data: bv32): (r: State)
    requires Sized(cfg, s) && p < cfg.numInpins
    ensures Sized(cfg, r)
  {
    assert StatusReg(p) < |s.regs|;
    s.(regs := s.regs[StatusReg(p) := PinOf(cfg, s, p).status & !data])
  }

  /** Clearing bits of pin p's status register, with no drive, is the cleared state. */
  lemma TakeStepClears(cfg: Config, s: State, p: nat, st: Step, data: bv32)
    requires Sized(cfg, s) && p < cfg.numInpins
    requires st == Step(PinOf(cfg, s, p).(status := PinOf(cfg, s, p).status & !data), Keep)
    ensures TakeStep(cfg, s, p, st) == Cleared(cfg, s, p, data)
  {
    TakeStepStatus(cfg, s, p, PinOf(cfg, s, p).status & !data, Keep);
    assert s.events + [] == s.events;
  }

  /** On a pin the variant has, a nonzero status write is that pin's step. */
  lemma StatusWriteIs(cfg: Config, s: State, offset: HwAddr, data: bv32, p: nat)
    requires Sized(cfg, s) && p == PinField(offset) && p < cfg.numInpins && data != 0
    ensures StatusWrite(cfg, s, offset, data) == TakeStep(cfg, s, p, WriteStatus(PinOf(cfg, s, p), data))
  {
  }

  lemma StepStatusClears(cfg: Config, s: State, p: nat, data: bv32)
    requires Sized(cfg, s) && p < cfg.numInpins
    requires data != 0 && (data == AllOnes || PinOf(cfg, s, p).status & !data != 0)
    ensures TakeStep(cfg, s, p, WriteStatus(PinOf(cfg, s, p), data)) == Cleared(cfg, s, p, data)
  {
    var q := PinOf(cfg, s, p);
    WriteStatusClears(q, data);
    TakeStepClears(cfg, s, p, WriteStatus(q, data), data);
  }

  lemma StepStatusReplays(cfg: Config, s: State, p: nat, data: bv32)
    requires Sized(cfg, s) && p < cfg.numInpins
    requires Drains(PinOf(cfg, s, p), data) && PinOf(cfg, s, p).pending != 0
    ensures var c := Cleared(cfg, s, p, data);
      TakeStep(cfg, s, p, WriteStatus(PinOf(cfg, s, p), data))
        == c.(regs := c.regs[StatusReg(p) := s.pending[p]], pending := s.pending[p := 0],
              events := s.events + Driven(cfg, p, Set(1)))
  {
    var q := PinOf(cfg, s, p);
    WriteStatusReplays(q, data);
    TakeStepReplay(cfg, s, p, q.pending, Set(1));
    assert s.regs[StatusReg(p) := q.status & !data][StatusReg(p) := q.pending] == s.regs[StatusReg(p) := q.pending];
  }

  lemma StepStatusLowers(cfg: Config, s: State, p: nat, data: bv32)
    requires Sized(cfg, s) && p < cfg.numInpins
    requires Drains(PinOf(cfg, s, p), data) && PinOf(cfg, s, p).pending == 0
    ensures TakeStep(cfg, s, p, WriteStatus(PinOf(cfg, s, p), data))
         == Cleared(cfg, s, p, data).(events := s.events + Driven(cfg, p, Set(0)))
  {
    var q := PinOf(cfg, s, p);
    WriteStatusIdles(q, data);
    TakeStepStatus(cfg, s, p, 0, Set(0));
  }

  /**
   * A nonzero write that re-initialises pin p's status register, or leaves
   * bits set in it, only clears the written bits.
   */
  lemma StatusWriteClears(cfg: Config, s: State, offset: HwAddr, data: bv32, p: nat)
    requires Sized(cfg, s) && p == PinField(offset) && p < cfg.numInpins
    ensures data != 0 && (data == AllOnes || Cleared(cfg, s, p, data).regs[StatusReg(p)] != 0) ==>
      StatusWrite(cfg, s, offset, data) == Cleared(cfg, s, p, data)
  {
    if data != 0 && (data == AllOnes || Cleared(cfg, s, p, data).regs[StatusReg(p)] != 0) {
      StatusWriteIs(cfg, s, offset, data, p);
      StepStatusClears(cfg, s, p, data);
    }
  }

  /**
   * A write that drains the status register with lines queued clears it,
   * promotes the queue into it and raises the output.
   */
  lemma StatusWriteReplays(cfg: Config, s: State, offset: HwAddr, data: bv32, p: nat)
    requires Sized(cfg, s) && p == PinField(offset) && p < cfg.numInpins
    ensures var c := Cleared(cfg, s, p, data);
      data != 0 && data != AllOnes && c.regs[StatusReg(p)] == 0 && s.pending[p] != 0 ==>
      StatusWrite(cfg, s, offset, data)
        == c.(regs := c.regs[StatusReg(p) := s.pending[p]], pending := s.pending[p := 0],
              events := s.events + Driven(cfg, p, Set(1)))
  {
    var c := Cleared(cfg, s, p, data);
    if data != 0 && data != AllOnes && c.regs[StatusReg(p)] == 0 && s.pending[p] != 0 {
      StatusWriteIs(cfg, s, offset, data, p);
      StepStatusReplays(cfg, s, p, data);
    }
  }

  /** A write that drains the status register with nothing queued clears it and lowers the output. */
  lemma StatusWriteLowers(cfg: Config, s: State, offset: HwAddr, data: bv32, p: nat)
    requires Sized(cfg, s) && p == PinField(offset) && p < cfg.numInpins
    ensures var c := Cleared(cfg, s, p, data);
      data != 0 && data != AllOnes && c.regs[StatusReg(p)] == 0 && s.pending[p] == 0 ==>
      StatusWrite(cfg, s, offset, data) == c.(events := s.events + Driven(cfg, p, Set(0)))
  {
    var c := Cleared(cfg, s, p, data);
    if data != 0 && data != AllOnes && c.regs[StatusReg(p)] == 0 && s.pending[p] == 0 {
      StatusWriteIs(cfg, s, offset, data, p);
      StepStatusLowers(cfg, s, p, data);
    }
  }

  // ---------------------------------------------------------------------
  // A rising edge, branch by branch, as an update of the state

  /** The state once `select` has been queued on pin p. */
  function Queued(cfg: Config, s: State, p: nat, select: bv32): (r: State)
    requires Sized(cfg, s) && p < cfg.numInpins
    ensures Sized(cfg, r)
  {
    s.(pending := s.pending[p := s.pending[p] | select])
  }

  /** The state once `select` has been published in pin p's status register and its output raised. */
  function Notified(cfg: Config, s: State, p: nat, select: bv32): (r: State)
    requires Sized(cfg, s) && p < cfg.numInpins
    ensures Sized(cfg, r)
  {
    assert StatusReg(p) < |s.regs|;
    s.(regs := s.regs[StatusReg(p) := select], events := s.events + Driven(cfg, p, Set(1)))
  }

  lemma TakeStepQueues(cfg: Config, s: State, p: nat, st: Step, select: bv32)
    requires Sized(cfg, s) && p < cfg.numInpins
    requires st == Step(PinOf(cfg, s, p).(pending := PinOf(cfg, s, p).pending | select), Keep)
    ensures TakeStep(cfg, s, p, st) == Queued(cfg, s, p, select)
  {
    TakeStepPending(cfg, s, p, PinOf(cfg, s, p).pending | select);
  }

  /** A rising edge that selects nothing changes nothing. */
  lemma RaiseIdle(cfg: Config, s: State, p: nat, select: bv32)
    requires Sized(cfg, s) && p < cfg.numInpins
    ensures select == 0 ==> TakeStep(cfg, s, p, Raise(PinOf(cfg, s, p), select)) == s
  {
    if select == 0 {
      RaiseNothing(PinOf(cfg, s, p));
      TakeStepSame(cfg, s, p);
    }
  }

  /** On a masked pin, or one whose status register is nonzero, the selected lines are queued. */
  lemma RaiseQueued(cfg: Config, s: State, p: nat, select: bv32)
    requires Sized(cfg, s) && p < cfg.numInpins
    ensures select != 0 && (s.mask[p] != 0 || s.regs[StatusReg(p)] != 0) ==>
      TakeStep(cfg, s, p, Raise(PinOf(cfg, s, p), select)) == Queued(cfg, s, p, select)
  {
    var q := PinOf(cfg, s, p);
    if select != 0 && Busy(q) {
      RaiseQueues(q, select);
      TakeStepQueues(cfg, s, p, Raise(q, select), select);
    }
  }

  /** Otherwise they are published in the status register and the output is raised. */
  lemma RaiseNotified(cfg: Config, s: State, p: nat, select: bv32)
    requires Sized(cfg, s) && p < cfg.numInpins
    ensures select != 0 && s.mask[p] == 0 && s.regs[StatusReg(p)] == 0 ==>
      TakeStep(cfg, s, p, Raise(PinOf(cfg, s, p), select)) == Notified(cfg, s, p, select)
  {
    var q := PinOf(cfg, s, p);
    if select != 0 && !Busy(q) {
      RaiseNotifies(q, select);
      TakeStepStatus(cfg, s, p, select, Set(1));
    }
  }

  /** A rising edge of `select` on pin p publishes it: some line is selected and the pin is not busy. */
  predicate Notifies(cfg: Config, s: State, p: nat, select: bv32)
    requires Sized(cfg, s) && p < cfg.numInpins
  {
    assert StatusReg(p) < |s.regs|;
    select != 0 && s.mask[p] == 0 && s.regs[StatusReg(p)] == 0
  }

  /** A status write of `data` on pin p drains its register and is not all ones. */
  predicate Redrives(cfg: Config, s: State, p: nat, data: bv32)
    requires Sized(cfg, s) && p < cfg.numInpins
  {
    assert StatusReg(p) < |s.regs|;
    data != 0 && data != AllOnes && Cleared(cfg, s, p, data).regs[StatusReg(p)] == 0
  }

  /** A rising edge drives the output exactly when it notifies. */
  lemma RaiseDrives(cfg: Config, s: State, p: nat, select: bv32)
    requires Sized(cfg, s) && p < cfg.numInpins
    ensures Raise(PinOf(cfg, s, p), select).drive.Set? == Notifies(cfg, s, p, select)
  {
  }

  /** A status write drives the output exactly when it drains the register and is not all ones. */
  lemma StatusDrives(cfg: Config, s: State, p: nat, data: bv32)
    requires Sized(cfg, s) && p < cfg.numInpins
    ensures WriteStatus(PinOf(cfg, s, p), data).drive.Set? == Redrives(cfg, s, p, data)
  {
    var q := PinOf(cfg, s, p);
    WriteStatusDrives(q, data);
    assert Cleared(cfg, s, p, data).regs[StatusReg(p)] == q.status & !data;
  }

  // ---------------------------------------------------------------------
  // Every entry point keeps the invariant

  lemma EnabledHighWithin(e: bv32, h: bv32)
    ensures Within(e & h, e)
  {
  }

  /** Raising a pin with its enabled, high lines keeps the device invariant. */
  lemma RaisePinPreserves(cfg: Config, s: State, irq: nat, high: bv32)
    requires Sized(cfg, s) && Invariant(cfg, s) && irq < cfg.numInpins
    ensures Invariant(cfg, TakeStep(cfg, s, irq, Raise(PinOf(cfg, s, irq), s.enable[irq] & high)))
  {
    var select := s.enable[irq] & high;
    assert PinHolds(cfg, s, irq);
    EnabledHighWithin(s.enable[irq], high);
    RaisePreserves(PinOf(cfg, s, irq), select, irq >= cfg.numOutpins || High(s, irq));
    TakeStepPreserves(cfg, s, irq, Raise(PinOf(cfg, s, irq), select));
  }

  /** A source transition keeps the device invariant. */
  lemma SetIrqPreserves(cfg: Config, s: State, irq: nat, level: int, high: bv32)
    requires Sized(cfg, s) && Invariant(cfg, s)
    ensures Invariant(cfg, SetIrq(cfg, s, irq, level, high))
  {
    if irq < cfg.numInpins && level != 0 {
      RaisePinPreserves(cfg, s, irq, high);
    }
  }

  /** An enable-register write keeps the device invariant. */
  lemma EnableWritePreserves(cfg: Config, s: State, offset: HwAddr, data: bv32)
    requires Sized(cfg, s) && Invariant(cfg, s)
    ensures Invariant(cfg, EnableWrite(cfg, s, offset, data))
  {
    var p := PinField(offset);
    if p < cfg.numInpins {
      assert PinHolds(cfg, s, p);
      WriteEnablePreserves(PinOf(cfg, s, p), data, p >= cfg.numOutpins || High(s, p));
      TakeStepPreserves(cfg, s, p, Step(WriteEnable(PinOf(cfg, s, p), data), Keep));
    }
  }

  /** A status-register write keeps the device invariant. */
  lemma StatusWritePreserves(cfg: Config, s: State, offset: HwAddr, data: bv32)
    requires Sized(cfg, s) && Invariant(cfg, s)
    ensures Invariant(cfg, StatusWrite(cfg, s, offset, data))
  {
    var p := PinField(offset);
    if data != 0 && p < cfg.numInpins {
      assert PinHolds(cfg, s, p);
      WriteStatusPreserves(PinOf(cfg, s, p), data, p >= cfg.numOutpins || High(s, p));
      TakeStepPreserves(cfg, s, p, WriteStatus(PinOf(cfg, s, p), data));
    }
  }

  /**
   * A write to a register that is neither an enable nor a status register
   * changes no pin's bookkeeping and stores the data raw.
   */
  lemma RawWriteKeepsPins(cfg: Config, s: State, offset: HwAddr, data: bv32, j: nat)
    requires Sized(cfg, s) && RegIndex(offset) < cfg.nrRegs && j < cfg.numInpins
    requires RegIndex(offset) !in EnableRegs && RegIndex(offset) !in StatusRegs
    ensures PinOf(cfg, Write(cfg, s, offset, data), j) == PinOf(cfg, s, j)
    ensures Read(cfg, Write(cfg, s, offset, data), offset) == data
  {
    OtherRegister(RegIndex(offset), j);
  }

  lemma RawWritePreserves(cfg: Config, s: State, offset: HwAddr, data: bv32)
    requires Sized(cfg, s) && Invariant(cfg, s) && RegIndex(offset) < cfg.nrRegs
    requires RegIndex(offset) !in EnableRegs && RegIndex(offset) !in StatusRegs
    ensures Invariant(cfg, Write(cfg, s, offset, data))
  {
    forall j: nat | j < cfg.numInpins
      ensures PinHolds(cfg, Write(cfg, s, offset, data), j)
    {
      assert PinHolds(cfg, s, j);
      RawWriteKeepsPins(cfg, s, offset, data, j);
    }
  }

  /** Every guest write keeps the device invariant. */
  lemma WritePreserves(cfg: Config, s: State, offset: HwAddr, data: bv32)
    requires Sized(cfg, s) && Invariant(cfg, s) && RegIndex(offset) < cfg.nrRegs
    ensures Invariant(cfg, Write(cfg, s, offset, data))
  {
    var reg := RegIndex(offset);
    if reg in EnableRegs {
      EnableWritePreserves(cfg, s, offset, data);
    } else if reg in StatusRegs {
      StatusWritePreserves(cfg, s, offset, data);
    } else {
      RawWritePreserves(cfg, s, offset, data);
    }
  }

  /** After reset every pin is idle, whatever the state before. */
  lemma ResetIdles(cfg: Config, s: State, p: nat)
    requires Sized(cfg, s) && p < cfg.numInpins
    ensures Sized(cfg, Reset(cfg, s)) && PinOf(cfg, Reset(cfg, s), p) == Idle
  {
  }

  /** Reset establishes the device invariant. */
  lemma ResetEstablishes(cfg: Config, s: State)
    requires Sized(cfg, s)
    ensures Sized(cfg, Reset(cfg, s)) && Invariant(cfg, Reset(cfg, s))
  {
    forall p: nat | p < cfg.numInpins
      ensures PinHolds(cfg, Reset(cfg, s), p)
    {
      ResetIdles(cfg, s, p);
    }
  }
}
