/**
 * Any sequence of the device's entry points, as state transitions: from
 * reset on, every reachable state satisfies the device invariant.
 */
module IntcRun {
  import opened IntcConfig
  import opened IntcLayout
  import opened IntcDevice

  /**
   * One entry point: a source transition on input pin irq (with `high` the
   * bitmap of its gate's high lines), a guest write, or a device reset.
   * Reads change nothing and are not listed.
   */
  datatype Op =
    | Source(irq: nat, level: int, high: bv32)
    | GuestWrite(offset: HwAddr, data: bv32)
    | DeviceReset

  /** The state after one entry point; the bus never routes a write outside the window. */
  function Apply(cfg: Config, s: State, op: Op): (r: State)
    requires Sized(cfg, s)
    ensures Sized(cfg, r)
  {
    match op
    case Source(irq, level, high) => SetIrq(cfg, s, irq, level, high)
    case GuestWrite(offset, data) =>
      if RegIndex(offset) < cfg.nrRegs then Write(cfg, s, offset, data) else s
    case DeviceReset => Reset(cfg, s)
  }

  /** The state after the entry points in `ops`, in order. */
  function Run(cfg: Config, s: State, ops: seq<Op>): (r: State)
    requires Sized(cfg, s)
    ensures Sized(cfg, r)
    decreases |ops|
  {
    if ops == [] then s else Run(cfg, Apply(cfg, s, ops[0]), ops[1..])
  }

  /** Every entry point keeps the device invariant. */
  lemma ApplyPreserves(cfg: Config, s: State, op: Op)
    requires Sized(cfg, s) && Invariant(cfg, s)
    ensures Invariant(cfg, Apply(cfg, s, op))
  {
    match op
    case Source(irq, level, high) =>
      SetIrqPreserves(cfg, s, irq, level, high);
    case GuestWrite(offset, data) =>
      if RegIndex(offset) < cfg.nrRegs {
        WritePreserves(cfg, s, offset, data);
      }
    case DeviceReset =>
      ResetEstablishes(cfg, s);
  }

  /** Any run from a state satisfying the invariant ends in one that does. */
  lemma {:induction false} RunPreserves(cfg: Config, s: State, ops: seq<Op>)
    requires Sized(cfg, s) && Invariant(cfg, s)
    ensures Invariant(cfg, Run(cfg, s, ops))
    decreases |ops|
  {
    if ops != [] {
      ApplyPreserves(cfg, s, ops[0]);
      RunPreserves(cfg, Apply(cfg, s, ops[0]), ops[1..]);
    }
  }

  /** Every state reachable after a reset satisfies the device invariant. */
  lemma ReachableFromReset(cfg: Config, s: State, ops: seq<Op>)
    requires Sized(cfg, s)
    ensures Invariant(cfg, Run(cfg, Reset(cfg, s), ops))
  {
    ResetEstablishes(cfg, s);
    RunPreserves(cfg, Reset(cfg, s), ops);
  }
}
