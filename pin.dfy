/**
 * The per-pin state machine of the controller: how one input pin's
 * enable, mask and pending words and its enable and status registers
 * respond to a rising source transition, an enable-register write and a
 * status-register write, and what each does to the pin's output line.
 * The device class applies these transitions to its arrays.
 *
 * Each transition is a function; one lemma per branch states the branch's
 * result outright, and the properties of the transition are proved branch
 * by branch from those.
 */
module PinMachine {
  import opened Words

  /** Bookkeeping of one input pin: the three words and its two registers. */
  datatype Pin = Pin(
    enable: bv32,     // lines allowed to raise the pin
    mask: bv32,       // lines masked while their service routine runs
    pending: bv32,    // lines that fired while the pin could not notify
    enableReg: bv32,  // raw contents of the pin's enable register
    status: bv32)     // the status register: notified, unacknowledged lines

  /** What a transition does to the pin's output line. */
  datatype Drive = Keep | Set(level: int)

  /** A transition's new pin state and its effect on the output line. */
  datatype Step = Step(pin: Pin, drive: Drive)

  /** A status write of all ones re-initialises the register. */
  const AllOnes: bv32 := 0xffff_ffff

  /** A pin whose words are all zero, as after reset. */
  const Idle: Pin := Pin(0, 0, 0, 0, 0)

  /** Lines the pin still owes firmware: notified or queued. */
  function Outstanding(p: Pin): bv32 {
    p.status | p.pending
  }

  /** Firmware is only ever notified of, or owed, enabled lines. */
  predicate Contained(p: Pin) {
    Within(p.status, p.enable) && Within(p.pending, p.enable)
  }

  /** While the status register is nonzero the output line is high. */
  predicate Signalled(p: Pin, high: bool) {
    p.status != 0 ==> high
  }

  /** Whether the output line is high after a transition's drive. */
  function After(high: bool, d: Drive): bool {
    match d
    case Keep => high
    case Set(level) => level != 0
  }
}
