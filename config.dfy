/** Per-variant configuration of the ASPEED INTC controller, as data. */
module IntcConfig {

  /** Capacity numbers of one controller variant. */
  datatype Config = Config(
    numLines: nat,    // source lines aggregated by each input pin's OR gate
    numInpins: nat,   // input pins (one OR gate each)
    numOutpins: nat,  // output pins towards the downstream interrupt controller
    memSize: nat,     // size of the device's container memory region, in bytes
    nrRegs: nat,      // number of 32-bit registers in the register file
    regOffset: nat)   // byte offset of the register window inside the container

  /** Size of the device's fixed per-pin arrays; the register table has nine pins. */
  const MaxInpins: nat := 9

  /** The AST2700 variant. */
  const Ast2700: Config := Config(32, 9, 9, 0x4000, 0x808 / 4, 0x1000)

  /** Index of pin p's enable register in the register file: (0x100 * p) >> 2. */
  function EnableReg(p: nat): nat { 64 * p }

  /** Index of pin p's status register: GICINT128_STATUS + ((0x100 * p) >> 2). */
  function StatusReg(p: nat): nat { 1 + 64 * p }

  /**
   * What the controller's code relies on: each line is one bit of a 32-bit
   * word, the pin arrays are big enough, and every input pin's two
   * registers lie inside the register file.
   */
  predicate WellFormed(c: Config) {
    && c.numLines <= 32
    && c.numInpins <= MaxInpins
    && (forall p: nat {:trigger StatusReg(p)} :: p < c.numInpins ==> StatusReg(p) < c.nrRegs)
  }

  /** Both registers of an input pin of a well-formed variant lie inside the register file. */
  lemma PinRegs(c: Config, p: nat)
    requires WellFormed(c) && p < c.numInpins
    ensures EnableReg(p) < c.nrRegs && StatusReg(p) < c.nrRegs
  {
  }

  lemma Ast2700Layout()
    ensures WellFormed(Ast2700)
    ensures Ast2700.nrRegs == 514
    ensures StatusReg(Ast2700.numInpins - 1) == Ast2700.nrRegs - 1
    ensures Ast2700.nrRegs * 4 + Ast2700.regOffset <= Ast2700.memSize
  {
  }
}
