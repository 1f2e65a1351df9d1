/**
 * The register window: the REG32 table of the nine GICINT128..GICINT136
 * enable/status pairs and the decoding of a bus offset into a register
 * index and a pin index.
 */
module IntcLayout {
  import opened IntcConfig

  /** A bus offset inside the register window (a 64-bit hwaddr). */
  type HwAddr = x: nat | x < 0x1_0000_0000_0000_0000

  /** Register indices (offset / 4) of GICINT128_EN .. GICINT136_EN. */
  const EnableRegs: seq<nat> :=
    [0x000 / 4, 0x100 / 4, 0x200 / 4, 0x300 / 4, 0x400 / 4,
     0x500 / 4, 0x600 / 4, 0x700 / 4, 0x800 / 4]

  /** Register indices of GICINT128_STATUS .. GICINT136_STATUS. */
  const StatusRegs: seq<nat> :=
    [0x004 / 4, 0x104 / 4, 0x204 / 4, 0x304 / 4, 0x404 / 4,
     0x504 / 4, 0x604 / 4, 0x704 / 4, 0x804 / 4]

  /** Register index addressed by an offset: offset >> 2. */
  function RegIndex(offset: HwAddr): nat {
    offset / 4
  }

  /**
   * Pin index the handlers derive from an offset: (offset & 0x0f00) >> 8,
   * that is, bits 8 to 11 of the offset.
   */
  function PinField(offset: HwAddr): (p: nat)
    ensures p < 16
  {
    offset / 0x100 % 0x10
  }

  /** The bus only issues 4-byte, 4-byte-aligned accesses. */
  predicate Aligned(offset: HwAddr) {
    offset % 4 == 0
  }

  /** The register table is the per-pin layout EnableReg / StatusReg. */
  lemma TableLayout(p: nat)
    requires p < MaxInpins
    ensures p < |EnableRegs| && EnableRegs[p] == EnableReg(p)
    ensures p < |StatusRegs| && StatusRegs[p] == StatusReg(p)
  {
  }

  /** An index in the enable table is 64 * k for a pin k. */
  lemma EnableRegsAt(reg: nat) returns (k: nat)
    requires reg in EnableRegs
    ensures k < MaxInpins && reg == EnableReg(k)
  {
    var i :| 0 <= i < |EnableRegs| && EnableRegs[i] == reg;
    TableLayout(i);
    k := i;
  }

  /** An index in the status table is 64 * k + 1 for a pin k. */
  lemma StatusRegsAt(reg: nat) returns (k: nat)
    requires reg in StatusRegs
    ensures k < MaxInpins && reg == StatusReg(k)
  {
    var i :| 0 <= i < |StatusRegs| && StatusRegs[i] == reg;
    TableLayout(i);
    k := i;
  }

  /** The pin field of an aligned offset is its register index divided by 64, below 16. */
  lemma PinFieldOfIndex(offset: HwAddr, k: nat, slot: nat)
    requires Aligned(offset) && slot < 2 && k < 16
    requires RegIndex(offset) == 64 * k + slot
    ensures PinField(offset) == k
  {
  }

  /** No register is both an enable and a status register: one is 64k, the other 64j + 1. */
  lemma Disjoint(k: nat, j: nat)
    ensures EnableReg(k) != StatusReg(j)
  {
  }

  /** An aligned offset that names an enable register is that of pin PinField(offset). */
  lemma DecodeEnable(offset: HwAddr)
    requires Aligned(offset) && RegIndex(offset) in EnableRegs
    ensures PinField(offset) < MaxInpins
    ensures RegIndex(offset) == EnableReg(PinField(offset))
    ensures RegIndex(offset) !in StatusRegs
  {
    var k := EnableRegsAt(RegIndex(offset));
    PinFieldOfIndex(offset, k, 0);
    if RegIndex(offset) in StatusRegs {
      var j := StatusRegsAt(RegIndex(offset));
      Disjoint(k, j);
    }
  }

  /** An aligned offset that names a status register is that of pin PinField(offset). */
  lemma DecodeStatus(offset: HwAddr)
    requires Aligned(offset) && RegIndex(offset) in StatusRegs
    ensures PinField(offset) < MaxInpins
    ensures RegIndex(offset) == StatusReg(PinField(offset))
    ensures RegIndex(offset) !in EnableRegs
  {
    var k := StatusRegsAt(RegIndex(offset));
    PinFieldOfIndex(offset, k, 1);
    if RegIndex(offset) in EnableRegs {
      var j := EnableRegsAt(RegIndex(offset));
      Disjoint(j, k);
    }
  }

  /**
   * Every register of an input pin is one of the table's: a register index
   * outside both tables is neither the enable nor the status register of
   * any pin.
   */
  lemma OtherRegister(reg: nat, p: nat)
    requires p < MaxInpins && reg !in EnableRegs && reg !in StatusRegs
    ensures reg != EnableReg(p) && reg != StatusReg(p)
  {
    TableLayout(p);
  }
}
