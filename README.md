# ASPEED INTC interrupt controller, modelled in Dafny

This project models the interrupt-aggregation controller of the ASPEED
AST2700 SoC as QEMU emulates it (`hw/intc/aspeed_intc.c`).
The controller has nine input pins. Each pin collects up to 32 source lines
through an OR gate and drives one output pin.
For each pin the device keeps:

- three words: `enable` (lines allowed to raise the pin), `mask` (lines
  masked while their service routine runs) and `pending` (lines that fired
  while the pin could not notify);
- an enable register and a status register in the 32-bit register file.

The device has four entry points, which act on these words:

- **A source transition** (`aspeed_intc_set_irq`). On a rising edge the
  device scans the gate's lines for the high, enabled ones. A busy pin
  queues them in `pending`. An idle pin publishes them in its status register
  and raises its output.
- **An enable-register write.** A write that enables new lines grows
  `enable`. Any other write toggles `mask` by the bits that differ from the
  register's previous contents.
- **A status-register write.** This is write-one-to-clear. `0xffffffff`
  re-initialises the register. A write that drains the register to zero
  replays the queued lines, or lowers the output when nothing is queued.
- **Register dispatch, read and reset.** A write goes to the enable or status
  handler, or is stored raw. A read returns the register. Reset zeroes the
  register file and the three per-pin arrays.

## Layout

| file | module | contents |
|---|---|---|
| config.dfy | IntcConfig | the variant's capacity numbers; the AST2700 instance |
| layout.dfy | IntcLayout | the register table and the decoding of an offset into a register and a pin |
| words.dfy | Words | bit-vector identities about 32-bit bitmaps |
| output.dfy | IntcOutput | the output pins as a log of driven levels |
| select.dfy | IntcSelect | the select scan of a rising edge, as a loop and as `enable & high lines` |
| pin.dfy, raise.dfy, enable.dfy, status.dfy | PinMachine, PinRaise, PinEnable, PinStatus | one pin's transitions as functions, branch by branch, with the pin invariant |
| state.dfy | IntcDevice | the whole device as a value; each entry point as a transition; the device invariant |
| run.dfy | IntcRun | arbitrary sequences of entry points; the invariant from reset on |
| scenario.dfy | PinScenario | the service protocol traced through one pin |
| device.dfy | AspeedIntc | the device class, with arrays updated in place |

The device class `AspeedIntc.Intc` holds:

- the register file and the `enable`, `mask` and `pending` arrays, as `array<bv32>`;
- the OR-gate line levels;
- the log of output-pin levels.

Each of its methods is proved to leave the arrays exactly as the transition of
the same name in `IntcDevice` says, and `Snap()` reads its arrays as an
`IntcDevice.State`. The transitions are built from the per-pin functions.
Their properties are proved there:

- the device invariant: every pin publishes and queues only enabled lines,
  and while its status register is nonzero its output is high;
- the branch-by-branch effects of each transition;
- what each transition leaves alone.

## Model

| member | source | states |
|---|---|---|
| IntcConfig.Ast2700Layout | hw/intc/aspeed_intc.c:414-426 | the AST2700 variant is well formed: 514 registers, the last pin's status register is the last register, and the register window fits in the container |
| IntcConfig.PinRegs | hw/intc/aspeed_intc.c:84 | both registers of every input pin lie inside the register file |
| IntcLayout.TableLayout | hw/intc/aspeed_intc.c:24-41 | entry p of the EN table is register 64p and entry p of the STATUS table is register 64p + 1 |
| IntcLayout.DecodeEnable | hw/intc/aspeed_intc.c:149-156 | for an aligned offset of an EN register, the pin field `(offset & 0xf00) >> 8` names an existing pin, `offset >> 2` is that pin's enable register, and the offset is not a status register |
| IntcLayout.DecodeStatus | hw/intc/aspeed_intc.c:205-217 | for an aligned offset of a STATUS register, the pin field names an existing pin, `offset >> 2` is that pin's status register, and the offset is not an enable register |
| IntcLayout.OtherRegister | hw/intc/aspeed_intc.c:306-308 | a register outside both tables is neither register of any pin |
| IntcOutput.OutputLevel | hw/intc/aspeed_intc.c:70 | definition of an output pin's level as the last level logged for it, 0 before any; OutputAfterSet and OutputAfterOther state how a drive changes it |
| IntcOutput.OutputAfterSet | hw/intc/aspeed_intc.c:70 | after driving output pin o, o is at the driven level |
| IntcOutput.OutputAfterOther | hw/intc/aspeed_intc.c:70 | driving output pin o leaves every other output pin's level as it was |
| IntcSelect.HighLines | hw/intc/aspeed_intc.c:107-108 | definition of the bitmap of the high lines among the first n; SelectedIsEnabledHigh relates it to the scan |
| IntcSelect.Selected | hw/intc/aspeed_intc.c:107-113 | definition of the scan's running value after n lines, which is ComputeSelect's loop invariant; SelectedIsEnabledHigh, SelectedHas, SelectedLacksLow and SelectedLacksDisabled state what it holds |
| IntcSelect.ComputeSelect | hw/intc/aspeed_intc.c:107-113 | the scan over the first num_lines lines yields exactly `enable & (bitmap of the high lines)`, so it holds only enabled lines |
| IntcSelect.SelectedIsEnabledHigh | hw/intc/aspeed_intc.c:107-113 | the scan's running value after n lines is `enable` and-ed with the bitmap of the high lines among the first n |
| IntcSelect.SelectedHas | hw/intc/aspeed_intc.c:108-110 | a high line with its enable bit set is selected |
| IntcSelect.SelectedLacksLow | hw/intc/aspeed_intc.c:107-108 | a low line, or a line at or past num_lines, is not selected |
| IntcSelect.SelectedLacksDisabled | hw/intc/aspeed_intc.c:109 | a line whose enable bit is clear is not selected |
| PinRaise.Raise | hw/intc/aspeed_intc.c:115-141 | definition of one pin's rising edge with `select`; its branches are stated by RaiseNothing, RaiseQueues and RaiseNotifies, its frame by RaiseFrame and RaiseOutstanding, and the pin invariant by RaisePreserves |
| PinRaise.RaiseNothing | hw/intc/aspeed_intc.c:115-117 | a rising edge that selects nothing changes nothing and drives nothing |
| PinRaise.RaiseQueues | hw/intc/aspeed_intc.c:121-131 | with lines selected on a masked pin or one with a nonzero status register, only pending changes, to pending OR select, and the output is not driven |
| PinRaise.RaiseNotifies | hw/intc/aspeed_intc.c:132-141 | with lines selected on an unmasked pin with an empty status register, the status register becomes exactly `select` and the output is driven to 1 once |
| PinRaise.RaiseFrame | hw/intc/aspeed_intc.c:115-141 | a rising edge never changes enable, mask or the enable register |
| PinRaise.RaiseOutstanding | hw/intc/aspeed_intc.c:115-141 | after a rising edge the lines the pin owes firmware (status and pending) are the ones it owed plus the selected ones |
| PinRaise.RaisePreserves | hw/intc/aspeed_intc.c:115-141 | a rising edge of enabled lines keeps the pin invariant and keeps the output high while status is nonzero |
| PinEnable.Toggle | hw/intc/aspeed_intc.c:187-197 | definition of the mask toggle; WriteEnableUnmasks and WriteEnableMasks state its two cases |
| PinEnable.WriteEnable | hw/intc/aspeed_intc.c:172-197 | definition of one pin's enable-register write; its branches are stated by WriteEnableIdle, WriteEnableAdds and WriteEnableToggles, its frame by WriteEnableGrows, WriteEnableFrame and WriteEnableKeepsMask, and the pin invariant by WriteEnablePreserves |
| PinEnable.WriteEnableIdle | hw/intc/aspeed_intc.c:172-175 | a zero write to a pin with no enabled line only stores the register |
| PinEnable.AddsLinesNew | hw/intc/aspeed_intc.c:177-181 | if or-ing the write into enable changes it, the write has a bit that enable lacks |
| PinEnable.NewAddsLines | hw/intc/aspeed_intc.c:177-181 | a write with a bit that enable lacks changes enable when or-ed into it |
| PinEnable.WriteEnableAdds | hw/intc/aspeed_intc.c:177-185 | a write that enables new lines sets enable to enable OR data, stores the register and leaves the mask alone |
| PinEnable.WriteEnableToggles | hw/intc/aspeed_intc.c:187-197 | any other write replaces mask by its toggle and stores the register |
| PinEnable.WriteEnableUnmasks | hw/intc/aspeed_intc.c:188-191 | with `change = reg ^ data` and `change & data != 0`, mask becomes `mask & ~change` |
| PinEnable.WriteEnableMasks | hw/intc/aspeed_intc.c:192-195 | with `change & data == 0`, mask becomes mask OR change |
| PinEnable.WriteEnableGrows | hw/intc/aspeed_intc.c:172-185 | after any enable write, enable is the old enable with the written bits added: no enabled line is ever cleared |
| PinEnable.WriteEnableFrame | hw/intc/aspeed_intc.c:172-197 | after any enable write the register holds exactly `data`; status and pending are untouched |
| PinEnable.WriteEnableKeepsMask | hw/intc/aspeed_intc.c:172-185 | only a write that enables nothing new touches the mask |
| PinEnable.WriteEnablePreserves | hw/intc/aspeed_intc.c:172-197 | an enable write keeps the pin invariant and drives nothing |
| PinStatus.WriteStatus | hw/intc/aspeed_intc.c:210-258 | definition of one pin's status-register write; its branches are stated by WriteStatusZero, WriteStatusClears, WriteStatusReinit, WriteStatusPartial, WriteStatusReplays and WriteStatusIdles, its frame by WriteStatusFrame and WriteStatusOutstanding, and the pin invariant by WriteStatusPreserves |
| PinStatus.WriteStatusDrives | hw/intc/aspeed_intc.c:226-258 | a status write drives the output exactly when data is nonzero, not all ones, and clears every bit left in the status register |
| PinStatus.WriteStatusZero | hw/intc/aspeed_intc.c:210-213 | a zero status write changes nothing |
| PinStatus.WriteStatusClears | hw/intc/aspeed_intc.c:227-237 | a nonzero write that is all ones, or that leaves bits set, sets the status register to `status & ~data` and changes nothing else |
| PinStatus.WriteStatusReinit | hw/intc/aspeed_intc.c:235-237 | all ones empties the status register but leaves pending and the output alone |
| PinStatus.WriteStatusPartial | hw/intc/aspeed_intc.c:227-240 | an acknowledgement that leaves bits set clears the written bits and drives nothing |
| PinStatus.WriteStatusReplays | hw/intc/aspeed_intc.c:240-252 | a drain with lines queued moves pending into status, zeroes pending and drives the output to 1 once |
| PinStatus.WriteStatusIdles | hw/intc/aspeed_intc.c:253-257 | a drain with nothing queued empties status, leaves pending at zero and drives the output to 0 once |
| PinStatus.WriteStatusFrame | hw/intc/aspeed_intc.c:210-259 | a status write never changes enable, mask or the enable register |
| PinStatus.WriteStatusOutstanding | hw/intc/aspeed_intc.c:226-258 | after a status write the pin owes firmware exactly (status AND NOT data) OR pending: only acknowledged lines are dropped |
| PinStatus.WriteStatusPreserves | hw/intc/aspeed_intc.c:210-259 | a status write keeps the pin invariant and keeps the output high while status is nonzero |
| PinScenario.QueueThenReplay | hw/intc/aspeed_intc.c:121-252 | a line that fires while a notification is unacknowledged is queued without driving the output; acknowledging the notified lines publishes the queue and raises the output again |
| PinScenario.AcknowledgeThenNotify | hw/intc/aspeed_intc.c:132-257 | acknowledging with nothing queued lowers the output; the next rising edge is published at once |
| PinScenario.ServiceRound | hw/intc/aspeed_intc.c:115-257 | one service round of line 3 from reset, step by step: enable, fire, mask, queue, replay, unmask, final acknowledgement |
| IntcDevice.PinOfWithPinOther | hw/intc/aspeed_intc.c:84 | replacing one pin's bookkeeping leaves every other pin's words and registers alone |
| IntcDevice.HighTakeStep | hw/intc/aspeed_intc.c:140 | a step on pin p leaves output pin p at the level its drive gives |
| IntcDevice.HighTakeStepOther | hw/intc/aspeed_intc.c:140 | a step on pin p leaves every other output pin's level alone |
| IntcDevice.RaiseIdle | hw/intc/aspeed_intc.c:115-117 | at device level, a rising edge that selects nothing leaves the state unchanged |
| IntcDevice.RaiseQueued | hw/intc/aspeed_intc.c:121-131 | at device level, queueing changes only `pending[p]`, to pending[p] OR select |
| IntcDevice.RaiseNotified | hw/intc/aspeed_intc.c:132-141 | at device level, notifying changes only pin p's status register, to `select`, and appends one event `(p, 1)` |
| IntcDevice.EnableWriteIdle | hw/intc/aspeed_intc.c:172-175 | at device level, a zero write to a pin with no enabled line only stores the register |
| IntcDevice.EnableWriteAdds | hw/intc/aspeed_intc.c:177-185 | at device level, a write that grows enable[p] changes only enable[p] and the register |
| IntcDevice.EnableWriteToggles | hw/intc/aspeed_intc.c:187-197 | at device level, any other write changes only mask[p], by the toggle, and the register |
| IntcDevice.StatusWriteClears | hw/intc/aspeed_intc.c:227-237 | at device level, an all-ones write or one that leaves bits set changes only the status register, to `status & ~data` |
| IntcDevice.StatusWriteReplays | hw/intc/aspeed_intc.c:240-252 | at device level, a drain with lines queued moves `pending[p]` into the status register, zeroes it and appends `(p, 1)` |
| IntcDevice.StatusWriteLowers | hw/intc/aspeed_intc.c:253-257 | at device level, a drain with nothing queued empties the status register and appends `(p, 0)` |
| IntcDevice.RaiseDrives | hw/intc/aspeed_intc.c:115-141 | a rising edge drives the output exactly when some line is selected, mask is zero and the status register is empty (`Notifies`) |
| IntcDevice.StatusDrives | hw/intc/aspeed_intc.c:226-258 | a status write drives the output exactly when data is nonzero, not all ones, and drains the status register (`Redrives`) |
| IntcDevice.SetIrq | hw/intc/aspeed_intc.c:79-142 | definition of a source transition on the device state; RaiseIdle, RaiseQueued and RaiseNotified state its branches and SetIrqPreserves the invariant |
| IntcDevice.EnableWrite | hw/intc/aspeed_intc.c:144-198 | definition of an enable-register write on the device state; EnableWriteIdle, EnableWriteAdds and EnableWriteToggles state its branches and EnableWritePreserves the invariant |
| IntcDevice.StatusWrite | hw/intc/aspeed_intc.c:200-259 | definition of a status-register write on the device state; StatusWriteClears, StatusWriteReplays and StatusWriteLowers state its branches and StatusWritePreserves the invariant |
| IntcDevice.Write | hw/intc/aspeed_intc.c:274-312 | definition of register dispatch on the device state; RawWriteKeepsPins states the raw case and WritePreserves the invariant |
| IntcDevice.Read | hw/intc/aspeed_intc.c:261-271 | definition of a register read; RawWriteKeepsPins reads a raw write back |
| IntcDevice.Reset | hw/intc/aspeed_intc.c:339-348 | definition of reset on the device state; ResetIdles states its result and ResetEstablishes the invariant |
| IntcDevice.SetIrqPreserves | hw/intc/aspeed_intc.c:79-142 | a source transition keeps the device invariant |
| IntcDevice.EnableWritePreserves | hw/intc/aspeed_intc.c:144-198 | an enable-register write keeps the device invariant |
| IntcDevice.StatusWritePreserves | hw/intc/aspeed_intc.c:200-259 | a status-register write keeps the device invariant |
| IntcDevice.RawWriteKeepsPins | hw/intc/aspeed_intc.c:306-308 | a write to any other register changes no pin's bookkeeping, and reading it back gives the data |
| IntcDevice.WritePreserves | hw/intc/aspeed_intc.c:274-312 | every guest write keeps the device invariant |
| IntcDevice.ResetIdles | hw/intc/aspeed_intc.c:339-348 | after reset every pin's words and registers are zero, whatever the state before |
| IntcDevice.ResetEstablishes | hw/intc/aspeed_intc.c:339-348 | reset establishes the device invariant |
| IntcRun.RunPreserves | hw/intc/aspeed_intc.c:79-312 | any sequence of source transitions, guest writes and resets keeps the device invariant |
| IntcRun.ReachableFromReset | hw/intc/aspeed_intc.c:339-348 | every state reachable after a reset satisfies the device invariant |
| AspeedIntc.Intc.Update | hw/intc/aspeed_intc.c:51-71 | an input pin or output pin beyond the variant's count is refused, with the matching error and no event; otherwise exactly one event `(outpin, level)` is appended |
| AspeedIntc.Intc.Queue | hw/intc/aspeed_intc.c:130 | pending[irq] becomes pending[irq] OR select, and nothing else changes |
| AspeedIntc.Intc.Notify | hw/intc/aspeed_intc.c:137-140 | the status register becomes `select` and output irq is driven to 1; an output pin the variant lacks is reported as `InvalidOutpin` |
| AspeedIntc.Intc.Deliver | hw/intc/aspeed_intc.c:115-141 | the arrays and log end as the per-pin rising edge with `select` leaves them; `InvalidOutpin` is reported exactly when the edge notifies on a pin without an output pin |
| AspeedIntc.Intc.RisingEdge | hw/intc/aspeed_intc.c:107-141 | the arrays and log end as `IntcDevice.SetIrq` says for the gate's high lines, and the outcome is that of delivering the scanned selection |
| AspeedIntc.Intc.SetIrq | hw/intc/aspeed_intc.c:79-142 | an unknown pin is refused; an unknown pin or a falling edge changes nothing; a rising edge performs `IntcDevice.SetIrq` with the gate's high-line bitmap, and reports `InvalidOutpin` exactly when it notifies on a pin without an output pin |
| AspeedIntc.Intc.Store | hw/intc/aspeed_intc.c:307 | `regs[reg] = data`, and nothing else changes |
| AspeedIntc.Intc.OrEnable | hw/intc/aspeed_intc.c:177-181 | enable[irq] becomes enable[irq] OR data, reporting whether enable changed |
| AspeedIntc.Intc.SetMask | hw/intc/aspeed_intc.c:190 | `mask[irq] = m`, and nothing else changes |
| AspeedIntc.Intc.ToggleAndStore | hw/intc/aspeed_intc.c:187-197 | mask[irq] is toggled against the register's previous contents, then the register takes `data` |
| AspeedIntc.Intc.EnableIdle | hw/intc/aspeed_intc.c:172-175 | this branch of the handler performs `IntcDevice.EnableWrite` |
| AspeedIntc.Intc.EnableChange | hw/intc/aspeed_intc.c:177-197 | the grow-or-toggle branches of the handler perform `IntcDevice.EnableWrite` |
| AspeedIntc.Intc.EnableHandler | hw/intc/aspeed_intc.c:144-198 | an unknown pin is refused and changes nothing; otherwise the arrays end as `IntcDevice.EnableWrite` says |
| AspeedIntc.Intc.ClearStatus | hw/intc/aspeed_intc.c:227 | `regs[reg] &= ~data`, and nothing else changes |
| AspeedIntc.Intc.Replay | hw/intc/aspeed_intc.c:248-252 | the status register takes pending[irq], pending[irq] becomes 0, and output irq is driven to 1; an output pin the variant lacks is reported as `InvalidOutpin` |
| AspeedIntc.Intc.Lower | hw/intc/aspeed_intc.c:254-256 | output irq is driven to 0, and nothing else changes; an output pin the variant lacks is reported as `InvalidOutpin` |
| AspeedIntc.Intc.Acknowledge | hw/intc/aspeed_intc.c:226-258 | the handler past its argument checks performs `IntcDevice.StatusWrite`, and reports `InvalidOutpin` exactly when the write replays or lowers a pin without an output pin |
| AspeedIntc.Intc.StatusHandler | hw/intc/aspeed_intc.c:200-259 | zero data is refused first, then an unknown pin, and either refusal changes nothing; otherwise the arrays and log end as `IntcDevice.StatusWrite` says, and a replay or lowering of a pin without an output pin is reported as `InvalidOutpin` |
| AspeedIntc.Intc.Write | hw/intc/aspeed_intc.c:274-312 | an EN offset goes to the enable handler and a STATUS offset to the status handler, with their outcomes, including `InvalidOutpin`; any other register stores the data; the arrays end as `IntcDevice.Write` says |
| AspeedIntc.Intc.Read | hw/intc/aspeed_intc.c:261-271 | returns `regs[offset >> 2]` and changes nothing |
| AspeedIntc.Intc.Reset | hw/intc/aspeed_intc.c:339-348 | regs, enable, mask and pending are all zero; the output log is kept |
| AspeedIntc.Intc.constructor | hw/intc/aspeed_intc.c:350-380 | a fresh device: all arrays zero, every source line low, nothing driven, and the device invariant holds |
| AspeedIntc.Intc.SetLine | hw/intc/aspeed_intc.c:108 | records one source line's level, which the next rising edge reads, and nothing else changes |

## Left out

- QOM type registration, class and instance initialisation, memory-region
  and sysbus setup, and unrealize are device-framework plumbing. The
  constructor stands for realize followed by reset. In the source, `g_new`
  leaves the register file uninitialised until reset runs.
- The OR-gate device (`TYPE_OR_IRQ`) is not part of this model. Its line
  levels are caller input set through `SetLine`. The call from the gate to
  `aspeed_intc_set_irq` is the caller's `SetIrq`, with the gate's output level.
- `qemu_set_irq` and the downstream controller are modelled as an appended
  log of `(outpin, level)` events. The level of an output pin is the last
  level logged for it.
- Trace points are not modelled. Each `qemu_log_mask` guest-error report is
  the method's `Outcome` (`InvalidInpin`, `InvalidOutpin`, `InvalidData`).
  The `InvalidOutpin` of `aspeed_intc_update` is passed up through the
  source transition, the status handler and register dispatch, so their
  outcome names every report a call logs.
- Endianness and the 4-byte access size, which the bus enforces, are not
  modelled. Writes and reads require a 4-byte-aligned offset inside the
  register file, because that is all the memory region can deliver.
- The handlers take `data` as a 64-bit value. Since accesses are 4 bytes
  wide, that value always fits in 32 bits. The model takes `data` as a
  32-bit word and does not model truncation of wider values.
- The index of an input pin is a natural number. A negative `irq` from a
  caller is not modelled.
- Concurrency is not modelled: the device's entry points are serialised by
  the emulator.
- The device invariant is proved about the state transitions
  (`IntcDevice`, `IntcRun`). It is not a class invariant. The class's
  `Valid()` only states the shape of the state: the variant is well formed,
  the arrays have their sizes and are distinct, and `levels` holds a row of
  at least `num_lines` levels for each input pin. Each method
  ties its new state to a transition, and the invariant follows from that.
- PinScenario.ServiceRound traces the guest accesses in one order:
  acknowledge, then unmask, then acknowledge. A drain replays the queue
  whether or not the pin is masked, because the status handler never reads
  `mask` (hw/intc/aspeed_intc.c:226-258). The model follows the code here,
  not a reading in which replay waits for the unmask.
