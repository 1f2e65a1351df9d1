/**
 * The controller's output pins, seen through the log of levels it drives
 * them to (each entry stands for one qemu_set_irq call).
 */
module IntcOutput {
  import opened PinMachine

  /** Output pin `outpin` is driven to `level`. */
  datatype Event = SetLevel(outpin: nat, level: int)

  /** The level output pin o was last driven to, or 0 if it never was. */
  function OutputLevel(log: seq<Event>, o: nat): int
  {
    if log == [] then 0
    else if log[|log| - 1].outpin == o then log[|log| - 1].level
    else OutputLevel(log[..|log| - 1], o)
  }

  /** The events a transition's drive emits on output pin o. */
  function Emitted(o: nat, d: Drive): seq<Event>
  {
    match d
    case Keep => []
    case Set(level) => [SetLevel(o, level)]
  }

  /** Driving o leaves it at the driven level. */
  lemma OutputAfterSet(log: seq<Event>, o: nat, level: int)
    ensures OutputLevel(log + [SetLevel(o, level)], o) == level
  {
  }

  /** Driving o leaves every other output pin where it was. */
  lemma OutputAfterOther(log: seq<Event>, o: nat, q: nat, level: int)
    requires q != o
    ensures OutputLevel(log + [SetLevel(o, level)], q) == OutputLevel(log, q)
  {
    assert (log + [SetLevel(o, level)])[..|log|] == log;
  }

  /** After emitting a drive on o, o is high exactly when After says so. */
  lemma EmittedHigh(log: seq<Event>, o: nat, d: Drive)
    ensures (OutputLevel(log + Emitted(o, d), o) != 0) == After(OutputLevel(log, o) != 0, d)
  {
    match d {
      case Keep =>
        assert log + [] == log;
      case Set(level) =>
        OutputAfterSet(log, o, level);
    }
  }

  /** Emitting on o never changes another output pin. */
  lemma EmittedOther(log: seq<Event>, o: nat, q: nat, d: Drive)
    requires q != o
    ensures OutputLevel(log + Emitted(o, d), q) == OutputLevel(log, q)
  {
    match d {
      case Keep =>
        assert log + [] == log;
      case Set(level) =>
        OutputAfterOther(log, o, q, level);
    }
  }
}
