/**
 * The lines a rising edge selects: scanning the pin's OR-gate levels, a
 * line is selected when it is high and its bit is set in the pin's enable
 * word. The reference definition is the source loop's running value; the
 * lemmas show that it is the enable word and-ed with the bitmap of high
 * lines, so it never holds a line that is not enabled.
 */
module IntcSelect {
  import opened Words

  /** The bit of line i: BIT(i). */
  function Bit(i: nat): bv32
    requires i < 32
  {
    1 << i
  }

  /** Line i's bit if the line is high, else nothing. */
  function LineBit(high: bool, i: nat): bv32
    requires i < 32
  {
    if high then Bit(i) else 0
  }

  /** The bitmap of the high lines among the first n. */
  function HighLines(levels: seq<bool>, n: nat): bv32
    requires n <= |levels| && n <= 32
  {
    if n == 0 then 0 else HighLines(levels, n - 1) | LineBit(levels[n - 1], n - 1)
  }

  /** One pass of the scan: line i, at level `high`, is added when enabled. */
  function Scan(select: bv32, enable: bv32, high: bool, i: nat): bv32
    requires i < 32
  {
    if high && enable & Bit(i) != 0 then select | Bit(i) else select
  }

  /** The value `select` holds after the scan has visited the first n lines. */
  function Selected(levels: seq<bool>, enable: bv32, n: nat): bv32
    requires n <= |levels| && n <= 32
  {
    if n == 0 then 0 else Scan(Selected(levels, enable, n - 1), enable, levels[n - 1], n - 1)
  }

  /** A word with exactly one bit set. */
  predicate OneBit(b: bv32) {
    b != 0 && b & (b - 1) == 0
  }

  lemma BitIsOneBit(i: nat)
    requires i < 32
    ensures OneBit(Bit(i))
  {
  }

  lemma OneBitAnd(e: bv32, b: bv32)
    ensures OneBit(b) && e & b != 0 ==> e & b == b
  {
  }

  /** A one-bit word and-ed with e is either nothing or itself. */
  lemma BitAnd(e: bv32, i: nat)
    requires i < 32
    ensures e & Bit(i) != 0 ==> e & Bit(i) == Bit(i)
  {
    BitIsOneBit(i);
    OneBitAnd(e, Bit(i));
  }

  lemma OrMasked(s: bv32, e: bv32, b: bv32)
    ensures e & b == b ==> s | b == s | (e & b)
  {
  }

  lemma OrMaskedOut(s: bv32, e: bv32, b: bv32)
    ensures e & b == 0 ==> s == s | (e & b)
  {
  }

  lemma AndOrNothing(e: bv32, s: bv32)
    ensures s | (e & 0) == s
  {
  }

  lemma AndOrStep(s: bv32, e: bv32, h: bv32, l: bv32)
    ensures s == e & h ==> s | (e & l) == e & (h | l)
  {
  }

  /** One pass over a one-bit word b or-s in b masked by enable. */
  lemma PassMasks(select: bv32, enable: bv32, high: bool, b: bv32)
    requires OneBit(b)
    ensures (if high && enable & b != 0 then select | b else select)
         == select | (enable & (if high then b else 0))
  {
    if !high {
      AndOrNothing(enable, select);
    } else if enable & b == 0 {
      OrMaskedOut(select, enable, b);
    } else {
      OneBitAnd(enable, b);
      OrMasked(select, enable, b);
    }
  }

  /** One pass or-s in the line's bit masked by enable. */
  lemma ScanMasks(select: bv32, enable: bv32, high: bool, i: nat)
    requires i < 32
    ensures Scan(select, enable, high, i) == select | (enable & LineBit(high, i))
  {
    BitIsOneBit(i);
    PassMasks(select, enable, high, Bit(i));
  }

  /** The selected lines are the enabled lines among the high ones. */
  lemma {:induction false} SelectedIsEnabledHigh(levels: seq<bool>, enable: bv32, n: nat)
    requires n <= |levels| && n <= 32
    ensures Selected(levels, enable, n) == enable & HighLines(levels, n)
  {
    if n > 0 {
      SelectedIsEnabledHigh(levels, enable, n - 1);
      ScanMasks(Selected(levels, enable, n - 1), enable, levels[n - 1], n - 1);
      AndOrStep(Selected(levels, enable, n - 1), enable, HighLines(levels, n - 1), LineBit(levels[n - 1], n - 1));
    }
  }

  /** Two different lines have disjoint bits. */
  lemma BitsDisjoint(i: nat, j: nat)
    requires i < 32 && j < 32 && i != j
    ensures Bit(i) & Bit(j) == 0
  {
  }

  lemma OrKeepsBit(x: bv32, y: bv32, b: bv32)
    ensures x & b == b ==> (x | y) & b == b
  {
  }

  lemma OrAddsBit(x: bv32, b: bv32)
    ensures (x | b) & b == b
  {
  }

  lemma OrLacksBit(x: bv32, y: bv32, b: bv32)
    ensures x & b == 0 && y & b == 0 ==> (x | y) & b == 0
  {
  }

  /** A high line among the first n has its bit in the bitmap. */
  lemma {:induction false} HighLinesHas(levels: seq<bool>, n: nat, i: nat)
    requires n <= |levels| && n <= 32 && i < n && levels[i]
    ensures HighLines(levels, n) & Bit(i) == Bit(i)
  {
    if i == n - 1 {
      OrAddsBit(HighLines(levels, n - 1), Bit(i));
    } else {
      HighLinesHas(levels, n - 1, i);
      OrKeepsBit(HighLines(levels, n - 1), LineBit(levels[n - 1], n - 1), Bit(i));
    }
  }

  lemma LineBitLacks(high: bool, j: nat, i: nat)
    requires j < 32 && i < 32 && (i != j || !high)
    ensures LineBit(high, j) & Bit(i) == 0
  {
    if high {
      BitsDisjoint(j, i);
    }
  }

  /** A low line, or one not among the first n, has no bit in the bitmap. */
  lemma {:induction false} HighLinesLacks(levels: seq<bool>, n: nat, i: nat)
    requires n <= |levels| && n <= 32 && i < 32 && (i < n ==> !levels[i])
    ensures HighLines(levels, n) & Bit(i) == 0
  {
    if n > 0 {
      HighLinesLacks(levels, n - 1, i);
      LineBitLacks(levels[n - 1], n - 1, i);
      OrLacksBit(HighLines(levels, n - 1), LineBit(levels[n - 1], n - 1), Bit(i));
    }
  }

  lemma AndHasBit(s: bv32, e: bv32, h: bv32, b: bv32)
    ensures s == e & h && e & b == b && h & b == b ==> s & b == b
  {
  }

  lemma AndLacksEnabled(s: bv32, e: bv32, h: bv32, b: bv32)
    ensures s == e & h && e & b == 0 ==> s & b == 0
  {
  }

  lemma AndLacksHigh(s: bv32, e: bv32, h: bv32, b: bv32)
    ensures s == e & h && h & b == 0 ==> s & b == 0
  {
  }

  lemma AndWithin(e: bv32, h: bv32)
    ensures Within(e & h, e)
  {
  }

  /** A high, enabled line among the first n is selected. */
  lemma SelectedHas(levels: seq<bool>, enable: bv32, n: nat, i: nat)
    requires n <= |levels| && n <= 32 && i < n && levels[i] && enable & Bit(i) != 0
    ensures Selected(levels, enable, n) & Bit(i) == Bit(i)
  {
    SelectedIsEnabledHigh(levels, enable, n);
    HighLinesHas(levels, n, i);
    BitAnd(enable, i);
    AndHasBit(Selected(levels, enable, n), enable, HighLines(levels, n), Bit(i));
  }

  /** A low line, or one not among the first n, is not selected. */
  lemma SelectedLacksLow(levels: seq<bool>, enable: bv32, n: nat, i: nat)
    requires n <= |levels| && n <= 32 && i < 32 && (i < n ==> !levels[i])
    ensures Selected(levels, enable, n) & Bit(i) == 0
  {
    SelectedIsEnabledHigh(levels, enable, n);
    HighLinesLacks(levels, n, i);
    AndLacksHigh(Selected(levels, enable, n), enable, HighLines(levels, n), Bit(i));
  }

  /** A line whose enable bit is clear is not selected. */
  lemma SelectedLacksDisabled(levels: seq<bool>, enable: bv32, n: nat, i: nat)
    requires n <= |levels| && n <= 32 && i < 32 && enable & Bit(i) == 0
    ensures Selected(levels, enable, n) & Bit(i) == 0
  {
    SelectedIsEnabledHigh(levels, enable, n);
    AndLacksEnabled(Selected(levels, enable, n), enable, HighLines(levels, n), Bit(i));
  }

  /** Only enabled lines are ever selected. */
  lemma SelectedWithin(levels: seq<bool>, enable: bv32, n: nat)
    requires n <= |levels| && n <= 32
    ensures Within(Selected(levels, enable, n), enable)
  {
    SelectedIsEnabledHigh(levels, enable, n);
    AndWithin(enable, HighLines(levels, n));
  }

  /**
   * The scan of set_irq: for each of the first numLines lines, a high line
   * whose enable bit is set is or-ed into `select`.
   */
  method ComputeSelect(levels: seq<bool>, enable: bv32, numLines: nat) returns (select: bv32)
    requires numLines <= |levels| && numLines <= 32
    ensures select == Selected(levels, enable, numLines)
    ensures select == enable & HighLines(levels, numLines)
    ensures Within(select, enable)
  {
    select := 0;
    var i := 0;
    while i < numLines
      invariant i <= numLines
      invariant select == Selected(levels, enable, i)
    {
      if levels[i] {
        if enable & Bit(i) != 0 {
          select := select | Bit(i);
        }
      }
      i := i + 1;
    }
    SelectedIsEnabledHigh(levels, enable, numLines);
    SelectedWithin(levels, enable, numLines);
  }
}
