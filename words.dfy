/**
 * Facts about 32-bit words used as bitmaps: `a & !b == 0` says that every
 * bit of a is in b. Each lemma is a pure bit-vector identity.
 */
module Words {

  /** Every bit of a is a bit of b. */
  predicate Within(a: bv32, b: bv32) {
    a & !b == 0
  }

  lemma OrZero(a: bv32)
    ensures a | 0 == a && 0 | a == a
  {
  }

  lemma OrAssoc(a: bv32, b: bv32, c: bv32)
    ensures a | (b | c) == a | b | c
  {
  }

  lemma OrIntoZero(b: bv32, c: bv32)
    ensures c | b == 0 | b | c
  {
  }

  lemma WithinOr(a: bv32, b: bv32, e: bv32)
    requires Within(a, e) && Within(b, e)
    ensures Within(a | b, e)
  {
  }

  lemma WithinGrow(a: bv32, e: bv32, d: bv32)
    requires Within(a, e)
    ensures Within(a, e | d)
  {
  }

  /** Clearing bits keeps a word within any bound it was in, and only shrinks it. */
  lemma ClearWithin(s: bv32, d: bv32, e: bv32)
    requires Within(s, e)
    ensures Within(s & !d, e) && Within(s & !d, s)
  {
  }

  lemma ClearedNonzero(s: bv32, d: bv32)
    requires s & !d != 0
    ensures s != 0
  {
  }

  lemma ZeroWithin(e: bv32)
    ensures Within(0, e)
  {
  }

  lemma ClearAll(x: bv32)
    ensures x & !0xffff_ffff == 0
  {
  }

  lemma ClearNone(x: bv32)
    ensures x & !0 == x
  {
  }

  /** Or-ing d into e changes e only if d has a bit outside e. */
  lemma OrChanged(e: bv32, d: bv32)
    requires e | d != e
    ensures d & !e != 0
  {
  }

  /** A word with a bit outside e changes e when or-ed into it. */
  lemma OrChanges(e: bv32, d: bv32)
    requires d & !e != 0
    ensures e | d != e
  {
  }

  /** Only a nonzero word changes what it is or-ed into. */
  lemma OrChangedNonzero(e: bv32, d: bv32)
    requires e | d != e
    ensures d != 0
  {
  }

  /** Or-ing in a nonzero word gives a nonzero word. */
  lemma OrNonzero(a: bv32, b: bv32)
    requires b != 0
    ensures a | b != 0
  {
  }

  /** Clearing a word's own bits leaves nothing. */
  lemma ClearSelf(a: bv32)
    ensures a & !a == 0
  {
  }
}
