/*
 * Register images for the peripheral drivers.
 *
 * A register, or an argument that a driver ORs into one, is represented by
 * the set of positions of its 1 bits; `Word16` and `Word32` bound those
 * positions by the width of the C type. In this view `x | y` is `x + y`,
 * `x & y` is `x * y`, and the two operations the drivers build everything
 * from are written once here:
 *   - `x &= (uintW_t)~mask`, which also drops every bit at or above W;
 *   - `(uintW_t)(x << k)`, which moves every bit up by k and drops the
 *     ones that land at or above W.
 * The vendor bit masks are not part of this model: a mask is any set of
 * positions, and what a driver relies on about its masks (non-empty,
 * pairwise disjoint) is stated where it is used.
 */
module Bits {

  /** Every bit of `r` lies below position `width`. */
  predicate Within(r: set<nat>, width: nat)
  {
    forall i :: i in r ==> i < width
  }

  type Word16 = r: set<nat> | Within(r, 16) witness {}
  type Word32 = r: set<nat> | Within(r, 32) witness {}

  /** No two masks of `ms` share a bit. */
  predicate PairwiseDisjoint(ms: seq<set<nat>>)
  {
    forall i, j :: 0 <= i < j < |ms| ==> ms[i] !! ms[j]
  }

  /** The value whose bits are exactly the positions below `n`. */
  function Below(n: nat): (r: set<nat>)
    ensures forall i: nat :: i in r <==> i < n
  {
    if n == 0 then {} else Below(n - 1) + {n - 1}
  }

  /** `value & (uintW_t)~mask`. */
  function AndNot(value: set<nat>, mask: set<nat>, width: nat): (r: set<nat>)
    ensures Within(r, width)
    ensures r <= value && r !! mask
    ensures Within(value, width) ==> r == value - mask
  {
    set i | i in value && i !in mask && i < width
  }

  /** `(uintW_t)(value << k)`. */
  function Shl(value: set<nat>, k: nat, width: nat): (r: set<nat>)
    ensures Within(r, width)
  {
    set i | i in value && i + k < width :: i + k
  }

  /** The bits of a shifted value: each bit moves up by k, and the ones at or above the width are lost. */
  lemma ShlBits(value: set<nat>, k: nat, width: nat)
    ensures forall i :: i in value && i + k < width ==> i + k in Shl(value, k, width)
    ensures forall j :: j in Shl(value, k, width) ==> k <= j && j - k in value
  {
  }

  /** A shift by zero inside the width changes nothing. */
  lemma ShlZero(value: set<nat>, width: nat)
    requires Within(value, width)
    ensures Shl(value, 0, width) == value
  {
  }

  /**
   * `if on then reg |= mask else reg &= (uintW_t)~mask`: the mask ends up
   * all set or all clear, and no other bit moves.
   */
  function SetIf(reg: set<nat>, mask: set<nat>, on: bool, width: nat): (r: set<nat>)
    requires Within(reg, width) && Within(mask, width)
    ensures Within(r, width)
    ensures on ==> mask <= r
    ensures !on ==> r !! mask
    ensures r - mask == reg - mask
  {
    if on then reg + mask else AndNot(reg, mask, width)
  }

  /**
   * `reg &= (uintW_t)~mask; reg |= value`: the bits of `value` are set, the
   * rest of the mask is cleared, every other bit keeps its value. When the
   * value lies inside the mask, the field reads back as the value.
   */
  function Replace(reg: set<nat>, mask: set<nat>, value: set<nat>, width: nat): (r: set<nat>)
    requires Within(reg, width) && Within(value, width)
    ensures Within(r, width)
    ensures value <= r
    ensures r - value == reg - mask - value
    ensures value <= mask ==> r * mask == value && r - mask == reg - mask
  {
    AndNot(reg, mask, width) + value
  }

  /** Setting or clearing a mask leaves every bit outside it as it was. */
  lemma SetIfElsewhere(reg: set<nat>, mask: set<nat>, on: bool, width: nat, other: set<nat>)
    requires Within(reg, width) && Within(mask, width) && mask !! other
    ensures SetIf(reg, mask, on, width) * other == reg * other
    ensures other <= reg ==> other <= SetIf(reg, mask, on, width)
    ensures other !! reg ==> other !! SetIf(reg, mask, on, width)
  {
  }

  /** Setting or clearing the same mask twice is the same as doing it once. */
  lemma SetIfIdempotent(reg: set<nat>, mask: set<nat>, on: bool, width: nat)
    requires Within(reg, width) && Within(mask, width)
    ensures SetIf(SetIf(reg, mask, on, width), mask, on, width) == SetIf(reg, mask, on, width)
  {
  }

  /** Replacing a field with the same value twice is the same as once. */
  lemma ReplaceIdempotent(reg: set<nat>, mask: set<nat>, value: set<nat>, width: nat)
    requires Within(reg, width) && Within(value, width)
    ensures Replace(Replace(reg, mask, value, width), mask, value, width)
            == Replace(reg, mask, value, width)
  {
  }
}
