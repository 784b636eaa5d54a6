/** The per-row counters of the menu: how they start and how the "-" and "+"
    buttons change them. */
module Quantities {

  function Max(a: int, b: int): (m: int)
    ensures m >= a && m >= b && (m == a || m == b)
  {
    if a >= b then a else b
  }

  /** `Array(n).fill(0)`: the counters of a freshly mounted menu. */
  function Zeros(n: nat): (r: seq<int>)
    ensures |r| == n && forall i :: 0 <= i < n ==> r[i] == 0
  {
    seq(n, _ => 0)
  }

  predicate NonNegative(quantities: seq<int>) {
    forall i :: 0 <= i < |quantities| ==> quantities[i] >= 0
  }

  /** `handleQuantityChange(index, delta)`: a fresh list in which the counter at
      `index` moves by `delta` but never below zero. Only positions of the old
      list are visited, so an `index` outside it changes nothing. */
  function Adjust(quantities: seq<int>, index: int, delta: int): (r: seq<int>)
    ensures |r| == |quantities|
    ensures forall i :: 0 <= i < |quantities| && i != index ==> r[i] == quantities[i]
    ensures 0 <= index < |quantities| ==> r[index] == Max(0, quantities[index] + delta)
  {
    seq(|quantities|, i requires 0 <= i < |quantities| =>
      if i == index then Max(0, quantities[i] + delta) else quantities[i])
  }

  /** An index past the end (a row added after the menu was mounted) or before
      the start leaves the counters as they are. */
  lemma AdjustOutOfRange(quantities: seq<int>, index: int, delta: int)
    requires index < 0 || index >= |quantities|
    ensures Adjust(quantities, index, delta) == quantities
  {
  }

  /** Counters never become negative. */
  lemma AdjustKeepsNonNegative(quantities: seq<int>, index: int, delta: int)
    requires NonNegative(quantities)
    ensures NonNegative(Adjust(quantities, index, delta))
  {
  }

  /** "-" on a zero counter leaves it at zero. */
  lemma DecrementAtZero(quantities: seq<int>, index: int)
    requires 0 <= index < |quantities| && quantities[index] == 0
    ensures Adjust(quantities, index, -1) == quantities
  {
  }

  /** "+" followed by "-" on the same row restores the counters. */
  lemma IncrementThenDecrement(quantities: seq<int>, index: int)
    requires NonNegative(quantities)
    ensures Adjust(Adjust(quantities, index, 1), index, -1) == quantities
  {
  }
}
