/**
 * The paid masks of the chain are integers. The cranks test one bit with a shift and
 * compare a whole mask with `(1 << n) - 1`. Here a mask is tied to the list of bits it stands for.
 */
module Bits {

  function Pow2(n: nat): (p: nat)
    ensures p > 0
  {
    if n == 0 then 1 else 2 * Pow2(n - 1)
  }

  function FullMask(n: nat): nat {
    Pow2(n) - 1
  }

  function ShiftRight(mask: nat, i: nat): nat {
    if i == 0 then mask else ShiftRight(mask / 2, i - 1)
  }

  predicate BitSet(mask: nat, i: nat) {
    ShiftRight(mask, i) % 2 == 1
  }

  /** The integer whose bit i is `bits[i]`. */
  function Mask(bits: seq<bool>): nat {
    if bits == [] then 0 else (if bits[0] then 1 else 0) + 2 * Mask(bits[1..])
  }

  predicate AllSet(bits: seq<bool>) {
    forall i :: 0 <= i < |bits| ==> bits[i]
  }

  function Zeros(n: nat): (bits: seq<bool>)
    ensures |bits| == n && forall i :: 0 <= i < n ==> !bits[i]
  {
    seq(n, _ => false)
  }

  lemma Halve(bit: nat, rest: nat)
    requires bit < 2
    ensures (bit + 2 * rest) / 2 == rest && (bit + 2 * rest) % 2 == bit
  {
  }

  /** Testing a bit of the integer reads the bit that was stored; bits above the width are clear. */
  lemma {:induction false} BitSetReadsBit(bits: seq<bool>, i: nat)
    ensures BitSet(Mask(bits), i) <==> i < |bits| && bits[i]
    decreases |bits| + i
  {
    if bits == [] {
      if i > 0 {
        BitSetReadsBit(bits, i - 1);
      }
    } else {
      Halve(if bits[0] then 1 else 0, Mask(bits[1..]));
      if i > 0 {
        BitSetReadsBit(bits[1..], i - 1);
      }
    }
  }

  /** The gate `mask === (1 << n) - 1` is true exactly when every one of the n bits is set. */
  lemma {:induction false} MaskIsFull(bits: seq<bool>)
    ensures Mask(bits) <= FullMask(|bits|)
    ensures Mask(bits) == FullMask(|bits|) <==> AllSet(bits)
  {
    if bits != [] {
      MaskIsFull(bits[1..]);
      assert AllSet(bits) <==> bits[0] && AllSet(bits[1..]) by {
        if bits[0] && AllSet(bits[1..]) {
          forall i | 0 <= i < |bits| ensures bits[i] {
            if i > 0 { assert bits[1..][i - 1]; }
          }
        }
        if AllSet(bits) {
          forall i | 0 <= i < |bits[1..]| ensures bits[1..][i] { assert bits[i + 1]; }
        }
      }
    }
  }

  /** The number of clear bits. */
  function Unset(bits: seq<bool>): (n: nat)
    ensures n <= |bits|
  {
    if bits == [] then 0 else Unset(bits[..|bits| - 1]) + (if bits[|bits| - 1] then 0 else 1)
  }

  /** A bit list that only gained bits has no more clear ones, and strictly fewer if it gained one. */
  lemma {:induction false} UnsetShrinks(before: seq<bool>, after: seq<bool>)
    requires |before| == |after|
    requires forall i :: 0 <= i < |before| && before[i] ==> after[i]
    ensures Unset(after) <= Unset(before)
    ensures (exists i :: 0 <= i < |before| && !before[i] && after[i]) ==> Unset(after) < Unset(before)
  {
    if before != [] {
      var n := |before| - 1;
      UnsetShrinks(before[..n], after[..n]);
      if i :| 0 <= i < |before| && !before[i] && after[i] {
        if i < n {
          assert !before[..n][i] && after[..n][i];
        }
      }
    }
  }

  lemma {:induction false} UnsetZeros(n: nat)
    ensures Unset(Zeros(n)) == n
  {
    if n > 0 {
      UnsetZeros(n - 1);
      assert Zeros(n)[..n - 1] == Zeros(n - 1);
    }
  }
}
