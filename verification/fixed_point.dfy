/**
 * Fixed-point encoding of one ingredient's share of the mix.
 *
 * Every ingredient owns `BitsPerIngredient` binary variables; bit `j` weighs
 * 2^-(j+1), so the bits of one ingredient spell out a binary fraction in
 * [0, 1 - 2^-16]. Variables are numbered by flattening (ingredient, bit)
 * into `16 * i + j`, the order in which the optimizer declares them.
 */
module FixedPoint {

  /** Number of binary variables per ingredient. */
  const BitsPerIngredient: nat := 16

  function Pow2(k: nat): (r: real)
    ensures r >= 1.0
  {
    if k == 0 then 1.0 else 2.0 * Pow2(k - 1)
  }

  /**
   * The weight of bit `j`: one half for bit 0, and half the previous bit's
   * weight for every later bit. It does not depend on the ingredient.
   */
  function Weight(j: nat): (r: real)
    ensures 0.0 < r <= 0.5
  {
    if j == 0 then 0.5 else Weight(j - 1) / 2.0
  }

  /** The weights of the bits of one ingredient, in bit order. */
  function WeightTable(): (g: seq<real>)
    ensures |g| == BitsPerIngredient && forall j :: 0 <= j < BitsPerIngredient ==> g[j] == Weight(j)
  {
    seq(BitsPerIngredient, j requires 0 <= j < BitsPerIngredient => Weight(j))
  }

  /** Bit `j` weighs exactly 1 / 2^(j+1). */
  lemma {:induction false} WeightIsPower(j: nat)
    ensures Weight(j) * Pow2(j + 1) == 1.0
  {
    if j > 0 {
      WeightIsPower(j - 1);
      var w, p := Weight(j - 1), Pow2(j);
      assert Weight(j) * Pow2(j + 1) == (w / 2.0) * (2.0 * p);
    }
  }

  /** The value of a binary variable as a number. */
  function Bit(x: bool): real {
    if x then 1.0 else 0.0
  }

  /** A binary variable equals its own square. */
  lemma BitSquare(x: bool)
    ensures Bit(x) * Bit(x) == Bit(x)
  {
  }

  /** The flattened index of bit `j` of ingredient `i`. */
  function Var(i: nat, j: nat): nat {
    BitsPerIngredient * i + j
  }

  /** The variable of bit `j` of ingredient `i` is unique to that pair. */
  lemma VarSplit(i: nat, j: nat)
    requires j < BitsPerIngredient
    ensures Var(i, j) / BitsPerIngredient == i
    ensures Var(i, j) % BitsPerIngredient == j
  {
  }

  /** The sum of the weights of the set bits among the first `k` bits of ingredient `i`. */
  function DecodePrefix(b: seq<bool>, i: nat, k: nat): real
    requires k <= BitsPerIngredient && Var(i, k) <= |b|
  {
    if k == 0 then 0.0 else DecodePrefix(b, i, k - 1) + Weight(k - 1) * Bit(b[Var(i, k - 1)])
  }

  /** Ingredient `i`'s share, decoded from all of its bits. */
  function Decode(b: seq<bool>, i: nat): real
    requires Var(i + 1, 0) <= |b|
  {
    DecodePrefix(b, i, BitsPerIngredient)
  }

  /**
   * The first k bits decode to at most 1 - 2^-k, which is 1 - 2 * Weight(k):
   * each bit can add no more than half of what is still missing.
   */
  lemma {:induction false} DecodePrefixBounds(b: seq<bool>, i: nat, k: nat)
    requires k <= BitsPerIngredient && Var(i, k) <= |b|
    ensures 0.0 <= DecodePrefix(b, i, k) <= 1.0 - 2.0 * Weight(k)
  {
    if k > 0 {
      DecodePrefixBounds(b, i, k - 1);
    }
  }

  /** 2^-16, the weight of the last bit, 1 / 65536. */
  lemma LastWeight()
    ensures 2.0 * Weight(16) == 1.0 / 65536.0
  {
    assert Weight(4) == 1.0 / 32.0;
    assert Weight(8) == 1.0 / 512.0;
    assert Weight(12) == 1.0 / 8192.0;
  }

  /**
   * Every decoded share lies in [0, 1 - 2^-16]: the encoding can never reach
   * a whole (100%) share.
   */
  lemma {:induction false} DecodeBounds(b: seq<bool>, i: nat)
    requires Var(i + 1, 0) <= |b|
    ensures 0.0 <= Decode(b, i) <= 1.0 - 1.0 / 65536.0
  {
    DecodePrefixBounds(b, i, BitsPerIngredient);
    LastWeight();
  }

  /** With no bit set, an ingredient's share is zero. */
  lemma {:induction false} DecodePrefixZero(b: seq<bool>, i: nat, k: nat)
    requires k <= BitsPerIngredient && Var(i, k) <= |b|
    requires forall j: nat :: j < k ==> !b[Var(i, j)]
    ensures DecodePrefix(b, i, k) == 0.0
  {
    if k > 0 {
      DecodePrefixZero(b, i, k - 1);
    }
  }
}
