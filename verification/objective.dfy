/**
 * The optimizer's objective in terms of the decoded ingredient shares.
 *
 * A nutrient term with per-ingredient coefficients c has amplitude
 * c_i * w_j on bit j of ingredient i, so its sums over an assignment regroup
 * ingredient by ingredient: sum_v a_v b_v = sum_i c_i * x_i, where x_i is
 * ingredient i's decoded share.
 */
module Objective {
  import opened FixedPoint
  import opened Qubo
  import opened Penalty
  import opened QuboBuilder

  /** Sum of g_j * b_(16i+j) over the first k bits of ingredient i. */
  function BlockSum(b: seq<bool>, i: nat, g: seq<real>, k: nat): real
    requires |g| == BitsPerIngredient && k <= BitsPerIngredient && Var(i + 1, 0) <= |b|
  {
    if k == 0 then 0.0 else BlockSum(b, i, g, k - 1) + g[k - 1] * Bit(b[Var(i, k - 1)])
  }

  /** Sum of c_i * BlockSum(b, i, g, 16) over the first k ingredients. */
  function RowSum(c: seq<real>, g: seq<real>, b: seq<bool>, k: nat): real
    requires |g| == BitsPerIngredient && k <= |c| && Var(|c|, 0) <= |b|
  {
    if k == 0 then 0.0 else RowSum(c, g, b, k - 1) + c[k - 1] * BlockSum(b, k - 1, g, BitsPerIngredient)
  }

  /** The squared bit weights 2^-2 .. 2^-32. */
  function SquaredWeightTable(): (g: seq<real>)
    ensures |g| == BitsPerIngredient
    ensures forall j :: 0 <= j < BitsPerIngredient ==> g[j] == WeightTable()[j] * WeightTable()[j]
  {
    seq(BitsPerIngredient, j requires 0 <= j < BitsPerIngredient => WeightTable()[j] * WeightTable()[j])
  }

  /** Sum of the decoded shares of the first k ingredients. */
  function Total(b: seq<bool>, k: nat): real
    requires Var(k, 0) <= |b|
  {
    if k == 0 then 0.0 else Total(b, k - 1) + Decode(b, k - 1)
  }

  /** Sum of c_i * x_i over the first k ingredients: a nutrient's content of the mix. */
  function Dot(c: seq<real>, b: seq<bool>, k: nat): real
    requires k <= |c| && Var(|c|, 0) <= |b|
  {
    if k == 0 then 0.0 else Dot(c, b, k - 1) + c[k - 1] * Decode(b, k - 1)
  }

  /** Sum of w_j^2 * b_(16i+j) over the bits of ingredient i. */
  function SquaredShare(b: seq<bool>, i: nat): real
    requires Var(i + 1, 0) <= |b|
  {
    BlockSum(b, i, SquaredWeightTable(), BitsPerIngredient)
  }

  /** Sum of c_i * SquaredShare(b, i) over the first k ingredients. */
  function SquaredDot(c: seq<real>, b: seq<bool>, k: nat): real
    requires k <= |c| && Var(|c|, 0) <= |b|
  {
    RowSum(c, SquaredWeightTable(), b, k)
  }

  function Product(a: seq<real>, s: seq<real>): (p: seq<real>)
    requires |a| == |s|
    ensures |p| == |a| && forall v :: 0 <= v < |a| ==> p[v] == a[v] * s[v]
  {
    seq(|a|, v requires 0 <= v < |a| => a[v] * s[v])
  }

  // ---- Regrouping a sum over variables ingredient by ingredient ----

  /** base + c_i * block: a sum over variables regrouped up to a block of ingredient i. */
  function Regrouped(base: real, ci: real, block: real): real {
    base + ci * block
  }

  lemma BlockStep(base: real, ci: real, gj: real, x: real, block: real)
    ensures Regrouped(base, ci, block) + ci * gj * x == Regrouped(base, ci, block + gj * x)
  {
  }

  lemma {:induction false} AmpSumBlock(a: seq<real>, c: seq<real>, g: seq<real>, b: seq<bool>, i: nat, j: nat)
    requires |g| == BitsPerIngredient && |a| == |b| == Var(|c|, 0) && i < |c| && j <= BitsPerIngredient
    requires forall i', j' :: 0 <= i' < |c| && 0 <= j' < BitsPerIngredient ==> a[Var(i', j')] == Scale(c, g, i', j')
    ensures AmpSum(a, b, Var(i, j)) == Regrouped(AmpSum(a, b, Var(i, 0)), c[i], BlockSum(b, i, g, j))
  {
    if j > 0 {
      AmpSumBlock(a, c, g, b, i, j - 1);
      var v := Var(i, j - 1);
      assert Var(i, j) == v + 1;
      assert a[v] == c[i] * g[j - 1];
      BlockStep(AmpSum(a, b, Var(i, 0)), c[i], g[j - 1], Bit(b[v]), BlockSum(b, i, g, j - 1));
    }
  }

  /**
   * When a_(16i+j) == c_i * g_j, the sum of a_v * b_v over the variables of
   * the first k ingredients is the sum of c_i * BlockSum(b, i, g).
   */
  lemma {:induction false} AmpSumRows(a: seq<real>, c: seq<real>, g: seq<real>, b: seq<bool>, k: nat)
    requires |g| == BitsPerIngredient && |a| == |b| == Var(|c|, 0) && k <= |c|
    requires forall i', j' :: 0 <= i' < |c| && 0 <= j' < BitsPerIngredient ==> a[Var(i', j')] == Scale(c, g, i', j')
    ensures AmpSum(a, b, Var(k, 0)) == RowSum(c, g, b, k)
  {
    if k > 0 {
      AmpSumRows(a, c, g, b, k - 1);
      AmpSumBlock(a, c, g, b, k - 1, BitsPerIngredient);
      assert Var(k - 1, BitsPerIngredient) == Var(k, 0);
      assert RowSum(c, g, b, k) == Regrouped(RowSum(c, g, b, k - 1), c[k - 1], BlockSum(b, k - 1, g, BitsPerIngredient));
    }
  }

  lemma {:induction false} DecodeAsBlockSum(b: seq<bool>, i: nat, k: nat)
    requires k <= BitsPerIngredient && Var(i + 1, 0) <= |b|
    ensures DecodePrefix(b, i, k) == BlockSum(b, i, WeightTable(), k)
  {
    if k > 0 {
      DecodeAsBlockSum(b, i, k - 1);
    }
  }

  lemma {:induction false} DotAsRowSum(c: seq<real>, b: seq<bool>, k: nat)
    requires k <= |c| && Var(|c|, 0) <= |b|
    ensures Dot(c, b, k) == RowSum(c, WeightTable(), b, k)
  {
    if k > 0 {
      DotAsRowSum(c, b, k - 1);
      DecodeAsBlockSum(b, k - 1, BitsPerIngredient);
    }
  }

  /** The total share is the content of a nutrient every ingredient has one unit of. */
  lemma {:induction false} TotalAsDot(b: seq<bool>, k: nat, n: nat)
    requires k <= n && Var(n, 0) <= |b|
    ensures Total(b, k) == Dot(Constant(n, 1.0), b, k)
  {
    if k > 0 {
      TotalAsDot(b, k - 1, n);
    }
  }

  lemma {:induction false} ShiftSumAsAmpSum(a: seq<real>, s: seq<real>, b: seq<bool>, k: nat)
    requires |a| == |s| && k <= |a| && k <= |b|
    ensures ShiftSum(a, s, b, k) == AmpSum(Product(a, s), b, k)
  {
    if k > 0 {
      ShiftSumAsAmpSum(a, s, b, k - 1);
    }
  }

  lemma {:induction false} ShiftSumUnit(a: seq<real>, b: seq<bool>, k: nat)
    requires k <= |a| && k <= |b|
    ensures ShiftSum(a, Constant(|a|, 1.0), b, k) == AmpSum(a, b, k)
  {
    if k > 0 {
      ShiftSumUnit(a, b, k - 1);
    }
  }

  lemma {:induction false} ShiftSumZero(a: seq<real>, b: seq<bool>, k: nat)
    requires k <= |a| && k <= |b|
    ensures ShiftSum(a, Constant(|a|, 0.0), b, k) == 0.0
  {
    if k > 0 {
      ShiftSumZero(a, b, k - 1);
    }
  }

  lemma AmpSumAmplitudes(c: seq<real>, b: seq<bool>)
    requires |b| == Var(|c|, 0)
    ensures AmpSum(Amplitudes(c), b, Var(|c|, 0)) == RowSum(c, WeightTable(), b, |c|)
  {
    AmpSumRows(Amplitudes(c), c, WeightTable(), b, |c|);
  }

  /** Sum over variables of c_i * w_j * b_v: the nutrient content of the mix. */
  lemma AmpSumIsDot(c: seq<real>, b: seq<bool>)
    requires |b| == Var(|c|, 0)
    ensures AmpSum(Amplitudes(c), b, |b|) == Dot(c, b, |c|)
  {
    AmpSumAmplitudes(c, b);
    DotAsRowSum(c, b, |c|);
  }

  lemma BitWeightsRegroup(n: nat)
    ensures forall i, j :: 0 <= i < n && 0 <= j < BitsPerIngredient ==>
              BitWeights(n)[Var(i, j)] == Scale(Constant(n, 1.0), WeightTable(), i, j)
  {
  }

  lemma AmpSumBitWeights(n: nat, b: seq<bool>)
    requires |b| == Var(n, 0)
    ensures AmpSum(BitWeights(n), b, Var(n, 0)) == RowSum(Constant(n, 1.0), WeightTable(), b, n)
  {
    BitWeightsRegroup(n);
    AmpSumRows(BitWeights(n), Constant(n, 1.0), WeightTable(), b, n);
  }

  /** Sum over variables of w_j * b_v: the total share of the mix. */
  lemma AmpSumIsTotal(n: nat, b: seq<bool>)
    requires |b| == Var(n, 0)
    ensures AmpSum(BitWeights(n), b, |b|) == Total(b, n)
  {
    AmpSumBitWeights(n, b);
    DotAsRowSum(Constant(n, 1.0), b, n);
    TotalAsDot(b, n, n);
  }

  lemma SquaredRegroupStep(p: real, av: real, sv: real, ci: real, wj: real, sq: real)
    requires p == av * sv && av == ci * wj && sv == wj && sq == wj * wj
    ensures p == ci * sq
  {
  }

  lemma RegroupSquaredWeights(a: seq<real>, s: seq<real>, c: seq<real>)
    requires |a| == |s| == Var(|c|, 0)
    requires forall i, j :: 0 <= i < |c| && 0 <= j < BitsPerIngredient ==> a[Var(i, j)] == Scale(c, WeightTable(), i, j)
    requires forall i, j :: 0 <= i < |c| && 0 <= j < BitsPerIngredient ==> s[Var(i, j)] == WeightTable()[j]
    ensures forall i, j :: 0 <= i < |c| && 0 <= j < BitsPerIngredient ==>
              Product(a, s)[Var(i, j)] == Scale(c, SquaredWeightTable(), i, j)
  {
    var p, g := Product(a, s), SquaredWeightTable();
    forall i, j | 0 <= i < |c| && 0 <= j < BitsPerIngredient
      ensures p[Var(i, j)] == Scale(c, g, i, j)
    {
      SquaredRegroupStep(p[Var(i, j)], a[Var(i, j)], s[Var(i, j)], c[i], WeightTable()[j], g[j]);
    }
  }

  /** The products a_v * s_v of a nutrient term as written are c_i times the squared weight table. */
  lemma SquaredRegroup(c: seq<real>)
    ensures forall i, j :: 0 <= i < |c| && 0 <= j < BitsPerIngredient ==>
              Product(Amplitudes(c), BitWeights(|c|))[Var(i, j)] == Scale(c, SquaredWeightTable(), i, j)
  {
    RegroupSquaredWeights(Amplitudes(c), BitWeights(|c|), c);
  }

  lemma AmpSumSquared(c: seq<real>, b: seq<bool>)
    requires |b| == Var(|c|, 0)
    ensures AmpSum(Product(Amplitudes(c), BitWeights(|c|)), b, Var(|c|, 0)) == SquaredDot(c, b, |c|)
  {
    SquaredRegroup(c);
    AmpSumRows(Product(Amplitudes(c), BitWeights(|c|)), c, SquaredWeightTable(), b, |c|);
  }

  /**
   * With the shift w_j of the nutrient terms as written, the shifted sum
   * regroups into sum_i c_i * SquaredShare(b, i).
   */
  lemma ShiftSumIsSquaredDot(c: seq<real>, b: seq<bool>)
    requires |b| == Var(|c|, 0)
    ensures ShiftSum(Amplitudes(c), BitWeights(|c|), b, |b|) == SquaredDot(c, b, |c|)
  {
    ShiftSumAsAmpSum(Amplitudes(c), BitWeights(|c|), b, Var(|c|, 0));
    AmpSumSquared(c, b);
  }

  /** The magnitude term as written adds Penalise(F, sum_i x_i, 0), that is F * (sum_i x_i)^2. */
  lemma MagnitudeEnergy(n: nat, b: seq<bool>)
    requires |b| == Var(n, 0)
    ensures TermEnergy(MagnitudeWeight, BitWeights(n), Constant(Var(n, 0), 0.0), b)
            == Penalise(MagnitudeWeight, Total(b, n), 0.0)
  {
    AmpSumIsTotal(n, b);
    ShiftSumZero(BitWeights(n), b, Var(n, 0));
  }

  /** The magnitude term with unit shift adds Penalise(F, sum_i x_i, sum_i x_i). */
  lemma IntendedMagnitudeEnergy(n: nat, b: seq<bool>)
    requires |b| == Var(n, 0)
    ensures TermEnergy(MagnitudeWeight, BitWeights(n), Constant(Var(n, 0), 1.0), b)
            == Penalise(MagnitudeWeight, Total(b, n), Total(b, n))
  {
    AmpSumIsTotal(n, b);
    ShiftSumUnit(BitWeights(n), b, Var(n, 0));
  }

  /**
   * A nutrient term as written (shift w_j) adds
   * Penalise(w, sum_i c_i x_i, sum_i c_i * SquaredShare(b, i)).
   */
  lemma NutrientEnergy(w: real, c: seq<real>, b: seq<bool>)
    requires |b| == Var(|c|, 0)
    ensures TermEnergy(w, Amplitudes(c), BitWeights(|c|), b) == Penalise(w, Dot(c, b, |c|), SquaredDot(c, b, |c|))
  {
    AmpSumIsDot(c, b);
    ShiftSumIsSquaredDot(c, b);
  }

  /** A nutrient term with unit shift adds Penalise(w, sum_i c_i x_i, sum_i c_i x_i). */
  lemma IntendedNutrientEnergy(w: real, c: seq<real>, b: seq<bool>)
    requires |b| == Var(|c|, 0)
    ensures TermEnergy(w, Amplitudes(c), Constant(Var(|c|, 0), 1.0), b)
            == Penalise(w, Dot(c, b, |c|), Dot(c, b, |c|))
  {
    AmpSumIsDot(c, b);
    ShiftSumUnit(Amplitudes(c), b, Var(|c|, 0));
  }
}
