/**
 * Where the objectives of `Formulation` are least.
 *
 * As written, the magnitude term F * (sum x_i)^2 is least for the empty
 * mix, and a nutrient term can charge a mix that meets its target exactly
 * as much as the empty mix. With unit shifts every term is a completed
 * square, least exactly where its sum is 1: the whole objective is least
 * exactly for the mixes that sum to 100% and meet every target.
 */
module Minima {
  import opened FixedPoint
  import opened Qubo
  import opened Penalty
  import opened QuboBuilder
  import opened Objective
  import opened Formulation

  /** The assignment that sets only the first (one-half) bit of each of n ingredients. */
  function HalfShares(n: nat): (b: seq<bool>)
    ensures |b| == Var(n, 0)
    ensures forall i, j :: 0 <= i < n && 0 <= j < BitsPerIngredient ==> b[Var(i, j)] == (j == 0)
  {
    seq(Var(n, 0), v => v % BitsPerIngredient == 0)
  }

  /** A block whose only possibly set bit is the first one sums to g_0 times that bit. */
  lemma {:induction false} BlockSumFirstBit(b: seq<bool>, i: nat, g: seq<real>, k: nat)
    requires |g| == BitsPerIngredient && 1 <= k <= BitsPerIngredient && Var(i + 1, 0) <= |b|
    requires forall j :: 1 <= j < BitsPerIngredient ==> !b[Var(i, j)]
    ensures BlockSum(b, i, g, k) == g[0] * Bit(b[Var(i, 0)])
  {
    if k > 1 {
      BlockSumFirstBit(b, i, g, k - 1);
    }
  }

  /** Under HalfShares every ingredient decodes to 1/2, and its squared-weight share is 1/4. */
  lemma HalfShare(n: nat, i: nat)
    requires i < n
    ensures Decode(HalfShares(n), i) == 0.5
    ensures SquaredShare(HalfShares(n), i) == 0.25
  {
    var b := HalfShares(n);
    DecodeAsBlockSum(b, i, BitsPerIngredient);
    BlockSumFirstBit(b, i, WeightTable(), BitsPerIngredient);
    BlockSumFirstBit(b, i, SquaredWeightTable(), BitsPerIngredient);
  }

  lemma {:induction false} HalfSharesTotal(n: nat, k: nat)
    requires k <= n
    ensures Total(HalfShares(n), k) == k as real / 2.0
  {
    if k > 0 {
      HalfSharesTotal(n, k - 1);
      HalfShare(n, k - 1);
    }
  }

  /** The all-zero assignment is the empty mix: every share and so the total is 0. */
  lemma {:induction false} EmptyMixTotal(n: nat, k: nat)
    requires k <= n
    ensures Total(AllZero(Var(n, 0)), k) == 0.0
  {
    if k > 0 {
      EmptyMixTotal(n, k - 1);
      DecodePrefixZero(AllZero(Var(n, 0)), k - 1, BitsPerIngredient);
    }
  }

  /** The empty mix holds none of any nutrient. */
  lemma {:induction false} EmptyMixDot(c: seq<real>, k: nat)
    requires k <= |c|
    ensures Dot(c, AllZero(Var(|c|, 0)), k) == 0.0
    ensures RowSum(c, SquaredWeightTable(), AllZero(Var(|c|, 0)), k) == 0.0
  {
    if k > 0 {
      var b := AllZero(Var(|c|, 0));
      EmptyMixDot(c, k - 1);
      DecodePrefixZero(b, k - 1, BitsPerIngredient);
      DecodeAsBlockSum(b, k - 1, BitsPerIngredient);
      BlockSumFirstBit(b, k - 1, SquaredWeightTable(), BitsPerIngredient);
    }
  }

  /**
   * As written, the magnitude term is never negative and is 0 exactly when
   * the shares sum to 0, as for the empty mix: it pulls every share toward
   * 0% instead of toward a total of 100%.
   */
  lemma WrittenMagnitudeMinimum(n: nat, b: seq<bool>)
    requires |b| == Var(n, 0)
    ensures Penalise(MagnitudeWeight, Total(b, n), 0.0) >= 0.0
    ensures Penalise(MagnitudeWeight, Total(b, n), 0.0) == 0.0 <==> Total(b, n) == 0.0
    ensures Total(AllZero(Var(n, 0)), n) == 0.0
  {
    PenaliseUnshifted(MagnitudeWeight, Total(b, n));
    EmptyMixTotal(n, n);
  }

  /**
   * Two ingredients at one half each make a whole (100%) mix; as written the
   * magnitude term charges it F = 100 and charges the empty mix nothing.
   */
  lemma WrittenMagnitudeCounterexample()
    ensures Total(HalfShares(2), 2) == 1.0
    ensures Penalise(MagnitudeWeight, Total(HalfShares(2), 2), 0.0) == 100.0
    ensures Penalise(MagnitudeWeight, Total(AllZero(Var(2, 0)), 2), 0.0) == 0.0
  {
    HalfSharesTotal(2, 2);
    EmptyMixTotal(2, 2);
  }

  /**
   * One ingredient with normalised coefficient 2 at one half meets the
   * nutrient target exactly (sum c_i x_i == 1). As written, the nutrient
   * term adds the same energy, 0, to that mix and to the empty mix; with the
   * unit shift it adds -1 to the mix on target and 0 to the empty mix.
   */
  lemma WrittenNutrientCounterexample()
    ensures Dot([2.0], HalfShares(1), 1) == 1.0
    ensures TermEnergy(CaloriesWeight, Amplitudes([2.0]), BitWeights(1), HalfShares(1)) == 0.0
    ensures TermEnergy(CaloriesWeight, Amplitudes([2.0]), BitWeights(1), AllZero(Var(1, 0))) == 0.0
    ensures TermEnergy(CaloriesWeight, Amplitudes([2.0]), Constant(Var(1, 0), 1.0), HalfShares(1)) == -1.0
    ensures TermEnergy(CaloriesWeight, Amplitudes([2.0]), Constant(Var(1, 0), 1.0), AllZero(Var(1, 0))) == 0.0
  {
    var c := [2.0];
    var half, empty := HalfShares(1), AllZero(Var(1, 0));
    HalfShare(1, 0);
    EmptyMixDot(c, 1);
    NutrientEnergy(CaloriesWeight, c, half);
    NutrientEnergy(CaloriesWeight, c, empty);
    IntendedNutrientEnergy(CaloriesWeight, c, half);
    IntendedNutrientEnergy(CaloriesWeight, c, empty);
    assert Dot(c, half, 1) == 1.0;
    assert SquaredDot(c, half, 1) == 0.5;
  }

  /** Five terms, each at least its floor, sum to at least the sum of the floors, with equality exactly when each is at its floor. */
  lemma SumAboveFloors(e0: real, e1: real, e2: real, e3: real, e4: real,
                       m0: real, m1: real, m2: real, m3: real, m4: real)
    requires e0 >= m0 && e1 >= m1 && e2 >= m2 && e3 >= m3 && e4 >= m4
    ensures e0 + e1 + e2 + e3 + e4 >= m0 + m1 + m2 + m3 + m4
    ensures e0 + e1 + e2 + e3 + e4 == m0 + m1 + m2 + m3 + m4 <==> e0 == m0 && e1 == m1 && e2 == m2 && e3 == m3 && e4 == m4
  {
  }

  /** The least value of the intended objective: minus the sum of the five term weights. */
  const IntendedFloor: real := -(MagnitudeWeight + CaloriesWeight + ProteinWeight + FatWeight + CarbsWeight)

  /**
   * With unit shifts the objective is at least -(F + A + B + C + D), and it
   * reaches that value exactly for the mixes whose shares sum to 1 (100%)
   * and that meet the calories, protein, fat and carbohydrate targets.
   */
  lemma IntendedObjectiveMinimum(c: Coefficients, n: nat, b: seq<bool>)
    requires Sized(c, n) && |b| == Var(n, 0)
    ensures IntendedObjective(c, n, b) >= IntendedFloor
    ensures IntendedObjective(c, n, b) == IntendedFloor <==>
              Total(b, n) == 1.0 && Dot(c.calories, b, n) == 1.0 && Dot(c.protein, b, n) == 1.0
              && Dot(c.fat, b, n) == 1.0 && Dot(c.carbs, b, n) == 1.0
  {
    var t, d1, d2, d3, d4 := Total(b, n), Dot(c.calories, b, n), Dot(c.protein, b, n), Dot(c.fat, b, n), Dot(c.carbs, b, n);
    PenaliseCompleted(MagnitudeWeight, t);
    PenaliseCompleted(CaloriesWeight, d1);
    PenaliseCompleted(ProteinWeight, d2);
    PenaliseCompleted(FatWeight, d3);
    PenaliseCompleted(CarbsWeight, d4);
    SumAboveFloors(Penalise(MagnitudeWeight, t, t), Penalise(CaloriesWeight, d1, d1), Penalise(ProteinWeight, d2, d2),
                   Penalise(FatWeight, d3, d3), Penalise(CarbsWeight, d4, d4),
                   -MagnitudeWeight, -CaloriesWeight, -ProteinWeight, -FatWeight, -CarbsWeight);
  }
}
