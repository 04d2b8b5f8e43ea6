/**
 * The whole optimization model: the magnitude term and the four nutrient
 * terms, added one after the other to an empty model with offset 0.
 *
 * `BuildQubo` is the construction as the optimizer performs it; its energy
 * is `WrittenObjective`. `BuildIntendedQubo` builds the completed squares
 * the labels in the optimizer's comments suggest (every term
 * W * ((sum - 1)^2 - 1)); its energy is `IntendedObjective`. The lemmas at
 * the end state where each objective is least.
 */
module Formulation {
  import opened FixedPoint
  import opened Qubo
  import opened Penalty
  import opened QuboBuilder
  import opened Objective

  /** The normalised calories, protein, fat and carbohydrate coefficient of every ingredient. */
  datatype Coefficients = Coefficients(calories: seq<real>, protein: seq<real>, fat: seq<real>, carbs: seq<real>)

  predicate Sized(c: Coefficients, n: nat) {
    |c.calories| == n && |c.protein| == n && |c.fat| == n && |c.carbs| == n
  }

  /** The coefficients of nutrient term t (1 calories, 2 protein, 3 fat, 4 carbohydrates). */
  function Nutrient(c: Coefficients, t: nat): seq<real>
    requires 1 <= t <= 4
  {
    if t == 1 then c.calories else if t == 2 then c.protein else if t == 3 then c.fat else c.carbs
  }

  function NutrientWeight(t: nat): real
    requires 1 <= t <= 4
  {
    if t == 1 then CaloriesWeight else if t == 2 then ProteinWeight else if t == 3 then FatWeight else CarbsWeight
  }

  /**
   * The energy term t adds as written: the magnitude term (t = 0) with no
   * shift, and each nutrient term with the shift w_j of the optimizer.
   */
  function WrittenTerm(c: Coefficients, n: nat, t: nat, b: seq<bool>): real
    requires Sized(c, n) && t <= 4 && |b| == Var(n, 0)
  {
    if t == 0 then TermEnergy(MagnitudeWeight, BitWeights(n), Constant(Var(n, 0), 0.0), b)
    else TermEnergy(NutrientWeight(t), Amplitudes(Nutrient(c, t)), BitWeights(n), b)
  }

  /** The energy term t adds when every term has the unit shift of a completed square. */
  function IntendedTerm(c: Coefficients, n: nat, t: nat, b: seq<bool>): real
    requires Sized(c, n) && t <= 4 && |b| == Var(n, 0)
  {
    if t == 0 then TermEnergy(MagnitudeWeight, BitWeights(n), Constant(Var(n, 0), 1.0), b)
    else TermEnergy(NutrientWeight(t), Amplitudes(Nutrient(c, t)), Constant(Var(n, 0), 1.0), b)
  }

  /** The energy of the first k terms. */
  function Partial(c: Coefficients, n: nat, b: seq<bool>, k: nat, intended: bool): real
    requires Sized(c, n) && k <= 5 && |b| == Var(n, 0)
  {
    if k == 0 then 0.0
    else Partial(c, n, b, k - 1, intended) + (if intended then IntendedTerm(c, n, k - 1, b) else WrittenTerm(c, n, k - 1, b))
  }

  /**
   * The optimizer's objective in terms of the decoded shares x_i:
   * F * (sum x_i)^2 plus, per nutrient, W * ((sum c_i x_i)^2 - 2 * sum c_i z_i),
   * where z_i sums w_j^2 (not w_j) over the set bits of ingredient i.
   */
  function WrittenObjective(c: Coefficients, n: nat, b: seq<bool>): real
    requires Sized(c, n) && |b| == Var(n, 0)
  {
    Penalise(MagnitudeWeight, Total(b, n), 0.0)
    + Penalise(CaloriesWeight, Dot(c.calories, b, n), SquaredDot(c.calories, b, n))
    + Penalise(ProteinWeight, Dot(c.protein, b, n), SquaredDot(c.protein, b, n))
    + Penalise(FatWeight, Dot(c.fat, b, n), SquaredDot(c.fat, b, n))
    + Penalise(CarbsWeight, Dot(c.carbs, b, n), SquaredDot(c.carbs, b, n))
  }

  /** Every term a completed square: F * ((sum x_i - 1)^2 - 1) plus W * ((sum c_i x_i - 1)^2 - 1) per nutrient. */
  function IntendedObjective(c: Coefficients, n: nat, b: seq<bool>): real
    requires Sized(c, n) && |b| == Var(n, 0)
  {
    Penalise(MagnitudeWeight, Total(b, n), Total(b, n))
    + Penalise(CaloriesWeight, Dot(c.calories, b, n), Dot(c.calories, b, n))
    + Penalise(ProteinWeight, Dot(c.protein, b, n), Dot(c.protein, b, n))
    + Penalise(FatWeight, Dot(c.fat, b, n), Dot(c.fat, b, n))
    + Penalise(CarbsWeight, Dot(c.carbs, b, n), Dot(c.carbs, b, n))
  }

  lemma SumOfFive(p0: real, p1: real, p2: real, p3: real, p4: real, p5: real,
                  t0: real, t1: real, t2: real, t3: real, t4: real)
    requires p0 == 0.0 && p1 == p0 + t0 && p2 == p1 + t1 && p3 == p2 + t2 && p4 == p3 + t3 && p5 == p4 + t4
    ensures p5 == t0 + t1 + t2 + t3 + t4
  {
  }

  lemma WrittenTerms(c: Coefficients, n: nat, b: seq<bool>)
    requires Sized(c, n) && |b| == Var(n, 0)
    ensures Partial(c, n, b, 5, false) == WrittenObjective(c, n, b)
  {
    SumOfFive(Partial(c, n, b, 0, false), Partial(c, n, b, 1, false), Partial(c, n, b, 2, false),
              Partial(c, n, b, 3, false), Partial(c, n, b, 4, false), Partial(c, n, b, 5, false),
              WrittenTerm(c, n, 0, b), WrittenTerm(c, n, 1, b), WrittenTerm(c, n, 2, b),
              WrittenTerm(c, n, 3, b), WrittenTerm(c, n, 4, b));
    MagnitudeEnergy(n, b);
    NutrientEnergy(CaloriesWeight, c.calories, b);
    NutrientEnergy(ProteinWeight, c.protein, b);
    NutrientEnergy(FatWeight, c.fat, b);
    NutrientEnergy(CarbsWeight, c.carbs, b);
  }

  lemma IntendedTerms(c: Coefficients, n: nat, b: seq<bool>)
    requires Sized(c, n) && |b| == Var(n, 0)
    ensures Partial(c, n, b, 5, true) == IntendedObjective(c, n, b)
  {
    SumOfFive(Partial(c, n, b, 0, true), Partial(c, n, b, 1, true), Partial(c, n, b, 2, true),
              Partial(c, n, b, 3, true), Partial(c, n, b, 4, true), Partial(c, n, b, 5, true),
              IntendedTerm(c, n, 0, b), IntendedTerm(c, n, 1, b), IntendedTerm(c, n, 2, b),
              IntendedTerm(c, n, 3, b), IntendedTerm(c, n, 4, b));
    IntendedMagnitudeEnergy(n, b);
    IntendedNutrientEnergy(CaloriesWeight, c.calories, b);
    IntendedNutrientEnergy(ProteinWeight, c.protein, b);
    IntendedNutrientEnergy(FatWeight, c.fat, b);
    IntendedNutrientEnergy(CarbsWeight, c.carbs, b);
  }

  /** An empty model with offset 0 and the 16 variables of each of n ingredients, all with bias 0. */
  method EmptyModel(n: nat) returns (bqm: BinaryQuadraticModel)
    ensures fresh(bqm) && bqm.Valid() && bqm.linear == Constant(Var(n, 0), 0.0)
    ensures bqm.quadratic == map[] && bqm.offset == 0.0
    ensures forall b :: |b| == Var(n, 0) ==> bqm.Energy(b) == 0.0
  {
    bqm := new BinaryQuadraticModel(0.0);
    DeclareVariables(bqm, n);
    forall b | |b| == Var(n, 0)
      ensures bqm.Energy(b) == 0.0
    {
      ZeroModelEnergy(bqm.linear, b, |b|);
    }
  }

  /** A model without variables has no interaction either. */
  lemma NoVariables(bqm: BinaryQuadraticModel)
    requires bqm.Valid() && bqm.linear == []
    ensures bqm.quadratic == map[]
  {
    assert forall e :: e !in bqm.quadratic;
  }

  /**
   * Adds term t (0 magnitude, 1 calories, 2 protein, 3 fat, 4 carbohydrates)
   * to a model that holds the first t terms, written or intended; the model
   * then holds the first t + 1.
   */
  method AddTerm(bqm: BinaryQuadraticModel, c: Coefficients, n: nat, t: nat, intended: bool)
    requires Sized(c, n) && t <= 4 && bqm.Valid() && |bqm.linear| == Var(n, 0)
    requires forall b :: |b| == Var(n, 0) ==> bqm.Energy(b) == Partial(c, n, b, t, intended)
    modifies bqm
    ensures bqm.Valid() && |bqm.linear| == Var(n, 0) && bqm.offset == old(bqm.offset)
    ensures forall b :: |b| == Var(n, 0) ==> bqm.Energy(b) == Partial(c, n, b, t + 1, intended)
  {
    if t == 0 && !intended {
      AddMagnitudeTerm(bqm, n);
    } else {
      var w := if t == 0 then MagnitudeWeight else NutrientWeight(t);
      var a := if t == 0 then BitWeights(n) else Amplitudes(Nutrient(c, t));
      var s := if intended then Constant(Var(n, 0), 1.0) else BitWeights(n);
      AddSquaredTerm(bqm, n, w, a, s);
    }
  }

  /**
   * The optimizer's model: the 16 * n variables, the magnitude term and the
   * calories, protein, fat and carbohydrate terms, in that order. Its energy
   * is the written objective; with no ingredient it has no variable and no
   * interaction.
   */
  method BuildQubo(c: Coefficients, n: nat) returns (bqm: BinaryQuadraticModel)
    requires Sized(c, n)
    ensures fresh(bqm) && bqm.Valid() && |bqm.linear| == Var(n, 0) && bqm.offset == 0.0
    ensures n == 0 ==> bqm.linear == [] && bqm.quadratic == map[]
    ensures forall b :: |b| == Var(n, 0) ==> bqm.Energy(b) == WrittenObjective(c, n, b)
  {
    bqm := EmptyModel(n);
    AddTerm(bqm, c, n, 0, false);
    AddTerm(bqm, c, n, 1, false);
    AddTerm(bqm, c, n, 2, false);
    AddTerm(bqm, c, n, 3, false);
    AddTerm(bqm, c, n, 4, false);
    forall b | |b| == Var(n, 0)
      ensures bqm.Energy(b) == WrittenObjective(c, n, b)
    {
      WrittenTerms(c, n, b);
    }
    if n == 0 {
      NoVariables(bqm);
    }
  }

  /** The same model with the unit shift in every term: the completed squares the comments' labels suggest. */
  method BuildIntendedQubo(c: Coefficients, n: nat) returns (bqm: BinaryQuadraticModel)
    requires Sized(c, n)
    ensures fresh(bqm) && bqm.Valid() && |bqm.linear| == Var(n, 0) && bqm.offset == 0.0
    ensures forall b :: |b| == Var(n, 0) ==> bqm.Energy(b) == IntendedObjective(c, n, b)
  {
    bqm := EmptyModel(n);
    AddTerm(bqm, c, n, 0, true);
    AddTerm(bqm, c, n, 1, true);
    AddTerm(bqm, c, n, 2, true);
    AddTerm(bqm, c, n, 3, true);
    AddTerm(bqm, c, n, 4, true);
    forall b | |b| == Var(n, 0)
      ensures bqm.Energy(b) == IntendedObjective(c, n, b)
    {
      IntendedTerms(c, n, b);
    }
  }
}
