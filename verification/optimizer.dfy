/**
 * The optimizer end to end: per-gram table, per-gram targets,
 * normalisation, the optimization model, decoding of the sampler's
 * assignment, rescaling and the nutrition report.
 *
 * The annealing sampler is not modelled: its lowest-energy assignment is
 * the parameter `sample`, any assignment of the 16 * n declared variables.
 */
module Optimizer {
  import opened Wrappers
  import opened FixedPoint
  import opened Qubo
  import opened Formulation
  import opened IngredientRows
  import opened Nutrition
  import opened Proportions
  import opened Report

  /** What the optimizer returns: the proportions by name, and the nutrition per gram and per batch. */
  datatype Outcome = Outcome(proportions: Table, perGram: Amounts, total: Amounts)

  /** The table after normalisation: every row per gram, then normalised by the per-gram targets. */
  function NormalisedEntries(rows: seq<Row>, g: Goals): (e: seq<Entry>)
    ensures |e| == |rows| && forall i :: 0 <= i < |rows| ==> e[i] == NormaliseEntry(PerGram(rows[i]), g)
  {
    seq(|rows|, i requires 0 <= i < |rows| => NormaliseEntry(PerGram(rows[i]), g))
  }

  function PerGramEntries(rows: seq<Row>): (e: seq<Entry>)
    ensures |e| == |rows| && forall i :: 0 <= i < |rows| ==> e[i] == PerGram(rows[i])
  {
    seq(|rows|, i requires 0 <= i < |rows| => PerGram(rows[i]))
  }

  /** The nutrient coefficients of the model, read off the normalised table. */
  function CoefficientsOf(e: seq<Entry>): (c: Coefficients)
    ensures Sized(c, |e|)
    ensures forall i :: 0 <= i < |e| ==>
              c.calories[i] == e[i].amounts.calories && c.protein[i] == e[i].amounts.protein
              && c.fat[i] == e[i].amounts.fat && c.carbs[i] == e[i].amounts.carbs
  {
    Coefficients(seq(|e|, i requires 0 <= i < |e| => e[i].amounts.calories),
                 seq(|e|, i requires 0 <= i < |e| => e[i].amounts.protein),
                 seq(|e|, i requires 0 <= i < |e| => e[i].amounts.fat),
                 seq(|e|, i requires 0 <= i < |e| => e[i].amounts.carbs))
  }

  /** The proportions the optimizer reports for a sample: decoded, keyed by name and rescaled. */
  function ProportionsOf(e: seq<Entry>, sample: seq<bool>): (t: Table)
    requires |sample| == Var(|e|, 0)
    ensures forall i :: 0 <= i < |e| ==> e[i].name in t.keys
  {
    Rescaled(Keyed(Names(e), Percentages(sample, |e|)))
  }

  /**
   * Runs the optimizer on the input rows and targets, with `sample` as the
   * sampler's answer. A batch weight of 0 fails (division by zero).
   * Otherwise the model handed to the sampler has the written objective as
   * its energy, the proportions are the decoded shares keyed by name and
   * rescaled, the per-gram nutrition is the mix of the restored amounts
   * weighted by those proportions, and the batch totals are the per-gram
   * amounts times the batch weight.
   */
  method OptimizeIngredients(rows: seq<Row>, targets: Targets, sample: seq<bool>)
    returns (result: Result<Outcome, Error>, bqm: BinaryQuadraticModel?)
    requires |sample| == Var(|rows|, 0)
    ensures result.Failure? <==> TotalWeight(targets) == 0.0
    ensures result.Success? ==>
              var g := PerGramGoals(targets).value;
              var e := NormalisedEntries(rows, g);
              && bqm != null && fresh(bqm) && bqm.Valid() && |bqm.linear| == Var(|rows|, 0) && bqm.offset == 0.0
              && (forall b :: |b| == Var(|rows|, 0) ==> bqm.Energy(b) == WrittenObjective(CoefficientsOf(e), |rows|, b))
              && result.value.proportions == ProportionsOf(e, sample)
              && (forall i :: 0 <= i < |e| ==> e[i].name in ProportionsOf(e, sample).keys)
              && (forall n :: result.value.perGram.Get(n) == Mix(e, Weights(e, ProportionsOf(e, sample)), g, n, |e|))
              && result.value.total == Totals(result.value.perGram, TotalWeight(targets))
  {
    var n := |rows|;
    var table := PerGramTable(rows);
    var goals := PerGramGoals(targets);
    if goals.Failure? {
      return Failure(goals.error), null;
    }
    var g := goals.value;
    NormaliseTable(table, g);
    var e := table[..];
    assert e == NormalisedEntries(rows, g);
    bqm := BuildQubo(CoefficientsOf(e), n);
    var keyed := DecodeProportions(Names(e), sample);
    var proportions := Rescale(keyed);
    var perGram := AccumulateNutrition(e, proportions, g);
    result := Success(Outcome(proportions, perGram, Totals(perGram, TotalWeight(targets))));
  }

  /**
   * The reported per-gram nutrition is the weighted sum of the ingredients'
   * per-gram amounts for salt and for every nutrient with a positive target,
   * and 0 for a nutrient whose target is not positive; every batch total is
   * that times the batch weight.
   */
  lemma ReportedNutrition(rows: seq<Row>, g: Goals, w: seq<real>, perGram: Amounts, totalWeight: real, n: Nutrient)
    requires |w| == |rows|
    requires perGram.Get(n) == Mix(NormalisedEntries(rows, g), w, g, n, |rows|)
    ensures perGram.Get(n) == if n == Salt || Goal(g, n) > 0.0 then RawMix(PerGramEntries(rows), w, n, |rows|) else 0.0
    ensures Totals(perGram, totalWeight).Get(n)
            == (if n == Salt || Goal(g, n) > 0.0 then RawMix(PerGramEntries(rows), w, n, |rows|) else 0.0) * totalWeight
  {
    MixUndoesNormalisation(PerGramEntries(rows), NormalisedEntries(rows, g), w, g, n, |rows|);
  }

  /**
   * When no two ingredients share a name and some bit of the sample is set
   * (a positive decoded total), the reported proportions are each in
   * [0, 100], sum to exactly 100, and weigh every ingredient by its own
   * share, so the weights of the report sum to 1.
   */
  lemma ProportionsOfDistinctNames(e: seq<Entry>, sample: seq<bool>)
    requires |sample| == Var(|e|, 0) && Distinct(Names(e))
    requires Sum(Percentages(sample, |e|)) > 0.0
    ensures var t := ProportionsOf(e, sample);
            && t.keys == Names(e)
            && Sum(t.vals) == 100.0
            && (forall k :: 0 <= k < |t.vals| ==> 0.0 <= t.vals[k] <= 100.0)
            && (forall i :: 0 <= i < |e| ==> e[i].name in t.keys)
            && Sum(Weights(e, t)) == 1.0
  {
    var p := Percentages(sample, |e|);
    PercentageBounds(sample, |e|);
    KeyedDistinct(Names(e), p);
    RescaledSum(p);
    RescaledBounds(p);
    NamedWeightsArePositional(e, p);
    PositionalWeightsSumToOne(p);
  }
}
