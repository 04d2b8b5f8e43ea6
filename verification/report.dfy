/**
 * The nutrition report: the nutrients of the mix per gram and per batch.
 *
 * Every ingredient's weight in the mix is the proportion stored under its
 * name, divided by 100. The normalisation of the calories, protein, fat and
 * carbohydrates is undone by multiplying with the per-gram target again;
 * salt was never normalised and is used as it is.
 */
module Report {
  import opened Wrappers
  import opened Nutrition
  import opened Proportions

  /** Ingredient i's weight in the mix: the proportion stored under its name, divided by 100. */
  function Weights(entries: seq<Entry>, t: Table): (w: seq<real>)
    requires Valid(t) && forall i :: 0 <= i < |entries| ==> entries[i].name in t.keys
    ensures |w| == |entries|
    ensures forall i :: 0 <= i < |entries| ==> Lookup(t, entries[i].name) == Some(w[i] * 100.0)
  {
    seq(|entries|, i requires 0 <= i < |entries| => Lookup(t, entries[i].name).value / 100.0)
  }

  /** Ingredient i's weight is the proportion under its name divided by 100. */
  lemma WeightAt(entries: seq<Entry>, t: Table, i: nat)
    requires Valid(t) && forall i :: 0 <= i < |entries| ==> entries[i].name in t.keys
    requires i < |entries|
    ensures Lookup(t, entries[i].name).Some?
    ensures Weights(entries, t)[i] == Lookup(t, entries[i].name).value / 100.0
  {
  }

  /** The amount of nutrient n in the first k ingredients, each restored and weighted. */
  function Mix(entries: seq<Entry>, w: seq<real>, g: Goals, n: Nutrient, k: nat): real
    requires |w| == |entries| && k <= |entries|
  {
    if k == 0 then 0.0 else Mix(entries, w, g, n, k - 1) + Restored(entries[k - 1], g, n) * w[k - 1]
  }

  /** The amount of nutrient n in the first k ingredients, from their per-gram amounts. */
  function RawMix(entries: seq<Entry>, w: seq<real>, n: Nutrient, k: nat): real
    requires |w| == |entries| && k <= |entries|
  {
    if k == 0 then 0.0 else RawMix(entries, w, n, k - 1) + entries[k - 1].amounts.Get(n) * w[k - 1]
  }

  /** The position of a nutrient in the report order. */
  function Index(n: Nutrient): (j: nat)
    ensures j < |Nutrients| && Nutrients[j] == n
  {
    match n
    case Calories => 0
    case Protein => 1
    case Fat => 2
    case Carbs => 3
    case Salt => 4
  }

  /**
   * Adds one ingredient's nutrients, in report order, weighted by its
   * proportion; the four optimised nutrients are multiplied by their
   * per-gram target first.
   */
  method AddIngredient(acc: Amounts, e: Entry, proportion: real, g: Goals) returns (r: Amounts)
    ensures forall n :: r.Get(n) == acc.Get(n) + Restored(e, g, n) * proportion
  {
    r := acc;
    for j := 0 to |Nutrients|
      invariant forall n :: r.Get(n) == acc.Get(n) + (if Index(n) < j then Restored(e, g, n) * proportion else 0.0)
    {
      var nutrient := Nutrients[j];
      var value := e.amounts.Get(nutrient);
      if nutrient == Calories {
        value := value * g.calories;
      } else if nutrient == Protein {
        value := value * g.protein;
      } else if nutrient == Fat {
        value := value * g.fat;
      } else if nutrient == Carbs {
        value := value * g.carbs;
      }
      r := r.Set(nutrient, r.Get(nutrient) + value * proportion);
    }
  }

  /** Adding ingredient i's weighted nutrients to the mix of the first i ingredients gives the mix of the first i + 1. */
  lemma MixStep(entries: seq<Entry>, w: seq<real>, g: Goals, i: nat, proportion: real, before: Amounts, after: Amounts)
    requires |w| == |entries| && i < |entries| && w[i] == proportion
    requires forall n :: before.Get(n) == Mix(entries, w, g, n, i)
    requires forall n :: after.Get(n) == before.Get(n) + Restored(entries[i], g, n) * proportion
    ensures forall n :: after.Get(n) == Mix(entries, w, g, n, i + 1)
  {
  }

  /** Adds ingredient i, weighted by the proportion under its name divided by 100, to the mix of the first i. */
  method AddWeighted(acc: Amounts, entries: seq<Entry>, t: Table, g: Goals, i: nat) returns (r: Amounts)
    requires Valid(t) && forall i :: 0 <= i < |entries| ==> entries[i].name in t.keys
    requires i < |entries|
    requires forall n :: acc.Get(n) == Mix(entries, Weights(entries, t), g, n, i)
    ensures forall n :: r.Get(n) == Mix(entries, Weights(entries, t), g, n, i + 1)
  {
    var proportion := Lookup(t, entries[i].name).value / 100.0;
    WeightAt(entries, t, i);
    r := AddIngredient(acc, entries[i], proportion, g);
    MixStep(entries, Weights(entries, t), g, i, proportion, acc, r);
  }

  /**
   * Adds every ingredient's nutrients, weighted by the proportion stored
   * under its name divided by 100, to the per-gram nutrition of the mix.
   */
  method AccumulateNutrition(entries: seq<Entry>, t: Table, g: Goals) returns (perGram: Amounts)
    requires Valid(t) && forall i :: 0 <= i < |entries| ==> entries[i].name in t.keys
    ensures forall n :: perGram.Get(n) == Mix(entries, Weights(entries, t), g, n, |entries|)
  {
    perGram := NoAmounts;
    for i := 0 to |entries|
      invariant forall n :: perGram.Get(n) == Mix(entries, Weights(entries, t), g, n, i)
    {
      perGram := AddWeighted(perGram, entries, t, g, i);
    }
  }

  /**
   * The report undoes the normalisation: for a nutrient with a positive
   * per-gram target, and for salt, the mix holds the weighted sum of the
   * ingredients' per-gram amounts; for a nutrient whose target is not
   * positive it reports 0.
   */
  lemma {:induction false} MixUndoesNormalisation(raw: seq<Entry>, normalised: seq<Entry>, w: seq<real>,
                                                  g: Goals, n: Nutrient, k: nat)
    requires |raw| == |normalised| == |w| && k <= |raw|
    requires forall i :: 0 <= i < |raw| ==> normalised[i] == NormaliseEntry(raw[i], g)
    ensures Mix(normalised, w, g, n, k) == if n == Salt || Goal(g, n) > 0.0 then RawMix(raw, w, n, k) else 0.0
  {
    if k > 0 {
      MixUndoesNormalisation(raw, normalised, w, g, n, k - 1);
      RestoredEntry(raw[k - 1], g, n);
    }
  }

  /** The batch totals: every per-gram amount times the batch weight. */
  function Totals(perGram: Amounts, totalWeight: real): (r: Amounts)
    ensures forall n :: r.Get(n) == perGram.Get(n) * totalWeight
  {
    Amounts(perGram.calories * totalWeight, perGram.protein * totalWeight, perGram.fat * totalWeight,
            perGram.carbs * totalWeight, perGram.salt * totalWeight)
  }

  function Names(entries: seq<Entry>): (names: seq<string>)
    ensures |names| == |entries| && forall i :: 0 <= i < |entries| ==> names[i] == entries[i].name
  {
    seq(|entries|, i requires 0 <= i < |entries| => entries[i].name)
  }

  /** The weights by position: ingredient i weighs its own rescaled proportion divided by 100. */
  function PositionalWeights(p: seq<real>): (w: seq<real>)
    ensures |w| == |p| && forall i :: 0 <= i < |p| ==> w[i] == RescaledValues(p)[i] / 100.0
  {
    seq(|p|, i requires 0 <= i < |p| => RescaledValues(p)[i] / 100.0)
  }

  /**
   * By position, the weights of a mix whose decoded total is positive sum to
   * 1, so the report is a weighted average of the ingredients.
   */
  lemma PositionalWeightsSumToOne(p: seq<real>)
    requires NonNegative(p) && Sum(p) > 0.0
    ensures Sum(PositionalWeights(p)) == 1.0
  {
    var r, w := RescaledValues(p), PositionalWeights(p);
    RescaledSum(p);
    forall i | 0 <= i < |p|
      ensures w[i] == r[i] * 0.01
    {
    }
    SumScaled(r, w, 0.01);
  }

  /** With no name twice, looking up an ingredient's name finds its own value. */
  lemma LookupDistinct(names: seq<string>, vals: seq<real>, i: nat)
    requires |names| == |vals| && Distinct(names) && i < |names|
    ensures Lookup(Table(names, vals), names[i]) == Some(vals[i])
  {
    IndexOfDistinct(names, names[i], i);
  }

  /** A table holding the names in order with the rescaled proportions gives every ingredient its own share. */
  lemma WeightsOfTable(entries: seq<Entry>, p: seq<real>)
    requires |p| == |entries| && Distinct(Names(entries))
    ensures forall i :: 0 <= i < |entries| ==> entries[i].name in Table(Names(entries), RescaledValues(p)).keys
    ensures Weights(entries, Table(Names(entries), RescaledValues(p))) == PositionalWeights(p)
  {
    var names, r := Names(entries), RescaledValues(p);
    var t := Table(names, r);
    assert forall i :: 0 <= i < |entries| ==> t.keys[i] == entries[i].name;
    var w, positional := Weights(entries, t), PositionalWeights(p);
    forall i | 0 <= i < |entries|
      ensures w[i] == positional[i]
    {
      LookupDistinct(names, r, i);
    }
  }

  /** When no two ingredients share a name, the dictionary of rescaled proportions holds them in order. */
  lemma RescaledKeyedDistinct(names: seq<string>, p: seq<real>)
    requires |p| == |names| && Distinct(names)
    ensures Rescaled(Keyed(names, p)) == Table(names, RescaledValues(p))
  {
    KeyedDistinct(names, p);
  }

  /** When no two ingredients share a name, looking the proportions up by name gives the weights by position. */
  lemma NamedWeightsArePositional(entries: seq<Entry>, p: seq<real>)
    requires |p| == |entries| && Distinct(Names(entries))
    ensures forall i :: 0 <= i < |entries| ==> entries[i].name in Rescaled(Keyed(Names(entries), p)).keys
    ensures Weights(entries, Rescaled(Keyed(Names(entries), p))) == PositionalWeights(p)
  {
    RescaledKeyedDistinct(Names(entries), p);
    WeightsOfTable(entries, p);
  }

  /**
   * Two ingredients with the same name, each decoded at 50%, share one
   * dictionary entry: rescaling turns it into 100%, and the report then
   * weighs each of the two ingredients with the whole mix, so the weights
   * sum to 2. By position, the weights are 1/2 each and sum to 1.
   */
  lemma DuplicateNamesCounterexample(x: Entry, y: Entry)
    requires x.name == y.name
    ensures Rescaled(Keyed([x.name, y.name], [50.0, 50.0])) == Table([x.name], [100.0])
    ensures Weights([x, y], Rescaled(Keyed([x.name, y.name], [50.0, 50.0]))) == [1.0, 1.0]
    ensures Sum(Weights([x, y], Rescaled(Keyed([x.name, y.name], [50.0, 50.0])))) == 2.0
    ensures PositionalWeights([50.0, 50.0]) == [0.5, 0.5]
  {
    var names: seq<string>, p: seq<real> := [x.name, y.name], [50.0, 50.0];
    assert names[..1] == [x.name] && p[..1] == [50.0];
    assert [x.name][..0] == [] && [50.0][..0] == [];
    var none: seq<string>, zero: seq<real> := [], [];
    assert Keyed(none, zero) == Table([], []);
    assert [x.name][..0] == none && [50.0][..0] == zero;
    var one := Keyed([x.name], [50.0]);
    assert one == Store(Table([], []), x.name, 50.0);
    assert one == Table([x.name], [50.0]);
    assert IndexOf([x.name], y.name) == Some(0);
    var keyed := Keyed(names, p);
    assert keyed == Store(one, y.name, 50.0);
    assert keyed == Table([x.name], [50.0]);
    assert Sum([50.0]) == 50.0;
    assert RescaledValues([50.0])[0] == 100.0;
    var t := Rescaled(keyed);
    assert t == Table([x.name], [100.0]);
    var w := Weights([x, y], t);
    assert w[0] == 1.0 && w[1] == 1.0;
    assert w == [1.0, 1.0];
    assert Sum(p) == 100.0;
    assert Sum([1.0, 1.0]) == 2.0 by {
      assert [1.0, 1.0][..1] == [1.0];
    }
    assert RescaledValues(p) == [50.0, 50.0];
  }
}
