/**
 * Per-gram nutrient values and their normalisation by the per-gram targets.
 *
 * Every row's per-100 g values become per-gram values (divided by 100).
 * The targets are given per batch of `total_amount` grams (100 when
 * missing; a missing nutrient target is 0) and become per-gram targets.
 * The optimizer then divides each ingredient's calories, protein, fat and
 * carbohydrates by the matching per-gram target, or sets them to 0 when that
 * target is not positive; salt has no target and is left per gram.
 */
module Nutrition {
  import opened Wrappers
  import opened IngredientRows

  datatype Nutrient = Calories | Protein | Fat | Carbs | Salt

  /** The nutrients in the order the report visits them. */
  const Nutrients: seq<Nutrient> := [Calories, Protein, Fat, Carbs, Salt]

  /** An amount of each of the five nutrients. */
  datatype Amounts = Amounts(calories: real, protein: real, fat: real, carbs: real, salt: real) {
    function Get(n: Nutrient): real {
      match n
      case Calories => calories
      case Protein => protein
      case Fat => fat
      case Carbs => carbs
      case Salt => salt
    }

    /** These amounts with nutrient n set to v and every other nutrient unchanged. */
    function Set(n: Nutrient, v: real): (r: Amounts)
      ensures r.Get(n) == v
      ensures forall m :: m != n ==> r.Get(m) == Get(m)
    {
      match n
      case Calories => this.(calories := v)
      case Protein => this.(protein := v)
      case Fat => this.(fat := v)
      case Carbs => this.(carbs := v)
      case Salt => this.(salt := v)
    }
  }

  const NoAmounts: Amounts := Amounts(0.0, 0.0, 0.0, 0.0, 0.0)

  /** One ingredient of the optimizer's table: its name and its nutrients (per gram, later normalised). */
  datatype Entry = Entry(name: string, amounts: Amounts)

  /** The nutrition targets as requested; any of them may be missing. */
  datatype Targets = Targets(calories: Option<real>, protein: Option<real>, fat: Option<real>,
                             carbs: Option<real>, totalAmount: Option<real>)

  /** The per-gram targets of the four optimised nutrients. */
  datatype Goals = Goals(calories: real, protein: real, fat: real, carbs: real)

  datatype Error = ZeroTotalWeight

  /** The batch weight in grams: `total_amount`, 100 when missing. */
  function TotalWeight(t: Targets): (w: real)
    ensures t.totalAmount.None? ==> w == 100.0
    ensures t.totalAmount.Some? ==> w == t.totalAmount.value
  {
    t.totalAmount.GetOr(100.0)
  }

  /** The per-batch target of an optimised nutrient, 0 when missing. */
  function Requested(t: Targets, n: Nutrient): real
    requires n != Salt
  {
    match n
    case Calories => t.calories.GetOr(0.0)
    case Protein => t.protein.GetOr(0.0)
    case Fat => t.fat.GetOr(0.0)
    case Carbs => t.carbs.GetOr(0.0)
  }

  function Goal(g: Goals, n: Nutrient): real
    requires n != Salt
  {
    match n
    case Calories => g.calories
    case Protein => g.protein
    case Fat => g.fat
    case Carbs => g.carbs
  }

  /**
   * The per-gram targets: each requested amount divided by the batch weight.
   * A batch weight of 0 is a division by zero.
   */
  function PerGramGoals(t: Targets): (r: Result<Goals, Error>)
    ensures r.Failure? <==> TotalWeight(t) == 0.0
    ensures r.Success? ==> forall n :: n != Salt ==> Goal(r.value, n) * TotalWeight(t) == Requested(t, n)
  {
    var w := TotalWeight(t);
    if w == 0.0 then Failure(ZeroTotalWeight)
    else Success(Goals(Requested(t, Calories) / w, Requested(t, Protein) / w, Requested(t, Fat) / w, Requested(t, Carbs) / w))
  }

  /** A row's name and its nutrients per gram. */
  function PerGram(r: Row): (e: Entry)
    ensures e.name == r.name
    ensures e.amounts.calories * 100.0 == r.calories && e.amounts.protein * 100.0 == r.protein
    ensures e.amounts.fat * 100.0 == r.fat && e.amounts.carbs * 100.0 == r.carbs && e.amounts.salt * 100.0 == r.salt
  {
    Entry(r.name, Amounts(r.calories / 100.0, r.protein / 100.0, r.fat / 100.0, r.carbs / 100.0, r.salt / 100.0))
  }

  /** Builds the table of per-gram entries, one per row, in row order. */
  method PerGramTable(rows: seq<Row>) returns (table: array<Entry>)
    ensures fresh(table) && table.Length == |rows|
    ensures forall i :: 0 <= i < |rows| ==> table[i] == PerGram(rows[i])
  {
    table := new Entry[|rows|];
    for i := 0 to |rows|
      invariant forall k :: 0 <= k < i ==> table[k] == PerGram(rows[k])
    {
      var row := rows[i];
      table[i] := Entry(row.name, Amounts(row.calories / 100.0, row.protein / 100.0, row.fat / 100.0,
                                          row.carbs / 100.0, row.salt / 100.0));
    }
  }

  /** The normalised coefficient of a per-gram value: value / target when the target is positive, else 0. */
  function Normalise(v: real, goal: real): real {
    if goal > 0.0 then v / goal else 0.0
  }

  /** Undoing the normalisation multiplies by the target again. */
  function Restore(v: real, goal: real): real {
    v * goal
  }

  /**
   * Normalising and then restoring gives back the per-gram value when the
   * target is positive, and 0 otherwise.
   */
  lemma RestoreNormalised(v: real, goal: real)
    ensures Restore(Normalise(v, goal), goal) == if goal > 0.0 then v else 0.0
  {
    if goal > 0.0 {
      assert (v / goal) * goal == v;
    }
  }

  /** The four optimised nutrients normalised, the salt and the name unchanged. */
  function NormaliseEntry(e: Entry, g: Goals): (r: Entry)
    ensures r.name == e.name && r.amounts.salt == e.amounts.salt
    ensures forall n :: n != Salt ==> r.amounts.Get(n) == Normalise(e.amounts.Get(n), Goal(g, n))
  {
    var a := e.amounts;
    Entry(e.name, Amounts(Normalise(a.calories, g.calories), Normalise(a.protein, g.protein),
                          Normalise(a.fat, g.fat), Normalise(a.carbs, g.carbs), a.salt))
  }

  /** The amount of nutrient n a normalised entry stands for: restored by the target, salt as it is. */
  function Restored(e: Entry, g: Goals, n: Nutrient): real {
    if n == Salt then e.amounts.Get(n) else Restore(e.amounts.Get(n), Goal(g, n))
  }

  /**
   * A normalised entry stands for the original per-gram amount of every
   * nutrient whose target is positive and of salt, and for 0 of a nutrient
   * whose target is not positive.
   */
  lemma RestoredEntry(e: Entry, g: Goals, n: Nutrient)
    ensures Restored(NormaliseEntry(e, g), g, n) == if n == Salt || Goal(g, n) > 0.0 then e.amounts.Get(n) else 0.0
  {
    if n != Salt {
      RestoreNormalised(e.amounts.Get(n), Goal(g, n));
    }
  }

  /** Normalises every entry of the table in place. */
  method NormaliseTable(table: array<Entry>, g: Goals)
    modifies table
    ensures forall i :: 0 <= i < table.Length ==> table[i] == NormaliseEntry(old(table[i]), g)
  {
    for i := 0 to table.Length
      invariant forall k :: 0 <= k < i ==> table[k] == NormaliseEntry(old(table[k]), g)
      invariant forall k :: i <= k < table.Length ==> table[k] == old(table[k])
    {
      table[i] := NormaliseEntry(table[i], g);
    }
  }
}
