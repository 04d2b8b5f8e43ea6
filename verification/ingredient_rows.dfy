/**
 * The optimizer's input rows, built from the ingredient analysis.
 *
 * The analysis is a JSON object whose optional `ingredients` list holds one
 * object per ingredient, with optional `name`, `category` and
 * `estimated_nutrition` (itself with optional calories, protein, fat, carbs
 * and salt per 100 g). A missing key is `None`; every missing value takes
 * its default ('' or 0).
 */
module IngredientRows {
  import opened Wrappers

  datatype NutritionJson = NutritionJson(calories: Option<real>, protein: Option<real>, fat: Option<real>,
                                         carbs: Option<real>, salt: Option<real>)

  datatype IngredientJson = IngredientJson(name: Option<string>, category: Option<string>,
                                           estimatedNutrition: Option<NutritionJson>)

  datatype AnalysisJson = AnalysisJson(ingredients: Option<seq<IngredientJson>>)

  /** One input row: an ingredient, its position in the analysis and its nutrients per 100 g. */
  datatype Row = Row(name: string, category: string, position: nat,
                     calories: real, protein: real, fat: real, carbs: real, salt: real)

  /** The analysed ingredients, none when the `ingredients` key is missing. */
  function Ingredients(data: AnalysisJson): seq<IngredientJson> {
    data.ingredients.GetOr([])
  }

  /** An absent `estimated_nutrition` reads as an empty object: every nutrient missing. */
  function NutritionOf(ing: IngredientJson): NutritionJson {
    ing.estimatedNutrition.GetOr(NutritionJson(None, None, None, None, None))
  }

  /**
   * The row of the ingredient at position k: a missing name or category is
   * '', a missing nutrient (or a missing `estimated_nutrition`) is 0, and a
   * present field is copied unchanged.
   */
  function RowOf(ing: IngredientJson, k: nat): (r: Row)
    ensures r.position == k
    ensures (ing.name.Some? ==> r.name == ing.name.value) && (ing.name.None? ==> r.name == "")
    ensures (ing.category.Some? ==> r.category == ing.category.value) && (ing.category.None? ==> r.category == "")
    ensures var nu := ing.estimatedNutrition;
            && (nu.None? ==> r.calories == r.protein == r.fat == r.carbs == r.salt == 0.0)
            && (nu.Some? ==> r.calories == nu.value.calories.GetOr(0.0) && r.protein == nu.value.protein.GetOr(0.0)
                             && r.fat == nu.value.fat.GetOr(0.0) && r.carbs == nu.value.carbs.GetOr(0.0)
                             && r.salt == nu.value.salt.GetOr(0.0))
  {
    var nu := NutritionOf(ing);
    Row(ing.name.GetOr(""), ing.category.GetOr(""), k,
        nu.calories.GetOr(0.0), nu.protein.GetOr(0.0), nu.fat.GetOr(0.0), nu.carbs.GetOr(0.0), nu.salt.GetOr(0.0))
  }

  /**
   * The rows of an analysis: one per ingredient, in order, row k at
   * position k, each missing field at its default and every present field
   * copied unchanged.
   */
  function Rows(data: AnalysisJson): (rows: seq<Row>)
    ensures |rows| == |Ingredients(data)|
    ensures data.ingredients.None? ==> rows == []
    ensures forall k :: 0 <= k < |rows| ==> rows[k].position == k
    ensures forall k :: 0 <= k < |rows| ==>
              var ing := Ingredients(data)[k];
              && (ing.name.Some? ==> rows[k].name == ing.name.value)
              && (ing.name.None? ==> rows[k].name == "")
              && (ing.category.Some? ==> rows[k].category == ing.category.value)
              && (ing.category.None? ==> rows[k].category == "")
    ensures forall k :: 0 <= k < |rows| ==>
              var nu := Ingredients(data)[k].estimatedNutrition;
              && (nu.None? ==> rows[k].calories == rows[k].protein == rows[k].fat == rows[k].carbs == rows[k].salt == 0.0)
              && (nu.Some? && nu.value.calories.Some? ==> rows[k].calories == nu.value.calories.value)
              && (nu.Some? && nu.value.calories.None? ==> rows[k].calories == 0.0)
              && (nu.Some? && nu.value.protein.Some? ==> rows[k].protein == nu.value.protein.value)
              && (nu.Some? && nu.value.protein.None? ==> rows[k].protein == 0.0)
              && (nu.Some? && nu.value.fat.Some? ==> rows[k].fat == nu.value.fat.value)
              && (nu.Some? && nu.value.fat.None? ==> rows[k].fat == 0.0)
              && (nu.Some? && nu.value.carbs.Some? ==> rows[k].carbs == nu.value.carbs.value)
              && (nu.Some? && nu.value.carbs.None? ==> rows[k].carbs == 0.0)
              && (nu.Some? && nu.value.salt.Some? ==> rows[k].salt == nu.value.salt.value)
              && (nu.Some? && nu.value.salt.None? ==> rows[k].salt == 0.0)
  {
    var ings := Ingredients(data);
    seq(|ings|, k requires 0 <= k < |ings| => RowOf(ings[k], k))
  }

  /** The analysis entry that carries every field of a row. */
  function JsonOf(r: Row): IngredientJson {
    IngredientJson(Some(r.name), Some(r.category),
                   Some(NutritionJson(Some(r.calories), Some(r.protein), Some(r.fat), Some(r.carbs), Some(r.salt))))
  }

  function JsonOfAll(rows: seq<Row>): (js: seq<IngredientJson>)
    ensures |js| == |rows| && forall k :: 0 <= k < |rows| ==> js[k] == JsonOf(rows[k])
  {
    seq(|rows|, k requires 0 <= k < |rows| => JsonOf(rows[k]))
  }

  /**
   * Rows survive a round trip through the analysis format: writing every
   * field of rows numbered 0, 1, ... and reading them back gives the same
   * rows.
   */
  lemma RowsRoundTrip(rows: seq<Row>)
    requires forall k :: 0 <= k < |rows| ==> rows[k].position == k
    ensures Rows(AnalysisJson(Some(JsonOfAll(rows)))) == rows
  {
    var back := Rows(AnalysisJson(Some(JsonOfAll(rows))));
    assert |back| == |rows|;
    forall k | 0 <= k < |rows|
      ensures back[k] == rows[k]
    {
    }
  }

  /** Builds the rows one ingredient at a time, appending each in turn. */
  method IngredientsToRows(data: AnalysisJson) returns (rows: seq<Row>)
    ensures rows == Rows(data)
  {
    var ings := Ingredients(data);
    rows := [];
    for i := 0 to |ings|
      invariant rows == Rows(AnalysisJson(Some(ings[..i])))
    {
      var ingredient := ings[i];
      var nutrition := NutritionOf(ingredient);
      rows := rows + [Row(ingredient.name.GetOr(""), ingredient.category.GetOr(""), i,
                          nutrition.calories.GetOr(0.0), nutrition.protein.GetOr(0.0), nutrition.fat.GetOr(0.0),
                          nutrition.carbs.GetOr(0.0), nutrition.salt.GetOr(0.0))];
    }
    assert ings[..|ings|] == ings;
  }
}
