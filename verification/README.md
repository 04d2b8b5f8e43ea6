# Food-mix optimizer: a verified model

This project models the optimizer of the food-mix recommender in Dafny. The optimizer is the
function `optimize_ingredients`. Given a list of ingredients with their nutrients per 100 g and a
nutrition target per batch, it picks a proportion for every ingredient. It does this by building
a quadratic unconstrained binary optimization model (a binary quadratic model, or BQM) and
sampling it. The model also covers the row builder `ingredients_json_to_dataframe`, which turns
the ingredient analysis (JSON) into the optimizer's input rows.

The model follows the optimizer step by step:

- **Input rows** (`IngredientRows`): one row per analysed ingredient, in order, at its position,
  with `''` and 0 for missing fields. `IngredientsToRows` is the append loop, and `Rows` states
  what it builds.
- **Per-gram values and normalisation** (`Nutrition`):
  - every per-100 g value is divided by 100, in a table built in place;
  - the batch weight (`total_amount`, 100 when missing) turns the targets into per-gram targets;
    a batch weight of 0 is the division by zero of the original, returned as an error;
  - calories, protein, fat and carbohydrates are divided by their per-gram target, or set to 0
    when that target is not positive; salt is left as it is.
- **Fixed-point encoding** (`FixedPoint`): 16 bits per ingredient. Bit `j` weighs
  `1 / 2^(j+1)`. Variable `16 * i + j` is bit `j` of ingredient `i`.
- **The model container** (`Qubo`): a class with a linear bias per variable, an interaction bias
  per pair `(u, v)` with `u < v`, and an offset. Adding a bias accumulates. The energy of a 0/1
  assignment is `offset + sum lin[v] b[v] + sum q[u,v] b[u] b[v]`.
- **Model construction** (`QuboBuilder`, `Formulation`):
  - every loop nest of the original is a method that accumulates biases;
  - each such method is proved to add a closed-form amount to the energy of every assignment;
  - `Penalty` holds the algebra of one squared term, and `Objective` regroups the sums over
    variables into sums over ingredients.
- **Decoding, rescaling and the report** (`Proportions`, `Report`, `Optimizer`):
  - the sampler's assignment is decoded into a dictionary from ingredient name to percentage;
  - the percentages are rescaled in place to sum to 100 when their total is positive;
  - the nutrition per gram is accumulated, undoing the normalisation, and multiplied by the batch
    weight.

`Optimizer.OptimizeIngredients` chains all of these steps. The annealing sampler is not modelled:
its answer is a parameter, which can be any assignment of the declared variables.

The original labels its weights as the calorie, protein, fat and carbohydrate errors and as the
"total 100%" constraint. The terms it expands are not least at a zero error or at a total of
100%. `BuildQubo` is the construction as written. `BuildIntendedQubo` builds every term as the completed square
`W * ((sum - 1)^2 - 1)`, which is least exactly there. The difference is recorded under
"## Findings".

The code checks neither zero ingredients nor a batch weight `<= 0`. With zero ingredients it
declares no variables. A negative batch weight is used as it is. Only a batch weight of exactly 0
fails, at the division (quantum_optimizer.py:29). The model follows the code.

## Model

| member | source | states |
|---|---|---|
| IngredientRows.Rows | food-optimizer/backend/openai_analyzer.py:54-66 | one row per ingredient, in order; row k has position k; a missing `ingredients` key gives no rows; a missing name or category gives `''`; a missing `estimated_nutrition`, or a missing nutrient inside it, gives 0; present fields are copied unchanged |
| IngredientRows.IngredientsToRows | food-optimizer/backend/openai_analyzer.py:54-66 | the append loop builds exactly `Rows(data)` |
| IngredientRows.RowsRoundTrip | integrated_app/openai_analyzer.py:79-91 | rows written out with every field present and read back by the row builder come back unchanged; the builder loses nothing |
| IngredientRows.RowOf | integrated_app/openai_analyzer.py:81-90 | the row of one ingredient has position k; a missing name or category is `''`; a missing nutrient or `estimated_nutrition` is 0; present fields are copied unchanged |
| Nutrition.PerGramTable | food-optimizer/backend/quantum_optimizer.py:16-26 | the table has one entry per row, in order: the row's name and each nutrient divided by 100 |
| Nutrition.PerGram | food-optimizer/backend/quantum_optimizer.py:19-26 | each per-gram value times 100 is the per-100 g value; the name is kept |
| Nutrition.TotalWeight | food-optimizer/backend/quantum_optimizer.py:28 | the batch weight is `total_amount` when present and 100 when missing |
| Nutrition.Requested | food-optimizer/backend/quantum_optimizer.py:11-14 | computes the per-batch target of calories, protein, fat or carbohydrates, 0 when missing; PerGramGoals states what is made of it |
| Nutrition.PerGramGoals | food-optimizer/backend/quantum_optimizer.py:11-14 | fails exactly when the batch weight (`total_amount`, default 100) is 0; otherwise each per-gram target times the batch weight is the requested amount, 0 when missing |
| Nutrition.NormaliseTable | food-optimizer/backend/quantum_optimizer.py:34-39 | every entry of the table is replaced in place by its normalised form |
| Nutrition.Normalise | food-optimizer/backend/quantum_optimizer.py:36-39 | computes value / target when the target is positive and 0 otherwise; RestoreNormalised is its partner |
| Nutrition.Restore | food-optimizer/backend/quantum_optimizer.py:183-190 | computes a normalised value times its target, the report's undoing of Normalise; RestoreNormalised states when it gives the per-gram value back |
| Nutrition.NormaliseEntry | food-optimizer/backend/quantum_optimizer.py:36-39 | name and salt unchanged; each optimised nutrient becomes value / target when the target is positive, else 0 |
| Nutrition.RestoreNormalised | food-optimizer/backend/quantum_optimizer.py:36-39 | multiplying a normalised value by its target gives the per-gram value back when the target is positive, and 0 otherwise |
| Nutrition.RestoredEntry | food-optimizer/backend/quantum_optimizer.py:182-190 | the report's restored amount of a normalised entry is the per-gram amount for salt and for every nutrient with a positive target, and 0 for the others |
| FixedPoint.Weight | food-optimizer/backend/quantum_optimizer.py:56-57 | each bit weight lies in (0, 1/2] |
| FixedPoint.WeightIsPower | food-optimizer/backend/quantum_optimizer.py:56-57 | bit j weighs exactly `1 / 2^(j+1)` |
| FixedPoint.WeightTable | food-optimizer/backend/quantum_optimizer.py:47 | 16 bit weights per ingredient, entry j being bit j's weight |
| FixedPoint.VarSplit | food-optimizer/backend/quantum_optimizer.py:51-54 | variable 16 * i + j names bit j of ingredient i and no other pair |
| FixedPoint.BitSquare | food-optimizer/backend/quantum_optimizer.py:48 | a binary variable equals its own square |
| FixedPoint.DecodePrefix | food-optimizer/backend/quantum_optimizer.py:160-163 | computes the sum of the weights of ingredient i's set bits among its first k bits; DecodePrefixBounds and DecodePrefixZero state its range |
| FixedPoint.Decode | food-optimizer/backend/quantum_optimizer.py:159-163 | computes ingredient i's share from all 16 of its bits; DecodeBounds states its range |
| FixedPoint.DecodePrefixBounds | food-optimizer/backend/quantum_optimizer.py:160-163 | after k bits the decoded share is in [0, 1 - 2 * 2^-(k+1)] |
| FixedPoint.DecodeBounds | food-optimizer/backend/quantum_optimizer.py:159-163 | every decoded share is in [0, 1 - 2^-16] |
| FixedPoint.DecodePrefixZero | food-optimizer/backend/quantum_optimizer.py:160-163 | with none of its bits set, an ingredient decodes to 0 |
| Qubo.BinaryQuadraticModel.constructor | food-optimizer/backend/quantum_optimizer.py:48 | an empty model with the given offset |
| Qubo.BinaryQuadraticModel.AddVariable | food-optimizer/backend/quantum_optimizer.py:54 | adds the bias to a declared variable's linear bias, or declares the next variable with it; nothing else changes |
| Qubo.BinaryQuadraticModel.AddInteraction | food-optimizer/backend/quantum_optimizer.py:65 | adds the bias to the pair stored as (smaller, larger), starting from 0; nothing else changes |
| Qubo.AllZeroEnergy | food-optimizer/backend/quantum_optimizer.py:48 | every bias is multiplied by a variable, so the all-zero assignment has exactly the offset as its energy |
| Qubo.ZeroModelEnergy | food-optimizer/backend/quantum_optimizer.py:51-54 | a model whose variables were declared with bias 0 and no interaction has energy `offset` everywhere |
| Formulation.EmptyModel | food-optimizer/backend/quantum_optimizer.py:48-54 | the model after declaration has 16 * n variables with bias 0, no interaction, offset 0, energy 0 everywhere |
| QuboBuilder.DeclareVariables | food-optimizer/backend/quantum_optimizer.py:51-54 | declares 16 * n variables in order, each with bias 0 |
| Formulation.NoVariables | food-optimizer/backend/quantum_optimizer.py:51-54 | a valid model with no variables has no interaction |
| QuboBuilder.AddMagnitudeTerm | food-optimizer/backend/quantum_optimizer.py:59-73 | the two loop nests of the magnitude term add `F * (sum_v w_v b_v)^2` (no linear part) to the energy of every assignment |
| QuboBuilder.AddMagnitudeWithin | food-optimizer/backend/quantum_optimizer.py:60-65 | the body of the first nest for ingredient i moves the progress of the term past all of i's bits |
| QuboBuilder.AddMagnitudeVariable | food-optimizer/backend/quantum_optimizer.py:61-65 | `F * w_j^2` on bit j and `2 * F * w_j * w_k` on each later bit k of the same ingredient, moving the progress one variable on |
| QuboBuilder.AddMagnitudeAcross | food-optimizer/backend/quantum_optimizer.py:68-73 | the body of the second nest for ingredient i adds every pair between its bits and a later ingredient's bits |
| QuboBuilder.AddSquaredTerm | food-optimizer/backend/quantum_optimizer.py:77-94 | one nutrient loop nest adds `w a_u (a_u - 2 s_u)` to every variable and `2 w a_u a_v` to every pair, hence `W * ((sum a b)^2 - 2 * sum a s b)` to the energy |
| QuboBuilder.AddIngredientTerm | food-optimizer/backend/quantum_optimizer.py:78-94 | the outer loop body for ingredient i moves the term's progress past all of i's bits |
| QuboBuilder.AddVariableTerm | food-optimizer/backend/quantum_optimizer.py:79-94 | for one bit: its linear bias, then its pairs inside the ingredient and across later ingredients |
| QuboBuilder.AddWithinPairs | food-optimizer/backend/quantum_optimizer.py:84-87 | adds every pair between bit j of ingredient i and a later bit of the same ingredient |
| QuboBuilder.AddAcrossPairs | food-optimizer/backend/quantum_optimizer.py:89-94 | adds every pair between bit j of ingredient i and every bit of every later ingredient |
| QuboBuilder.AddRowPairs | food-optimizer/backend/quantum_optimizer.py:91-94 | the innermost loop: adds the pairs from u to bits k.. 15 of ingredient m, in order |
| QuboBuilder.AddPair | food-optimizer/backend/quantum_optimizer.py:93-94 | adds `2 w a_u a_v` to the pair (u, v) at the cursor |
| QuboBuilder.ProgressDone | food-optimizer/backend/quantum_optimizer.py:77-94 | when the loops finish, every variable and every pair has received the term's bias |
| QuboBuilder.BitWeights | food-optimizer/backend/quantum_optimizer.py:61-64 | the amplitude of variable 16 * i + j in the magnitude term is bit j's weight |
| QuboBuilder.Amplitudes | food-optimizer/backend/quantum_optimizer.py:79-81 | the amplitude of variable 16 * i + j in a nutrient term is `c_i * w_j` |
| Penalty.LinearDelta | food-optimizer/backend/quantum_optimizer.py:81-82 | adding the term's linear biases adds the term's linear energy |
| Penalty.ColumnDelta | food-optimizer/backend/quantum_optimizer.py:86-94 | adding the term's interactions to one column adds that column's interaction energy |
| Penalty.QuadraticDelta | food-optimizer/backend/quantum_optimizer.py:84-94 | adding the term's interactions adds its whole interaction energy |
| Penalty.TermLinearClosed | food-optimizer/backend/quantum_optimizer.py:81-82 | the linear energy of a term is `W * (sum a^2 b - 2 * sum a s b)` |
| Penalty.TermColumnClosed | food-optimizer/backend/quantum_optimizer.py:86-94 | one column of interactions gives `2 W a_v b_v * sum_{u<v} a_u b_u` |
| Penalty.TermQuadraticClosed | food-optimizer/backend/quantum_optimizer.py:84-94 | all interactions give `W * ((sum a b)^2 - sum a^2 b)` over 0/1 variables |
| Penalty.TermEnergyClosed | food-optimizer/backend/quantum_optimizer.py:77-94 | linear plus interaction energy is `W * ((sum a b)^2 - 2 * sum a s b)` |
| Penalty.EnergyDelta | food-optimizer/backend/quantum_optimizer.py:77-94 | a model changed by exactly the term's biases gains exactly the term's energy, for every assignment |
| Penalty.PenaliseUnshifted | food-optimizer/backend/quantum_optimizer.py:59-73 | an unshifted term is `W * sum^2`; for W > 0 its least value 0 is reached exactly at sum 0 |
| Penalty.PenaliseCompleted | food-optimizer/backend/quantum_optimizer.py:77-81 | a unit-shifted term is `W * ((sum - 1)^2 - 1)`; for W > 0 its least value -W is reached exactly at sum 1 |
| Objective.AmpSumBlock | food-optimizer/backend/quantum_optimizer.py:159-163 | a sum over the bits of ingredient i of `c_i w_j b` is `c_i` times the partial decoded share |
| Objective.AmpSumRows | food-optimizer/backend/quantum_optimizer.py:159-163 | a sum over variables of `c_i w_j b` is the sum over ingredients of `c_i` times their block sums |
| Objective.DecodeAsBlockSum | food-optimizer/backend/quantum_optimizer.py:159-163 | the decode loop's partial share is the weighted block sum of the ingredient's bits |
| Objective.AmpSumIsDot | food-optimizer/backend/quantum_optimizer.py:79-81 | the amplitude sum of a nutrient term is `sum_i c_i x_i`, with x_i the decoded share |
| Objective.AmpSumIsTotal | food-optimizer/backend/quantum_optimizer.py:61-62 | the amplitude sum of the magnitude term is `sum_i x_i` |
| Objective.ShiftSumIsSquaredDot | food-optimizer/backend/quantum_optimizer.py:81 | the shift sum of a written nutrient term is `sum_i c_i z_i`, where z_i sums `w_j^2` over the set bits |
| Objective.SquaredRegroup | food-optimizer/backend/quantum_optimizer.py:81 | the product of a nutrient amplitude `c_i w_j` and the written shift `w_j` is `c_i w_j^2` |
| Objective.MagnitudeEnergy | food-optimizer/backend/quantum_optimizer.py:59-73 | the magnitude term's energy is `F * (sum_i x_i)^2` |
| Objective.IntendedMagnitudeEnergy | food-optimizer/backend/quantum_optimizer.py:45 | with a unit shift, the magnitude term's energy is `F * ((sum x)^2 - 2 * sum x)` |
| Objective.NutrientEnergy | food-optimizer/backend/quantum_optimizer.py:77-94 | a written nutrient term's energy is `W * ((sum c x)^2 - 2 * sum c z)` |
| Objective.IntendedNutrientEnergy | food-optimizer/backend/quantum_optimizer.py:81 | with a unit shift, a nutrient term's energy is `W * ((sum c x)^2 - 2 * sum c x)` |
| Formulation.AddTerm | food-optimizer/backend/quantum_optimizer.py:59-151 | adding term t to a model whose energy is that of the first t terms gives the energy of the first t + 1 |
| Formulation.WrittenTerms | food-optimizer/backend/quantum_optimizer.py:59-151 | the five terms together are the written objective |
| Formulation.IntendedTerms | food-optimizer/backend/quantum_optimizer.py:41-45 | the five unit-shifted terms together are the intended objective |
| Formulation.BuildQubo | food-optimizer/backend/quantum_optimizer.py:48-151 | the model has 16 * n variables and offset 0, no variables for n = 0, and for every assignment its energy is `F (sum x)^2 + sum_n W_n ((sum c x)^2 - 2 sum c z)` |
| Formulation.BuildIntendedQubo | food-optimizer/backend/quantum_optimizer.py:41-45 | the corrected construction: for every assignment its energy is the sum of the five completed squares `W ((sum - 1)^2 - 1)` |
| Minima.WrittenMagnitudeMinimum | food-optimizer/backend/quantum_optimizer.py:59-73 | the written magnitude term is never negative and is 0 exactly when the shares sum to 0, as for the empty mix |
| Minima.WrittenMagnitudeCounterexample | food-optimizer/backend/quantum_optimizer.py:59-73 | two ingredients at 50% each (a whole mix) cost 100; the empty mix costs 0 |
| Minima.WrittenNutrientCounterexample | food-optimizer/backend/quantum_optimizer.py:81 | one ingredient with coefficient 2 at share 1/2 meets its target exactly, yet as written its term costs 0, the same as the empty mix; with the unit shift it costs -1 against 0 |
| Minima.IntendedObjectiveMinimum | food-optimizer/backend/quantum_optimizer.py:41-45 | the corrected objective is at least `-(F + A + B + C + D)` and equals it exactly when the shares sum to 1 and every nutrient target is met |
| Minima.HalfShare | food-optimizer/backend/quantum_optimizer.py:159-163 | the assignment with only bit 0 set decodes every ingredient to 1/2 |
| Proportions.DecodeShare | food-optimizer/backend/quantum_optimizer.py:160-163 | the loop over an ingredient's bits computes its decoded share |
| Proportions.DecodeProportions | food-optimizer/backend/quantum_optimizer.py:158-164 | the dictionary is built by storing each ingredient's share times 100 under its name, in order |
| Proportions.Percentages | food-optimizer/backend/quantum_optimizer.py:164 | ingredient i's percentage is its decoded share times 100 |
| Proportions.PercentageBounds | food-optimizer/backend/quantum_optimizer.py:164 | before rescaling every percentage is in [0, 100 * (1 - 2^-16)] |
| Proportions.Lookup | food-optimizer/backend/quantum_optimizer.py:180 | the value stored under a name, and nothing exactly when the name is not a key |
| Proportions.Store | food-optimizer/backend/quantum_optimizer.py:164 | computes `t[k] = v`: replaces k's value when k is a key, appends k otherwise; StoreLookup states its effect |
| Proportions.StoreLookup | food-optimizer/backend/quantum_optimizer.py:164 | storing under a name keeps the key order, appends a new key, and changes only that name's value |
| Proportions.KeyedLookup | food-optimizer/backend/quantum_optimizer.py:164 | a name maps to the value of its last occurrence, and a name never stored is absent |
| Proportions.KeyedDistinct | food-optimizer/backend/quantum_optimizer.py:164 | with no name twice, the dictionary holds the names in order with their own values |
| Proportions.Keyed | food-optimizer/backend/quantum_optimizer.py:164 | the dictionary's keys are exactly the names |
| Proportions.Rescale | food-optimizer/backend/quantum_optimizer.py:166-169 | the in-place loop leaves the keys and rescales every value to value / total * 100 when the total is positive, and changes nothing otherwise |
| Proportions.Sum | food-optimizer/backend/quantum_optimizer.py:166 | computes the total of the proportions, left to right; SumScaled and SumZero state its properties |
| Proportions.RescaledValues | food-optimizer/backend/quantum_optimizer.py:166-169 | one value per proportion, and with a total of 0 or less every proportion unchanged |
| Proportions.Rescaled | food-optimizer/backend/quantum_optimizer.py:166-169 | the dictionary keeps its keys in order and has its values rescaled; Rescale is the in-place loop proved equal to it |
| Proportions.RescaledSum | food-optimizer/backend/quantum_optimizer.py:166-169 | with a positive total, the rescaled proportions sum to exactly 100 |
| Proportions.RescaledBounds | food-optimizer/backend/quantum_optimizer.py:166-169 | with non-negative proportions and a positive total, each rescaled proportion is in [0, 100] |
| Proportions.RescaledRatios | food-optimizer/backend/quantum_optimizer.py:166-169 | rescaling keeps the ratio between every two proportions |
| Proportions.RescaledZero | food-optimizer/backend/quantum_optimizer.py:166-167 | with a total of 0, every proportion is 0 and stays 0 |
| Proportions.RescaledAsScaled | food-optimizer/backend/quantum_optimizer.py:169 | rescaling multiplies every proportion by 100 / total |
| Proportions.SumScaled | food-optimizer/backend/quantum_optimizer.py:166 | scaling every value by f scales the sum by f |
| Proportions.SumZero | food-optimizer/backend/quantum_optimizer.py:166-167 | non-negative values with sum 0 are all 0 |
| Report.AddIngredient | food-optimizer/backend/quantum_optimizer.py:181-192 | adds each nutrient of one ingredient times its proportion; the four optimised nutrients are first multiplied by their per-gram target, salt is not |
| Report.AddWeighted | food-optimizer/backend/quantum_optimizer.py:180-192 | one ingredient, weighted by its stored proportion / 100, extends the mix by one ingredient |
| Report.Mix | food-optimizer/backend/quantum_optimizer.py:171-192 | computes the amount of a nutrient in the first k ingredients, each restored and weighted; MixUndoesNormalisation states what it equals |
| Report.AccumulateNutrition | food-optimizer/backend/quantum_optimizer.py:171-192 | the per-gram nutrition is the mix of the restored amounts, each ingredient weighted by the proportion stored under its name divided by 100 |
| Report.Weights | food-optimizer/backend/quantum_optimizer.py:180 | ingredient i's weight times 100 is the proportion stored under its name |
| Report.MixUndoesNormalisation | food-optimizer/backend/quantum_optimizer.py:182-192 | the mix is the weighted sum of the per-gram amounts for salt and for every nutrient with a positive target, and 0 for the others |
| Report.Totals | food-optimizer/backend/quantum_optimizer.py:198-200 | each batch total is the per-gram amount times the batch weight |
| Report.PositionalWeightsSumToOne | food-optimizer/backend/quantum_optimizer.py:166-180 | with a positive total, the weights by position sum to 1 |
| Report.NamedWeightsArePositional | food-optimizer/backend/quantum_optimizer.py:164-180 | with distinct names, looking the proportions up by name gives every ingredient its own rescaled share |
| Report.DuplicateNamesCounterexample | food-optimizer/backend/quantum_optimizer.py:164-180 | two ingredients with the same name at 50% each collapse into one 100% entry, and the report's weights sum to 2 instead of 1 |
| Optimizer.OptimizeIngredients | food-optimizer/backend/quantum_optimizer.py:5-204 | fails exactly when the batch weight is 0; otherwise the model has 16 * n variables, offset 0 and the written objective as its energy, the proportions are the decoded shares keyed by name and rescaled, the per-gram nutrition is the weighted mix, and the totals are per gram times the batch weight |
| Optimizer.ReportedNutrition | food-optimizer/backend/quantum_optimizer.py:171-200 | the reported per-gram nutrition is the weighted sum of the per-gram amounts for salt and positive-target nutrients, 0 for the others, and each total is that times the batch weight |
| Optimizer.ProportionsOf | food-optimizer/backend/quantum_optimizer.py:158-169 | the reported proportions have every ingredient's name as a key |
| Optimizer.ProportionsOfDistinctNames | food-optimizer/backend/quantum_optimizer.py:158-180 | with distinct names and a positive decoded total, the reported proportions have the names as keys, are each in [0, 100], sum to 100, and their weights sum to 1 |
| Optimizer.NormalisedEntries | food-optimizer/backend/quantum_optimizer.py:16-39 | entry i is row i per gram, then normalised |
| Optimizer.CoefficientsOf | food-optimizer/backend/quantum_optimizer.py:79-147 | the model's nutrient coefficients are the normalised table's values |

## Left out

- The simulated-annealing sampler (`SASampler().sample(...)` and `sampleset.first`) is not
  modelled. It is a stochastic foreign library. Its answer is a parameter that can be any
  assignment of the 16 * n declared variables, so no property depends on the sample being optimal.
- The model container's library internals (variable labels `q_i_j`, the vartype, its storage)
  are replaced by a class holding a sequence and a map indexed by the flattened variable number.
  Only its accumulate-on-add behaviour is kept.
- Floating point is modelled as exact reals. "Sums to 100" and the cancellations in the energy
  hold exactly in the model and only approximately in the original.
- JSON `null` is not distinguished from a missing key; both read as the default. In the
  original, a `null` nutrient in a column that also holds numbers becomes NaN in the data frame.
  That NaN flows through the division by 100 into the biases without an error. A `null`
  `estimated_nutrition`, a `null` `ingredients`, or a nutrient column whose every value is `null`
  raises an error instead.
- The sampler's behaviour on a model with no variables (zero ingredients), and that of
  `sampleset.first` on its answer, is not modelled. The model only states that no variable is
  declared.
- The pandas `DataFrame` wrapper, its index and `iterrows` are not modelled. The rows are a
  sequence and the optimizer's table is indexed by position, which matches the default index.
- The text-extraction service calls (`extract_ingredients_from_text`), environment variables,
  HTTP and serverless handlers, the mock responses and the browser front end are not part of
  this model.
- Optimizer.OptimizeIngredients: does not state which model the sampler receives beyond its
  energy function. Two models with the same energy on every assignment are not told apart.
- Proportions.RescaledValues: its own contract states only the length and that a total of 0 or
  less changes nothing. What rescaling computes with a positive total is stated by
  RescaledAsScaled, RescaledSum, RescaledBounds, RescaledRatios and RescaledZero.

## Findings

| source | as written | input that shows it | evidently intended | confidence | as-written member | corrected member |
|---|---|---|---|---|---|---|
| food-optimizer/backend/quantum_optimizer.py:81 | the linear bias is `A * (c w_j) * (c w_j - 2 w_j)`, so the term is `(sum c x)^2 - 2 * sum c z` with `z` summing `w_j^2`; the same holds at lines 100, 119 and 138 | one ingredient with normalised calories 2 and only bit 0 set (share 1/2) meets the target exactly, yet its calorie term is 0, the same as the empty mix | `A * (c w_j) * (c w_j - 2)`, the expansion of `A * ((sum c x - 1)^2 - 1)`, least exactly at the target | high, not executed | Minima.WrittenNutrientCounterexample | Formulation.BuildIntendedQubo, Minima.IntendedObjectiveMinimum |
| food-optimizer/backend/quantum_optimizer.py:59-73 | the magnitude term adds `F w_j^2` and `2 F w_j w_k`, which is `F * (sum x)^2` with no linear part, least at the empty mix | two ingredients at 50% each make a whole mix and cost 100; setting no bit at all costs 0 | `F * ((sum x - 1)^2 - 1)`, least exactly when the shares sum to 100% | high, not executed | Minima.WrittenMagnitudeCounterexample | Formulation.BuildIntendedQubo, Minima.IntendedObjectiveMinimum |
| food-optimizer/backend/quantum_optimizer.py:164 | proportions are stored under the ingredient's name, so two ingredients with the same name share one entry, and the report weighs each of them with that shared entry | two ingredients both named "x", each decoded at 50%: the one entry is rescaled to 100%, and both are weighted 1, so the weights sum to 2 | every ingredient weighted by its own share, so the weights sum to 1 | medium, not executed | Report.DuplicateNamesCounterexample | Report.NamedWeightsArePositional, Report.PositionalWeightsSumToOne |

The rest of the model keeps the written construction (`BuildQubo`) inside `OptimizeIngredients`,
so it stays faithful to the code. The corrected construction `BuildIntendedQubo` and its minimum
are proved beside it.
