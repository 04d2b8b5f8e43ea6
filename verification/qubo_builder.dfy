/**
 * Construction of the optimizer's objective as a binary quadratic model.
 *
 * The model first declares the 16 variables of every ingredient, then adds
 * the magnitude term (two loop nests: pairs inside one ingredient, then
 * pairs across ingredients) and the four nutrient terms (one loop nest
 * each). Every loop only accumulates biases; the methods below prove how
 * far each loop has got and what the finished term adds to the energy of
 * every assignment.
 */
module QuboBuilder {
  import opened FixedPoint
  import opened Qubo
  import opened Penalty

  /** Weight of the magnitude ("sum to 100%") term. */
  const MagnitudeWeight: real := 100.0
  /** Weights of the calories, protein, fat and carbohydrate error terms. */
  const CaloriesWeight: real := 1.0
  const ProteinWeight: real := 1.0
  const FatWeight: real := 1.0
  const CarbsWeight: real := 1.0

  /** The weight of every variable's bit: variable 16 * i + j weighs 2^-(j+1). */
  function BitWeights(n: nat): (a: seq<real>)
    ensures |a| == Var(n, 0)
    ensures forall i, j :: 0 <= i < n && 0 <= j < BitsPerIngredient ==> a[Var(i, j)] == WeightTable()[j]
  {
    seq(Var(n, 0), v requires 0 <= v => WeightTable()[v % BitsPerIngredient])
  }

  /** c_i * g_j: ingredient i's coefficient scaled by entry j of a table of bit weights. */
  function Scale(c: seq<real>, g: seq<real>, i: nat, j: nat): real
    requires i < |c| && j < |g|
  {
    c[i] * g[j]
  }

  /** The amplitude c_i * 2^-(j+1) of variable 16 * i + j in a nutrient term. */
  function Amplitudes(c: seq<real>): (a: seq<real>)
    ensures |a| == Var(|c|, 0)
    ensures forall i, j :: 0 <= i < |c| && 0 <= j < BitsPerIngredient ==> a[Var(i, j)] == Scale(c, WeightTable(), i, j)
  {
    seq(Var(|c|, 0), v requires 0 <= v < Var(|c|, 0) => Scale(c, WeightTable(), v / BitsPerIngredient, v % BitsPerIngredient))
  }

  function Constant(n: nat, x: real): (s: seq<real>)
    ensures |s| == n && forall v :: 0 <= v < n ==> s[v] == x
  {
    seq(n, _ => x)
  }

  /**
   * The loops add the pairs (u, v), u < v, in the order of u and then of v;
   * a cursor (u, v) stands for every pair added before the pair (u, v).
   */
  datatype Cursor = Cursor(u: nat, v: nat)

  predicate Before(x: nat, y: nat, c: Cursor) {
    x < c.u || (x == c.u && y < c.v)
  }

  /**
   * Whether the pair (x, y) has been added: pairs inside one ingredient up
   * to the cursor `within`, pairs across two ingredients up to `across`.
   */
  predicate PairDone(x: nat, y: nat, within: Cursor, across: Cursor) {
    if x / BitsPerIngredient == y / BitsPerIngredient then Before(x, y, within) else Before(x, y, across)
  }

  /**
   * The model (lin, q) is the model (lin0, q0) with the term (w, a, s) added
   * to the linear biases of the variables below linDone and to the pairs
   * PairDone selects.
   */
  ghost predicate Progress(lin: seq<real>, q: map<(nat, nat), real>, lin0: seq<real>, q0: map<(nat, nat), real>,
                           w: real, a: seq<real>, s: seq<real>, linDone: nat, within: Cursor, across: Cursor)
    requires |a| == |s| == |lin0|
  {
    && |lin| == |lin0|
    && (forall e :: e in q ==> e.0 < e.1 < |lin|)
    && (forall v :: 0 <= v < |lin| ==> lin[v] == lin0[v] + (if v < linDone then LinearBias(w, a, s, v) else 0.0))
    && (forall x, y :: 0 <= x < y < |lin| ==>
          Coef(q, x, y) == Coef(q0, x, y) + (if PairDone(x, y, within, across) then InteractionBias(w, a, x, y) else 0.0))
  }

  /** Declares the 16 variables of each of n ingredients, in order, each with bias 0. */
  method DeclareVariables(bqm: BinaryQuadraticModel, n: nat)
    requires bqm.Valid() && bqm.linear == [] && bqm.quadratic == map[]
    modifies bqm
    ensures bqm.Valid()
    ensures bqm.linear == Constant(Var(n, 0), 0.0) && bqm.quadratic == map[] && bqm.offset == old(bqm.offset)
  {
    for i := 0 to n
      invariant bqm.Valid() && bqm.linear == Constant(Var(i, 0), 0.0)
      invariant bqm.quadratic == map[] && bqm.offset == old(bqm.offset)
    {
      for j := 0 to BitsPerIngredient
        invariant bqm.Valid() && bqm.linear == Constant(Var(i, j), 0.0)
        invariant bqm.quadratic == map[] && bqm.offset == old(bqm.offset)
      {
        bqm.AddVariable(Var(i, j), 0.0);
      }
    }
  }

  /**
   * The innermost loop of every term: adds 2 * w * a_u * a_v to the pair
   * (u, v) for the bits v = 16 * m + k, k = kFrom .. 15, of ingredient m.
   */
  method AddRowPairs(bqm: BinaryQuadraticModel, w: real, a: seq<real>, s: seq<real>,
                     ghost lin0: seq<real>, ghost q0: map<(nat, nat), real>, ghost linDone: nat,
                     ghost within: Cursor, ghost across: Cursor, u: nat, m: nat, kFrom: nat)
    requires |a| == |s| == |lin0| && Var(m + 1, 0) <= |a| && kFrom <= BitsPerIngredient && u < Var(m, kFrom)
    requires Progress(bqm.linear, bqm.quadratic, lin0, q0, w, a, s, linDone, within, across)
    requires if u / BitsPerIngredient == m then within == Cursor(u, Var(m, kFrom)) else across == Cursor(u, Var(m, kFrom))
    modifies bqm
    ensures Progress(bqm.linear, bqm.quadratic, lin0, q0, w, a, s, linDone,
                     if u / BitsPerIngredient == m then Cursor(u, Var(m + 1, 0)) else within,
                     if u / BitsPerIngredient == m then across else Cursor(u, Var(m + 1, 0)))
    ensures bqm.offset == old(bqm.offset)
  {
    var same := u / BitsPerIngredient == m;
    ghost var cw, ca := within, across;
    for k := kFrom to BitsPerIngredient
      invariant Progress(bqm.linear, bqm.quadratic, lin0, q0, w, a, s, linDone, cw, ca)
      invariant if same then cw == Cursor(u, Var(m, k)) && ca == across else cw == within && ca == Cursor(u, Var(m, k))
      invariant bqm.offset == old(bqm.offset)
    {
      var v := Var(m, k);
      VarSplit(m, k);
      AddPair(bqm, w, a, s, lin0, q0, linDone, cw, ca, u, v);
      if same {
        cw := Cursor(u, v + 1);
      } else {
        ca := Cursor(u, v + 1);
      }
    }
  }

  /** Adds 2 * w * a_u * a_v to the pair (u, v), the next pair at its cursor. */
  method AddPair(bqm: BinaryQuadraticModel, w: real, a: seq<real>, s: seq<real>,
                 ghost lin0: seq<real>, ghost q0: map<(nat, nat), real>, ghost linDone: nat,
                 ghost within: Cursor, ghost across: Cursor, u: nat, v: nat)
    requires |a| == |s| == |lin0| && u < v < |lin0|
    requires Progress(bqm.linear, bqm.quadratic, lin0, q0, w, a, s, linDone, within, across)
    requires (if u / BitsPerIngredient == v / BitsPerIngredient then within else across) == Cursor(u, v)
    modifies bqm
    ensures var same := u / BitsPerIngredient == v / BitsPerIngredient;
            Progress(bqm.linear, bqm.quadratic, lin0, q0, w, a, s, linDone,
                     if same then Cursor(u, v + 1) else within, if same then across else Cursor(u, v + 1))
    ensures bqm.offset == old(bqm.offset)
  {
    ghost var q := bqm.quadratic;
    bqm.AddInteraction(u, v, 2.0 * w * a[u] * a[v]);
    assert bqm.quadratic == q[(u, v) := Coef(q, u, v) + 2.0 * w * a[u] * a[v]];
    assert InteractionBias(w, a, u, v) == 2.0 * w * a[u] * a[v];
    ProgressPair(bqm.linear, q, bqm.quadratic, lin0, q0, w, a, s, linDone, within, across, u, v);
  }

  /** Adding the pair (u, v) at the cursor moves that cursor one pair on. */
  lemma ProgressPair(lin: seq<real>, q: map<(nat, nat), real>, q': map<(nat, nat), real>,
                     lin0: seq<real>, q0: map<(nat, nat), real>, w: real, a: seq<real>, s: seq<real>,
                     linDone: nat, within: Cursor, across: Cursor, u: nat, v: nat)
    requires |a| == |s| == |lin0| && u < v < |lin|
    requires Progress(lin, q, lin0, q0, w, a, s, linDone, within, across)
    requires (if u / BitsPerIngredient == v / BitsPerIngredient then within else across) == Cursor(u, v)
    requires q' == q[(u, v) := Coef(q, u, v) + InteractionBias(w, a, u, v)]
    ensures var same := u / BitsPerIngredient == v / BitsPerIngredient;
            Progress(lin, q', lin0, q0, w, a, s, linDone,
                     if same then Cursor(u, v + 1) else within, if same then across else Cursor(u, v + 1))
  {
  }

  /** Adding the term's linear bias to the next variable u moves the linear cursor one variable on. */
  lemma ProgressVariable(lin: seq<real>, lin': seq<real>, q: map<(nat, nat), real>,
                         lin0: seq<real>, q0: map<(nat, nat), real>, w: real, a: seq<real>, s: seq<real>,
                         u: nat, within: Cursor, across: Cursor)
    requires |a| == |s| == |lin0| && u < |lin|
    requires Progress(lin, q, lin0, q0, w, a, s, u, within, across)
    requires lin' == lin[u := lin[u] + LinearBias(w, a, s, u)]
    ensures Progress(lin', q, lin0, q0, w, a, s, u + 1, within, across)
  {
  }

  /** Two pairs of cursors that select the same pairs describe the same progress. */
  lemma ProgressCursors(lin: seq<real>, q: map<(nat, nat), real>, lin0: seq<real>, q0: map<(nat, nat), real>,
                        w: real, a: seq<real>, s: seq<real>, linDone: nat,
                        within: Cursor, across: Cursor, within': Cursor, across': Cursor)
    requires |a| == |s| == |lin0|
    requires Progress(lin, q, lin0, q0, w, a, s, linDone, within, across)
    requires forall x, y :: 0 <= x < y < |lin| ==> PairDone(x, y, within, across) == PairDone(x, y, within', across')
    ensures Progress(lin, q, lin0, q0, w, a, s, linDone, within', across')
  {
  }

  /** The bits of ingredient i are exactly the variables from 16 * i to 16 * i + 15. */
  lemma SameIngredient(x: nat, i: nat)
    requires Var(i, 0) <= x < Var(i + 1, 0)
    ensures x / BitsPerIngredient == i
  {
  }

  /** A variable of a later ingredient than i lies outside ingredient i. */
  lemma LaterIngredient(y: nat, i: nat)
    requires Var(i + 1, 0) <= y
    ensures y / BitsPerIngredient > i
  {
  }

  /**
   * The loop over the later bits k = j+1 .. 15 of ingredient i: adds every
   * pair between variable u = 16 * i + j and a later bit of the same
   * ingredient.
   */
  method AddWithinPairs(bqm: BinaryQuadraticModel, n: nat, w: real, a: seq<real>, s: seq<real>,
                        ghost lin0: seq<real>, ghost q0: map<(nat, nat), real>, ghost linDone: nat,
                        ghost across: Cursor, i: nat, j: nat)
    requires |a| == |s| == |lin0| == Var(n, 0) && i < n && j < BitsPerIngredient
    requires Progress(bqm.linear, bqm.quadratic, lin0, q0, w, a, s, linDone, Cursor(Var(i, j), 0), across)
    modifies bqm
    ensures Progress(bqm.linear, bqm.quadratic, lin0, q0, w, a, s, linDone, Cursor(Var(i, j) + 1, 0), across)
    ensures bqm.offset == old(bqm.offset)
  {
    var u := Var(i, j);
    VarSplit(i, j);
    ProgressCursors(bqm.linear, bqm.quadratic, lin0, q0, w, a, s, linDone,
                    Cursor(u, 0), across, Cursor(u, Var(i, j + 1)), across);
    AddRowPairs(bqm, w, a, s, lin0, q0, linDone, Cursor(u, Var(i, j + 1)), across, u, i, j + 1);
    forall x, y {:trigger PairDone(x, y, Cursor(u + 1, 0), across)} | 0 <= x < y < |bqm.linear|
      ensures PairDone(x, y, Cursor(u, Var(i + 1, 0)), across) == PairDone(x, y, Cursor(u + 1, 0), across)
    {
      if x == u && Var(i + 1, 0) <= y {
        LaterIngredient(y, i);
      }
    }
    ProgressCursors(bqm.linear, bqm.quadratic, lin0, q0, w, a, s, linDone,
                    Cursor(u, Var(i + 1, 0)), across, Cursor(u + 1, 0), across);
  }

  /** The pairs across ingredients from u = 16 * i + j start after the bits of ingredient i. */
  lemma AcrossStart(within: Cursor, i: nat, j: nat, len: nat)
    requires j < BitsPerIngredient
    ensures forall x, y :: 0 <= x < y < len ==>
              PairDone(x, y, within, Cursor(Var(i, j), 0)) == PairDone(x, y, within, Cursor(Var(i, j), Var(i + 1, 0)))
  {
    VarSplit(i, j);
    forall x, y | 0 <= x < y < len
      ensures PairDone(x, y, within, Cursor(Var(i, j), 0)) == PairDone(x, y, within, Cursor(Var(i, j), Var(i + 1, 0)))
    {
      if x == Var(i, j) && y < Var(i + 1, 0) {
        SameIngredient(y, i);
      }
    }
  }

  /**
   * The loop over the later ingredients m = i+1 .. n-1 and their bits: adds
   * every pair between variable u = 16 * i + j and a variable of a later
   * ingredient.
   */
  method AddAcrossPairs(bqm: BinaryQuadraticModel, n: nat, w: real, a: seq<real>, s: seq<real>,
                        ghost lin0: seq<real>, ghost q0: map<(nat, nat), real>, ghost linDone: nat,
                        ghost within: Cursor, i: nat, j: nat)
    requires |a| == |s| == |lin0| == Var(n, 0) && i < n && j < BitsPerIngredient
    requires Progress(bqm.linear, bqm.quadratic, lin0, q0, w, a, s, linDone, within, Cursor(Var(i, j), 0))
    modifies bqm
    ensures Progress(bqm.linear, bqm.quadratic, lin0, q0, w, a, s, linDone, within, Cursor(Var(i, j) + 1, 0))
    ensures bqm.offset == old(bqm.offset)
  {
    var u := Var(i, j);
    AcrossStart(within, i, j, |bqm.linear|);
    ProgressCursors(bqm.linear, bqm.quadratic, lin0, q0, w, a, s, linDone,
                    within, Cursor(u, 0), within, Cursor(u, Var(i + 1, 0)));
    for m := i + 1 to n
      invariant Progress(bqm.linear, bqm.quadratic, lin0, q0, w, a, s, linDone, within, Cursor(u, Var(m, 0)))
      invariant bqm.offset == old(bqm.offset)
    {
      AddRowPairs(bqm, w, a, s, lin0, q0, linDone, within, Cursor(u, Var(m, 0)), u, m, 0);
    }
    ProgressCursors(bqm.linear, bqm.quadratic, lin0, q0, w, a, s, linDone,
                    within, Cursor(u, Var(n, 0)), within, Cursor(u + 1, 0));
  }

  /**
   * Every (u, v) pair of the model is selected by the cursors (N, 0): the
   * finished loops have added the whole term.
   */
  lemma ProgressDone(lin: seq<real>, q: map<(nat, nat), real>, lin0: seq<real>, q0: map<(nat, nat), real>,
                     w: real, a: seq<real>, s: seq<real>)
    requires |a| == |s| == |lin0|
    requires Progress(lin, q, lin0, q0, w, a, s, |lin0|, Cursor(|lin0|, 0), Cursor(|lin0|, 0))
    ensures forall v :: 0 <= v < |lin| ==> lin[v] == lin0[v] + LinearBias(w, a, s, v)
    ensures forall x, y :: 0 <= x < y < |lin| ==> Coef(q, x, y) == Coef(q0, x, y) + InteractionBias(w, a, x, y)
  {
  }

  /**
   * One nutrient term's loop nest: for every variable u = 16 * i + j, adds
   * w * a_u * (a_u - 2 * s_u) to u and 2 * w * a_u * a_v to every pair (u, v)
   * with a later variable v, first inside ingredient i, then across the later
   * ingredients. Over 0/1 variables this adds
   * w * ((sum_v a_v b_v)^2 - 2 * sum_v a_v s_v b_v) to the energy.
   */
  method AddSquaredTerm(bqm: BinaryQuadraticModel, n: nat, w: real, a: seq<real>, s: seq<real>)
    requires bqm.Valid() && |bqm.linear| == Var(n, 0) == |a| == |s|
    modifies bqm
    ensures bqm.Valid() && |bqm.linear| == Var(n, 0) && bqm.offset == old(bqm.offset)
    ensures forall v :: 0 <= v < Var(n, 0) ==> bqm.linear[v] == old(bqm.linear[v]) + LinearBias(w, a, s, v)
    ensures forall u, v :: 0 <= u < v < Var(n, 0) ==>
              Coef(bqm.quadratic, u, v) == Coef(old(bqm.quadratic), u, v) + InteractionBias(w, a, u, v)
    ensures forall b :: |b| == Var(n, 0) ==> bqm.Energy(b) == old(bqm.Energy(b)) + TermEnergy(w, a, s, b)
  {
    ghost var lin0, q0 := bqm.linear, bqm.quadratic;
    for i := 0 to n
      invariant Progress(bqm.linear, bqm.quadratic, lin0, q0, w, a, s, Var(i, 0), Cursor(Var(i, 0), 0), Cursor(Var(i, 0), 0))
      invariant bqm.offset == old(bqm.offset)
    {
      AddIngredientTerm(bqm, n, w, a, s, lin0, q0, i);
    }
    ProgressDone(bqm.linear, bqm.quadratic, lin0, q0, w, a, s);
    forall b | |b| == Var(n, 0)
      ensures bqm.Energy(b) == EnergyOf(lin0, q0, bqm.offset, b) + TermEnergy(w, a, s, b)
    {
      EnergyDelta(lin0, q0, bqm.linear, bqm.quadratic, bqm.offset, w, a, s, b);
    }
  }

  /**
   * The body of a nutrient term's outer loop, for ingredient i: for each of
   * its bits u, the linear bias of u, then the pairs from u to every later
   * variable.
   */
  method AddIngredientTerm(bqm: BinaryQuadraticModel, n: nat, w: real, a: seq<real>, s: seq<real>,
                           ghost lin0: seq<real>, ghost q0: map<(nat, nat), real>, i: nat)
    requires |a| == |s| == |lin0| == Var(n, 0) && i < n
    requires Progress(bqm.linear, bqm.quadratic, lin0, q0, w, a, s, Var(i, 0), Cursor(Var(i, 0), 0), Cursor(Var(i, 0), 0))
    modifies bqm
    ensures Progress(bqm.linear, bqm.quadratic, lin0, q0, w, a, s, Var(i + 1, 0), Cursor(Var(i + 1, 0), 0), Cursor(Var(i + 1, 0), 0))
    ensures bqm.offset == old(bqm.offset)
  {
    for j := 0 to BitsPerIngredient
      invariant Progress(bqm.linear, bqm.quadratic, lin0, q0, w, a, s, Var(i, j), Cursor(Var(i, j), 0), Cursor(Var(i, j), 0))
      invariant bqm.offset == old(bqm.offset)
    {
      AddVariableTerm(bqm, n, w, a, s, lin0, q0, i, j);
    }
  }

  /**
   * The body of a nutrient term's inner loop, for bit j of ingredient i:
   * the linear bias of u = 16 * i + j, then the pairs from u to every later
   * variable.
   */
  method AddVariableTerm(bqm: BinaryQuadraticModel, n: nat, w: real, a: seq<real>, s: seq<real>,
                         ghost lin0: seq<real>, ghost q0: map<(nat, nat), real>, i: nat, j: nat)
    requires |a| == |s| == |lin0| == Var(n, 0) && i < n && j < BitsPerIngredient
    requires Progress(bqm.linear, bqm.quadratic, lin0, q0, w, a, s, Var(i, j), Cursor(Var(i, j), 0), Cursor(Var(i, j), 0))
    modifies bqm
    ensures Progress(bqm.linear, bqm.quadratic, lin0, q0, w, a, s, Var(i, j + 1), Cursor(Var(i, j + 1), 0), Cursor(Var(i, j + 1), 0))
    ensures bqm.offset == old(bqm.offset)
  {
    var u := Var(i, j);
    ghost var lin := bqm.linear;
    bqm.AddVariable(u, w * a[u] * (a[u] - 2.0 * s[u]));
    assert bqm.linear == lin[u := lin[u] + w * a[u] * (a[u] - 2.0 * s[u])];
    assert LinearBias(w, a, s, u) == w * a[u] * (a[u] - 2.0 * s[u]);
    ProgressVariable(lin, bqm.linear, bqm.quadratic, lin0, q0, w, a, s, u, Cursor(u, 0), Cursor(u, 0));
    AddWithinPairs(bqm, n, w, a, s, lin0, q0, u + 1, Cursor(u, 0), i, j);
    AddAcrossPairs(bqm, n, w, a, s, lin0, q0, u + 1, Cursor(u + 1, 0), i, j);
    assert Var(i, j + 1) == u + 1;
  }

  /** With no shift, the linear bias of the squared term is w * a_v^2. */
  lemma UnshiftedBias(w: real, a: seq<real>, s: seq<real>, v: nat, av: real)
    requires v < |a| && v < |s| && a[v] == av && s[v] == 0.0
    ensures LinearBias(w, a, s, v) == w * av * av
  {
  }

  /**
   * The magnitude term, literally: F * w_j^2 on every variable and
   * 2 * F * w_j * w_k on every pair inside one ingredient (first nest), then
   * 2 * F * w_j * w_k on every pair across two ingredients (second nest).
   * Over 0/1 variables this adds F * (sum_v w_v b_v)^2 to the energy: a
   * square with no linear part.
   */
  method AddMagnitudeTerm(bqm: BinaryQuadraticModel, n: nat)
    requires bqm.Valid() && |bqm.linear| == Var(n, 0)
    modifies bqm
    ensures bqm.Valid() && |bqm.linear| == Var(n, 0) && bqm.offset == old(bqm.offset)
    ensures forall b :: |b| == Var(n, 0) ==>
              bqm.Energy(b) == old(bqm.Energy(b))
                               + TermEnergy(MagnitudeWeight, BitWeights(n), Constant(Var(n, 0), 0.0), b)
  {
    ghost var lin0, q0 := bqm.linear, bqm.quadratic;
    ghost var f, a, s := MagnitudeWeight, BitWeights(n), Constant(Var(n, 0), 0.0);
    for i := 0 to n
      invariant Progress(bqm.linear, bqm.quadratic, lin0, q0, f, a, s, Var(i, 0), Cursor(Var(i, 0), 0), Cursor(0, 0))
      invariant bqm.offset == old(bqm.offset)
    {
      AddMagnitudeWithin(bqm, n, lin0, q0, i);
    }
    for i := 0 to n
      invariant Progress(bqm.linear, bqm.quadratic, lin0, q0, f, a, s, Var(n, 0), Cursor(Var(n, 0), 0), Cursor(Var(i, 0), 0))
      invariant bqm.offset == old(bqm.offset)
    {
      AddMagnitudeAcross(bqm, n, lin0, q0, i);
    }
    ProgressDone(bqm.linear, bqm.quadratic, lin0, q0, f, a, s);
    forall b | |b| == Var(n, 0)
      ensures bqm.Energy(b) == EnergyOf(lin0, q0, bqm.offset, b) + TermEnergy(f, a, s, b)
    {
      EnergyDelta(lin0, q0, bqm.linear, bqm.quadratic, bqm.offset, f, a, s, b);
    }
  }

  /**
   * The body of the magnitude term's first loop nest, for ingredient i:
   * F * w_j^2 on each of its bits, then 2 * F * w_j * w_k on each pair of
   * its bits.
   */
  method AddMagnitudeWithin(bqm: BinaryQuadraticModel, n: nat, ghost lin0: seq<real>, ghost q0: map<(nat, nat), real>, i: nat)
    requires |lin0| == Var(n, 0) && i < n
    requires Progress(bqm.linear, bqm.quadratic, lin0, q0, MagnitudeWeight, BitWeights(n), Constant(Var(n, 0), 0.0),
                      Var(i, 0), Cursor(Var(i, 0), 0), Cursor(0, 0))
    modifies bqm
    ensures Progress(bqm.linear, bqm.quadratic, lin0, q0, MagnitudeWeight, BitWeights(n), Constant(Var(n, 0), 0.0),
                     Var(i + 1, 0), Cursor(Var(i + 1, 0), 0), Cursor(0, 0))
    ensures bqm.offset == old(bqm.offset)
  {
    for j := 0 to BitsPerIngredient
      invariant Progress(bqm.linear, bqm.quadratic, lin0, q0, MagnitudeWeight, BitWeights(n), Constant(Var(n, 0), 0.0),
                         Var(i, j), Cursor(Var(i, j), 0), Cursor(0, 0))
      invariant bqm.offset == old(bqm.offset)
    {
      AddMagnitudeVariable(bqm, n, lin0, q0, i, j);
    }
  }

  /**
   * The body of the magnitude term's first inner loop, for bit j of
   * ingredient i: F * w_j^2 on the bit, then 2 * F * w_j * w_k on its pair
   * with every later bit k of ingredient i.
   */
  method AddMagnitudeVariable(bqm: BinaryQuadraticModel, n: nat, ghost lin0: seq<real>, ghost q0: map<(nat, nat), real>,
                              i: nat, j: nat)
    requires |lin0| == Var(n, 0) && i < n && j < BitsPerIngredient
    requires Progress(bqm.linear, bqm.quadratic, lin0, q0, MagnitudeWeight, BitWeights(n), Constant(Var(n, 0), 0.0),
                      Var(i, j), Cursor(Var(i, j), 0), Cursor(0, 0))
    modifies bqm
    ensures Progress(bqm.linear, bqm.quadratic, lin0, q0, MagnitudeWeight, BitWeights(n), Constant(Var(n, 0), 0.0),
                     Var(i, j + 1), Cursor(Var(i, j + 1), 0), Cursor(0, 0))
    ensures bqm.offset == old(bqm.offset)
  {
    var f := MagnitudeWeight;
    ghost var a, s := BitWeights(n), Constant(Var(n, 0), 0.0);
    var wj := Weight(j);
    assert a[Var(i, j)] == WeightTable()[j] == wj;
    UnshiftedBias(f, a, s, Var(i, j), wj);
    ghost var lin := bqm.linear;
    bqm.AddVariable(Var(i, j), f * wj * wj);
    ProgressVariable(lin, bqm.linear, bqm.quadratic, lin0, q0, f, a, s, Var(i, j), Cursor(Var(i, j), 0), Cursor(0, 0));
    AddWithinPairs(bqm, n, f, BitWeights(n), Constant(Var(n, 0), 0.0), lin0, q0, Var(i, j) + 1, Cursor(0, 0), i, j);
    assert Var(i, j + 1) == Var(i, j) + 1;
  }

  /**
   * The body of the magnitude term's second loop nest, for ingredient i:
   * 2 * F * w_j * w_k on each pair of one of its bits and a bit of a later
   * ingredient.
   */
  method AddMagnitudeAcross(bqm: BinaryQuadraticModel, n: nat, ghost lin0: seq<real>, ghost q0: map<(nat, nat), real>, i: nat)
    requires |lin0| == Var(n, 0) && i < n
    requires Progress(bqm.linear, bqm.quadratic, lin0, q0, MagnitudeWeight, BitWeights(n), Constant(Var(n, 0), 0.0),
                      Var(n, 0), Cursor(Var(n, 0), 0), Cursor(Var(i, 0), 0))
    modifies bqm
    ensures Progress(bqm.linear, bqm.quadratic, lin0, q0, MagnitudeWeight, BitWeights(n), Constant(Var(n, 0), 0.0),
                     Var(n, 0), Cursor(Var(n, 0), 0), Cursor(Var(i + 1, 0), 0))
    ensures bqm.offset == old(bqm.offset)
  {
    for j := 0 to BitsPerIngredient
      invariant Progress(bqm.linear, bqm.quadratic, lin0, q0, MagnitudeWeight, BitWeights(n), Constant(Var(n, 0), 0.0),
                         Var(n, 0), Cursor(Var(n, 0), 0), Cursor(Var(i, j), 0))
      invariant bqm.offset == old(bqm.offset)
    {
      AddAcrossPairs(bqm, n, MagnitudeWeight, BitWeights(n), Constant(Var(n, 0), 0.0), lin0, q0, Var(n, 0), Cursor(Var(n, 0), 0), i, j);
    }
  }
}
