/**
 * A binary quadratic model over variables numbered 0 .. N-1: one linear bias
 * per variable, an interaction bias per unordered pair of distinct
 * variables, and a constant offset. Adding a bias to a variable or pair
 * that already has one accumulates, as the optimizer's model container does.
 */
module Qubo {
  import opened FixedPoint

  /** The interaction bias of the pair (u, v), u < v; a pair never added has bias 0. */
  function Coef(q: map<(nat, nat), real>, u: nat, v: nat): real {
    if (u, v) in q then q[(u, v)] else 0.0
  }

  /** Sum of lin[v] * b[v] over v < k. */
  function LinearEnergy(lin: seq<real>, b: seq<bool>, k: nat): real
    requires k <= |lin| && k <= |b|
  {
    if k == 0 then 0.0 else LinearEnergy(lin, b, k - 1) + lin[k - 1] * Bit(b[k - 1])
  }

  /** Sum of q(u, v) * b[u] * b[v] over u < k, for the fixed column v. */
  function ColumnEnergy(q: map<(nat, nat), real>, b: seq<bool>, v: nat, k: nat): real
    requires k <= v < |b|
  {
    if k == 0 then 0.0 else ColumnEnergy(q, b, v, k - 1) + Coef(q, k - 1, v) * Bit(b[k - 1]) * Bit(b[v])
  }

  /** Sum of q(u, v) * b[u] * b[v] over u < v < k. */
  function QuadraticEnergy(q: map<(nat, nat), real>, b: seq<bool>, k: nat): real
    requires k <= |b|
  {
    if k == 0 then 0.0 else QuadraticEnergy(q, b, k - 1) + ColumnEnergy(q, b, k - 1, k - 1)
  }

  /** The energy of the assignment `b` under the model (lin, q, offset). */
  function EnergyOf(lin: seq<real>, q: map<(nat, nat), real>, offset: real, b: seq<bool>): real
    requires |lin| == |b|
  {
    offset + LinearEnergy(lin, b, |b|) + QuadraticEnergy(q, b, |b|)
  }

  function AllZero(n: nat): (b: seq<bool>)
    ensures |b| == n && forall v :: 0 <= v < n ==> !b[v]
  {
    seq(n, _ => false)
  }

  lemma {:induction false} ColumnEnergyZero(q: map<(nat, nat), real>, b: seq<bool>, v: nat, k: nat)
    requires k <= v < |b| && !b[v]
    ensures ColumnEnergy(q, b, v, k) == 0.0
  {
    if k > 0 {
      ColumnEnergyZero(q, b, v, k - 1);
    }
  }

  /**
   * Every bias is multiplied by at least one variable, so the all-zero
   * assignment has exactly the offset as its energy.
   */
  lemma {:induction false} AllZeroEnergy(lin: seq<real>, q: map<(nat, nat), real>, offset: real, k: nat)
    requires k <= |lin|
    ensures LinearEnergy(lin, AllZero(|lin|), k) == 0.0
    ensures QuadraticEnergy(q, AllZero(|lin|), k) == 0.0
    ensures k == |lin| ==> EnergyOf(lin, q, offset, AllZero(|lin|)) == offset
  {
    if k > 0 {
      AllZeroEnergy(lin, q, offset, k - 1);
      ColumnEnergyZero(q, AllZero(|lin|), k - 1, k - 1);
    }
  }

  lemma {:induction false} EmptyColumnEnergy(b: seq<bool>, v: nat, k: nat)
    requires k <= v < |b|
    ensures ColumnEnergy(map[], b, v, k) == 0.0
  {
    if k > 0 {
      EmptyColumnEnergy(b, v, k - 1);
    }
  }

  /** A model whose linear biases are all 0 and which has no interaction has energy `offset` everywhere. */
  lemma {:induction false} ZeroModelEnergy(lin: seq<real>, b: seq<bool>, k: nat)
    requires |lin| == |b| && k <= |b|
    requires forall v :: 0 <= v < |lin| ==> lin[v] == 0.0
    ensures LinearEnergy(lin, b, k) == 0.0 && QuadraticEnergy(map[], b, k) == 0.0
  {
    if k > 0 {
      ZeroModelEnergy(lin, b, k - 1);
      EmptyColumnEnergy(b, k - 1, k - 1);
    }
  }

  /** The optimizer's model container. Variables are labelled by their flattened index. */
  class BinaryQuadraticModel {
    var linear: seq<real>
    var quadratic: map<(nat, nat), real>
    var offset: real

    /** Interactions only join two distinct declared variables, stored as (smaller, larger). */
    ghost predicate Valid()
      reads this
    {
      forall e :: e in quadratic ==> e.0 < e.1 < |linear|
    }

    /** An empty model with the given offset. */
    constructor (offset: real)
      ensures Valid()
      ensures linear == [] && quadratic == map[] && this.offset == offset
    {
      linear := [];
      quadratic := map[];
      this.offset := offset;
    }

    function NumVariables(): nat
      reads this
    {
      |linear|
    }

    function Energy(b: seq<bool>): real
      reads this
      requires |b| == |linear|
    {
      EnergyOf(linear, quadratic, offset, b)
    }

    /**
     * Adds `bias` to variable `v`'s linear bias; a variable seen for the
     * first time (the next label, `v == |linear|`) is declared with `bias`.
     */
    method AddVariable(v: nat, bias: real)
      requires Valid()
      requires v <= |linear|
      modifies this
      ensures Valid()
      ensures linear == if v < |old(linear)| then old(linear)[v := old(linear)[v] + bias]
                        else old(linear) + [bias]
      ensures quadratic == old(quadratic) && offset == old(offset)
    {
      if v < |linear| {
        linear := linear[v := linear[v] + bias];
      } else {
        linear := linear + [bias];
      }
    }

    /** Adds `bias` to the interaction between the distinct declared variables u and v. */
    method AddInteraction(u: nat, v: nat, bias: real)
      requires Valid()
      requires u != v && u < |linear| && v < |linear|
      modifies this
      ensures Valid()
      ensures var key := if u < v then (u, v) else (v, u);
              quadratic == old(quadratic)[key := Coef(old(quadratic), key.0, key.1) + bias]
      ensures linear == old(linear) && offset == old(offset)
    {
      var key := if u < v then (u, v) else (v, u);
      quadratic := quadratic[key := Coef(quadratic, key.0, key.1) + bias];
    }
  }
}
