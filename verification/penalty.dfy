/**
 * The algebra of one squared penalty term of the optimizer's objective.
 *
 * A term has a weight W, an amplitude a_v and a shift s_v per variable. It
 * adds
 *   W * a_v * (a_v - 2 * s_v)   to the linear bias of v, and
 *   2 * W * a_u * a_v           to the interaction of every pair u < v.
 * Over 0/1 variables these biases add
 *   W * ((sum_v a_v b_v)^2 - 2 * sum_v a_v s_v b_v)
 * to the energy of every assignment b (because b_v * b_v == b_v).
 *
 * The inductive lemmas below only relate sums to sums; each product they
 * need is established by a small step lemma over plain reals.
 */
module Penalty {
  import opened FixedPoint
  import opened Qubo

  /** The amount the term adds to the linear bias of variable v. */
  function LinearBias(w: real, a: seq<real>, s: seq<real>, v: nat): real
    requires v < |a| && v < |s|
  {
    w * a[v] * (a[v] - 2.0 * s[v])
  }

  /** The amount the term adds to the interaction of the pair (u, v). */
  function InteractionBias(w: real, a: seq<real>, u: nat, v: nat): real
    requires u < |a| && v < |a|
  {
    2.0 * w * a[u] * a[v]
  }

  /** Sum of a_v * b_v over v < k. */
  function AmpSum(a: seq<real>, b: seq<bool>, k: nat): real
    requires k <= |a| && k <= |b|
  {
    if k == 0 then 0.0 else AmpSum(a, b, k - 1) + a[k - 1] * Bit(b[k - 1])
  }

  /** Sum of a_v^2 * b_v over v < k. */
  function AmpSqSum(a: seq<real>, b: seq<bool>, k: nat): real
    requires k <= |a| && k <= |b|
  {
    if k == 0 then 0.0 else AmpSqSum(a, b, k - 1) + a[k - 1] * a[k - 1] * Bit(b[k - 1])
  }

  /** Sum of a_v * s_v * b_v over v < k. */
  function ShiftSum(a: seq<real>, s: seq<real>, b: seq<bool>, k: nat): real
    requires k <= |a| && k <= |s| && k <= |b|
  {
    if k == 0 then 0.0 else ShiftSum(a, s, b, k - 1) + a[k - 1] * s[k - 1] * Bit(b[k - 1])
  }

  /** The linear energy of the term's own biases, over v < k. */
  function TermLinearEnergy(w: real, a: seq<real>, s: seq<real>, b: seq<bool>, k: nat): real
    requires k <= |a| && k <= |s| && k <= |b|
  {
    if k == 0 then 0.0 else TermLinearEnergy(w, a, s, b, k - 1) + LinearBias(w, a, s, k - 1) * Bit(b[k - 1])
  }

  /** The energy of the term's own interactions (u, v), u < k, for the fixed column v. */
  function TermColumnEnergy(w: real, a: seq<real>, b: seq<bool>, v: nat, k: nat): real
    requires |a| == |b| && k <= v < |b|
  {
    if k == 0 then 0.0
    else TermColumnEnergy(w, a, b, v, k - 1) + InteractionBias(w, a, k - 1, v) * Bit(b[k - 1]) * Bit(b[v])
  }

  /** The energy of the term's own interactions (u, v), u < v < k. */
  function TermQuadraticEnergy(w: real, a: seq<real>, b: seq<bool>, k: nat): real
    requires |a| == |b| && k <= |b|
  {
    if k == 0 then 0.0 else TermQuadraticEnergy(w, a, b, k - 1) + TermColumnEnergy(w, a, b, k - 1, k - 1)
  }

  /** w * (sq - 2 * shifted): the closed form of a term's linear energy. */
  function LinearForm(w: real, sq: real, shifted: real): real {
    w * (sq - 2.0 * shifted)
  }

  /** 2 * w * a_v * x_v * sum: the closed form of a term's interactions in one column. */
  function ColumnForm(w: real, av: real, xv: real, sum: real): real {
    2.0 * w * av * xv * sum
  }

  /** w * (sum^2 - sq): the closed form of a term's quadratic energy. */
  function QuadraticForm(w: real, sum: real, sq: real): real {
    w * (sum * sum - sq)
  }

  function LinearClosed(w: real, a: seq<real>, s: seq<real>, b: seq<bool>, k: nat): real
    requires k <= |a| && k <= |s| && k <= |b|
  {
    LinearForm(w, AmpSqSum(a, b, k), ShiftSum(a, s, b, k))
  }

  function ColumnClosed(w: real, a: seq<real>, b: seq<bool>, v: nat, k: nat): real
    requires |a| == |b| && k <= v < |b|
  {
    ColumnForm(w, a[v], Bit(b[v]), AmpSum(a, b, k))
  }

  function QuadraticClosed(w: real, a: seq<real>, b: seq<bool>, k: nat): real
    requires |a| == |b| && k <= |b|
  {
    QuadraticForm(w, AmpSum(a, b, k), AmpSqSum(a, b, k))
  }

  /** The value w * (sum^2 - 2 * shifted) of a squared penalty term, given its two sums. */
  function Penalise(w: real, sum: real, shifted: real): real {
    w * (sum * sum - 2.0 * shifted)
  }

  /** A product of two positive reals is positive. */
  lemma Pos(w: real, x: real)
    requires w > 0.0 && x > 0.0
    ensures w * x > 0.0
  {}

  /**
   * Without a shift, a squared term is w * sum^2: for a positive weight its
   * least value is 0, reached exactly at sum 0.
   */
  lemma PenaliseUnshifted(w: real, t: real)
    requires w > 0.0
    ensures Penalise(w, t, 0.0) == w * (t * t)
    ensures Penalise(w, 0.0, 0.0) == 0.0
    ensures t != 0.0 ==> Penalise(w, t, 0.0) > 0.0
  {
    if t > 0.0 {
      Pos(w, t);
      Pos(w * t, t);
    } else if t < 0.0 {
      Pos(w, -t);
      Pos(w * -t, -t);
    }
  }

  /**
   * With a unit shift, a squared term is w * ((sum - 1)^2 - 1): for a
   * positive weight its least value is -w, reached exactly at sum 1.
   */
  lemma PenaliseCompleted(w: real, t: real)
    requires w > 0.0
    ensures Penalise(w, t, t) == w * ((t - 1.0) * (t - 1.0)) - w
    ensures Penalise(w, 1.0, 1.0) == -w
    ensures t != 1.0 ==> Penalise(w, t, t) > -w
  {
    var d := t - 1.0;
    assert Penalise(w, t, t) == w * (d * d) - w;
    if d > 0.0 {
      Pos(w, d);
      Pos(w * d, d);
    } else if d < 0.0 {
      Pos(w, -d);
      Pos(w * -d, -d);
    }
  }

  /** The energy a term adds to an assignment: W * ((sum a b)^2 - 2 * sum a s b). */
  function TermEnergy(w: real, a: seq<real>, s: seq<real>, b: seq<bool>): real
    requires |a| == |s| == |b|
  {
    Penalise(w, AmpSum(a, b, |b|), ShiftSum(a, s, b, |b|))
  }

  // ---- Step lemmas: one product identity each, over plain reals ----

  lemma AddStep(x: real, l: real, l': real, lb: real, e0: real, e0': real, t0: real,
                e1: real, e1': real, t1: real)
    requires l' == l + lb && e0' == e0 + t0
    requires e1 == e0 + l * x && e1' == e0' + l' * x && t1 == t0 + lb * x
    ensures e1' == e1 + t1
  {
  }

  lemma AddPairStep(xu: real, xv: real, c: real, c': real, ib: real, e0: real, e0': real, t0: real,
                    e1: real, e1': real, t1: real)
    requires c' == c + ib && e0' == e0 + t0
    requires e1 == e0 + c * xu * xv && e1' == e0' + c' * xu * xv && t1 == t0 + ib * xu * xv
    ensures e1' == e1 + t1
  {
  }

  lemma LinearClosedStep(w: real, a: real, s: real, x: real, sq: real, shifted: real)
    ensures LinearForm(w, sq, shifted) + w * a * (a - 2.0 * s) * x == LinearForm(w, sq + a * a * x, shifted + a * s * x)
  {
  }

  lemma ColumnClosedStep(w: real, au: real, av: real, xu: real, xv: real, sum: real)
    ensures ColumnForm(w, av, xv, sum) + 2.0 * w * au * av * xu * xv == ColumnForm(w, av, xv, sum + au * xu)
  {
  }

  lemma QuadraticClosedStep(w: real, a: real, x: real, sum: real, sq: real)
    requires x * x == x
    ensures QuadraticForm(w, sum, sq) + ColumnForm(w, a, x, sum) == QuadraticForm(w, sum + a * x, sq + a * a * x)
  {
  }

  lemma EnergyClosedStep(w: real, sum: real, sq: real, shifted: real)
    ensures LinearForm(w, sq, shifted) + QuadraticForm(w, sum, sq) == Penalise(w, sum, shifted)
  {
  }

  // ---- Adding a term to a model adds the term's own energy ----

  lemma {:induction false} LinearDelta(lin: seq<real>, lin': seq<real>, w: real, a: seq<real>, s: seq<real>,
                                       b: seq<bool>, k: nat)
    requires |lin| == |lin'| == |a| == |s| == |b| && k <= |b|
    requires forall v :: 0 <= v < |b| ==> lin'[v] == lin[v] + LinearBias(w, a, s, v)
    ensures LinearEnergy(lin', b, k) == LinearEnergy(lin, b, k) + TermLinearEnergy(w, a, s, b, k)
  {
    if k > 0 {
      LinearDelta(lin, lin', w, a, s, b, k - 1);
      AddStep(Bit(b[k - 1]), lin[k - 1], lin'[k - 1], LinearBias(w, a, s, k - 1),
              LinearEnergy(lin, b, k - 1), LinearEnergy(lin', b, k - 1), TermLinearEnergy(w, a, s, b, k - 1),
              LinearEnergy(lin, b, k), LinearEnergy(lin', b, k), TermLinearEnergy(w, a, s, b, k));
    }
  }

  lemma {:induction false} ColumnDelta(q: map<(nat, nat), real>, q': map<(nat, nat), real>, w: real,
                                       a: seq<real>, b: seq<bool>, v: nat, k: nat)
    requires |a| == |b| && k <= v < |b|
    requires forall u :: 0 <= u < v ==> Coef(q', u, v) == Coef(q, u, v) + InteractionBias(w, a, u, v)
    ensures ColumnEnergy(q', b, v, k) == ColumnEnergy(q, b, v, k) + TermColumnEnergy(w, a, b, v, k)
  {
    if k > 0 {
      ColumnDelta(q, q', w, a, b, v, k - 1);
      AddPairStep(Bit(b[k - 1]), Bit(b[v]), Coef(q, k - 1, v), Coef(q', k - 1, v), InteractionBias(w, a, k - 1, v),
                  ColumnEnergy(q, b, v, k - 1), ColumnEnergy(q', b, v, k - 1), TermColumnEnergy(w, a, b, v, k - 1),
                  ColumnEnergy(q, b, v, k), ColumnEnergy(q', b, v, k), TermColumnEnergy(w, a, b, v, k));
    }
  }

  lemma {:induction false} QuadraticDelta(q: map<(nat, nat), real>, q': map<(nat, nat), real>, w: real,
                                          a: seq<real>, b: seq<bool>, k: nat)
    requires |a| == |b| && k <= |b|
    requires forall u, v :: 0 <= u < v < |b| ==> Coef(q', u, v) == Coef(q, u, v) + InteractionBias(w, a, u, v)
    ensures QuadraticEnergy(q', b, k) == QuadraticEnergy(q, b, k) + TermQuadraticEnergy(w, a, b, k)
  {
    if k > 0 {
      QuadraticDelta(q, q', w, a, b, k - 1);
      ColumnDelta(q, q', w, a, b, k - 1, k - 1);
    }
  }

  // ---- The term's own energy in closed form ----

  lemma {:induction false} TermLinearClosed(w: real, a: seq<real>, s: seq<real>, b: seq<bool>, k: nat)
    requires k <= |a| && k <= |s| && k <= |b|
    ensures TermLinearEnergy(w, a, s, b, k) == LinearClosed(w, a, s, b, k)
  {
    if k > 0 {
      TermLinearClosed(w, a, s, b, k - 1);
      LinearClosedStep(w, a[k - 1], s[k - 1], Bit(b[k - 1]), AmpSqSum(a, b, k - 1), ShiftSum(a, s, b, k - 1));
    }
  }

  lemma {:induction false} TermColumnClosed(w: real, a: seq<real>, b: seq<bool>, v: nat, k: nat)
    requires |a| == |b| && k <= v < |b|
    ensures TermColumnEnergy(w, a, b, v, k) == ColumnClosed(w, a, b, v, k)
  {
    if k > 0 {
      TermColumnClosed(w, a, b, v, k - 1);
      ColumnClosedStep(w, a[k - 1], a[v], Bit(b[k - 1]), Bit(b[v]), AmpSum(a, b, k - 1));
    }
  }

  lemma {:induction false} TermQuadraticClosed(w: real, a: seq<real>, b: seq<bool>, k: nat)
    requires |a| == |b| && k <= |b|
    ensures TermQuadraticEnergy(w, a, b, k) == QuadraticClosed(w, a, b, k)
  {
    if k > 0 {
      TermQuadraticClosed(w, a, b, k - 1);
      TermColumnClosed(w, a, b, k - 1, k - 1);
      BitSquare(b[k - 1]);
      QuadraticClosedStep(w, a[k - 1], Bit(b[k - 1]), AmpSum(a, b, k - 1), AmpSqSum(a, b, k - 1));
    }
  }

  /** The term's own biases, summed over an assignment, give its energy in closed form. */
  lemma TermEnergyClosed(w: real, a: seq<real>, s: seq<real>, b: seq<bool>)
    requires |a| == |s| == |b|
    ensures TermLinearEnergy(w, a, s, b, |b|) + TermQuadraticEnergy(w, a, b, |b|) == TermEnergy(w, a, s, b)
  {
    var n := |b|;
    TermLinearClosed(w, a, s, b, n);
    TermQuadraticClosed(w, a, b, n);
    EnergyClosedStep(w, AmpSum(a, b, n), AmpSqSum(a, b, n), ShiftSum(a, s, b, n));
  }

  /**
   * Adding a term's biases to a model raises the energy of every
   * assignment by exactly W * ((sum a b)^2 - 2 * sum a s b).
   */
  lemma EnergyDelta(lin: seq<real>, q: map<(nat, nat), real>, lin': seq<real>, q': map<(nat, nat), real>,
                    offset: real, w: real, a: seq<real>, s: seq<real>, b: seq<bool>)
    requires |lin| == |lin'| == |a| == |s| == |b|
    requires forall v :: 0 <= v < |b| ==> lin'[v] == lin[v] + LinearBias(w, a, s, v)
    requires forall u, v :: 0 <= u < v < |b| ==> Coef(q', u, v) == Coef(q, u, v) + InteractionBias(w, a, u, v)
    ensures EnergyOf(lin', q', offset, b) == EnergyOf(lin, q, offset, b) + TermEnergy(w, a, s, b)
  {
    LinearDelta(lin, lin', w, a, s, b, |b|);
    QuadraticDelta(q, q', w, a, b, |b|);
    TermEnergyClosed(w, a, s, b);
  }
}
