/**
 * The proportions of the mix: decoded from the sampler's assignment into a
 * dictionary keyed by ingredient name, then rescaled to sum to 100.
 *
 * The dictionary keeps its keys in first-insertion order; storing under a
 * name that is already present replaces that name's value, so two
 * ingredients with the same name share one entry.
 */
module Proportions {
  import opened Wrappers
  import opened FixedPoint

  /** A dictionary from ingredient name to proportion (percent). */
  datatype Table = Table(keys: seq<string>, vals: seq<real>)

  /** One value per key, and no key twice. */
  predicate Valid(t: Table) {
    |t.keys| == |t.vals| && Distinct(t.keys)
  }

  predicate Distinct(s: seq<string>) {
    forall i, j :: 0 <= i < j < |s| ==> s[i] != s[j]
  }

  /** The position of key k, if present. */
  function IndexOf(keys: seq<string>, k: string): (r: Option<nat>)
    ensures r.None? <==> k !in keys
    ensures r.Some? ==> r.value < |keys| && keys[r.value] == k
  {
    if |keys| == 0 then None
    else if keys[|keys| - 1] == k then Some(|keys| - 1)
    else IndexOf(keys[..|keys| - 1], k)
  }

  /** In a sequence without repetitions, the position of a key is the only one holding it. */
  lemma IndexOfDistinct(keys: seq<string>, k: string, i: nat)
    requires Distinct(keys) && i < |keys| && keys[i] == k
    ensures IndexOf(keys, k) == Some(i)
  {
  }

  /** `t.get(k)`: k's value, or nothing exactly when k is not a key. */
  function Lookup(t: Table, k: string): (r: Option<real>)
    requires Valid(t)
    ensures r.None? <==> k !in t.keys
  {
    match IndexOf(t.keys, k)
    case None => None
    case Some(i) => Some(t.vals[i])
  }

  /** `t[k] = v`: replaces k's value when k is present, appends k otherwise. */
  function Store(t: Table, k: string, v: real): Table
    requires Valid(t)
  {
    match IndexOf(t.keys, k)
    case Some(i) => Table(t.keys, t.vals[i := v])
    case None => Table(t.keys + [k], t.vals + [v])
  }

  /** After `t[k] = v`, k holds v, every other key keeps its value, and k is a key. */
  lemma StoreLookup(t: Table, k: string, v: real)
    requires Valid(t)
    ensures Valid(Store(t, k, v))
    ensures Store(t, k, v).keys == if k in t.keys then t.keys else t.keys + [k]
    ensures Lookup(Store(t, k, v), k) == Some(v)
    ensures forall k' :: k' != k ==> Lookup(Store(t, k, v), k') == Lookup(t, k')
  {
    var r := Store(t, k, v);
    assert Valid(r);
    IndexOfDistinct(r.keys, k, if k in t.keys then IndexOf(t.keys, k).value else |t.keys|);
    forall k' | k' != k
      ensures Lookup(r, k') == Lookup(t, k')
    {
      if k' in t.keys {
        IndexOfDistinct(r.keys, k', IndexOf(t.keys, k').value);
      }
    }
  }

  /** The dictionary built by storing vals[i] under names[i] for i = 0, 1, ... in turn. */
  function Keyed(names: seq<string>, vals: seq<real>): (t: Table)
    requires |names| == |vals|
    ensures Valid(t)
    ensures forall k :: k in t.keys <==> k in names
  {
    if |names| == 0 then Table([], [])
    else
      var n := |names| - 1;
      var before := Keyed(names[..n], vals[..n]);
      StoreLookup(before, names[n], vals[n]);
      assert names == names[..n] + [names[n]];
      Store(before, names[n], vals[n])
  }

  /** The last position holding name k. */
  function LastIndex(names: seq<string>, k: string): (i: nat)
    requires k in names
    ensures i < |names| && names[i] == k
    ensures forall j :: i < j < |names| ==> names[j] != k
  {
    if names[|names| - 1] == k then |names| - 1 else LastIndex(names[..|names| - 1], k)
  }

  /** Storing the last name: it holds the last value, and every other name what it held before. */
  lemma KeyedLast(names: seq<string>, vals: seq<real>, k: string)
    requires |names| == |vals| && |names| > 0
    ensures var n := |names| - 1;
            Lookup(Keyed(names, vals), k) == if k == names[n] then Some(vals[n]) else Lookup(Keyed(names[..n], vals[..n]), k)
  {
    var n := |names| - 1;
    StoreLookup(Keyed(names[..n], vals[..n]), names[n], vals[n]);
  }

  /** A name other than the last occurs in the names exactly when it occurs before the last, at the same last position. */
  lemma LastIndexFront(names: seq<string>, k: string)
    requires |names| > 0 && k != names[|names| - 1]
    ensures k in names <==> k in names[..|names| - 1]
    ensures k in names ==> LastIndex(names, k) == LastIndex(names[..|names| - 1], k)
  {
    assert names == names[..|names| - 1] + [names[|names| - 1]];
  }

  /** Each name ends up holding the value of its last occurrence: earlier duplicates are overwritten. */
  lemma {:induction false} KeyedLookup(names: seq<string>, vals: seq<real>, k: string)
    requires |names| == |vals|
    ensures Lookup(Keyed(names, vals), k) == if k in names then Some(vals[LastIndex(names, k)]) else None
  {
    if |names| > 0 {
      var n := |names| - 1;
      KeyedLast(names, vals, k);
      if k != names[n] {
        KeyedLookup(names[..n], vals[..n], k);
        LastIndexFront(names, k);
      }
    }
  }

  /** With no name twice, the dictionary holds exactly the names and values in order. */
  lemma {:induction false} KeyedDistinct(names: seq<string>, vals: seq<real>)
    requires |names| == |vals| && Distinct(names)
    ensures Keyed(names, vals) == Table(names, vals)
  {
    if |names| > 0 {
      var n := |names| - 1;
      KeyedDistinct(names[..n], vals[..n]);
      assert names[n] !in names[..n];
      assert names[..n] + [names[n]] == names;
      assert vals[..n] + [vals[n]] == vals;
    }
  }

  /** Ingredient i's share, in percent. */
  function Percentages(b: seq<bool>, n: nat): (p: seq<real>)
    requires Var(n, 0) <= |b|
    ensures |p| == n && forall i :: 0 <= i < n ==> p[i] == Decode(b, i) * 100.0
  {
    seq(n, i requires 0 <= i < n => Decode(b, i) * 100.0)
  }

  /** Before rescaling, every proportion lies in [0, 100 * (1 - 2^-16)]. */
  lemma PercentageBounds(b: seq<bool>, n: nat)
    requires Var(n, 0) <= |b|
    ensures forall i :: 0 <= i < n ==> 0.0 <= Percentages(b, n)[i] <= 100.0 * (1.0 - 1.0 / 65536.0)
  {
    forall i | 0 <= i < n
      ensures 0.0 <= Percentages(b, n)[i] <= 100.0 * (1.0 - 1.0 / 65536.0)
    {
      DecodeBounds(b, i);
    }
  }

  /** The share of ingredient i: the weights of its set bits, added one bit at a time. */
  method DecodeShare(b: seq<bool>, i: nat) returns (proportion: real)
    requires Var(i + 1, 0) <= |b|
    ensures proportion == Decode(b, i)
  {
    proportion := 0.0;
    for j := 0 to BitsPerIngredient
      invariant proportion == DecodePrefix(b, i, j)
    {
      if b[Var(i, j)] {
        proportion := proportion + Weight(j);
      }
    }
  }

  lemma KeyedStep(names: seq<string>, vals: seq<real>, i: nat)
    requires |names| == |vals| && i < |names|
    ensures Keyed(names[..i + 1], vals[..i + 1]) == Store(Keyed(names[..i], vals[..i]), names[i], vals[i])
  {
    assert names[..i + 1][..i] == names[..i] && vals[..i + 1][..i] == vals[..i];
  }

  /**
   * Decodes each ingredient's 16 bits into its share, in percent, and
   * stores it under the ingredient's name.
   */
  method DecodeProportions(names: seq<string>, b: seq<bool>) returns (t: Table)
    requires |b| == Var(|names|, 0)
    ensures t == Keyed(names, Percentages(b, |names|))
  {
    var n := |names|;
    ghost var p := Percentages(b, n);
    t := Table([], []);
    for i := 0 to n
      invariant t == Keyed(names[..i], p[..i])
    {
      var proportion := DecodeShare(b, i);
      KeyedStep(names, p, i);
      t := Store(t, names[i], proportion * 100.0);
    }
    assert names[..n] == names && p[..n] == p;
  }

  function Sum(v: seq<real>): real {
    if |v| == 0 then 0.0 else Sum(v[..|v| - 1]) + v[|v| - 1]
  }

  predicate NonNegative(v: seq<real>) {
    forall k :: 0 <= k < |v| ==> v[k] >= 0.0
  }

  /** x as a percentage of a positive total. */
  function Percent(x: real, total: real): real
    requires total > 0.0
  {
    x / total * 100.0
  }

  /** Every value as a percentage of a positive total. */
  function AsPercentages(v: seq<real>, total: real): (r: seq<real>)
    requires total > 0.0
    ensures |r| == |v| && forall k :: 0 <= k < |v| ==> r[k] == Percent(v[k], total)
  {
    seq(|v|, k requires 0 <= k < |v| => Percent(v[k], total))
  }

  /** Each value divided by the total and multiplied by 100, when the total is positive. */
  function RescaledValues(v: seq<real>): (r: seq<real>)
    ensures |r| == |v|
    ensures Sum(v) <= 0.0 ==> r == v
  {
    var total := Sum(v);
    if total > 0.0 then AsPercentages(v, total) else v
  }

  /** The dictionary with the same keys, in the same order, and every value rescaled. */
  function Rescaled(t: Table): (r: Table)
    ensures r.keys == t.keys && |r.vals| == |t.vals|
  {
    Table(t.keys, RescaledValues(t.vals))
  }

  /** Rescales every proportion in place so that they sum to 100; a total of 0 or less leaves them as they are. */
  method Rescale(t: Table) returns (r: Table)
    requires Valid(t)
    ensures r == Rescaled(t)
  {
    var total := Sum(t.vals);
    r := t;
    if total > 0.0 {
      for k := 0 to |t.keys|
        invariant r.keys == t.keys && |r.vals| == |t.vals|
        invariant forall j :: 0 <= j < k ==> r.vals[j] == t.vals[j] / total * 100.0
        invariant forall j :: k <= j < |t.vals| ==> r.vals[j] == t.vals[j]
      {
        r := Table(r.keys, r.vals[k := r.vals[k] / total * 100.0]);
      }
    }
  }

  // ---- Properties of rescaling ----

  lemma PercentAsScaled(p: real, x: real, total: real)
    requires total > 0.0 && p == Percent(x, total)
    ensures p == x * (100.0 / total)
  {
  }

  lemma {:induction false} SumScaled(v: seq<real>, r: seq<real>, f: real)
    requires |r| == |v| && forall k :: 0 <= k < |v| ==> r[k] == v[k] * f
    ensures Sum(r) == Sum(v) * f
  {
    if |v| > 0 {
      var n := |v| - 1;
      SumScaled(v[..n], r[..n], f);
    }
  }

  lemma {:induction false} ElementBelowSum(v: seq<real>, k: nat)
    requires NonNegative(v) && k < |v|
    ensures 0.0 <= v[k] <= Sum(v)
  {
    var n := |v| - 1;
    SumNonNegative(v[..n]);
    if k < n {
      ElementBelowSum(v[..n], k);
    }
  }

  lemma {:induction false} SumNonNegative(v: seq<real>)
    requires NonNegative(v)
    ensures Sum(v) >= 0.0
  {
    if |v| > 0 {
      SumNonNegative(v[..|v| - 1]);
    }
  }

  /** Values that are never negative and sum to 0 are all 0. */
  lemma {:induction false} SumZero(v: seq<real>)
    requires NonNegative(v) && Sum(v) == 0.0
    ensures forall k :: 0 <= k < |v| ==> v[k] == 0.0
  {
    if |v| > 0 {
      var n := |v| - 1;
      SumNonNegative(v[..n]);
      SumZero(v[..n]);
      assert forall k :: 0 <= k < n ==> v[k] == v[..n][k];
    }
  }

  lemma ScaleBelow(x: real, total: real, f: real)
    requires 0.0 <= x <= total && total > 0.0 && f == 100.0 / total
    ensures 0.0 <= x * f <= 100.0
  {
    assert total * f == 100.0;
    assert (total - x) * f >= 0.0;
  }

  lemma Ratio(rx: real, ry: real, x: real, y: real, f: real)
    requires rx == x * f && ry == y * f
    ensures rx * y == ry * x
  {
  }

  /** A percentage of a positive total is the value times 100 / total. */
  lemma PercentagesScaled(v: seq<real>, total: real)
    requires total > 0.0
    ensures forall k :: 0 <= k < |v| ==> AsPercentages(v, total)[k] == v[k] * (100.0 / total)
  {
    var r := AsPercentages(v, total);
    forall k | 0 <= k < |v|
      ensures r[k] == v[k] * (100.0 / total)
    {
      PercentAsScaled(r[k], v[k], total);
    }
  }

  lemma RescaledAsScaled(v: seq<real>)
    requires Sum(v) > 0.0
    ensures forall k :: 0 <= k < |v| ==> RescaledValues(v)[k] == v[k] * (100.0 / Sum(v))
  {
    PercentagesScaled(v, Sum(v));
  }

  lemma TimesInverse(total: real, f: real)
    requires total > 0.0 && f == 100.0 / total
    ensures total * f == 100.0
  {
  }

  /** When the decoded total is positive, the rescaled proportions sum to exactly 100. */
  lemma RescaledSum(v: seq<real>)
    requires Sum(v) > 0.0
    ensures Sum(RescaledValues(v)) == 100.0
  {
    RescaledAsScaled(v);
    SumScaled(v, RescaledValues(v), 100.0 / Sum(v));
    TimesInverse(Sum(v), 100.0 / Sum(v));
  }

  /** When the decoded total is positive, every rescaled proportion lies in [0, 100]. */
  lemma RescaledBounds(v: seq<real>)
    requires NonNegative(v) && Sum(v) > 0.0
    ensures forall k :: 0 <= k < |v| ==> 0.0 <= RescaledValues(v)[k] <= 100.0
  {
    RescaledAsScaled(v);
    forall k | 0 <= k < |v|
      ensures 0.0 <= RescaledValues(v)[k] <= 100.0
    {
      ElementBelowSum(v, k);
      ScaleBelow(v[k], Sum(v), 100.0 / Sum(v));
    }
  }

  /** Values scaled by one common factor keep their ratios. */
  lemma ScaledRatios(r: seq<real>, v: seq<real>, f: real)
    requires |r| == |v| && forall k :: 0 <= k < |v| ==> r[k] == v[k] * f
    ensures forall k, l :: 0 <= k < |v| && 0 <= l < |v| ==> r[k] * v[l] == r[l] * v[k]
  {
    forall k, l | 0 <= k < |v| && 0 <= l < |v|
      ensures r[k] * v[l] == r[l] * v[k]
    {
      Ratio(r[k], r[l], v[k], v[l], f);
    }
  }

  /** Rescaling keeps the ratio between every two ingredients' proportions. */
  lemma RescaledRatios(v: seq<real>)
    ensures forall k, l :: 0 <= k < |v| && 0 <= l < |v| ==> RescaledValues(v)[k] * v[l] == RescaledValues(v)[l] * v[k]
  {
    if Sum(v) > 0.0 {
      RescaledAsScaled(v);
      ScaledRatios(RescaledValues(v), v, 100.0 / Sum(v));
    } else {
      ScaledRatios(v, v, 1.0);
    }
  }

  /** When the decoded total is 0, every proportion is 0 and rescaling leaves them at 0. */
  lemma RescaledZero(v: seq<real>)
    requires NonNegative(v) && Sum(v) == 0.0
    ensures forall k :: 0 <= k < |v| ==> v[k] == RescaledValues(v)[k] == 0.0
  {
    SumZero(v);
  }
}
