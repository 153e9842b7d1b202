/** Bayesian duration norms (WorkAI/assess/bayesian_norms.py), over exact decimals. */
module BayesianNorms {
  import opened Common
  import opened Sorting

  const DEFAULT_BASELINE_PRIOR: real := 30.0
  const DEFAULT_PRIOR_WEIGHT: real := 10.0

  const BASELINE_PRIORS_MINUTES: map<string, real> := map[
    "meetings" := 30.0, "coding" := 60.0, "review" := 30.0, "planning" := 30.0, "communication" := 15.0,
    "learning" := 45.0, "admin" := 15.0, "break" := 15.0, "uncategorized" := 30.0
  ]

  datatype Stat = Stat(category: string, size: int, mean: Option<real>, stddev: Option<real>)

  datatype NormRow = NormRow(category: string, norm: real, stddev: Option<real>, size: int, prior: real)

  function Max(a: real, b: real): real { if a < b then b else a }

  // ---- The norm of one category ----------------------------------------------------------

  /** `compute_bayesian_norm` */
  function BayesianNorm(prior: real, mean: Option<real>, size: int, weight: real): real {
    var baseline := Max(0.0, prior);
    if size <= 0 || mean.None? then baseline
    else
      var m := Max(0.0, mean.value);
      var denominator := weight + size as real;
      if denominator <= 0.0 then baseline
      else Max(0.0, (weight * baseline + size as real * m) / denominator)
  }

  /** `r` is the mean of `p` and `m`, weighted `w` to `n`. */
  ghost predicate IsWeightedMean(r: real, p: real, w: real, m: real, n: real) {
    w > 0.0 && n > 0.0 && (w + n) * r == w * p + n * m
  }

  /** With a positive weight the norm is the weighted mean of the clamped prior and the clamped sample mean. */
  lemma NormIsWeightedMean(prior: real, mean: real, size: int, weight: real)
    requires weight > 0.0 && size > 0
    ensures IsWeightedMean(BayesianNorm(prior, Some(mean), size, weight), Max(0.0, prior), weight,
                           Max(0.0, mean), size as real)
  {
    var numerator := weight * Max(0.0, prior) + size as real * Max(0.0, mean);
    var denominator := weight + size as real;
    assert weight * Max(0.0, prior) >= 0.0;
    assert size as real * Max(0.0, mean) >= 0.0;
    assert numerator / denominator >= 0.0;
    assert denominator * (numerator / denominator) == numerator;
  }

  lemma PositiveProduct(c: real, d: real)
    requires c > 0.0 && d > 0.0
    ensures c * d > 0.0
  {
  }

  /** A positive factor can be cancelled. */
  lemma CancelFactor(c: real, x: real, y: real)
    requires c > 0.0 && c * x <= c * y
    ensures x <= y
  {
    if x > y {
      PositiveProduct(c, x - y);
    }
  }

  lemma ScaleOrder(c: real, x: real, y: real)
    requires c > 0.0 && x <= y
    ensures c * x <= c * y
  {
    if x < y {
      PositiveProduct(c, y - x);
    }
  }

  /** Weighted means with the same weights are ordered as their parts. */
  lemma MeanIsMonotone(r: real, p: real, m: real, r': real, p': real, m': real, w: real, n: real)
    requires IsWeightedMean(r, p, w, m, n) && IsWeightedMean(r', p', w, m', n) && p <= p' && m <= m'
    ensures r <= r'
  {
    ScaleOrder(w, p, p');
    ScaleOrder(n, m, m');
    var d := w + n;
    assert d * r == w * p + n * m <= w * p' + n * m' == d * r';
    CancelFactor(d, r, r');
  }

  /** The norm lies between prior and sample mean. */
  lemma NormIsBetween(prior: real, mean: real, size: int, weight: real)
    requires weight > 0.0 && size > 0
    ensures var p, m, r := Max(0.0, prior), Max(0.0, mean), BayesianNorm(prior, Some(mean), size, weight);
            if p <= m then p <= r <= m else m <= r <= p
  {
    var p, m, r := Max(0.0, prior), Max(0.0, mean), BayesianNorm(prior, Some(mean), size, weight);
    NormIsWeightedMean(prior, mean, size, weight);
    var lo, hi := if p <= m then p else m, if p <= m then m else p;
    MeanIsMonotone(lo, lo, lo, r, p, m, weight, size as real);
    MeanIsMonotone(r, p, m, hi, hi, hi, weight, size as real);
  }

  /** A larger prior or a larger sample mean never lowers the norm. */
  lemma NormIsMonotone(prior: real, mean: real, prior': real, mean': real, size: int, weight: real)
    requires weight > 0.0 && prior <= prior' && mean <= mean'
    ensures BayesianNorm(prior, Some(mean), size, weight) <= BayesianNorm(prior', Some(mean'), size, weight)
  {
    if size > 0 {
      NormIsWeightedMean(prior, mean, size, weight);
      NormIsWeightedMean(prior', mean', size, weight);
      MeanIsMonotone(BayesianNorm(prior, Some(mean), size, weight), Max(0.0, prior), Max(0.0, mean),
                     BayesianNorm(prior', Some(mean'), size, weight), Max(0.0, prior'), Max(0.0, mean'),
                     weight, size as real);
    }
  }

  /**
   * Updating with one sample and then, with the weight grown by its size, with a second one is the update with the
   * pooled sample.
   */
  lemma TwoUpdatesPool(prior: real, m1: real, n1: int, m2: real, n2: int, weight: real)
    requires weight > 0.0 && n1 > 0 && n2 > 0 && m1 >= 0.0 && m2 >= 0.0
    ensures BayesianNorm(BayesianNorm(prior, Some(m1), n1, weight), Some(m2), n2, weight + n1 as real)
         == BayesianNorm(prior, Some((n1 as real * m1 + n2 as real * m2) / (n1 + n2) as real), n1 + n2, weight)
  {
    var a, b, c := n1 as real, n2 as real, (n1 + n2) as real;
    var pooled := (a * m1 + b * m2) / c;
    PooledMean(a, m1, b, m2, c);
    var first := BayesianNorm(prior, Some(m1), n1, weight);
    NormIsWeightedMean(prior, m1, n1, weight);
    NormIsBetween(prior, m1, n1, weight);
    NormIsWeightedMean(first, m2, n2, weight + a);
    NormIsWeightedMean(prior, pooled, n1 + n2, weight);
    MeansPool(Max(0.0, prior), weight, m1, a, m2, b, pooled, c, first,
              BayesianNorm(first, Some(m2), n2, weight + a), BayesianNorm(prior, Some(pooled), n1 + n2, weight));
  }

  lemma PooledMean(a: real, m1: real, b: real, m2: real, c: real)
    requires a > 0.0 && b > 0.0 && c == a + b && m1 >= 0.0 && m2 >= 0.0
    ensures (a * m1 + b * m2) / c >= 0.0 && c * ((a * m1 + b * m2) / c) == a * m1 + b * m2
  {
    assert a * m1 >= 0.0 && b * m2 >= 0.0;
  }

  lemma MeansPool(p: real, w: real, m1: real, a: real, m2: real, b: real, pooled: real, c: real,
                  first: real, second: real, once: real)
    requires c == a + b && c * pooled == a * m1 + b * m2
    requires IsWeightedMean(first, p, w, m1, a) && IsWeightedMean(second, first, w + a, m2, b)
    requires IsWeightedMean(once, p, w, pooled, c)
    ensures second == once
  {
    var d := w + c;
    assert d == (w + a) + b;
    assert d * second == (w + a) * first + b * m2 == d * once;
    CancelFactor(d, second, once);
    CancelFactor(d, once, second);
  }

  // ---- Rounding --------------------------------------------------------------------------

  /** To the nearest integer, halves away from zero: decimal ROUND_HALF_UP and PostgreSQL's ROUND(numeric). */
  function RoundHalfAway(x: real): (r: int)
    ensures -0.5 <= r as real - x <= 0.5
    ensures x >= 0.0 ==> r >= 0
  {
    if x >= 0.0 then (x + 0.5).Floor else -((-x + 0.5).Floor)
  }

  /** `_quantize_2` */
  function Quantize2(x: real): real { RoundHalfAway(x * 100.0) as real / 100.0 }

  /** The norm minutes shown for an assessment: cents first, whole minutes after. */
  function NormMinutes(norm: real): int { RoundHalfAway(Quantize2(norm)) }

  /** Rounding twice costs at most 0.505 minutes, and that much is possible. */
  lemma RoundingError(x: real)
    ensures -0.505 <= NormMinutes(x) as real - x <= 0.505
    ensures NormMinutes(29.495) as real - 29.495 == 0.505
  {
    var cents := RoundHalfAway(x * 100.0);
    assert -0.005 <= cents as real / 100.0 - x <= 0.005;
    assert 29.495 * 100.0 == 2949.5;
    assert RoundHalfAway(2949.5) == 2950;
    assert Quantize2(29.495) == 29.5;
    assert RoundHalfAway(29.5) == 30;
  }

  // ---- The window ------------------------------------------------------------------------

  /** `resolve_window_bounds`, with dates as day numbers. */
  function WindowBounds(anchor: int, days: int): (r: (int, int))
    ensures r.0 <= anchor == r.1
    ensures r.1 - r.0 + 1 == if days >= 1 then days else 1
  {
    var safe := if days < 1 then 1 else days;
    (anchor - (safe - 1), anchor)
  }

  // ---- All categories --------------------------------------------------------------------

  /** `{item.task_category: item for item in stats}`: a later item replaces an earlier one. */
  function ByCategory(stats: seq<Stat>): map<string, Stat> {
    if stats == [] then map[]
    else ByCategory(stats[..|stats| - 1])[stats[|stats| - 1].category := stats[|stats| - 1]]
  }

  /** The row of one category, from what was observed of it. */
  function RowFor(category: string, observed: Option<Stat>, priors: map<string, real>, weight: real): NormRow {
    var prior := if category in priors then priors[category] else DEFAULT_BASELINE_PRIOR;
    var size := if observed.None? || observed.value.size < 0 then 0 else observed.value.size;
    var mean := if observed.None? then None else observed.value.mean;
    var stddev := if observed.None? then None else observed.value.stddev;
    NormRow(category, Quantize2(BayesianNorm(prior, mean, size, weight)),
            if stddev.None? then None else Some(Quantize2(Max(0.0, stddev.value))), size, Quantize2(Max(0.0, prior)))
  }

  function Lookup(stats: map<string, Stat>, category: string): Option<Stat> {
    if category in stats then Some(stats[category]) else None
  }

  /** The norm table a run writes: one row for every category with a prior or an observation. */
  function NormTable(stats: map<string, Stat>, priors: map<string, real>, weight: real): map<string, NormRow> {
    map c | c in priors.Keys + stats.Keys :: RowFor(c, Lookup(stats, c), priors, weight)
  }

  /** `rows` lists the entries of `table`, each once, by ascending category. */
  ghost predicate ListsTable(rows: seq<NormRow>, table: map<string, NormRow>) {
    && (forall i, j :: 0 <= i < j < |rows| ==>
          StringLe(rows[i].category, rows[j].category) && rows[i].category != rows[j].category)
    && (forall i :: 0 <= i < |rows| ==> rows[i].category in table && rows[i] == table[rows[i].category])
    && (forall c :: c in table ==> exists i :: 0 <= i < |rows| && rows[i].category == c)
  }

  /** `compute_norm_rows` */
  method ComputeNormRows(stats: seq<Stat>, baselinePriors: Option<map<string, real>>, weight: real)
    returns (rows: seq<NormRow>)
    ensures var priors := if baselinePriors.Some? && baselinePriors.value != map[] then baselinePriors.value
                          else BASELINE_PRIORS_MINUTES;
            ListsTable(rows, NormTable(ByCategory(stats), priors, weight))
  {
    var priors := if baselinePriors.Some? && baselinePriors.value != map[] then baselinePriors.value
                  else BASELINE_PRIORS_MINUTES;
    var byCategory := ByCategory(stats);
    var categories := SortedMembers(priors.Keys + byCategory.Keys);
    rows := [];
    for i := 0 to |categories|
      invariant |rows| == i
      invariant forall k :: 0 <= k < i ==>
                  rows[k] == RowFor(categories[k], Lookup(byCategory, categories[k]), priors, weight)
    {
      var c := categories[i];
      var observed := Lookup(byCategory, c);
      var prior := if c in priors then priors[c] else DEFAULT_BASELINE_PRIOR;
      var size := if observed.None? || observed.value.size < 0 then 0 else observed.value.size;
      var mean := if observed.None? then None else observed.value.mean;
      var stddev := if observed.None? then None else observed.value.stddev;
      var norm := BayesianNorm(prior, mean, size, weight);
      rows := rows + [NormRow(c, Quantize2(norm), if stddev.None? then None else Some(Quantize2(Max(0.0, stddev.value))),
                              size, Quantize2(Max(0.0, prior)))];
    }
    RowsListTable(rows, categories, byCategory, priors, weight);
  }

  lemma RowsListTable(rows: seq<NormRow>, categories: seq<string>, stats: map<string, Stat>, priors: map<string, real>,
                      weight: real)
    requires StrictlyAscending(categories) && forall c :: c in categories <==> c in priors.Keys + stats.Keys
    requires |rows| == |categories|
    requires forall k :: 0 <= k < |rows| ==> rows[k] == RowFor(categories[k], Lookup(stats, categories[k]), priors, weight)
    ensures ListsTable(rows, NormTable(stats, priors, weight))
  {
    assert forall k :: 0 <= k < |rows| ==> rows[k].category == categories[k] && categories[k] in categories;
    forall c | c in NormTable(stats, priors, weight)
      ensures exists i :: 0 <= i < |rows| && rows[i].category == c
    {
      var i :| 0 <= i < |categories| && categories[i] == c;
      assert rows[i].category == c;
    }
  }

  /** Every norm a run writes is within 0.505 minutes of the exact Bayesian norm when shown in whole minutes. */
  lemma WrittenNormIsClose(stats: map<string, Stat>, priors: map<string, real>, weight: real, c: string)
    requires c in NormTable(stats, priors, weight)
    ensures var s := Lookup(stats, c);
            var prior := if c in priors then priors[c] else DEFAULT_BASELINE_PRIOR;
            var exact := BayesianNorm(prior, if s.Some? then s.value.mean else None,
                                      if s.Some? then s.value.size else 0, weight);
            -0.505 <= RoundHalfAway(NormTable(stats, priors, weight)[c].norm) as real - exact <= 0.505
  {
    var s := Lookup(stats, c);
    var prior := if c in priors then priors[c] else DEFAULT_BASELINE_PRIOR;
    RoundingError(BayesianNorm(prior, if s.Some? then s.value.mean else None, if s.Some? then s.value.size else 0, weight));
  }
}
