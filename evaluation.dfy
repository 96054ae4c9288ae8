/**
 * Model of qualitative_analysis/evaluation.py: Cohen's kappa between two
 * labelings, and the table of kappas between a model's coding and every human
 * rater, and between every two raters.
 *
 * `compute_cohens_kappa` hands its arguments to scikit-learn's
 * `cohen_kappa_score`.  That computes, over the label list (the given `labels`,
 * or the sorted labels that occur in either labeling), the confusion matrix C of
 * the samples whose two labels are both in the list, the matrix E of counts
 * expected by chance (the outer product of the two marginals divided by the
 * number of samples counted), and returns 1 - sum(w * C) / sum(w * E), where w
 * is the weight matrix of the label indices: 0 on the diagonal and 1 elsewhere,
 * |i - j|, or (i - j)^2.  Here the two sums are written over samples:
 * sum(w * C) is the sum of w over the counted samples, and N * sum(w * E) is the
 * sum of w over every pair of counted samples.  The result is exact (`real`).
 */
module Evaluation {
  import opened Common

  /** The `weights` argument: None, "linear" or "quadratic". */
  datatype Weighting = Unweighted | Linear | Quadratic

  /** The ValueErrors the kappa computation raises. */
  datatype KappaError = LengthMismatch | EmptyLabels | NoLabelInFirst

  /** A kappa score, or NaN when agreement by chance is zero (no two counted samples can disagree). */
  datatype Kappa = Score(value: real) | Undefined

  /** What `compute_cohens_kappa` returns or raises. */
  datatype KappaResult = Value(kappa: Kappa) | Error(error: KappaError)

  // ------------------------------------------------------------------
  // The label list
  // ------------------------------------------------------------------

  predicate StrictlySorted(xs: seq<int>)
  {
    forall i, j :: 0 <= i < j < |xs| ==> xs[i] < xs[j]
  }

  /** Inserts x into a strictly sorted list, unless it is already there. */
  function InsertSorted(xs: seq<int>, x: int): (r: seq<int>)
    requires StrictlySorted(xs)
    ensures StrictlySorted(r)
    ensures forall y :: y in r <==> y in xs || y == x
  {
    if |xs| == 0 then [x]
    else if x < xs[0] then
      SortedCons(x, xs);
      [x] + xs
    else if x == xs[0] then xs
    else
      var tail := InsertSorted(xs[1..], x);
      assert forall y :: y in tail ==> xs[0] < y;
      SortedCons(xs[0], tail);
      [xs[0]] + tail
  }

  /** A strictly sorted list stays so behind a smaller head. */
  lemma SortedCons(h: int, t: seq<int>)
    requires StrictlySorted(t) && (|t| > 0 ==> h < t[0])
    ensures StrictlySorted([h] + t)
  {
    var r := [h] + t;
    forall i, j | 0 <= i < j < |r| ensures r[i] < r[j] {
      assert r[j] == t[j - 1];
      if i > 0 {
        assert r[i] == t[i - 1];
      } else if j > 1 {
        assert t[0] < t[j - 1];
      }
    }
  }

  /** The labels that occur in a labeling, sorted, each once (`unique_labels`). */
  function UniqueLabels(a: seq<int>): (r: seq<int>)
    ensures StrictlySorted(r)
    ensures forall y :: y in r <==> y in a
  {
    if |a| == 0 then []
    else
      var init := a[..|a| - 1];
      assert forall y :: y in a <==> y in init || y == a[|a| - 1];
      InsertSorted(UniqueLabels(init), a[|a| - 1])
  }

  /** The index of the first occurrence of x in the label list, or its length. */
  function IndexOf(labels: seq<int>, x: int): (r: nat)
    ensures r <= |labels|
    ensures r < |labels| <==> x in labels
    ensures r < |labels| ==> labels[r] == x
    ensures forall k :: 0 <= k < r ==> labels[k] != x
  {
    if |labels| == 0 then 0
    else if labels[0] == x then 0
    else 1 + IndexOf(labels[1..], x)
  }

  // ------------------------------------------------------------------
  // The weighted sums
  // ------------------------------------------------------------------

  /** The weight of a pair of label indices. */
  function Weight(w: Weighting, i: nat, j: nat): real
  {
    match w
    case Unweighted => if i == j then 0.0 else 1.0
    case Linear => if i <= j then (j - i) as real else (i - j) as real
    case Quadratic => ((i - j) * (i - j)) as real
  }

  /** The label-index pairs of the samples whose two labels are both in the list, in order. */
  function Pairs(a: seq<int>, b: seq<int>, labels: seq<int>): (r: seq<(nat, nat)>)
    requires |a| == |b|
    ensures |r| <= |a|
    ensures forall t :: 0 <= t < |r| ==> r[t].0 < |labels| && r[t].1 < |labels|
  {
    if |a| == 0 then []
    else
      var n := |a| - 1;
      Pairs(a[..n], b[..n], labels)
      + (if a[n] in labels && b[n] in labels then [(IndexOf(labels, a[n]), IndexOf(labels, b[n]))] else [])
  }

  /** sum(w * C): the weights of the counted samples. */
  function Observed(w: Weighting, p: seq<(nat, nat)>): real
  {
    if |p| == 0 then 0.0 else Observed(w, p[..|p| - 1]) + Weight(w, p[|p| - 1].0, p[|p| - 1].1)
  }

  /** The weights between first label index i and the second label of every counted sample. */
  function RowWeight(w: Weighting, i: nat, p: seq<(nat, nat)>): real
  {
    if |p| == 0 then 0.0 else RowWeight(w, i, p[..|p| - 1]) + Weight(w, i, p[|p| - 1].1)
  }

  /** N * sum(w * E): the weights between the first label of every sample of q and the second label of every sample of p. */
  function Chance(w: Weighting, q: seq<(nat, nat)>, p: seq<(nat, nat)>): real
  {
    if |q| == 0 then 0.0 else Chance(w, q[..|q| - 1], p) + RowWeight(w, q[|q| - 1].0, p)
  }

  /** The label list the matrix is indexed by. */
  function LabelList(a: seq<int>, b: seq<int>, labels: Option<seq<int>>): seq<int>
  {
    if labels.Some? then labels.value else UniqueLabels(a + b)
  }

  /** 1 - N * sum(w * C) / (N * sum(w * E)) over the counted samples, NaN when the denominator is 0. */
  function PairsKappa(w: Weighting, p: seq<(nat, nat)>): Kappa
  {
    var chance := Chance(w, p, p);
    if chance == 0.0 then Undefined else Score(1.0 - ScaledObserved(w, p) / chance)
  }

  /** N * sum(w * C): the observed sum scaled by the number of counted samples. */
  function ScaledObserved(w: Weighting, p: seq<(nat, nat)>): real
  {
    (|p| as real) * Observed(w, p)
  }

  /**
   * `compute_cohens_kappa(judgments_1, judgments_2, labels, weights)`.  Labelings
   * of different lengths, an empty label list, and a label list none of whose
   * labels occurs in the first labeling raise ValueError.
   */
  function CohensKappa(a: seq<int>, b: seq<int>, labels: Option<seq<int>>, w: Weighting): (r: KappaResult)
    ensures r == Error(LengthMismatch) <==> |a| != |b|
    ensures r.Error? <==>
      |a| != |b| || (labels.Some? && (|labels.value| == 0 || (|a| > 0 && forall x :: x in a ==> x !in labels.value)))
  {
    if |a| != |b| then Error(LengthMismatch)
    else if labels.Some? && |labels.value| == 0 then Error(EmptyLabels)
    else if labels.Some? && |a| > 0 && forall x :: x in a ==> x !in labels.value then Error(NoLabelInFirst)
    else Value(PairsKappa(w, Pairs(a, b, LabelList(a, b, labels))))
  }

  // ------------------------------------------------------------------
  // Bounds
  // ------------------------------------------------------------------

  /** No weight is negative. */
  lemma WeightNonNegative(w: Weighting, i: nat, j: nat)
    ensures Weight(w, i, j) >= 0.0
  {
    if w.Quadratic? {
      var d := i - j;
      assert d * d >= 0 by {
        if d < 0 {
          assert d * d == (-d) * (-d);
        }
      }
    }
  }

  lemma {:induction false} ObservedNonNegative(w: Weighting, p: seq<(nat, nat)>)
    ensures Observed(w, p) >= 0.0
    decreases |p|
  {
    if |p| > 0 {
      ObservedNonNegative(w, p[..|p| - 1]);
      WeightNonNegative(w, p[|p| - 1].0, p[|p| - 1].1);
    }
  }

  /** A row of weights is at least each of its terms, and not negative. */
  lemma {:induction false} RowWeightAtLeast(w: Weighting, i: nat, p: seq<(nat, nat)>)
    ensures RowWeight(w, i, p) >= 0.0
    ensures forall t :: 0 <= t < |p| ==> RowWeight(w, i, p) >= Weight(w, i, p[t].1)
    decreases |p|
  {
    if |p| > 0 {
      var n := |p| - 1;
      RowWeightAtLeast(w, i, p[..n]);
      WeightNonNegative(w, i, p[n].1);
      forall t | 0 <= t < n ensures RowWeight(w, i, p) >= Weight(w, i, p[t].1) {
        assert p[..n][t] == p[t];
      }
    }
  }

  /** The chance sum is at least each of its rows, and not negative. */
  lemma {:induction false} ChanceAtLeast(w: Weighting, q: seq<(nat, nat)>, p: seq<(nat, nat)>)
    ensures Chance(w, q, p) >= 0.0
    ensures forall s :: 0 <= s < |q| ==> Chance(w, q, p) >= RowWeight(w, q[s].0, p)
    decreases |q|
  {
    if |q| > 0 {
      var n := |q| - 1;
      ChanceAtLeast(w, q[..n], p);
      RowWeightAtLeast(w, q[n].0, p);
      forall s | 0 <= s < n ensures Chance(w, q, p) >= RowWeight(w, q[s].0, p) {
        assert q[..n][s] == q[s];
      }
    }
  }

  lemma QuotientNonNegative(n: real, x: real, y: real)
    requires n >= 0.0 && x >= 0.0 && y > 0.0
    ensures n * x / y >= 0.0
  {
    assert n * x >= 0.0;
  }

  /** The kappa of any counted samples is at most 1. */
  lemma PairsKappaAtMostOne(w: Weighting, p: seq<(nat, nat)>)
    ensures PairsKappa(w, p).Score? ==> PairsKappa(w, p).value <= 1.0
  {
    ObservedNonNegative(w, p);
    ChanceAtLeast(w, p, p);
    if Chance(w, p, p) != 0.0 {
      QuotientNonNegative(|p| as real, Observed(w, p), Chance(w, p, p));
    }
  }

  /** Kappa never exceeds 1. */
  lemma KappaAtMostOne(a: seq<int>, b: seq<int>, labels: Option<seq<int>>, w: Weighting)
    ensures var r := CohensKappa(a, b, labels, w);
      r.Value? && r.kappa.Score? ==> r.kappa.value <= 1.0
  {
    if |a| == |b| {
      PairsKappaAtMostOne(w, Pairs(a, b, LabelList(a, b, labels)));
    }
  }

  // ------------------------------------------------------------------
  // Identical labelings
  // ------------------------------------------------------------------

  /** Every weighting gives a pair of equal labels the weight 0. */
  lemma WeightDiagonal(w: Weighting, i: nat)
    ensures Weight(w, i, i) == 0.0
  {
  }

  /** A weighting gives two different labels a positive weight. */
  lemma WeightOffDiagonal(w: Weighting, i: nat, j: nat)
    requires i != j
    ensures Weight(w, i, j) > 0.0
  {
    if w.Quadratic? {
      assert (i - j) * (i - j) > 0;
    }
  }

  /** The counted samples of a labeling compared with itself all agree. */
  lemma {:induction false} PairsOfSame(a: seq<int>, labels: seq<int>)
    ensures forall t :: 0 <= t < |Pairs(a, a, labels)| ==> Pairs(a, a, labels)[t].0 == Pairs(a, a, labels)[t].1
    decreases |a|
  {
    if |a| > 0 {
      PairsOfSame(a[..|a| - 1], labels);
    }
  }

  lemma {:induction false} ObservedOfAgreement(w: Weighting, p: seq<(nat, nat)>)
    requires forall t :: 0 <= t < |p| ==> p[t].0 == p[t].1
    ensures Observed(w, p) == 0.0
    decreases |p|
  {
    if |p| > 0 {
      var n := |p| - 1;
      assert forall t :: 0 <= t < n ==> p[..n][t] == p[t];
      ObservedOfAgreement(w, p[..n]);
      WeightDiagonal(w, p[n].0);
    }
  }

  /** A sample whose two labels are both listed is counted, with its label indices. */
  lemma {:induction false} PairsHasSample(a: seq<int>, b: seq<int>, labels: seq<int>, t: nat)
    requires |a| == |b| && t < |a| && a[t] in labels && b[t] in labels
    ensures (IndexOf(labels, a[t]), IndexOf(labels, b[t])) in Pairs(a, b, labels)
    decreases |a|
  {
    var n := |a| - 1;
    var init := Pairs(a[..n], b[..n], labels);
    var last := if a[n] in labels && b[n] in labels then [(IndexOf(labels, a[n]), IndexOf(labels, b[n]))] else [];
    assert Pairs(a, b, labels) == init + last;
    if t < n {
      assert a[..n][t] == a[t] && b[..n][t] == b[t];
      PairsHasSample(a[..n], b[..n], labels, t);
    } else {
      assert last[0] == (IndexOf(labels, a[t]), IndexOf(labels, b[t]));
    }
  }

  /** Counted samples that all agree, two of which carry different labels, have kappa 1. */
  lemma PairsKappaOfAgreement(w: Weighting, p: seq<(nat, nat)>, k: nat, m: nat)
    requires forall t :: 0 <= t < |p| ==> p[t].0 == p[t].1
    requires k < |p| && m < |p| && p[k].0 != p[m].1
    ensures PairsKappa(w, p) == Score(1.0)
  {
    ChanceAtLeast(w, p, p);
    RowWeightAtLeast(w, p[k].0, p);
    WeightOffDiagonal(w, p[k].0, p[m].1);
    ObservedOfAgreement(w, p);
  }

  /**
   * A labeling compared with itself has kappa 1 as soon as it holds two different
   * listed labels (so that agreement by chance is below 1).
   */
  lemma KappaOfIdentical(a: seq<int>, labels: Option<seq<int>>, w: Weighting, s: nat, t: nat)
    requires s < |a| && t < |a| && a[s] != a[t]
    requires labels.Some? ==> a[s] in labels.value && a[t] in labels.value
    ensures CohensKappa(a, a, labels, w) == Value(Score(1.0))
  {
    var list := LabelList(a, a, labels);
    assert a[s] in list && a[t] in list by {
      if labels.None? {
        assert a[s] in a + a && a[t] in a + a;
      }
    }
    var p := Pairs(a, a, list);
    PairsHasSample(a, a, list, s);
    PairsHasSample(a, a, list, t);
    var k :| 0 <= k < |p| && p[k] == (IndexOf(list, a[s]), IndexOf(list, a[s]));
    var m :| 0 <= m < |p| && p[m] == (IndexOf(list, a[t]), IndexOf(list, a[t]));
    PairsOfSame(a, list);
    PairsKappaOfAgreement(w, p, k, m);
    assert labels.Some? ==> a[s] in a && a[s] in labels.value;
  }

  // ------------------------------------------------------------------
  // The unweighted kappa is Cohen's (po - pe) / (1 - pe)
  // ------------------------------------------------------------------

  /** The number of counted samples whose two labels agree. */
  function Agreements(p: seq<(nat, nat)>): (r: nat)
    ensures r <= |p|
  {
    if |p| == 0 then 0 else Agreements(p[..|p| - 1]) + (if p[|p| - 1].0 == p[|p| - 1].1 then 1 else 0)
  }

  /** The number of counted samples whose first label is label k. */
  function FirstCount(p: seq<(nat, nat)>, k: nat): nat
  {
    if |p| == 0 then 0 else FirstCount(p[..|p| - 1], k) + (if p[|p| - 1].0 == k then 1 else 0)
  }

  /** The number of counted samples whose second label is label k. */
  function SecondCount(p: seq<(nat, nat)>, k: nat): nat
  {
    if |p| == 0 then 0 else SecondCount(p[..|p| - 1], k) + (if p[|p| - 1].1 == k then 1 else 0)
  }

  /** The sum over the first m labels of the product of the two raters' counts of it. */
  function MarginProduct(q: seq<(nat, nat)>, p: seq<(nat, nat)>, m: nat): nat
  {
    if m == 0 then 0 else MarginProduct(q, p, m - 1) + FirstCount(q, m - 1) * SecondCount(p, m - 1)
  }

  /** Unweighted, the observed sum counts the disagreements. */
  lemma {:induction false} ObservedUnweighted(p: seq<(nat, nat)>)
    ensures Observed(Unweighted, p) == (|p| - Agreements(p)) as real
    decreases |p|
  {
    if |p| > 0 {
      ObservedUnweighted(p[..|p| - 1]);
    }
  }

  /** Unweighted, a row counts the samples whose second label differs from i. */
  lemma {:induction false} RowWeightUnweighted(i: nat, p: seq<(nat, nat)>)
    ensures RowWeight(Unweighted, i, p) == |p| as real - SecondCount(p, i) as real
    decreases |p|
  {
    if |p| > 0 {
      RowWeightUnweighted(i, p[..|p| - 1]);
    }
  }

  /** One more sample adds its second-rater count of its first label to the margin product. */
  lemma {:induction false} MarginProductSnoc(q: seq<(nat, nat)>, x: (nat, nat), p: seq<(nat, nat)>, m: nat)
    ensures MarginProduct(q + [x], p, m) == MarginProduct(q, p, m) + (if x.0 < m then SecondCount(p, x.0) else 0)
    decreases m
  {
    if m > 0 {
      MarginProductSnoc(q, x, p, m - 1);
      assert (q + [x])[..|q|] == q;
      var hit := x.0 == m - 1;
      assert FirstCount(q + [x], m - 1) == FirstCount(q, m - 1) + (if hit then 1 else 0);
      MarginStep(MarginProduct(q + [x], p, m - 1), MarginProduct(q, p, m - 1), FirstCount(q, m - 1), SecondCount(p, m - 1),
                 if x.0 < m - 1 then SecondCount(p, x.0) else 0, if x.0 < m then SecondCount(p, x.0) else 0, hit);
    }
  }

  /** The arithmetic of one label of the margin product, with or without one more first-rater count. */
  lemma MarginStep(a: int, b: int, f: int, sc: int, d0: int, d1: int, hit: bool)
    requires a == b + d0 && d1 == d0 + (if hit then sc else 0)
    ensures a + (f + (if hit then 1 else 0)) * sc == b + f * sc + d1
  {
  }

  /** No samples, no margin product. */
  lemma {:induction false} MarginProductOfNone(p: seq<(nat, nat)>, m: nat)
    ensures MarginProduct([], p, m) == 0
    decreases m
  {
    if m > 0 {
      MarginProductOfNone(p, m - 1);
    }
  }

  /** The arithmetic of one step of the chance sum. */
  lemma ChanceStep(c0: real, r: real, mp0: nat, sc: nat, n: nat, pl: nat)
    requires c0 == (n * pl) as real - mp0 as real
    requires r == pl as real - sc as real
    ensures c0 + r == ((n + 1) * pl) as real - (mp0 + sc) as real
  {
    assert (n + 1) * pl == n * pl + pl;
  }

  /** Unweighted, the chance sum is the number of pairs minus those whose labels agree, counted label by label. */
  lemma {:induction false} ChanceUnweighted(q: seq<(nat, nat)>, p: seq<(nat, nat)>, m: nat)
    requires forall s :: 0 <= s < |q| ==> q[s].0 < m
    ensures Chance(Unweighted, q, p) == (|q| * |p|) as real - MarginProduct(q, p, m) as real
    decreases |q|
  {
    if |q| > 0 {
      var n := |q| - 1;
      var init := q[..n];
      assert forall s :: 0 <= s < n ==> init[s] == q[s];
      ChanceUnweighted(init, p, m);
      RowWeightUnweighted(q[n].0, p);
      assert q == init + [q[n]];
      MarginProductSnoc(init, q[n], p, m);
      ChanceStep(Chance(Unweighted, init, p), RowWeight(Unweighted, q[n].0, p),
                 MarginProduct(init, p, m), SecondCount(p, q[n].0), n, |p|);
    } else {
      MarginProductOfNone(p, m);
    }
  }

  /** x is y / d when x * d is y. */
  lemma Quotient(x: real, y: real, d: real)
    requires d != 0.0 && x * d == y
    ensures x == y / d
  {
  }

  /** The algebra that turns 1 - N * (N - A) / (N^2 - S) into (po - pe) / (1 - pe). */
  lemma CohenAlgebra(n: real, agree: real, margins: real, obs: real, chance: real)
    requires n > 0.0 && obs == n - agree && chance == n * n - margins && chance != 0.0
    ensures margins / (n * n) != 1.0
    ensures 1.0 - n * obs / chance == (agree / n - margins / (n * n)) / (1.0 - margins / (n * n))
  {
    var d := chance;
    var nn := n * n;
    var top := n * agree - margins;
    var k := 1.0 - n * obs / d;
    assert (n * obs / d) * d == n * obs;
    assert k * d == d - n * obs;
    Quotient(k, top, d);
    var po := agree / n;
    var pe := margins / nn;
    assert po * n == agree;
    assert pe * nn == margins;
    assert (po - pe) * nn == po * n * n - margins;
    assert (po - pe) * nn == top;
    assert (1.0 - pe) * nn == d;
    var q := (po - pe) / (1.0 - pe);
    assert 1.0 - pe != 0.0;
    assert q * (1.0 - pe) == po - pe;
    assert q * d == q * (1.0 - pe) * nn;
    Quotient(q, top, d);
  }

  /** The square of a natural number, as a real. */
  lemma {:induction false} RealSquare(k: nat)
    ensures (k * k) as real == (k as real) * (k as real)
  {
  }

  /** The observed agreement po: the fraction of counted samples whose two labels agree. */
  function ObservedAgreement(p: seq<(nat, nat)>): real
    requires |p| > 0
  {
    Agreements(p) as real / |p| as real
  }

  /** The chance agreement pe: over the labels, the product of the two labelings' frequencies. */
  function ChanceAgreement(p: seq<(nat, nat)>, m: nat): real
    requires |p| > 0
  {
    MarginProduct(p, p, m) as real / (|p| as real * |p| as real)
  }

  /**
   * The sums PairsKappa works with, over n counted samples: obs counts the
   * disagreements, scaled is n * obs, chance is n * n less the agreeing pairs of the
   * margins; po and pe are the observed and the chance agreement.
   */
  predicate CohenCounts(n: nat, agree: int, margins: int, obs: real, scaled: real, chance: real, po: real, pe: real)
  {
    n > 0
    && obs == (n - agree) as real && scaled == (n as real) * obs
    && chance == (n * n) as real - margins as real
    && po == agree as real / n as real && pe == margins as real / (n as real * n as real)
  }

  /** value is (po - pe) / (1 - pe), and is defined. */
  predicate CohenValue(value: real, po: real, pe: real)
  {
    pe != 1.0 && value == (po - pe) / (1.0 - pe)
  }

  /** The unweighted kappa's value, from the counts it is computed from. */
  lemma CohenFromCounts(n: nat, agree: int, margins: int, obs: real, scaled: real, chance: real,
                        value: real, po: real, pe: real)
    requires CohenCounts(n, agree, margins, obs, scaled, chance, po, pe)
    requires chance != 0.0 && value == 1.0 - scaled / chance
    ensures CohenValue(value, po, pe)
  {
    RealSquare(n);
    CohenAlgebra(n as real, agree as real, margins as real, obs, chance);
  }

  /** A kappa is Cohen's coefficient (po - pe) / (1 - pe) of counted samples p over m labels. */
  predicate IsCohenCoefficient(k: Kappa, p: seq<(nat, nat)>, m: nat)
  {
    k.Score? ==> |p| > 0 && CohenValue(k.value, ObservedAgreement(p), ChanceAgreement(p, m))
  }

  /** The unweighted sums of counted samples, as counts. */
  lemma UnweightedCounts(p: seq<(nat, nat)>, m: nat)
    requires |p| > 0
    requires forall s :: 0 <= s < |p| ==> p[s].0 < m
    ensures CohenCounts(|p|, Agreements(p), MarginProduct(p, p, m), Observed(Unweighted, p), ScaledObserved(Unweighted, p),
                        Chance(Unweighted, p, p), ObservedAgreement(p), ChanceAgreement(p, m))
  {
    ObservedUnweighted(p);
    ChanceUnweighted(p, p, m);
  }

  /** Cohen's form of the unweighted kappa of counted samples whose label indices are below m. */
  lemma PairsKappaUnweighted(p: seq<(nat, nat)>, m: nat)
    requires forall s :: 0 <= s < |p| ==> p[s].0 < m
    ensures IsCohenCoefficient(PairsKappa(Unweighted, p), p, m)
  {
    var k := PairsKappa(Unweighted, p);
    if k.Score? {
      UnweightedCounts(p, m);
      CohenFromCounts(|p|, Agreements(p), MarginProduct(p, p, m), Observed(Unweighted, p), ScaledObserved(Unweighted, p),
                      Chance(Unweighted, p, p), k.value, ObservedAgreement(p), ChanceAgreement(p, m));
    }
  }

  /**
   * Unweighted, a kappa score is Cohen's coefficient (po - pe) / (1 - pe), with po
   * the fraction of counted samples on which the two labelings agree and pe the
   * chance agreement, the sum over the labels of the product of the two
   * labelings' frequencies of it.
   */
  lemma KappaUnweightedIsCohen(a: seq<int>, b: seq<int>, labels: Option<seq<int>>)
    requires |a| == |b|
    ensures var r := CohensKappa(a, b, labels, Unweighted);
      var list := LabelList(a, b, labels);
      r.Value? ==> IsCohenCoefficient(r.kappa, Pairs(a, b, list), |list|)
  {
    var list := LabelList(a, b, labels);
    var p := Pairs(a, b, list);
    PairsKappaUnweighted(p, |list|);
    CohensKappaValue(a, b, labels, Unweighted);
  }

  /** A kappa that does not raise is the confusion-matrix form over the counted samples. */
  lemma CohensKappaValue(a: seq<int>, b: seq<int>, labels: Option<seq<int>>, w: Weighting)
    requires |a| == |b|
    ensures CohensKappa(a, b, labels, w).Value? ==>
      CohensKappa(a, b, labels, w).kappa == PairsKappa(w, Pairs(a, b, LabelList(a, b, labels)))
  {
  }

  // ------------------------------------------------------------------
  // The table of kappas
  // ------------------------------------------------------------------

  /** A dictionary from strings to kappas, as its items in insertion order. */
  type Table = seq<(string, Kappa)>

  /**
   * The kappa of two labelings.  `compute_all_kappas` passes the same label list and
   * weighting to every `compute_cohens_kappa` call, so its table is built over
   * `CohenFor(labels, weights)`; the table layer below takes any such function.
   */
  type PairKappa = (seq<int>, seq<int>) -> KappaResult

  function CohenFor(labels: Option<seq<int>>, w: Weighting): PairKappa
  {
    (a: seq<int>, b: seq<int>) => CohensKappa(a, b, labels, w)
  }

  /** What `compute_all_kappas` returns, or the ValueError of the first kappa that raises. */
  datatype AllKappas = Kappas(table: Table) | Failed(error: KappaError)

  /** One assignment `results[key] = compute_cohens_kappa(first, second, labels, weights)`, before the kappa is computed. */
  datatype Write = Write(key: string, first: seq<int>, second: seq<int>)

  /** The same assignment with its kappa computed: the value to store, or the error it raises. */
  datatype Assignment = Assignment(key: string, result: KappaResult)

  function Keys<V>(t: seq<(string, V)>): seq<string>
  {
    seq(|t|, k requires 0 <= k < |t| => t[k].0)
  }

  predicate Distinct(xs: seq<string>)
  {
    forall k, l :: 0 <= k < l < |xs| ==> xs[k] != xs[l]
  }

  /** The value the dictionary holds for a key. */
  function Lookup(t: Table, key: string): Option<Kappa>
  {
    if |t| == 0 then None else if t[0].0 == key then Some(t[0].1) else Lookup(t[1..], key)
  }

  /** `t[key] = v`: an existing key keeps its place and takes the new value; a new key goes last. */
  function Put(t: Table, key: string, v: Kappa): Table
  {
    if key in Keys(t) then seq(|t|, k requires 0 <= k < |t| => if t[k].0 == key then (key, v) else t[k])
    else t + [(key, v)]
  }

  /** The key order after an assignment: unchanged for a key already present, else the new key appended. */
  lemma PutKeys(t: Table, key: string, v: Kappa)
    ensures Keys(Put(t, key, v)) == if key in Keys(t) then Keys(t) else Keys(t) + [key]
    ensures Distinct(Keys(t)) ==> Distinct(Keys(Put(t, key, v)))
  {
    if key !in Keys(t) {
      assert Keys(t + [(key, v)]) == Keys(t) + [key];
    }
  }

  /** After an assignment the key maps to the new value and every other key to what it mapped to before. */
  lemma {:induction false} PutLookup(t: Table, key: string, v: Kappa, other: string)
    ensures Lookup(Put(t, key, v), key) == Some(v)
    ensures other != key ==> Lookup(Put(t, key, v), other) == Lookup(t, other)
    decreases |t|
  {
    if |t| > 0 {
      var r := Put(t, key, v);
      var rest := Put(t[1..], key, v);
      assert Keys(t) == [t[0].0] + Keys(t[1..]);
      if key in Keys(t[1..]) {
        assert r[1..] == rest;
      } else if key in Keys(t) {
        assert t[0].0 == key;
        forall k | 1 <= k < |t|
          ensures t[k].0 != key
        {
          assert Keys(t[1..])[k - 1] == t[k].0;
        }
        assert r == [(key, v)] + t[1..];
      } else {
        assert t[1..] + [(key, v)] == (t + [(key, v)])[1..];
      }
      PutLookup(t[1..], key, v, other);
    }
  }

  /** The assignments of a run of writes, each kappa computed by `kappa`. */
  function Outcomes(ws: seq<Write>, kappa: PairKappa): (r: seq<Assignment>)
    ensures |r| == |ws|
    ensures forall k :: 0 <= k < |ws| ==> r[k] == Assignment(ws[k].key, kappa(ws[k].first, ws[k].second))
  {
    seq(|ws|, k requires 0 <= k < |ws| => Assignment(ws[k].key, kappa(ws[k].first, ws[k].second)))
  }

  /** The effect of one assignment on the dictionary, or the error it raises. */
  function Step(t: AllKappas, x: Assignment): AllKappas
  {
    if t.Failed? then t
    else
      var r := x.result;
      if r.Error? then Failed(r.error) else Kappas(Put(t.table, x.key, r.kappa))
  }

  /** The writes, in order, from a starting state; the first error ends the computation. */
  function Apply(t: AllKappas, ws: seq<Assignment>): AllKappas
    decreases |ws|
  {
    if |ws| == 0 then t else Step(Apply(t, ws[..|ws| - 1]), ws[|ws| - 1])
  }

  function ModelKey(rater: string): string
  {
    "model_vs_" + rater
  }

  function PairKey(rater1: string, rater2: string): string
  {
    rater1 + "_vs_" + rater2
  }

  /** The first loop: the model's coding against each rater, in the dictionary's order. */
  function ModelWrites(model: seq<int>, raters: seq<(string, seq<int>)>): seq<Write>
  {
    seq(|raters|, i requires 0 <= i < |raters| => Write(ModelKey(raters[i].0), model, raters[i].1))
  }

  /** The write of rater i against rater j. */
  function PairWrite(raters: seq<(string, seq<int>)>, i: nat, j: nat): Write
    requires i < |raters| && j < |raters|
  {
    Write(PairKey(raters[i].0, raters[j].0), raters[i].1, raters[j].1)
  }

  /** The rater-index pairs of one pass of the inner loop: i against each later rater. */
  function RowPairs(n: nat, i: nat): seq<(nat, nat)>
    requires i < n
  {
    seq(n - i - 1, k requires 0 <= k < n - i - 1 => (i, i + 1 + k))
  }

  /** The rater-index pairs of the first m passes of the outer loop, each of a rater and a later one. */
  function PairsOf(n: nat, m: nat): (r: seq<(nat, nat)>)
    requires m <= n
    ensures forall k :: 0 <= k < |r| ==> r[k].0 < r[k].1 < n && r[k].0 < m
  {
    if m == 0 then [] else PairsOf(n, m - 1) + RowPairs(n, m - 1)
  }

  /** The writes of rater against rater, for a sequence of rater-index pairs. */
  function PairWrites(raters: seq<(string, seq<int>)>, ps: seq<(nat, nat)>): seq<Write>
    requires forall k :: 0 <= k < |ps| ==> ps[k].0 < |raters| && ps[k].1 < |raters|
  {
    seq(|ps|, k requires 0 <= k < |ps| => PairWrite(raters, ps[k].0, ps[k].1))
  }

  /** Every write `compute_all_kappas` makes, in order. */
  function Writes(model: seq<int>, raters: seq<(string, seq<int>)>): seq<Write>
  {
    ModelWrites(model, raters) + PairWrites(raters, PairsOf(|raters|, |raters|))
  }

  /** The result of `compute_all_kappas(model_coding, human_annotations, ...)`, the raters in the dictionary's order, each kappa by `kappa`. */
  function KappaTable(model: seq<int>, raters: seq<(string, seq<int>)>, kappa: PairKappa): AllKappas
  {
    Apply(Kappas([]), Outcomes(Writes(model, raters), kappa))
  }

  function WriteKeys(ws: seq<Write>): seq<string>
  {
    seq(|ws|, k requires 0 <= k < |ws| => ws[k].key)
  }

  function AssignedKeys(xs: seq<Assignment>): seq<string>
  {
    seq(|xs|, k requires 0 <= k < |xs| => xs[k].key)
  }

  /** The dictionary entries of writes whose kappas do not raise. */
  function Entries(ws: seq<Assignment>): Table
    requires forall k :: 0 <= k < |ws| ==> ws[k].result.Value?
  {
    seq(|ws|, k requires 0 <= k < |ws| => (ws[k].key, ws[k].result.kappa))
  }

  lemma ApplySnoc(t: AllKappas, ws: seq<Assignment>, x: Assignment)
    ensures Apply(t, ws + [x]) == Step(Apply(t, ws), x)
  {
    assert (ws + [x])[..|ws|] == ws;
  }

  /** Once a write raises, the later writes change nothing. */
  lemma {:induction false} ApplyFailedStays(t: AllKappas, ws: seq<Assignment>, vs: seq<Assignment>)
    requires |ws| <= |vs| && vs[..|ws|] == ws && Apply(t, ws).Failed?
    ensures Apply(t, vs) == Apply(t, ws)
    decreases |vs|
  {
    if |vs| > |ws| {
      var init := vs[..|vs| - 1];
      assert init[..|ws|] == ws;
      ApplyFailedStays(t, ws, init);
    } else {
      assert vs == ws;
    }
  }

  /** The computation raises exactly when one of its writes does, and then with the first such write's error. */
  lemma {:induction false} ApplyFails(t: Table, ws: seq<Assignment>)
    ensures Apply(Kappas(t), ws).Failed? <==> exists k :: 0 <= k < |ws| && ws[k].result.Error?
    ensures Apply(Kappas(t), ws).Failed? ==>
      exists k :: 0 <= k < |ws| && ws[k].result == Error(Apply(Kappas(t), ws).error)
                  && forall l :: 0 <= l < k ==> ws[l].result.Value?
    decreases |ws|
  {
    if |ws| > 0 {
      var n := |ws| - 1;
      var init := ws[..n];
      ApplyFails(t, init);
      assert forall k :: 0 <= k < n ==> init[k] == ws[k];
      if Apply(Kappas(t), init).Failed? {
        var k :| 0 <= k < n && init[k].result == Error(Apply(Kappas(t), init).error)
                 && forall l :: 0 <= l < k ==> init[l].result.Value?;
        assert ws[k].result == Error(Apply(Kappas(t), ws).error);
      } else if ws[n].result.Error? {
        assert forall l :: 0 <= l < n ==> ws[l].result.Value? by {
          forall l | 0 <= l < n
            ensures ws[l].result.Value?
          {
            assert init[l].result.Value?;
          }
        }
      } else {
        forall k | 0 <= k < |ws|
          ensures ws[k].result.Value?
        {
          if k < n {
            assert init[k] == ws[k];
          }
        }
      }
    }
  }

  /** Writes that do not raise and whose keys are new and distinct leave one entry each, in order. */
  lemma {:induction false} ApplyDistinct(t: Table, ws: seq<Assignment>)
    requires forall k :: 0 <= k < |ws| ==> ws[k].result.Value?
    requires Distinct(Keys(t) + AssignedKeys(ws))
    ensures Apply(Kappas(t), ws) == Kappas(t + Entries(ws))
    decreases |ws|
  {
    if |ws| > 0 {
      var n := |ws| - 1;
      var init := ws[..n];
      var xs := Keys(t) + AssignedKeys(ws);
      assert Keys(t) + AssignedKeys(init) == xs[..|t| + n];
      DistinctPrefix(xs, |t| + n);
      ApplyDistinct(t, init);
      DistinctLast(xs);
      EntriesKeys(t, init);
      assert ws[n].key !in Keys(t + Entries(init));
      EntriesSnoc(ws);
      assert t + Entries(ws) == (t + Entries(init)) + [(ws[n].key, ws[n].result.kappa)];
    }
  }

  lemma DistinctPrefix(xs: seq<string>, m: nat)
    requires m <= |xs| && Distinct(xs)
    ensures Distinct(xs[..m])
  {
  }

  /** The last of distinct keys is none of the earlier ones. */
  lemma DistinctLast(xs: seq<string>)
    requires |xs| > 0 && Distinct(xs)
    ensures xs[|xs| - 1] !in xs[..|xs| - 1]
  {
  }

  lemma EntriesKeys(t: Table, ws: seq<Assignment>)
    requires forall k :: 0 <= k < |ws| ==> ws[k].result.Value?
    ensures Keys(t + Entries(ws)) == Keys(t) + AssignedKeys(ws)
  {
  }

  lemma EntriesSnoc(ws: seq<Assignment>)
    requires |ws| > 0 && forall k :: 0 <= k < |ws| ==> ws[k].result.Value?
    ensures Entries(ws)
      == Entries(ws[..|ws| - 1]) + [(ws[|ws| - 1].key, ws[|ws| - 1].result.kappa)]
  {
    var n := |ws| - 1;
    var init := ws[..n];
    var last := [(ws[n].key, ws[n].result.kappa)];
    var e, ei := Entries(ws), Entries(init);
    forall k | 0 <= k < n
      ensures e[k] == (ei + last)[k]
    {
      assert init[k] == ws[k];
    }
    assert e[n] == (ei + last)[n];
    assert |e| == |ei + last|;
  }

  /** Writes none of which raises leave a dictionary. */
  lemma ApplyNoErrors(t: Table, ws: seq<Assignment>)
    requires forall l :: 0 <= l < |ws| ==> ws[l].result.Value?
    ensures Apply(Kappas(t), ws).Kappas?
  {
    ApplyFails(t, ws);
  }

  /** A key written more than once maps to the value of its last write: later assignments overwrite earlier ones. */
  lemma {:induction false} ApplyLookupLast(t: Table, ws: seq<Assignment>, k: nat)
    requires forall l :: 0 <= l < |ws| ==> ws[l].result.Value?
    requires k < |ws| && forall l :: k < l < |ws| ==> ws[l].key != ws[k].key
    ensures Apply(Kappas(t), ws).Kappas?
    ensures Lookup(Apply(Kappas(t), ws).table, ws[k].key) == Some(ws[k].result.kappa)
    decreases |ws|
  {
    var n := |ws| - 1;
    var init := ws[..n];
    ApplyLast(t, ws);
    var before := Apply(Kappas(t), init).table;
    PutLookup(before, ws[n].key, ws[n].result.kappa, ws[k].key);
    if k < n {
      assert forall l :: 0 <= l < n ==> init[l] == ws[l];
      ApplyLookupLast(t, init, k);
    }
  }

  /** Without errors, the last write is a Put on the dictionary of the writes before it. */
  lemma ApplyLast(t: Table, ws: seq<Assignment>)
    requires forall l :: 0 <= l < |ws| ==> ws[l].result.Value?
    requires |ws| > 0
    ensures Apply(Kappas(t), ws[..|ws| - 1]).Kappas?
    ensures Apply(Kappas(t), ws)
      == Kappas(Put(Apply(Kappas(t), ws[..|ws| - 1]).table, ws[|ws| - 1].key, ws[|ws| - 1].result.kappa))
  {
    var init := ws[..|ws| - 1];
    assert forall l :: 0 <= l < |init| ==> init[l] == ws[l];
    ApplyNoErrors(t, init);
  }

  /** A key no write carries keeps the value it had in the starting dictionary. */
  lemma {:induction false} ApplyLookupUntouched(t: Table, ws: seq<Assignment>, key: string)
    requires forall l :: 0 <= l < |ws| ==> ws[l].result.Value?
    requires key !in AssignedKeys(ws)
    ensures Apply(Kappas(t), ws).Kappas?
    ensures Lookup(Apply(Kappas(t), ws).table, key) == Lookup(t, key)
    decreases |ws|
  {
    if |ws| > 0 {
      var n := |ws| - 1;
      var init := ws[..n];
      ApplyFails(t, init);
      assert forall l :: 0 <= l < n ==> init[l] == ws[l];
      assert AssignedKeys(ws)[n] == ws[n].key;
      assert forall l :: 0 <= l < n ==> AssignedKeys(init)[l] == AssignedKeys(ws)[l];
      ApplyLookupUntouched(t, init, key);
      ApplySnoc(Kappas(t), init, ws[n]);
      assert init + [ws[n]] == ws;
      var before := Apply(Kappas(t), init).table;
      PutLookup(before, ws[n].key, ws[n].result.kappa, key);
    }
  }

  /** The outer loop's passes take n - 1, n - 2, ... pairs: m passes take m * (2n - m - 1) / 2. */
  lemma {:induction false} PairsOfLength(n: nat, m: nat)
    requires m <= n
    ensures 2 * |PairsOf(n, m)| == m * (2 * n - m - 1)
    decreases m
  {
    if m > 0 {
      PairsOfLength(n, m - 1);
      assert |PairsOf(n, m)| == |PairsOf(n, m - 1)| + (n - m);
      PairCountStep(n, m);
    }
  }

  lemma PairCountStep(n: int, m: int)
    ensures m * (2 * n - m - 1) == (m - 1) * (2 * n - (m - 1) - 1) + 2 * (n - m)
  {
    calc {
      (m - 1) * (2 * n - (m - 1) - 1) + 2 * (n - m);
      (m - 1) * (2 * n - m) + 2 * n - 2 * m;
      m * (2 * n - m) - (2 * n - m) + 2 * n - 2 * m;
      m * (2 * n - m) - m;
      m * (2 * n - m - 1);
    }
  }

  /** The pairs of fewer passes come first. */
  lemma {:induction false} PairsOfPrefix(n: nat, m1: nat, m2: nat)
    requires m1 <= m2 <= n
    ensures |PairsOf(n, m1)| <= |PairsOf(n, m2)| && PairsOf(n, m2)[..|PairsOf(n, m1)|] == PairsOf(n, m1)
    decreases m2
  {
    if m2 > m1 {
      PairsOfPrefix(n, m1, m2 - 1);
      var r1, r := PairsOf(n, m1), PairsOf(n, m2 - 1);
      assert PairsOf(n, m2)[..|r|] == r;
      assert PairsOf(n, m2)[..|r|][..|r1|] == PairsOf(n, m2)[..|r1|];
    }
  }

  /** Rater i against a later rater j is pair number |PairsOf(n, i)| + (j - i - 1), once the outer loop has passed i. */
  lemma PairsOfIndex(n: nat, m: nat, i: nat, j: nat)
    requires i < j < n && i < m <= n
    ensures |PairsOf(n, i)| + (j - i - 1) < |PairsOf(n, m)|
    ensures PairsOf(n, m)[|PairsOf(n, i)| + (j - i - 1)] == (i, j)
  {
    var k := |PairsOf(n, i)| + (j - i - 1);
    PairsOfRowAt(n, i, j);
    PairsOfPrefix(n, i + 1, m);
    PrefixAt(PairsOf(n, m), |PairsOf(n, i + 1)|, k);
  }

  /** Pass i itself places rater i against j at |PairsOf(n, i)| + (j - i - 1). */
  lemma PairsOfRowAt(n: nat, i: nat, j: nat)
    requires i < j < n
    ensures |PairsOf(n, i)| + (j - i - 1) < |PairsOf(n, i + 1)|
    ensures PairsOf(n, i + 1)[|PairsOf(n, i)| + (j - i - 1)] == (i, j)
  {
    var r0, row := PairsOf(n, i), RowPairs(n, i);
    assert PairsOf(n, i + 1) == r0 + row;
    assert row[j - i - 1] == (i, j);
  }

  /** An element of a prefix is the element of the whole sequence. */
  lemma PrefixAt<T>(s: seq<T>, p: nat, k: nat)
    requires k < p <= |s|
    ensures s[..p][k] == s[k]
  {
  }

  /** Exact halving. */
  lemma Half(x: int, y: int)
    requires 2 * x == y
    ensures x == y / 2
  {
  }

  /** There are n + n(n - 1)/2 writes. */
  lemma WritesLength(model: seq<int>, raters: seq<(string, seq<int>)>)
    ensures var n := |raters|;
      |Writes(model, raters)| == n + n * (n - 1) / 2
  {
    var n := |raters|;
    PairsOfLength(n, n);
    Half(|PairsOf(n, n)|, n * (n - 1));
  }

  /** Where the write of rater i against a later rater j comes among n raters' writes. */
  function PairPosition(n: nat, i: nat, j: nat): nat
    requires i < j < n
  {
    n + |PairsOf(n, i)| + (j - i - 1)
  }

  /** The i-th of the first n writes is "model_vs_<rater i>". */
  lemma WritesModelAt(model: seq<int>, raters: seq<(string, seq<int>)>, i: nat)
    requires i < |raters|
    ensures i < |Writes(model, raters)| && Writes(model, raters)[i] == Write(ModelKey(raters[i].0), model, raters[i].1)
  {
    assert Writes(model, raters)[i] == ModelWrites(model, raters)[i];
  }

  /** Every i < j has its write "<r_i>_vs_<r_j>", at PairPosition(n, i, j). */
  lemma WritesPairs(model: seq<int>, raters: seq<(string, seq<int>)>)
    ensures forall i, j :: 0 <= i < j < |raters| ==>
      PairPosition(|raters|, i, j) < |Writes(model, raters)|
      && Writes(model, raters)[PairPosition(|raters|, i, j)] == PairWrite(raters, i, j)
  {
    forall i, j | 0 <= i < j < |raters|
      ensures PairPosition(|raters|, i, j) < |Writes(model, raters)|
              && Writes(model, raters)[PairPosition(|raters|, i, j)] == PairWrite(raters, i, j)
    {
      WritesPairIndex(model, raters, i, j);
    }
  }

  /** `w` is the write of some rater against a later one. */
  ghost predicate IsPairWrite(raters: seq<(string, seq<int>)>, w: Write)
  {
    exists i: nat, j: nat :: i < j < |raters| && w == PairWrite(raters, i, j)
  }

  /** After the first n, every write is of a rater against a later one: no rater against itself, no pair in reverse. */
  lemma WritesContent(model: seq<int>, raters: seq<(string, seq<int>)>)
    ensures forall k :: |raters| <= k < |Writes(model, raters)| ==> IsPairWrite(raters, Writes(model, raters)[k])
  {
    var n := |raters|;
    var ps := PairsOf(n, n);
    forall k | n <= k < |Writes(model, raters)|
      ensures IsPairWrite(raters, Writes(model, raters)[k])
    {
      var p := ps[k - n];
      assert Writes(model, raters)[k] == PairWrites(raters, ps)[k - n];
      assert p.0 < p.1 < n && Writes(model, raters)[k] == PairWrite(raters, p.0, p.1);
    }
  }

  /** Rater i against a later rater j is write number PairPosition(n, i, j). */
  lemma WritesPairIndex(model: seq<int>, raters: seq<(string, seq<int>)>, i: nat, j: nat)
    requires i < j < |raters|
    ensures PairPosition(|raters|, i, j) < |Writes(model, raters)|
    ensures Writes(model, raters)[PairPosition(|raters|, i, j)] == PairWrite(raters, i, j)
  {
    var n := |raters|;
    PairsOfIndex(n, n, i, j);
    var ps := PairsOf(n, n);
    var k := |PairsOf(n, i)| + (j - i - 1);
    var pw := PairWrites(raters, ps);
    assert pw[k] == PairWrite(raters, i, j);
    assert (ModelWrites(model, raters) + pw)[n + k] == pw[k];
  }

  /** When no kappa raises and the generated keys are pairwise distinct, the table holds every write's kappa, in order. */
  lemma TableOfDistinctKeys(model: seq<int>, raters: seq<(string, seq<int>)>, kappa: PairKappa)
    requires forall k :: 0 <= k < |Writes(model, raters)| ==> kappa(Writes(model, raters)[k].first, Writes(model, raters)[k].second).Value?
    requires Distinct(WriteKeys(Writes(model, raters)))
    ensures KappaTable(model, raters, kappa) == Kappas(Entries(Outcomes(Writes(model, raters), kappa)))
  {
    var xs := Outcomes(Writes(model, raters), kappa);
    var empty: Table := [];
    assert Keys(empty) + AssignedKeys(xs) == WriteKeys(Writes(model, raters));
    ApplyDistinct(empty, xs);
    assert empty + Entries(xs) == Entries(xs);
  }

  /** `compute_all_kappas` raises exactly when one of its kappas does, and with the first such error. */
  lemma KappaTableFails(model: seq<int>, raters: seq<(string, seq<int>)>, kappa: PairKappa)
    ensures var r := KappaTable(model, raters, kappa);
      var ws := Writes(model, raters);
      (r.Failed? <==> exists k :: 0 <= k < |ws| && kappa(ws[k].first, ws[k].second).Error?)
      && (r.Failed? ==> exists k :: 0 <= k < |ws| && kappa(ws[k].first, ws[k].second) == Error(r.error)
                                    && forall l :: 0 <= l < k ==> kappa(ws[l].first, ws[l].second).Value?)
  {
    var ws := Writes(model, raters);
    var xs := Outcomes(ws, kappa);
    ApplyFails([], xs);
    assert forall k :: 0 <= k < |ws| ==> xs[k].result == kappa(ws[k].first, ws[k].second);
  }

  /** The writes of two runs of writes, one after the other. */
  lemma {:induction false} ApplyConcat(t: AllKappas, ws: seq<Assignment>, vs: seq<Assignment>)
    ensures Apply(t, ws + vs) == Apply(Apply(t, ws), vs)
    decreases |vs|
  {
    if |vs| == 0 {
      assert ws + vs == ws;
    } else {
      var init := vs[..|vs| - 1];
      ApplyConcat(t, ws, init);
      assert (ws + vs)[..|ws + vs| - 1] == ws + init;
    }
  }

  lemma PairWritesConcat(raters: seq<(string, seq<int>)>, ps: seq<(nat, nat)>, qs: seq<(nat, nat)>)
    requires forall k :: 0 <= k < |ps| ==> ps[k].0 < |raters| && ps[k].1 < |raters|
    requires forall k :: 0 <= k < |qs| ==> qs[k].0 < |raters| && qs[k].1 < |raters|
    ensures PairWrites(raters, ps + qs) == PairWrites(raters, ps) + PairWrites(raters, qs)
  {
    var l, r := PairWrites(raters, ps + qs), PairWrites(raters, ps) + PairWrites(raters, qs);
    forall k | 0 <= k < |l|
      ensures l[k] == r[k]
    {
      if k < |ps| {
        assert (ps + qs)[k] == ps[k];
      } else {
        assert (ps + qs)[k] == qs[k - |ps|];
      }
    }
    assert |l| == |r|;
  }

  lemma OutcomesConcat(ws: seq<Write>, vs: seq<Write>, kappa: PairKappa)
    ensures Outcomes(ws + vs, kappa) == Outcomes(ws, kappa) + Outcomes(vs, kappa)
  {
    var l, r := Outcomes(ws + vs, kappa), Outcomes(ws, kappa) + Outcomes(vs, kappa);
    forall k | 0 <= k < |l|
      ensures l[k] == r[k]
    {
      if k < |ws| {
        assert (ws + vs)[k] == ws[k];
      } else {
        assert (ws + vs)[k] == vs[k - |ws|];
      }
    }
  }

  /** Running two runs of writes one after the other is running their concatenation. */
  lemma ApplyOutcomesConcat(t: AllKappas, ws: seq<Write>, vs: seq<Write>, kappa: PairKappa)
    ensures Apply(t, Outcomes(ws + vs, kappa)) == Apply(Apply(t, Outcomes(ws, kappa)), Outcomes(vs, kappa))
  {
    OutcomesConcat(ws, vs, kappa);
    ApplyConcat(t, Outcomes(ws, kappa), Outcomes(vs, kappa));
  }

  /** A state reached by one run of writes and then another is the state their concatenation reaches. */
  lemma ApplyOutcomesThen(t: AllKappas, x: AllKappas, y: AllKappas, ws: seq<Write>, vs: seq<Write>, kappa: PairKappa)
    requires x == Apply(t, Outcomes(ws, kappa)) && y == Apply(x, Outcomes(vs, kappa))
    ensures y == Apply(t, Outcomes(ws + vs, kappa))
  {
    ApplyOutcomesConcat(t, ws, vs, kappa);
  }

  // ------------------------------------------------------------------
  // The loops of compute_all_kappas, pass by pass
  // ------------------------------------------------------------------

  /** The dictionary after the first loop has compared the model with the first i raters. */
  function ModelPass(model: seq<int>, raters: seq<(string, seq<int>)>, kappa: PairKappa, i: nat): AllKappas
    requires i <= |raters|
  {
    if i == 0 then Kappas([])
    else Step(ModelPass(model, raters, kappa, i - 1), Assignment(ModelKey(raters[i - 1].0), kappa(model, raters[i - 1].1)))
  }

  /** The dictionary after the inner loop has compared rater i with raters i + 1 .. j - 1, starting from t. */
  function RowPass(raters: seq<(string, seq<int>)>, kappa: PairKappa, i: nat, j: nat, t: AllKappas): AllKappas
    requires i < j <= |raters|
  {
    if j == i + 1 then t
    else Step(RowPass(raters, kappa, i, j - 1, t),
              Assignment(PairKey(raters[i].0, raters[j - 1].0), kappa(raters[i].1, raters[j - 1].1)))
  }

  /** The dictionary after i passes of the second loop's outer loop, starting from t. */
  function PairPasses(raters: seq<(string, seq<int>)>, kappa: PairKappa, i: nat, t: AllKappas): AllKappas
    requires i <= |raters|
  {
    if i == 0 then t else RowPass(raters, kappa, i - 1, |raters|, PairPasses(raters, kappa, i - 1, t))
  }

  lemma {:induction false} ModelPassFailed(model: seq<int>, raters: seq<(string, seq<int>)>, kappa: PairKappa, i: nat, k: nat)
    requires i <= k <= |raters| && ModelPass(model, raters, kappa, i).Failed?
    ensures ModelPass(model, raters, kappa, k) == ModelPass(model, raters, kappa, i)
    decreases k
  {
    if k > i {
      ModelPassFailed(model, raters, kappa, i, k - 1);
    }
  }

  lemma {:induction false} RowPassFailed(raters: seq<(string, seq<int>)>, kappa: PairKappa, i: nat, j: nat, k: nat, t: AllKappas)
    requires i < j <= k <= |raters| && RowPass(raters, kappa, i, j, t).Failed?
    ensures RowPass(raters, kappa, i, k, t) == RowPass(raters, kappa, i, j, t)
    decreases k
  {
    if k > j {
      RowPassFailed(raters, kappa, i, j, k - 1, t);
    }
  }

  lemma {:induction false} RowPassFromFailed(raters: seq<(string, seq<int>)>, kappa: PairKappa, i: nat, j: nat, e: KappaError)
    requires i < j <= |raters|
    ensures RowPass(raters, kappa, i, j, Failed(e)) == Failed(e)
    decreases j
  {
    if j > i + 1 {
      RowPassFromFailed(raters, kappa, i, j - 1, e);
    }
  }

  lemma {:induction false} PairPassesFailed(raters: seq<(string, seq<int>)>, kappa: PairKappa, i: nat, k: nat, t: AllKappas)
    requires i <= k <= |raters| && PairPasses(raters, kappa, i, t).Failed?
    ensures PairPasses(raters, kappa, k, t) == PairPasses(raters, kappa, i, t)
    decreases k
  {
    if k > i {
      PairPassesFailed(raters, kappa, i, k - 1, t);
      RowPassFromFailed(raters, kappa, k - 1, |raters|, PairPasses(raters, kappa, i, t).error);
    }
  }

  /** The first loop makes the model's writes, in order. */
  lemma {:induction false} ModelPassIsApply(model: seq<int>, raters: seq<(string, seq<int>)>, kappa: PairKappa, i: nat)
    requires i <= |raters|
    ensures ModelPass(model, raters, kappa, i) == Apply(Kappas([]), Outcomes(ModelWrites(model, raters), kappa)[..i])
    decreases i
  {
    var o := Outcomes(ModelWrites(model, raters), kappa);
    if i > 0 {
      ModelPassIsApply(model, raters, kappa, i - 1);
      assert o[..i][..i - 1] == o[..i - 1];
      assert o[..i][i - 1] == Assignment(ModelKey(raters[i - 1].0), kappa(model, raters[i - 1].1));
    }
  }

  /** The writes one pass of the outer loop makes: rater i against each later rater. */
  function RowWrites(raters: seq<(string, seq<int>)>, i: nat): seq<Write>
    requires i < |raters|
  {
    PairWrites(raters, RowPairs(|raters|, i))
  }

  /** The writes the first m passes of the outer loop make. */
  function PassWrites(raters: seq<(string, seq<int>)>, m: nat): seq<Write>
    requires m <= |raters|
  {
    PairWrites(raters, PairsOf(|raters|, m))
  }

  lemma PassWritesStep(raters: seq<(string, seq<int>)>, m: nat)
    requires 0 < m <= |raters|
    ensures PassWrites(raters, m) == PassWrites(raters, m - 1) + RowWrites(raters, m - 1)
  {
    PairWritesConcat(raters, PairsOf(|raters|, m - 1), RowPairs(|raters|, m - 1));
  }

  /** The inner loop makes the writes of rater i against each later rater, in order. */
  lemma {:induction false} RowPassIsApply(raters: seq<(string, seq<int>)>, kappa: PairKappa, i: nat, j: nat, t: AllKappas)
    requires i < j <= |raters|
    ensures RowPass(raters, kappa, i, j, t) == Apply(t, Outcomes(RowWrites(raters, i), kappa)[..j - i - 1])
    decreases j
  {
    if j > i + 1 {
      RowPassIsApply(raters, kappa, i, j - 1, t);
      var o, m := Outcomes(RowWrites(raters, i), kappa), j - i - 1;
      assert o[..m][..m - 1] == o[..m - 1];
      assert o[..m][m - 1] == Assignment(PairKey(raters[i].0, raters[j - 1].0), kappa(raters[i].1, raters[j - 1].1));
    }
  }

  /** A whole pass of the inner loop. */
  lemma RowIsApply(raters: seq<(string, seq<int>)>, kappa: PairKappa, i: nat, t: AllKappas)
    requires i < |raters|
    ensures RowPass(raters, kappa, i, |raters|, t) == Apply(t, Outcomes(RowWrites(raters, i), kappa))
  {
    RowPassIsApply(raters, kappa, i, |raters|, t);
    var o := Outcomes(RowWrites(raters, i), kappa);
    assert o[..|raters| - i - 1] == o;
  }

  /** i passes of the outer loop make the writes of the first i raters against each later one, in order. */
  lemma {:induction false} PairPassesIsApply(raters: seq<(string, seq<int>)>, kappa: PairKappa, i: nat, t: AllKappas)
    requires i <= |raters|
    ensures PairPasses(raters, kappa, i, t) == Apply(t, Outcomes(PassWrites(raters, i), kappa))
    decreases i
  {
    if i == 0 {
      assert Outcomes(PassWrites(raters, 0), kappa) == [];
    } else {
      var before := PairPasses(raters, kappa, i - 1, t);
      PairPassesIsApply(raters, kappa, i - 1, t);
      RowIsApply(raters, kappa, i - 1, before);
      ApplyOutcomesThen(t, before, PairPasses(raters, kappa, i, t), PassWrites(raters, i - 1), RowWrites(raters, i - 1), kappa);
      PassWritesStep(raters, i);
    }
  }

  /** The two loops, pass by pass, make exactly the writes of the table. */
  lemma KappaTableByPasses(model: seq<int>, raters: seq<(string, seq<int>)>, kappa: PairKappa)
    ensures KappaTable(model, raters, kappa)
      == PairPasses(raters, kappa, |raters|, ModelPass(model, raters, kappa, |raters|))
  {
    var n := |raters|;
    var mw := ModelWrites(model, raters);
    ModelPassIsApply(model, raters, kappa, n);
    assert Outcomes(mw, kappa)[..n] == Outcomes(mw, kappa);
    PairPassesIsApply(raters, kappa, n, ModelPass(model, raters, kappa, n));
    ApplyOutcomesConcat(Kappas([]), mw, PassWrites(raters, n), kappa);
  }

  /** The first loop of `compute_all_kappas`: the model's coding against each rater, in order. */
  method CompareModel(model: seq<int>, raters: seq<(string, seq<int>)>, kappa: PairKappa) returns (result: AllKappas)
    ensures result == ModelPass(model, raters, kappa, |raters|)
  {
    var results: Table := [];
    for i := 0 to |raters|
      invariant ModelPass(model, raters, kappa, i) == Kappas(results)
    {
      var r := kappa(model, raters[i].1);
      if r.Error? {
        ModelPassFailed(model, raters, kappa, i + 1, |raters|);
        return Failed(r.error);
      }
      results := Put(results, ModelKey(raters[i].0), r.kappa);
    }
    return Kappas(results);
  }

  /** The inner loop of `compute_all_kappas`: rater i against each later rater, continuing the dictionary t. */
  method CompareWithLater(raters: seq<(string, seq<int>)>, kappa: PairKappa, i: nat, t: Table) returns (result: AllKappas)
    requires i < |raters|
    ensures result == RowPass(raters, kappa, i, |raters|, Kappas(t))
  {
    var results := t;
    for j := i + 1 to |raters|
      invariant RowPass(raters, kappa, i, j, Kappas(t)) == Kappas(results)
    {
      var r := kappa(raters[i].1, raters[j].1);
      if r.Error? {
        RowPassFailed(raters, kappa, i, j + 1, |raters|, Kappas(t));
        return Failed(r.error);
      }
      results := Put(results, PairKey(raters[i].0, raters[j].0), r.kappa);
    }
    return Kappas(results);
  }

  /**
   * `compute_all_kappas` with its kappa function: the model against each rater, then each
   * rater against every later one, each kappa stored under its key; the first kappa that
   * raises ends the call.
   */
  method ComputeAllWith(model: seq<int>, raters: seq<(string, seq<int>)>, kappa: PairKappa)
    returns (result: AllKappas)
    ensures result == KappaTable(model, raters, kappa)
  {
    var n := |raters|;
    KappaTableByPasses(model, raters, kappa);
    result := CompareModel(model, raters, kappa);
    ghost var start := result;
    if result.Failed? {
      PairPassesFailed(raters, kappa, 0, n, start);
      return;
    }
    var results := result.table;
    for i := 0 to n
      invariant PairPasses(raters, kappa, i, start) == Kappas(results)
    {
      var row := CompareWithLater(raters, kappa, i, results);
      if row.Failed? {
        PairPassesFailed(raters, kappa, i + 1, n, start);
        return row;
      }
      results := row.table;
    }
    return Kappas(results);
  }

  /** `compute_all_kappas(model_coding, human_annotations, labels, weights)`. */
  method ComputeAllKappas(model: seq<int>, raters: seq<(string, seq<int>)>, labels: Option<seq<int>>, w: Weighting)
    returns (result: AllKappas)
    ensures result == KappaTable(model, raters, CohenFor(labels, w))
  {
    result := ComputeAllWith(model, raters, CohenFor(labels, w));
  }
}
