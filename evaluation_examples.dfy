/**
 * The examples of the `compute_cohens_kappa` docstring, computed exactly.
 */
module EvaluationExamples {
  import opened Common
  import opened Evaluation

  /** The first labeling of the docstring examples. */
  const Judgments1: seq<int> := [0, 1, 2, 1, 0]

  lemma PairsSnoc(a: seq<int>, b: seq<int>, x: int, y: int, labels: seq<int>)
    requires |a| == |b|
    ensures Pairs(a + [x], b + [y], labels)
      == Pairs(a, b, labels) + (if x in labels && y in labels then [(IndexOf(labels, x), IndexOf(labels, y))] else [])
  {
    assert (a + [x])[..|a|] == a;
    assert (b + [y])[..|b|] == b;
  }

  lemma ObservedSnoc(w: Weighting, p: seq<(nat, nat)>, x: (nat, nat))
    ensures Observed(w, p + [x]) == Observed(w, p) + Weight(w, x.0, x.1)
  {
    assert (p + [x])[..|p|] == p;
  }

  lemma RowWeightSnoc(w: Weighting, i: nat, p: seq<(nat, nat)>, x: (nat, nat))
    ensures RowWeight(w, i, p + [x]) == RowWeight(w, i, p) + Weight(w, i, x.1)
  {
    assert (p + [x])[..|p|] == p;
  }

  lemma ChanceSnoc(w: Weighting, q: seq<(nat, nat)>, x: (nat, nat), p: seq<(nat, nat)>)
    ensures Chance(w, q + [x], p) == Chance(w, q, p) + RowWeight(w, x.0, p)
  {
    assert (q + [x])[..|q|] == q;
  }

  /** A strictly sorted list starts with its least element and holds it once. */
  lemma SortedHead(xs: seq<int>)
    requires StrictlySorted(xs) && |xs| > 0
    ensures forall z :: z in xs ==> xs[0] <= z
    ensures forall z :: z in xs[1..] <==> z in xs && z != xs[0]
  {
    forall z | z in xs
      ensures xs[0] <= z
    {
      var k :| 0 <= k < |xs| && xs[k] == z;
    }
    forall z | z in xs[1..]
      ensures z != xs[0]
    {
      var k :| 0 <= k < |xs| - 1 && xs[1..][k] == z;
      assert xs[k + 1] == z;
    }
    assert xs == [xs[0]] + xs[1..];
  }

  /** A non-empty list holds its first element. */
  lemma HeadIn(xs: seq<int>)
    ensures |xs| > 0 ==> xs[0] in xs
  {
  }

  /** Two strictly sorted lists with the same elements are equal. */
  lemma {:induction false} SortedUnique(xs: seq<int>, ys: seq<int>)
    requires StrictlySorted(xs) && StrictlySorted(ys)
    requires forall z :: z in xs <==> z in ys
    ensures xs == ys
    decreases |xs|
  {
    HeadIn(xs);
    HeadIn(ys);
    if |xs| > 0 && |ys| > 0 {
      SortedHead(xs);
      SortedHead(ys);
      assert xs[0] in xs && ys[0] in ys;
      assert xs[0] == ys[0];
      assert StrictlySorted(xs[1..]) && StrictlySorted(ys[1..]);
      SortedUnique(xs[1..], ys[1..]);
      assert xs == [xs[0]] + xs[1..];
      assert ys == [ys[0]] + ys[1..];
    }
  }

  /** The label list of labelings over 0, 1 and 2 that use each of them. */
  lemma ThreeLabels(ab: seq<int>)
    requires forall z :: z in ab ==> 0 <= z <= 2
    requires 0 in ab && 1 in ab && 2 in ab
    ensures UniqueLabels(ab) == [0, 1, 2]
  {
    var labels: seq<int> := [0, 1, 2];
    assert StrictlySorted(labels);
    assert forall z :: z in ab <==> z in labels;
    SortedUnique(UniqueLabels(ab), labels);
  }

  /** Over the label list [0, 1, 2] every label is its own index. */
  lemma PairsStep(a: seq<int>, b: seq<int>, p: seq<(nat, nat)>, x: nat, y: nat)
    requires |a| == |b| && Pairs(a, b, [0, 1, 2]) == p
    requires x <= 2 && y <= 2
    ensures Pairs(a + [x], b + [y], [0, 1, 2]) == p + [(x, y)]
  {
    var labels: seq<int> := [0, 1, 2];
    IndexOfThree(x);
    IndexOfThree(y);
    PairsSnoc(a, b, x, y, labels);
  }

  /** Each of 0, 1 and 2 is in the list [0, 1, 2], at its own index. */
  lemma IndexOfThree(x: nat)
    requires x <= 2
    ensures x in [0, 1, 2] && IndexOf([0, 1, 2], x) == x
  {
    var labels: seq<int> := [0, 1, 2];
    assert labels[x] == x;
    if x == 0 {
      assert IndexOf(labels, 0) == 0;
    } else if x == 1 {
      assert IndexOf(labels, 1) == 1;
    } else {
      assert IndexOf(labels, 2) == 2;
    }
  }

  /** `p` pairs the labels of `a` and `b` position by position. */
  predicate Paired(p: seq<(nat, nat)>, a: seq<int>, b: seq<int>)
  {
    |p| == |a| == |b| && forall t :: 0 <= t < |p| ==> p[t].0 == a[t] && p[t].1 == b[t]
  }

  lemma PairedSnoc(p: seq<(nat, nat)>, a: seq<int>, b: seq<int>, x: nat, y: nat)
    requires Paired(p, a, b)
    ensures Paired(p + [(x, y)], a + [x], b + [y])
  {
  }

  /** Over the label list [0, 1, 2], labelings within 0..2 become their own index pairs. */
  lemma {:induction false} PairsOverThree(a: seq<int>, b: seq<int>)
    requires |a| == |b|
    requires forall k :: 0 <= k < |a| ==> 0 <= a[k] <= 2 && 0 <= b[k] <= 2
    ensures Paired(Pairs(a, b, [0, 1, 2]), a, b)
  {
    if |a| > 0 {
      var n := |a| - 1;
      var a0, b0 := a[..n], b[..n];
      SplitLast(a);
      SplitLast(b);
      assert forall k :: 0 <= k < n ==> a0[k] == a[k] && b0[k] == b[k];
      PairsOverThree(a0, b0);
      var p0 := Pairs(a0, b0, [0, 1, 2]);
      PairsStep(a0, b0, p0, a[n] as nat, b[n] as nat);
      PairedSnoc(p0, a0, b0, a[n] as nat, b[n] as nat);
    }
  }

  lemma SplitLast(a: seq<int>)
    requires |a| > 0
    ensures a[..|a| - 1] + [a[|a| - 1]] == a
  {
  }

  /** The label-index pairs of two labelings of five samples over [0, 1, 2]. */
  lemma FivePairs(a: seq<int>, b: seq<int>)
    requires |a| == 5 && |b| == 5
    requires forall k :: 0 <= k < 5 ==> 0 <= a[k] <= 2 && 0 <= b[k] <= 2
    ensures Pairs(a, b, [0, 1, 2])
      == [(a[0] as nat, b[0] as nat), (a[1] as nat, b[1] as nat), (a[2] as nat, b[2] as nat),
          (a[3] as nat, b[3] as nat), (a[4] as nat, b[4] as nat)]
  {
    PairsOverThree(a, b);
  }

  /** The weighted sums over five counted samples, written out. */
  lemma FiveSums(w: Weighting, p: seq<(nat, nat)>)
    requires |p| == 5
    ensures Observed(w, p) == Weight(w, p[0].0, p[0].1) + Weight(w, p[1].0, p[1].1)
      + Weight(w, p[2].0, p[2].1) + Weight(w, p[3].0, p[3].1) + Weight(w, p[4].0, p[4].1)
    ensures forall i: nat ::
      RowWeight(w, i, p) == Weight(w, i, p[0].1) + Weight(w, i, p[1].1)
        + Weight(w, i, p[2].1) + Weight(w, i, p[3].1) + Weight(w, i, p[4].1)
    ensures Chance(w, p, p) == RowWeight(w, p[0].0, p) + RowWeight(w, p[1].0, p)
      + RowWeight(w, p[2].0, p) + RowWeight(w, p[3].0, p) + RowWeight(w, p[4].0, p)
  {
    assert p[..0] == [] && p[..5] == p;
    assert forall k :: 0 <= k < 5 ==> p[..k + 1] == p[..k] + [p[k]];
    ObservedSnoc(w, p[..0], p[0]);
    ObservedSnoc(w, p[..1], p[1]);
    ObservedSnoc(w, p[..2], p[2]);
    ObservedSnoc(w, p[..3], p[3]);
    ObservedSnoc(w, p[..4], p[4]);
    forall i: nat
      ensures RowWeight(w, i, p) == Weight(w, i, p[0].1) + Weight(w, i, p[1].1)
        + Weight(w, i, p[2].1) + Weight(w, i, p[3].1) + Weight(w, i, p[4].1)
    {
      RowWeightSnoc(w, i, p[..0], p[0]);
      RowWeightSnoc(w, i, p[..1], p[1]);
      RowWeightSnoc(w, i, p[..2], p[2]);
      RowWeightSnoc(w, i, p[..3], p[3]);
      RowWeightSnoc(w, i, p[..4], p[4]);
    }
    ChanceSnoc(w, p[..0], p[0], p);
    ChanceSnoc(w, p[..1], p[1], p);
    ChanceSnoc(w, p[..2], p[2], p);
    ChanceSnoc(w, p[..3], p[3], p);
    ChanceSnoc(w, p[..4], p[4], p);
  }

  /** Two labelings of five samples over [0, 1, 2] that use each of those labels, without a label list. */
  lemma KappaOverThree(a: seq<int>, b: seq<int>, w: Weighting)
    requires |a| == 5 && |b| == 5
    requires forall k :: 0 <= k < 5 ==> 0 <= a[k] <= 2 && 0 <= b[k] <= 2
    requires 0 in a + b && 1 in a + b && 2 in a + b
    ensures CohensKappa(a, b, None, w)
      == Value(PairsKappa(w, [(a[0] as nat, b[0] as nat), (a[1] as nat, b[1] as nat), (a[2] as nat, b[2] as nat),
                              (a[3] as nat, b[3] as nat), (a[4] as nat, b[4] as nat)]))
  {
    assert forall z :: z in a + b ==> 0 <= z <= 2;
    ThreeLabels(a + b);
    FivePairs(a, b);
  }

  /** The scores of the counted samples of [0,1,2,1,0] against [0,2,2,1,0]. */
  lemma FirstExampleScores(p: seq<(nat, nat)>)
    requires p == [(0, 0), (1, 2), (2, 2), (1, 1), (0, 0)]
    ensures PairsKappa(Unweighted, p) == Score(12.0 / 17.0)
    ensures PairsKappa(Linear, p) == Score(18.0 / 23.0)
  {
    FiveSums(Unweighted, p);
    FiveSums(Linear, p);
    assert Observed(Unweighted, p) == 1.0 && Chance(Unweighted, p, p) == 17.0;
    assert Observed(Linear, p) == 1.0 && Chance(Linear, p, p) == 23.0;
  }

  /** Without labels or weights, [0,1,2,1,0] against [0,2,2,1,0] scores 12/17 (about 0.71). */
  lemma DocstringUnweighted()
    ensures CohensKappa(Judgments1, [0, 2, 2, 1, 0], None, Unweighted) == Value(Score(12.0 / 17.0))
  {
    var b: seq<int> := [0, 2, 2, 1, 0];
    assert (Judgments1 + b)[0] == 0 && (Judgments1 + b)[1] == 1 && (Judgments1 + b)[2] == 2;
    KappaOverThree(Judgments1, b, Unweighted);
    FirstExampleScores([(0, 0), (1, 2), (2, 2), (1, 1), (0, 0)]);
  }

  /** With the labels [0, 1, 2] and linear weights, the same labelings score 18/23 (about 0.78). */
  lemma DocstringLinear()
    ensures CohensKappa(Judgments1, [0, 2, 2, 1, 0], Some([0, 1, 2]), Linear) == Value(Score(18.0 / 23.0))
  {
    var b: seq<int> := [0, 2, 2, 1, 0];
    FirstExampleLinearRaises(b);
    CohensKappaValue(Judgments1, b, Some([0, 1, 2]), Linear);
    FirstExamplePairs(b);
    FirstExampleScores(Pairs(Judgments1, b, [0, 1, 2]));
  }

  /** With the labels [0, 1, 2], the first example raises no ValueError. */
  lemma FirstExampleLinearRaises(b: seq<int>)
    requires b == [0, 2, 2, 1, 0]
    ensures CohensKappa(Judgments1, b, Some([0, 1, 2]), Linear).Value?
  {
    assert Judgments1[0] in Judgments1 && Judgments1[0] in [0, 1, 2];
  }

  /** The counted samples of the first example over [0, 1, 2]. */
  lemma FirstExamplePairs(b: seq<int>)
    requires b == [0, 2, 2, 1, 0]
    ensures Pairs(Judgments1, b, [0, 1, 2]) == [(0, 0), (1, 2), (2, 2), (1, 1), (0, 0)]
  {
    FivePairs(Judgments1, b);
  }

  /** A labeling against itself scores 1. */
  lemma DocstringPerfect()
    ensures CohensKappa(Judgments1, Judgments1, None, Unweighted) == Value(Score(1.0))
  {
    KappaOfIdentical(Judgments1, None, Unweighted, 0, 1);
  }

  /**
   * [0,1,2,1,0] against [2,0,1,2,1] agrees on no sample and scores -8/17 (about
   * -0.47), not the -0.40 the docstring prints.
   */
  lemma DocstringNoAgreement()
    ensures CohensKappa(Judgments1, [2, 0, 1, 2, 1], None, Unweighted) == Value(Score(-8.0 / 17.0))
  {
    var b: seq<int> := [2, 0, 1, 2, 1];
    assert (Judgments1 + b)[0] == 0 && (Judgments1 + b)[1] == 1 && (Judgments1 + b)[2] == 2;
    KappaOverThree(Judgments1, b, Unweighted);
    NoAgreementScore([(0, 2), (1, 0), (2, 1), (1, 2), (0, 1)]);
  }

  /** The score of the counted samples of [0,1,2,1,0] against [2,0,1,2,1]. */
  lemma NoAgreementScore(p: seq<(nat, nat)>)
    requires p == [(0, 2), (1, 0), (2, 1), (1, 2), (0, 1)]
    ensures PairsKappa(Unweighted, p) == Score(-8.0 / 17.0)
  {
    FiveSums(Unweighted, p);
    assert Observed(Unweighted, p) == 5.0 && Chance(Unweighted, p, p) == 17.0;
  }

  /** The writes for two raters: the model against each, then the first against the second. */
  lemma TwoRaterWrites(model: seq<int>, a: seq<int>, b: seq<int>, ra: string, rb: string)
    ensures Writes(model, [(ra, a), (rb, b)])
      == [Write(ModelKey(ra), model, a), Write(ModelKey(rb), model, b), Write(PairKey(ra, rb), a, b)]
  {
    var raters := [(ra, a), (rb, b)];
    assert PairsOf(2, 2) == [(0, 1)] by {
      assert RowPairs(2, 0) == [(0, 1)] && RowPairs(2, 1) == [];
      assert PairsOf(2, 1) == [] + RowPairs(2, 0);
    }
    assert ModelWrites(model, raters) == [Write(ModelKey(ra), model, a), Write(ModelKey(rb), model, b)];
    assert PairWrites(raters, [(0, 1)]) == [Write(PairKey(ra, rb), a, b)];
  }

  /** Raters "A" and "B" give the keys "model_vs_A", "model_vs_B" and "A_vs_B", in that order. */
  lemma TwoRaterKeys(model: seq<int>, a: seq<int>, b: seq<int>)
    ensures WriteKeys(Writes(model, [("A", a), ("B", b)])) == ["model_vs_A", "model_vs_B", "A_vs_B"]
  {
    TwoRaterWrites(model, a, b, "A", "B");
    assert ModelKey("A") == "model_vs_A" && ModelKey("B") == "model_vs_B" && PairKey("A", "B") == "A_vs_B";
  }

  /**
   * A rater named "model" next to a rater "x": "model" against "x" is stored under
   * "model_vs_x", the key of the model against "x", and overwrites it.
   */
  lemma CollidingKeys(model: seq<int>, r1: seq<int>, r2: seq<int>, kappa: PairKappa)
    requires kappa(model, r1).Value? && kappa(model, r2).Value? && kappa(r1, r2).Value?
    ensures KappaTable(model, [("model", r1), ("x", r2)], kappa).Kappas?
    ensures Lookup(KappaTable(model, [("model", r1), ("x", r2)], kappa).table, "model_vs_x") == Some(kappa(r1, r2).kappa)
  {
    var ws := Writes(model, [("model", r1), ("x", r2)]);
    TwoRaterWrites(model, r1, r2, "model", "x");
    var xs := Outcomes(ws, kappa);
    assert PairKey("model", "x") == "model_vs_x";
    assert xs[2] == Assignment("model_vs_x", kappa(r1, r2));
    ApplyLookupLast([], xs, 2);
  }
}
