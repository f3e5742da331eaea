/** The overall score: a clamped weighted sum of the analyzer scores, and the
    letter grade banded at 90 / 80 / 70 / 60. */
module Scoring {
  import opened Analyzers

  /** One analyzer's contribution: its name, its weight and its result. */
  datatype Weighted = Weighted(name: string, weight: real, result: AnalysisResult)

  /** `results.iter().map(|(_, weight, result)| result.score * weight).sum()`. */
  function WeightedSum(results: seq<Weighted>): real {
    if results == [] then 0.0
    else WeightedSum(results[..|results| - 1]) + results[|results| - 1].result.score * results[|results| - 1].weight
  }

  lemma {:induction false} WeightedSumAppend(a: seq<Weighted>, b: seq<Weighted>)
    ensures WeightedSum(a + b) == WeightedSum(a) + WeightedSum(b)
  {
    if b == [] {
      assert a + b == a;
    } else {
      assert (a + b)[..|a + b| - 1] == a + b[..|b| - 1];
      WeightedSumAppend(a, b[..|b| - 1]);
    }
  }

  /** Pushing one more result adds its weighted score and its weight. */
  lemma WeightedSnoc(results: seq<Weighted>, w: Weighted)
    ensures WeightedSum(results + [w]) == WeightedSum(results) + w.result.score * w.weight
    ensures TotalWeight(results + [w]) == TotalWeight(results) + w.weight
  {
    assert (results + [w])[..|results|] == results;
  }

  /** `x.min(100.0).max(0.0)`. */
  function Clamp(x: real): (r: real)
    ensures 0.0 <= r <= 100.0
    ensures 0.0 <= x <= 100.0 ==> r == x
    ensures x > 100.0 ==> r == 100.0
    ensures x < 0.0 ==> r == 0.0
  {
    var capped := if x <= 100.0 then x else 100.0;
    if capped >= 0.0 then capped else 0.0
  }

  /** `calculate_overall`: the weighted sum, clamped to [0, 100] whatever the
      weights sum to. */
  function CalculateOverall(results: seq<Weighted>): (overall: real)
    ensures 0.0 <= overall <= 100.0
    ensures 0.0 <= WeightedSum(results) <= 100.0 ==> overall == WeightedSum(results)
    ensures results == [] ==> overall == 0.0
  {
    Clamp(WeightedSum(results))
  }

  predicate ScoresInRange(results: seq<Weighted>) {
    forall i :: 0 <= i < |results| ==> 0.0 <= results[i].result.score <= 100.0
  }

  predicate WeightsNonNegative(results: seq<Weighted>) {
    forall i :: 0 <= i < |results| ==> results[i].weight >= 0.0
  }

  function TotalWeight(results: seq<Weighted>): real {
    if results == [] then 0.0 else TotalWeight(results[..|results| - 1]) + results[|results| - 1].weight
  }

  /** With scores in [0, 100] and non-negative weights, the weighted sum lies
      between 0 and 100 times the total weight. */
  lemma {:induction false} WeightedSumBounds(results: seq<Weighted>)
    requires ScoresInRange(results) && WeightsNonNegative(results)
    ensures 0.0 <= WeightedSum(results) <= 100.0 * TotalWeight(results)
  {
    if results != [] {
      var init, last := results[..|results| - 1], results[|results| - 1];
      assert forall i :: 0 <= i < |init| ==> init[i] == results[i];
      WeightedSumBounds(init);
      ProductBounds(last.result.score, last.weight);
    }
  }

  /** One term of the weighted sum lies between 0 and 100 times its weight. */
  lemma ProductBounds(score: real, weight: real)
    requires 0.0 <= score <= 100.0 && 0.0 <= weight
    ensures 0.0 <= score * weight <= 100.0 * weight
  {
    assert 0.0 <= score * weight;
    assert 100.0 * weight - score * weight == (100.0 - score) * weight;
    assert 0.0 <= (100.0 - score) * weight;
  }

  /** So when the weights sum to one, clamping changes nothing. */
  lemma OverallIsWeightedSum(results: seq<Weighted>)
    requires ScoresInRange(results) && WeightsNonNegative(results) && TotalWeight(results) == 1.0
    ensures CalculateOverall(results) == WeightedSum(results)
  {
    WeightedSumBounds(results);
  }

  /** Every weight multiplied by `k` and every score divided by `k`. */
  function Rescaled(results: seq<Weighted>, k: real): (r: seq<Weighted>)
    requires k > 0.0
    ensures |r| == |results|
    ensures forall i :: 0 <= i < |results| ==>
      r[i] == results[i].(weight := results[i].weight * k,
                          result := results[i].result.(score := results[i].result.score / k))
  {
    seq(|results|, i requires 0 <= i < |results| =>
      results[i].(weight := results[i].weight * k,
                  result := results[i].result.(score := results[i].result.score / k)))
  }

  /** Only the products of score and weight matter: scaling every weight up by
      `k` and every score down by `k` leaves the weighted sum, and so the
      overall score, unchanged. */
  lemma {:induction false} RescaledKeepsOverall(results: seq<Weighted>, k: real)
    requires k > 0.0
    ensures WeightedSum(Rescaled(results, k)) == WeightedSum(results)
    ensures CalculateOverall(Rescaled(results, k)) == CalculateOverall(results)
  {
    if results != [] {
      var n := |results|;
      var init, r := results[..n - 1], Rescaled(results, k);
      var rInit := Rescaled(init, k);
      assert r[..n - 1] == rInit by {
        forall i | 0 <= i < n - 1
          ensures r[..n - 1][i] == rInit[i]
        {
          assert init[i] == results[i];
        }
      }
      assert WeightedSum(rInit) == WeightedSum(init) by {
        RescaledKeepsOverall(init, k);
      }
      ScaledProduct(results[n - 1].result.score, results[n - 1].weight, k);
    }
  }

  lemma ScaledProduct(score: real, weight: real, k: real)
    requires k > 0.0
    ensures (score / k) * (weight * k) == score * weight
  {
  }

  /** Raising one analyzer's score never lowers the overall score when its
      weight is non-negative. */
  lemma {:induction false} OverallMonotone(results: seq<Weighted>, i: nat, better: real)
    requires i < |results| && results[i].weight >= 0.0 && better >= results[i].result.score
    ensures CalculateOverall(results) <=
      CalculateOverall(results[i := results[i].(result := results[i].result.(score := better))])
  {
    var improved := results[i := results[i].(result := results[i].result.(score := better))];
    WeightedSumMonotone(results, improved, i);
  }

  lemma {:induction false} WeightedSumMonotone(results: seq<Weighted>, improved: seq<Weighted>, i: nat)
    requires |results| == |improved| && i < |results|
    requires forall j :: 0 <= j < |results| && j != i ==> improved[j] == results[j]
    requires improved[i].weight == results[i].weight >= 0.0
    requires improved[i].result.score >= results[i].result.score
    ensures WeightedSum(results) <= WeightedSum(improved)
    decreases |results|
  {
    var n := |results| - 1;
    var a, b := results[n], improved[n];
    if n == i {
      assert results[..n] == improved[..n];
      assert a.result.score * a.weight <= b.result.score * b.weight by {
        assert (b.result.score - a.result.score) * a.weight >= 0.0;
      }
    } else {
      WeightedSumMonotone(results[..n], improved[..n], i);
    }
  }

  // ---- Grades ----

  /** How many of the thresholds 60, 70, 80, 90 the score reaches. */
  function Band(score: real): (b: nat)
    ensures b <= 4
  {
    (if score >= 60.0 then 1 else 0) + (if score >= 70.0 then 1 else 0)
    + (if score >= 80.0 then 1 else 0) + (if score >= 90.0 then 1 else 0)
  }

  const Grades: seq<string> := ["D Poor", "C Needs Improvement", "B Fair", "A Good", "A+ Excellent"]
  const ShortGrades: seq<string> := ["D", "C", "B", "A", "A+"]

  /** `grade`. */
  function Grade(score: real): string {
    if score >= 90.0 then "A+ Excellent"
    else if score >= 80.0 then "A Good"
    else if score >= 70.0 then "B Fair"
    else if score >= 60.0 then "C Needs Improvement"
    else "D Poor"
  }

  /** `grade_short`. */
  function GradeShort(score: real): string {
    if score >= 90.0 then "A+"
    else if score >= 80.0 then "A"
    else if score >= 70.0 then "B"
    else if score >= 60.0 then "C"
    else "D"
  }

  /** Both grades are the entries of the band the score reaches. */
  lemma GradeIsBand(score: real)
    ensures Grade(score) == Grades[Band(score)]
    ensures GradeShort(score) == ShortGrades[Band(score)]
  {
  }

  /** A higher score never earns a lower grade. */
  lemma GradeMonotone(a: real, b: real)
    requires a <= b
    ensures Band(a) <= Band(b)
    ensures Grade(a) != Grade(b) ==> Band(a) < Band(b)
  {
    GradeIsBand(a);
    GradeIsBand(b);
  }

  /** The text before the first space (all of it when there is none). */
  function FirstWord(s: string): (w: string)
    ensures |w| <= |s| && s[..|w|] == w && ' ' !in w
  {
    if s == [] || s[0] == ' ' then [] else [s[0]] + FirstWord(s[1..])
  }

  /** The short grade is the first word of the grade. */
  lemma GradeShortIsFirstWord(score: real)
    ensures GradeShort(score) == FirstWord(Grade(score))
  {
    var g := Grade(score);
    if score >= 90.0 {
      assert FirstWord(g[2..]) == [];
      assert FirstWord(g[1..]) == "+";
    } else if score >= 80.0 {
      assert FirstWord(g[1..]) == [];
    } else if score >= 70.0 {
      assert FirstWord(g[1..]) == [];
    } else if score >= 60.0 {
      assert FirstWord(g[1..]) == [];
    } else {
      assert FirstWord(g[1..]) == [];
    }
  }

  /** The grades asserted for 95, 85, 75, 65 and 50. */
  lemma GradeExamples()
    ensures Grade(95.0) == "A+ Excellent" && Grade(85.0) == "A Good" && Grade(75.0) == "B Fair"
    ensures Grade(65.0) == "C Needs Improvement" && Grade(50.0) == "D Poor"
  {
  }

  function Result(score: real): AnalysisResult {
    AnalysisResult(score, "test", [])
  }

  /** The five analyzers at 80 / 90 / 100 / 70 / 100 with weights
      0.20 / 0.25 / 0.20 / 0.20 / 0.15 score 87.5, within [85, 90]. */
  lemma OverallExample()
    ensures CalculateOverall([Weighted("Doc", 0.20, Result(80.0)), Weighted("Tests", 0.25, Result(90.0)),
      Weighted("CI", 0.20, Result(100.0)), Weighted("Deps", 0.20, Result(70.0)),
      Weighted("Bus", 0.15, Result(100.0))]) == 87.5
  {
    var r := [Weighted("Doc", 0.20, Result(80.0)), Weighted("Tests", 0.25, Result(90.0)),
      Weighted("CI", 0.20, Result(100.0)), Weighted("Deps", 0.20, Result(70.0)),
      Weighted("Bus", 0.15, Result(100.0))];
    assert r[..1][..0] == [];
    assert r[..2][..1] == r[..1];
    assert r[..3][..2] == r[..2];
    assert r[..4][..3] == r[..3];
    assert r[..5][..4] == r[..4];
    assert WeightedSum(r[..1]) == 16.0;
    assert WeightedSum(r[..2]) == 38.5;
    assert WeightedSum(r[..3]) == 58.5;
    assert WeightedSum(r[..4]) == 72.5;
    assert r[..5] == r;
  }
}
