/** The analysis run: the five analyzers in order with their weights, each
    applied to the same repository snapshot, then the overall score. */
module Report {
  import opened RepoData
  import opened Analyzers
  import opened Scoring
  import Documentation
  import Tests
  import CiCd
  import Dependencies
  import BusFactor
  import opened Wrappers

  /** The five analyzers the run holds. */
  datatype Analyzer = DocumentationAnalyzer | TestsAnalyzer | CiCdAnalyzer | DependenciesAnalyzer | BusFactorAnalyzer

  /** The run's list of (name, weight, analyzer), in the order they run. */
  const Plan: seq<(string, real, Analyzer)> := [
    ("Documentation", 0.20, DocumentationAnalyzer),
    ("Tests", 0.25, TestsAnalyzer),
    ("CI/CD", 0.20, CiCdAnalyzer),
    ("Dependencies", 0.20, DependenciesAnalyzer),
    ("Bus Factor", 0.15, BusFactorAnalyzer)
  ]

  /** The score one analyzer gives a snapshot. */
  function Score(a: Analyzer, s: RepoSnapshot): real {
    match a
    case DocumentationAnalyzer => Documentation.DocScore(s)
    case TestsAnalyzer => Tests.TestsScore(s)
    case CiCdAnalyzer => CiCd.CiScore(CiCd.CiConfigs(s.tree))
    case DependenciesAnalyzer => Dependencies.DepScore(s)
    case BusFactorAnalyzer => BusFactor.BusScore(s.contributors)
  }

  /** The summary line one analyzer reports. */
  function DetailsOf(a: Analyzer, s: RepoSnapshot): string {
    match a
    case DocumentationAnalyzer =>
      Documentation.Details(CountStatus(Documentation.Findings(s), Positive), s.readme.Some?)
    case TestsAnalyzer => Tests.Details(Tests.TestFileCount(s.tree))
    case CiCdAnalyzer => CiCd.Details(CiCd.CiConfigs(s.tree))
    case DependenciesAnalyzer => Dependencies.Details(Dependencies.DependencyFiles(s.tree))
    case BusFactorAnalyzer => BusFactor.Details(s.contributors)
  }

  /** The findings one analyzer reports. */
  function FindingsOf(a: Analyzer, s: RepoSnapshot): seq<Finding> {
    match a
    case DocumentationAnalyzer => Documentation.Findings(s)
    case TestsAnalyzer => Tests.Findings(s)
    case CiCdAnalyzer => CiCd.Findings(CiCd.CiConfigs(s.tree))
    case DependenciesAnalyzer => Dependencies.Findings(s)
    case BusFactorAnalyzer => BusFactor.Findings(s.contributors)
  }

  /** What one analyzer reports on a snapshot. */
  function ResultOf(a: Analyzer, s: RepoSnapshot): AnalysisResult {
    AnalysisResult(Score(a, s), DetailsOf(a, s), FindingsOf(a, s))
  }

  /** Every analyzer scores within [0, 100]. */
  lemma ScoreInRange(a: Analyzer, s: RepoSnapshot)
    ensures 0.0 <= Score(a, s) <= 100.0
  {
    match a
    case DocumentationAnalyzer => Documentation.DocScoreRange(s);
    case TestsAnalyzer => Tests.TestsScoreRange(s);
    case CiCdAnalyzer => CiCd.CiScoreValues(CiCd.CiConfigs(s.tree));
    case DependenciesAnalyzer => Dependencies.DepScoreValues(s);
    case BusFactorAnalyzer =>
      if s.contributors != [] {
        var b := BusFactor.BusFactorOf(s.contributors);
        BusFactor.ScoreBusFactorMonotone(b, b);
      }
  }

  /** The weighted results of the first `k` analyzers of the plan. */
  function Results(s: RepoSnapshot, k: nat): (results: seq<Weighted>)
    requires k <= |Plan|
    ensures |results| == k
    ensures forall i :: 0 <= i < k ==>
      results[i] == Entry(s, i)
  {
    if k == 0 then [] else Results(s, k - 1) + [Entry(s, k - 1)]
  }

  /** The overall score written out: 20% documentation, 25% tests, 20% CI/CD,
      20% dependencies, 15% bus factor. */
  function Overall(s: RepoSnapshot): real {
    0.20 * Score(DocumentationAnalyzer, s)
    + 0.25 * Score(TestsAnalyzer, s)
    + 0.20 * Score(CiCdAnalyzer, s)
    + 0.20 * Score(DependenciesAnalyzer, s)
    + 0.15 * Score(BusFactorAnalyzer, s)
  }

  /** The `k`-th entry of the plan with its result on `s`. */
  function Entry(s: RepoSnapshot, k: nat): Weighted
    requires k < |Plan|
  {
    Weighted(Plan[k].0, Plan[k].1, ResultOf(Plan[k].2, s))
  }

  /** The plan's weights sum to one, so for five results weighted as the
      plan weights them, with scores in [0, 100], the clamp in
      `CalculateOverall` never fires. */
  lemma PlannedSum(a: Weighted, b: Weighted, c: Weighted, d: Weighted, e: Weighted)
    requires a.weight == Plan[0].1 && b.weight == Plan[1].1 && c.weight == Plan[2].1
    requires d.weight == Plan[3].1 && e.weight == Plan[4].1
    requires 0.0 <= a.result.score <= 100.0 && 0.0 <= b.result.score <= 100.0
    requires 0.0 <= c.result.score <= 100.0 && 0.0 <= d.result.score <= 100.0
    requires 0.0 <= e.result.score <= 100.0
    ensures TotalWeight([a, b, c, d, e]) == 1.0
    ensures CalculateOverall([a, b, c, d, e]) == 0.20 * a.result.score + 0.25 * b.result.score
      + 0.20 * c.result.score + 0.20 * d.result.score + 0.15 * e.result.score
  {
    WeightedSnoc([], a);
    WeightedSnoc([a], b);
    WeightedSnoc([a, b], c);
    WeightedSnoc([a, b, c], d);
    WeightedSnoc([a, b, c, d], e);
    assert [] + [a] == [a];
    assert [a] + [b] == [a, b];
    assert [a, b] + [c] == [a, b, c];
    assert [a, b, c] + [d] == [a, b, c, d];
    assert [a, b, c, d] + [e] == [a, b, c, d, e];
  }

  /** The five entries carry the five analyzer scores, each within [0, 100]. */
  lemma EntryScores(s: RepoSnapshot)
    ensures Entry(s, 0).result.score == Score(DocumentationAnalyzer, s)
    ensures Entry(s, 1).result.score == Score(TestsAnalyzer, s)
    ensures Entry(s, 2).result.score == Score(CiCdAnalyzer, s)
    ensures Entry(s, 3).result.score == Score(DependenciesAnalyzer, s)
    ensures Entry(s, 4).result.score == Score(BusFactorAnalyzer, s)
    ensures forall a :: 0.0 <= Score(a, s) <= 100.0
  {
    forall a ensures 0.0 <= Score(a, s) <= 100.0 {
      ScoreInRange(a, s);
    }
  }

  /** On a snapshot the overall score is the plan's weighted sum, within [0, 100]. */
  lemma OverallIsPlanned(s: RepoSnapshot)
    ensures TotalWeight(Results(s, |Plan|)) == 1.0
    ensures CalculateOverall(Results(s, |Plan|)) == Overall(s)
    ensures 0.0 <= Overall(s) <= 100.0
  {
    var e0, e1, e2, e3, e4 := Entry(s, 0), Entry(s, 1), Entry(s, 2), Entry(s, 3), Entry(s, 4);
    assert Results(s, |Plan|) == [e0, e1, e2, e3, e4];
    EntryScores(s);
    PlannedSum(e0, e1, e2, e3, e4);
  }

  /** A repository scores 100 overall exactly when every analyzer gives it 100. */
  lemma PerfectOverall(s: RepoSnapshot)
    ensures Overall(s) == 100.0 <==>
      Score(DocumentationAnalyzer, s) == 100.0 && Score(TestsAnalyzer, s) == 100.0
      && Score(CiCdAnalyzer, s) == 100.0 && Score(DependenciesAnalyzer, s) == 100.0
      && Score(BusFactorAnalyzer, s) == 100.0
  {
    ScoreInRange(DocumentationAnalyzer, s);
    ScoreInRange(TestsAnalyzer, s);
    ScoreInRange(CiCdAnalyzer, s);
    ScoreInRange(DependenciesAnalyzer, s);
    ScoreInRange(BusFactorAnalyzer, s);
  }

  /** One analyzer's `analyze` call. */
  method RunAnalyzer(a: Analyzer, s: RepoSnapshot) returns (r: AnalysisResult)
    ensures r == ResultOf(a, s)
  {
    match a
    case DocumentationAnalyzer => r := Documentation.Analyze(s);
    case TestsAnalyzer => r := Tests.Analyze(s);
    case CiCdAnalyzer => r := CiCd.Analyze(s);
    case DependenciesAnalyzer => r := Dependencies.Analyze(s);
    case BusFactorAnalyzer => r := BusFactor.Analyze(s);
  }

  /** The run: every analyzer of the plan in order, each result pushed with
      its name and weight, then the overall score of the list. */
  method Run(s: RepoSnapshot) returns (results: seq<Weighted>, overall: real)
    ensures results == Results(s, |Plan|)
    ensures overall == Overall(s)
  {
    results := [];
    for i := 0 to |Plan|
      invariant results == Results(s, i)
    {
      var (name, weight, analyzer) := Plan[i];
      var r := RunAnalyzer(analyzer, s);
      results := results + [Weighted(name, weight, r)];
      assert Weighted(name, weight, r) == Entry(s, i);
    }
    overall := CalculateOverall(results);
    OverallIsPlanned(s);
  }

  /** A snapshot with nothing but two contributors, one holding 90 of the 100
      commits: only the bus factor scores (10 points at weight 0.15), the
      overall score is 1.5, graded "D Poor", and the bus-factor analyzer
      raises the concentration Warning. */
  lemma ConcentratedOwnershipRun()
    ensures var s := RepoSnapshot(Repository(None), [], [Contributor("A", 90), Contributor("B", 10)], None, false);
      Overall(s) == 1.5 && Grade(Overall(s)) == "D Poor"
      && FindingsOf(BusFactorAnalyzer, s)[2].status == Warning
  {
    BusFactor.ConcentratedOwnershipExample();
  }
}
