/** The tests analyzer: a test directory, a tiered count of test files, a CI
    hint and a coverage badge in the README. */
module Tests {
  import opened Wrappers
  import opened Strings
  import opened RepoData
  import opened Analyzers

  const Name: string := "Tests"
  const Weight: real := 0.25

  const DirFound := "Test directory exists"
  const DirMissing := "No dedicated test directory found"
  const Extensive := "Extensive test coverage (10+ test files)"
  const NoTestFiles := "No test files detected"
  const CiFound := "CI configured (likely includes tests)"
  const BadgeFound := "Coverage badge found in README"

  /** `is_test_file`: the per-language naming conventions, tried in order. */
  predicate IsTestFile(path: string) {
    if StartsWith(path, "tests/") || Contains(path, "_test.rs") || Contains(path, "/test_") then true
    else if Contains(path, ".test.") || Contains(path, ".spec.") || Contains(path, "__tests__") then true
    else if StartsWith(path, "test_") || EndsWith(path, "_test.py") || Contains(path, "/test/") then true
    else if EndsWith(path, "_test.go") then true
    else Contains(path, "/test/") && EndsWith(path, ".java")
  }

  /** The conventions as one flat disjunction; the Java rule is absent
      because any path it accepts already contains "/test/". */
  predicate TestNaming(path: string) {
    StartsWith(path, "tests/") || StartsWith(path, "test_")
    || Contains(path, "_test.rs") || Contains(path, "/test_") || Contains(path, ".test.")
    || Contains(path, ".spec.") || Contains(path, "__tests__") || Contains(path, "/test/")
    || EndsWith(path, "_test.py") || EndsWith(path, "_test.go")
  }

  lemma IsTestFileIsTestNaming(path: string)
    ensures IsTestFile(path) <==> TestNaming(path)
  {
  }

  /** A name `has_test_directory` accepts; the whole path must match. */
  predicate IsTestDirName(path: string) {
    path == "tests" || path == "test" || path == "__tests__" || path == "spec"
  }

  /** `has_test_directory`: some entry, of any type, has a test directory name. */
  predicate HasTestDirectory(tree: seq<TreeEntry>) {
    AnyPath(tree, IsTestDirName)
  }

  lemma HasTestDirectoryIff(tree: seq<TreeEntry>)
    ensures HasTestDirectory(tree) <==> exists i :: 0 <= i < |tree| && IsTestDirName(tree[i].path)
  {
    AnyPathIff(tree, IsTestDirName);
  }

  /** A blob whose path follows a test naming convention. */
  predicate IsTestBlob(e: TreeEntry) {
    IsBlob(e) && IsTestFile(e.path)
  }

  /** The number of test files: blobs only, however their path looks. */
  function TestFileCount(tree: seq<TreeEntry>): nat {
    CountEntries(tree, IsTestBlob)
  }

  /** Directory entries never count, even when named like a test file. */
  lemma TestFileCountIgnoresNonBlobs(tree: seq<TreeEntry>, e: TreeEntry)
    requires !IsBlob(e)
    ensures TestFileCount(tree + [e]) == TestFileCount(tree)
  {
    CountEntriesAppend(tree, [e], IsTestBlob);
    assert CountEntries([e], IsTestBlob) == 0 by {
      assert [e][1..] == [];
    }
  }

  /** A path the CI hint accepts. */
  predicate IsCiHintPath(path: string) {
    StartsWith(path, ".github/workflows/") || path == ".circleci/config.yml" || path == ".travis.yml"
  }

  predicate HasCiHint(tree: seq<TreeEntry>) {
    AnyPath(tree, IsCiHintPath)
  }

  lemma HasCiHintIff(tree: seq<TreeEntry>)
    ensures HasCiHint(tree) <==> exists i :: 0 <= i < |tree| && IsCiHintPath(tree[i].path)
  {
    AnyPathIff(tree, IsCiHintPath);
  }

  /** A README mentioning coverage together with a badge or shields.io. */
  predicate HasCoverageBadge(readme: Option<string>) {
    readme.Some? && Contains(readme.value, "coverage")
    && (Contains(readme.value, "badge") || Contains(readme.value, "shields.io"))
  }

  /** The points of the test-file count: 20 from five files, 10 more from ten. */
  function TierScore(count: nat): real {
    if count >= 5 then 20.0 + Bonus(count >= 10, 10.0) else 0.0
  }

  function TestsScore(s: RepoSnapshot): real {
    Bonus(HasTestDirectory(s.tree), 40.0)
    + TierScore(TestFileCount(s.tree))
    + Bonus(HasCiHint(s.tree), 20.0)
    + Bonus(HasCoverageBadge(s.readme), 10.0)
  }

  /** The tier points take three values and never fall as the count grows. */
  lemma TierScoreValues(m: nat, n: nat)
    ensures TierScore(n) == 0.0 <==> n < 5
    ensures TierScore(n) == 20.0 <==> 5 <= n < 10
    ensures TierScore(n) == 30.0 <==> n >= 10
    ensures m <= n ==> TierScore(m) <= TierScore(n)
  {
  }

  /** The score lies in [0, 100]; 100 needs every bonus and at least ten test files. */
  lemma TestsScoreRange(s: RepoSnapshot)
    ensures 0.0 <= TestsScore(s) <= 100.0
    ensures TestsScore(s) == 100.0 <==>
      HasTestDirectory(s.tree) && TestFileCount(s.tree) >= 10
      && HasCiHint(s.tree) && HasCoverageBadge(s.readme)
  {
  }

  /** Adding entries to the tree never lowers the score: the directory and CI
      checks are existential and the count tiers only go up. */
  lemma TestsScoreMonotoneInTree(s: RepoSnapshot, extra: seq<TreeEntry>)
    ensures TestsScore(s) <= TestsScore(s.(tree := s.tree + extra))
  {
    var t := s.tree + extra;
    assert forall e :: e in s.tree ==> e in t;
    AnyPathMonotone(s.tree, t, IsTestDirName);
    AnyPathMonotone(s.tree, t, IsCiHintPath);
    CountEntriesAppend(s.tree, extra, IsTestBlob);
    TierScoreValues(TestFileCount(s.tree), TestFileCount(t));
  }

  /** The findings of the count tiers. */
  function TierFindings(count: nat): seq<Finding> {
    if count >= 5 then
      [PositiveFinding("Found " + NatToString(count) + " test files")]
      + IfPassed(count >= 10, PositiveFinding(Extensive))
    else if count > 0 then
      [WarningFinding("Only " + NatToString(count) + " test files found")]
    else
      [MissingFinding(NoTestFiles)]
  }

  /** From five files every tier finding is Positive, one or two of them;
      below five there is a single Warning, or a single Missing for none. */
  lemma TierFindingsStatus(count: nat)
    ensures |TierFindings(count)| == if count >= 10 then 2 else 1
    ensures count >= 5 ==> Passed(TierFindings(count)) == if count >= 10 then [true, true] else [true]
    ensures 0 < count < 5 ==> TierFindings(count)[0].status == Warning
    ensures count == 0 ==> TierFindings(count)[0].status == Missing
  {
  }

  function Findings(s: RepoSnapshot): seq<Finding> {
    var first := [Verdict(HasTestDirectory(s.tree),
      PositiveFinding(DirFound),
      MissingFinding(DirMissing))];
    first
    + TierFindings(TestFileCount(s.tree))
    + IfPassed(HasCiHint(s.tree), PositiveFinding(CiFound))
    + IfPassed(HasCoverageBadge(s.readme), PositiveFinding(BadgeFound))
  }

  /** The coverage label of the summary, chosen by the count thresholds. */
  function CoverageLabel(count: nat): string {
    if count >= 10 then "Excellent test coverage"
    else if count >= 5 then "Good test coverage"
    else if count > 0 then "Limited test coverage"
    else "No tests found"
  }

  function Details(count: nat): string {
    "Detected " + NatToString(count) + " test files across the repository. " + CoverageLabel(count)
  }

  /** The tier block of `TestsAnalyzer::analyze`. */
  method AnalyzeTier(score: real, findings: seq<Finding>, count: nat)
    returns (score': real, findings': seq<Finding>)
    ensures score' == score + TierScore(count)
    ensures findings' == findings + TierFindings(count)
  {
    score', findings' := score, findings;
    if count >= 5 {
      score' := score' + 20.0;
      findings' := findings' + [PositiveFinding("Found " + NatToString(count) + " test files")];
      score', findings' := AwardIfPassed(score', findings', count >= 10, 10.0,
        PositiveFinding(Extensive));
    } else if count > 0 {
      findings' := findings' + [WarningFinding("Only " + NatToString(count) + " test files found")];
    } else {
      findings' := findings' + [MissingFinding(NoTestFiles)];
    }
  }

  /** `TestsAnalyzer::analyze`. */
  method Analyze(s: RepoSnapshot) returns (r: AnalysisResult)
    ensures r.score == TestsScore(s)
    ensures r.findings == Findings(s)
    ensures r.details == Details(TestFileCount(s.tree))
  {
    var score, findings := Award(0.0, [], HasTestDirectory(s.tree), 40.0,
      PositiveFinding(DirFound),
      MissingFinding(DirMissing));
    var count := TestFileCount(s.tree);
    score, findings := AnalyzeTier(score, findings, count);
    score, findings := AwardIfPassed(score, findings, HasCiHint(s.tree), 20.0,
      PositiveFinding(CiFound));
    score, findings := AwardIfPassed(score, findings, HasCoverageBadge(s.readme), 10.0,
      PositiveFinding(BadgeFound));
    r := AnalysisResult(score, Details(count), findings);
  }
}
