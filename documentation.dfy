/** The documentation analyzer: a six-check additive ladder over the README,
    a documentation directory, the license flag and a CONTRIBUTING file. */
module Documentation {
  import opened Wrappers
  import opened Strings
  import opened RepoData
  import opened Analyzers

  const Name: string := "Documentation"
  const Weight: real := 0.20

  const ReadmeFound := "README.md exists"
  const ReadmeLong := "README has substantial content (>500 chars)"
  const ReadmeShort := "README is quite short (<500 chars)"
  const ReadmeSectioned := "README has sections"
  const ReadmeUnsectioned := "README lacks structured sections"
  const ReadmeMissing := "README.md not found"
  const DocsFound := "Documentation directory exists"
  const DocsMissing := "No dedicated documentation directory"
  const LicenseFound := "LICENSE file exists"
  const LicenseMissing := "LICENSE file not found"
  const ContributingFound := "CONTRIBUTING.md exists"
  const ContributingMissing := "CONTRIBUTING.md not found"

  predicate IsDocsPath(path: string) {
    StartsWith(path, "docs/") || StartsWith(path, "documentation/")
  }

  predicate IsContributingPath(path: string) {
    EqIgnoreAsciiCase(path, "CONTRIBUTING.md")
  }

  /** Some entry lies under a documentation directory. */
  predicate HasDocsDir(tree: seq<TreeEntry>) {
    AnyPath(tree, IsDocsPath)
  }

  /** Some entry is CONTRIBUTING.md in any ASCII case. */
  predicate HasContributing(tree: seq<TreeEntry>) {
    AnyPath(tree, IsContributingPath)
  }

  /** More than 500 bytes of README. */
  predicate IsLong(readme: string) {
    Utf8Len(readme) > 500
  }

  /** A README holding a markdown sub-heading marker. */
  predicate HasSections(readme: string) {
    Contains(readme, "##")
  }

  predicate HasLongReadme(readme: Option<string>) {
    readme.Some? && IsLong(readme.value)
  }

  predicate HasSectionedReadme(readme: Option<string>) {
    readme.Some? && HasSections(readme.value)
  }

  /** The README bonuses: presence, length and sections. */
  function ReadmeScore(readme: Option<string>): real {
    Bonus(readme.Some?, 40.0) + Bonus(HasLongReadme(readme), 10.0) + Bonus(HasSectionedReadme(readme), 10.0)
  }

  /** The documentation score: the sum of the six bonuses. */
  function DocScore(s: RepoSnapshot): real {
    ReadmeScore(s.readme)
    + Bonus(HasDocsDir(s.tree), 20.0)
    + Bonus(s.hasLicense, 10.0)
    + Bonus(HasContributing(s.tree), 10.0)
  }

  /** The outcomes of the README checks: presence, then length and sections,
      which are checked only when there is a README. */
  function ReadmeChecks(readme: Option<string>): seq<bool> {
    if readme.Some? then [true] + [IsLong(readme.value)] + [HasSections(readme.value)] else [false]
  }

  /** The outcome of each check the analyzer reports on, in report order. */
  function Checks(s: RepoSnapshot): (c: seq<bool>)
    ensures |c| == if s.readme.Some? then 6 else 4
  {
    ReadmeChecks(s.readme) + [HasDocsDir(s.tree)] + [s.hasLicense] + [HasContributing(s.tree)]
  }

  /** The score lies in [0, 100] and is 100 exactly when all six checks pass. */
  lemma DocScoreRange(s: RepoSnapshot)
    ensures 0.0 <= DocScore(s) <= 100.0
    ensures DocScore(s) == 100.0 <==>
      s.readme.Some? && HasLongReadme(s.readme) && HasSectionedReadme(s.readme)
      && HasDocsDir(s.tree) && s.hasLicense && HasContributing(s.tree)
  {
  }

  /** Adding tree entries never lowers the score: the directory and
      CONTRIBUTING checks only ask whether some entry matches. */
  lemma DocScoreMonotoneInTree(s: RepoSnapshot, t: RepoSnapshot)
    requires s.readme == t.readme && s.hasLicense == t.hasLicense
    requires forall e :: e in s.tree ==> e in t.tree
    ensures DocScore(s) <= DocScore(t)
  {
    AnyPathMonotone(s.tree, t.tree, IsDocsPath);
    AnyPathMonotone(s.tree, t.tree, IsContributingPath);
  }

  function Details(positives: nat, hasReadme: bool): string {
    "Found " + NatToString(positives) + " documentation elements. README quality: "
    + (if hasReadme then "Present" else "Missing") + "."
  }

  /** The README findings: presence, then length and sections. */
  function ReadmeFindings(readme: Option<string>): seq<Finding> {
    if readme.Some? then
      [PositiveFinding(ReadmeFound)]
      + [Verdict(IsLong(readme.value),
           PositiveFinding(ReadmeLong),
           WarningFinding(ReadmeShort))]
      + [Verdict(HasSections(readme.value),
           PositiveFinding(ReadmeSectioned),
           WarningFinding(ReadmeUnsectioned))]
    else
      [MissingFinding(ReadmeMissing)]
  }

  /** The findings of the documentation analyzer, in report order. */
  function Findings(s: RepoSnapshot): seq<Finding> {
    ReadmeFindings(s.readme)
    + [Verdict(HasDocsDir(s.tree),
         PositiveFinding(DocsFound),
         MissingFinding(DocsMissing))]
    + [Verdict(s.hasLicense,
         PositiveFinding(LicenseFound),
         MissingFinding(LicenseMissing))]
    + [Verdict(HasContributing(s.tree),
         PositiveFinding(ContributingFound),
         MissingFinding(ContributingMissing))]
  }

  lemma ReadmeFindingsReportChecks(readme: Option<string>)
    ensures Passed(ReadmeFindings(readme)) == ReadmeChecks(readme)
  {
    if readme.Some? {
      var text := readme.value;
      var first := [PositiveFinding(ReadmeFound)];
      var long := PositiveFinding(ReadmeLong);
      var short := WarningFinding(ReadmeShort);
      PassedVerdict(first, IsLong(text), long, short);
      var second := first + [Verdict(IsLong(text), long, short)];
      PassedVerdict(second, HasSections(text),
        PositiveFinding(ReadmeSectioned), WarningFinding(ReadmeUnsectioned));
    }
  }

  /** Each finding reports one check: it is Positive exactly when its check
      passed, so the findings and the checks line up one for one. */
  lemma FindingsReportChecks(s: RepoSnapshot)
    ensures Passed(Findings(s)) == Checks(s)
  {
    var readme := ReadmeFindings(s.readme);
    ReadmeFindingsReportChecks(s.readme);
    var docs := Verdict(HasDocsDir(s.tree),
      PositiveFinding(DocsFound),
      MissingFinding(DocsMissing));
    var license := Verdict(s.hasLicense,
      PositiveFinding(LicenseFound), MissingFinding(LicenseMissing));
    PassedVerdict(readme, HasDocsDir(s.tree),
      PositiveFinding(DocsFound),
      MissingFinding(DocsMissing));
    PassedVerdict(readme + [docs], s.hasLicense,
      PositiveFinding(LicenseFound), MissingFinding(LicenseMissing));
    PassedVerdict(readme + [docs] + [license], HasContributing(s.tree),
      PositiveFinding(ContributingFound), MissingFinding(ContributingMissing));
  }

  /** The summary's count of Positive findings is the number of passed checks. */
  lemma PositiveFindingsCountChecks(s: RepoSnapshot)
    ensures CountStatus(Findings(s), Positive) == CountTrue(Checks(s))
  {
    FindingsReportChecks(s);
    CountPositiveIsCountPassed(Findings(s));
  }

  /** The README block of `DocumentationAnalyzer::analyze`. */
  method AnalyzeReadme(readme: Option<string>) returns (score: real, findings: seq<Finding>)
    ensures score == ReadmeScore(readme)
    ensures findings == ReadmeFindings(readme)
  {
    score := 0.0;
    findings := [];
    if readme.Some? {
      var text := readme.value;
      score := score + 40.0;
      findings := findings + [PositiveFinding(ReadmeFound)];
      score, findings := Award(score, findings, IsLong(text), 10.0,
        PositiveFinding(ReadmeLong),
        WarningFinding(ReadmeShort));
      score, findings := Award(score, findings, HasSections(text), 10.0,
        PositiveFinding(ReadmeSectioned),
        WarningFinding(ReadmeUnsectioned));
    } else {
      findings := findings + [MissingFinding(ReadmeMissing)];
    }
  }

  /** `DocumentationAnalyzer::analyze`: the score, the findings and the
      summary counting the Positive findings. */
  method Analyze(s: RepoSnapshot) returns (r: AnalysisResult)
    ensures r.score == DocScore(s)
    ensures r.findings == Findings(s)
    ensures r.details == Details(CountStatus(r.findings, Positive), s.readme.Some?)
  {
    var score, findings := AnalyzeReadme(s.readme);
    score, findings := Award(score, findings, HasDocsDir(s.tree), 20.0,
      PositiveFinding(DocsFound),
      MissingFinding(DocsMissing));
    score, findings := Award(score, findings, s.hasLicense, 10.0,
      PositiveFinding(LicenseFound),
      MissingFinding(LicenseMissing));
    score, findings := Award(score, findings, HasContributing(s.tree), 10.0,
      PositiveFinding(ContributingFound),
      MissingFinding(ContributingMissing));

    var details := Details(CountStatus(findings, Positive), s.readme.Some?);
    r := AnalysisResult(score, details, findings);
  }
}
