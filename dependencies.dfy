/** The dependencies analyzer: manifest files at the repository root, a
    size-based estimate of the dependency count, and the archived flag. */
module Dependencies {
  import opened Wrappers
  import opened Strings
  import opened RepoData
  import opened Analyzers

  const Name: string := "Dependencies"
  const Weight: real := 0.20

  const NoDependencyFiles := "No dependency files detected"
  const ManagementPrefix := "Dependency management: "
  const Maintained := "Repository is actively maintained"
  const ArchivedWarning := "Repository is archived - dependencies may be outdated"

  /** The label of a root manifest; the whole path must be the manifest's name. */
  function DepLabel(path: string): Option<string> {
    match path
    case "Cargo.toml" => Some("Cargo.toml (Rust)")
    case "package.json" => Some("package.json (Node.js)")
    case "requirements.txt" => Some("requirements.txt (Python)")
    case "Pipfile" => Some("Pipfile (Python)")
    case "pyproject.toml" => Some("pyproject.toml (Python)")
    case "go.mod" => Some("go.mod (Go)")
    case "pom.xml" => Some("pom.xml (Java/Maven)")
    case "build.gradle" => Some("Gradle (Java)")
    case "build.gradle.kts" => Some("Gradle (Java)")
    case "Gemfile" => Some("Gemfile (Ruby)")
    case _ => None
  }

  const ManifestNames: set<string> := {"Cargo.toml", "package.json", "requirements.txt", "Pipfile",
    "pyproject.toml", "go.mod", "pom.xml", "build.gradle", "build.gradle.kts", "Gemfile"}

  /** Only the listed names are recognised, as whole paths. */
  lemma DepLabelIff(path: string)
    ensures DepLabel(path).Some? <==> path in ManifestNames
  {
  }

  /** A manifest below the root is not recognised: no listed name holds a '/'. */
  lemma NestedManifestIgnored(path: string)
    requires '/' in path
    ensures DepLabel(path) == None
  {
    DepLabelIff(path);
    forall n | n in ManifestNames ensures '/' !in n {
    }
  }

  /** A blob that is a root manifest. */
  predicate IsManifestBlob(e: TreeEntry) {
    IsBlob(e) && DepLabel(e.path).Some?
  }

  /** The labels of the manifests in `tree`, one per manifest blob, in tree order. */
  function DependencyFiles(tree: seq<TreeEntry>): (files: seq<string>)
    ensures |files| <= |tree|
  {
    if tree == [] then []
    else
      var last := tree[|tree| - 1];
      DependencyFiles(tree[..|tree| - 1])
      + (if IsManifestBlob(last) then [DepLabel(last.path).value] else [])
  }

  /** Each manifest blob adds exactly one label. */
  lemma {:induction false} DependencyFilesCount(tree: seq<TreeEntry>)
    ensures |DependencyFiles(tree)| == CountEntries(tree, IsManifestBlob)
  {
    if tree != [] {
      var init, last := tree[..|tree| - 1], tree[|tree| - 1];
      assert tree == init + [last];
      DependencyFilesCount(init);
      CountEntriesAppend(init, [last], IsManifestBlob);
      assert [last][1..] == [];
    }
  }

  /** `find_dependency_files`. */
  method FindDependencyFiles(tree: seq<TreeEntry>) returns (files: seq<string>)
    ensures files == DependencyFiles(tree)
  {
    files := [];
    for i := 0 to |tree|
      invariant files == DependencyFiles(tree[..i])
    {
      var entry := tree[i];
      assert tree[..i + 1][..i] == tree[..i];
      if entry.entryType != "blob" {
        continue;
      }
      match entry.path {
        case "Cargo.toml" => files := files + ["Cargo.toml (Rust)"];
        case "package.json" => files := files + ["package.json (Node.js)"];
        case "requirements.txt" => files := files + ["requirements.txt (Python)"];
        case "Pipfile" => files := files + ["Pipfile (Python)"];
        case "pyproject.toml" => files := files + ["pyproject.toml (Python)"];
        case "go.mod" => files := files + ["go.mod (Go)"];
        case "pom.xml" => files := files + ["pom.xml (Java/Maven)"];
        case "build.gradle" => files := files + ["Gradle (Java)"];
        case "build.gradle.kts" => files := files + ["Gradle (Java)"];
        case "Gemfile" => files := files + ["Gemfile (Ruby)"];
        case _ =>
      }
    }
    assert tree[..|tree|] == tree;
  }

  predicate IsCodeFile(path: string) {
    EndsWith(path, ".rs") || EndsWith(path, ".js") || EndsWith(path, ".ts")
    || EndsWith(path, ".py") || EndsWith(path, ".go") || EndsWith(path, ".java")
  }

  predicate IsCodeBlob(e: TreeEntry) {
    IsBlob(e) && IsCodeFile(e.path)
  }

  function CodeFileCount(tree: seq<TreeEntry>): nat {
    CountEntries(tree, IsCodeBlob)
  }

  /** The rough estimate by project size: small, medium, large. */
  function SizeEstimate(codeFiles: nat): nat {
    if codeFiles < 50 then 5 else if codeFiles < 200 then 15 else 30
  }

  /** `estimate_dependency_count`. */
  function EstimateDependencyCount(tree: seq<TreeEntry>): nat {
    if DependencyFiles(tree) == [] then 0 else SizeEstimate(CodeFileCount(tree))
  }

  /** The estimate is zero exactly when there is no manifest, is otherwise
      one of three sizes, and never falls as the code-file count grows. */
  lemma EstimateProperties(tree: seq<TreeEntry>, fewer: nat, more: nat)
    ensures EstimateDependencyCount(tree) == 0 <==> DependencyFiles(tree) == []
    ensures DependencyFiles(tree) != [] ==> EstimateDependencyCount(tree) in {5, 15, 30}
    ensures fewer <= more ==> SizeEstimate(fewer) <= SizeEstimate(more)
  {
  }

  /** `repository.archived.unwrap_or(false)`. */
  predicate IsArchived(s: RepoSnapshot) {
    s.repository.archived.GetOr(false)
  }

  /** An absent archived flag counts as not archived. */
  lemma AbsentArchivedIsActive(s: RepoSnapshot)
    requires s.repository.archived.None?
    ensures !IsArchived(s)
  {
  }

  function DepScore(s: RepoSnapshot): real {
    if DependencyFiles(s.tree) == [] then 0.0
    else 20.0 + Bonus(EstimateDependencyCount(s.tree) > 0, 20.0) + Bonus(!IsArchived(s), 40.0)
  }

  /** The score is 0 without manifests, otherwise 80, or 40 for an archived
      repository: the estimate bonus is always awarded. */
  lemma DepScoreValues(s: RepoSnapshot)
    ensures DepScore(s) == 0.0 <==> DependencyFiles(s.tree) == []
    ensures DepScore(s) == 40.0 <==> DependencyFiles(s.tree) != [] && IsArchived(s)
    ensures DepScore(s) == 80.0 <==> DependencyFiles(s.tree) != [] && !IsArchived(s)
    ensures 0.0 <= DepScore(s) <= 100.0
  {
    EstimateProperties(s.tree, 0, 0);
  }

  /** On the tree: 80 needs a manifest blob and an active repository. */
  lemma DepScoreOfTree(s: RepoSnapshot)
    ensures DepScore(s) == 80.0 <==> CountEntries(s.tree, IsManifestBlob) > 0 && !IsArchived(s)
  {
    DepScoreValues(s);
    DependencyFilesCount(s.tree);
  }

  function Estimated(count: nat): string {
    "Estimated ~" + NatToString(count) + " dependencies"
  }

  function Findings(s: RepoSnapshot): seq<Finding> {
    var files := DependencyFiles(s.tree);
    if files == [] then [MissingFinding(NoDependencyFiles)]
    else
      var estimate := EstimateDependencyCount(s.tree);
      [PositiveFinding(ManagementPrefix + JoinWith(files, ", "))]
      + IfPassed(estimate > 0, PositiveFinding(Estimated(estimate)))
      + [Verdict(!IsArchived(s), PositiveFinding(Maintained), WarningFinding(ArchivedWarning))]
  }

  /** Without manifests there is one Missing finding. With them there are
      three, and the last is a Warning exactly when the repository is archived. */
  lemma FindingsStatus(s: RepoSnapshot)
    ensures DependencyFiles(s.tree) == [] ==> Findings(s) == [MissingFinding(NoDependencyFiles)]
    ensures DependencyFiles(s.tree) != [] ==>
      Passed(Findings(s)) == [true, true, !IsArchived(s)]
  {
    if DependencyFiles(s.tree) != [] {
      EstimateProperties(s.tree, 0, 0);
    }
  }

  function Details(files: seq<string>): string {
    if files == [] then "No dependency management detected"
    else "Found " + NatToString(|files|) + " dependency file(s)"
  }

  /** The branch of `DependenciesAnalyzer::analyze` taken when manifests exist. */
  method AnalyzeManifests(s: RepoSnapshot, files: seq<string>) returns (score: real, findings: seq<Finding>)
    requires files == DependencyFiles(s.tree) && files != []
    ensures score == DepScore(s)
    ensures findings == Findings(s)
  {
    score := 20.0;
    findings := [PositiveFinding(ManagementPrefix + JoinWith(files, ", "))];
    var depCount := EstimateDependencyCount(s.tree);
    score, findings := AwardIfPassed(score, findings, depCount > 0, 20.0, PositiveFinding(Estimated(depCount)));
    var isArchived := s.repository.archived.GetOr(false);
    score, findings := Award(score, findings, !isArchived, 40.0,
      PositiveFinding(Maintained), WarningFinding(ArchivedWarning));
  }

  /** `DependenciesAnalyzer::analyze`. */
  method Analyze(s: RepoSnapshot) returns (r: AnalysisResult)
    ensures r.score == DepScore(s)
    ensures r.findings == Findings(s)
    ensures r.details == Details(DependencyFiles(s.tree))
  {
    var score := 0.0;
    var findings: seq<Finding> := [];
    var files := FindDependencyFiles(s.tree);
    if files == [] {
      findings := findings + [MissingFinding(NoDependencyFiles)];
    } else {
      score, findings := AnalyzeManifests(s, files);
    }
    r := AnalysisResult(score, Details(files), findings);
  }
}
