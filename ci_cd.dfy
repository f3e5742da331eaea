/** The CI/CD analyzer: which CI systems the tree configures, GitHub Actions
    workflows first, and a score that takes one of four values. */
module CiCd {
  import opened Wrappers
  import opened Strings
  import opened RepoData
  import opened Analyzers

  const Name: string := "CI/CD"
  const Weight: real := 0.20

  /** The text every GitHub Actions label holds, and only those labels. */
  const ActionsMarker := "GitHub Actions"
  const ActionsPrefix := "GitHub Actions: "
  const NoCiFound := "No CI/CD configuration detected"
  const ActionsFound := "GitHub Actions configured"
  const ConfiguredPrefix := "CI configured: "
  const AdditionalPrefix := "Additional CI: "
  const Established := "CI/CD pipeline established"

  /** A workflow file: under .github/workflows/ and ending in .yml. */
  predicate IsWorkflowPath(path: string) {
    StartsWith(path, ".github/workflows/") && EndsWith(path, ".yml")
  }

  /** The label `detect_ci_configs` records for one entry, if any: non-blobs
      are skipped, and the other systems are recognised by their exact path. */
  function CiLabel(e: TreeEntry): Option<string> {
    if !IsBlob(e) then None
    else if IsWorkflowPath(e.path) then Some(ActionsPrefix + e.path)
    else if e.path == ".circleci/config.yml" then Some("CircleCI")
    else if e.path == ".travis.yml" then Some("Travis CI")
    else if e.path == "Jenkinsfile" then Some("Jenkins")
    else if e.path == ".gitlab-ci.yml" then Some("GitLab CI")
    else if e.path == "azure-pipelines.yml" then Some("Azure Pipelines")
    else None
  }

  function OptionSeq(o: Option<string>): seq<string> {
    if o.Some? then [o.value] else []
  }

  /** The labels of the CI configurations in `tree`, in tree order: at most
      one per entry. */
  function CiConfigs(tree: seq<TreeEntry>): (configs: seq<string>)
    ensures |configs| <= |tree|
  {
    if tree == [] then [] else CiConfigs(tree[..|tree| - 1]) + OptionSeq(CiLabel(tree[|tree| - 1]))
  }

  /** `detect_ci_configs`. */
  method DetectCiConfigs(tree: seq<TreeEntry>) returns (configs: seq<string>)
    ensures configs == CiConfigs(tree)
  {
    configs := [];
    for i := 0 to |tree|
      invariant configs == CiConfigs(tree[..i])
    {
      var entry := tree[i];
      assert tree[..i + 1][..i] == tree[..i];
      if entry.entryType != "blob" {
        continue;
      }
      if StartsWith(entry.path, ".github/workflows/") && EndsWith(entry.path, ".yml") {
        configs := configs + [ActionsPrefix + entry.path];
      } else if entry.path == ".circleci/config.yml" {
        configs := configs + ["CircleCI"];
      } else if entry.path == ".travis.yml" {
        configs := configs + ["Travis CI"];
      } else if entry.path == "Jenkinsfile" {
        configs := configs + ["Jenkins"];
      } else if entry.path == ".gitlab-ci.yml" {
        configs := configs + ["GitLab CI"];
      } else if entry.path == "azure-pipelines.yml" {
        configs := configs + ["Azure Pipelines"];
      }
    }
    assert tree[..|tree|] == tree;
  }

  /** Non-blob entries never produce a label, whatever their path. */
  lemma CiConfigsIgnoresNonBlobs(tree: seq<TreeEntry>, e: TreeEntry)
    requires !IsBlob(e)
    ensures CiConfigs(tree + [e]) == CiConfigs(tree)
  {
    assert (tree + [e])[..|tree|] == tree;
  }

  predicate IsActionsLabel(config: string) {
    Contains(config, ActionsMarker)
  }

  lemma AzureIsNotActions()
    ensures !IsActionsLabel("Azure Pipelines")
  {
    var s := "Azure Pipelines";
    forall i: nat | i <= |s| ensures !MatchesAt(s, ActionsMarker, i) {
      if i + |ActionsMarker| <= |s| {
        assert s[i..i + |ActionsMarker|][0] == s[i];
      }
    }
  }

  /** A label mentions GitHub Actions exactly when it comes from a workflow
      file: the names of the other systems never do. */
  lemma CiLabelIsActionsIff(e: TreeEntry)
    requires CiLabel(e).Some?
    ensures IsActionsLabel(CiLabel(e).value) <==> IsWorkflowPath(e.path)
  {
    var config := CiLabel(e).value;
    if IsWorkflowPath(e.path) {
      StartsWithContains(config, ActionsMarker);
    } else if config == "Azure Pipelines" {
      AzureIsNotActions();
    } else {
      ShorterNotContains(config, ActionsMarker);
    }
  }

  /** `ci_configs.iter().any(|c| c.contains("GitHub Actions"))`. */
  predicate AnyActions(configs: seq<string>) {
    configs != [] && (IsActionsLabel(configs[0]) || AnyActions(configs[1..]))
  }

  /** `ci_configs.iter().any(|c| !c.contains("GitHub Actions"))`. */
  predicate AnyOther(configs: seq<string>) {
    configs != [] && (!IsActionsLabel(configs[0]) || AnyOther(configs[1..]))
  }

  /** The number of GitHub Actions labels (`filter(..).count()`). */
  function WorkflowCount(configs: seq<string>): (n: nat)
    ensures n <= |configs|
  {
    if configs == [] then 0 else (if IsActionsLabel(configs[0]) then 1 else 0) + WorkflowCount(configs[1..])
  }

  /** The two `any` tests are statements about the workflow count. */
  lemma {:induction false} AnyIsCount(configs: seq<string>)
    ensures AnyActions(configs) <==> WorkflowCount(configs) > 0
    ensures AnyOther(configs) <==> WorkflowCount(configs) < |configs|
  {
    if configs != [] {
      AnyIsCount(configs[1..]);
    }
  }

  lemma {:induction false} WorkflowCountAppend(a: seq<string>, b: seq<string>)
    ensures WorkflowCount(a + b) == WorkflowCount(a) + WorkflowCount(b)
  {
    if a == [] {
      assert a + b == b;
    } else {
      assert (a + b)[1..] == a[1..] + b;
      WorkflowCountAppend(a[1..], b);
    }
  }

  predicate IsWorkflowBlob(e: TreeEntry) {
    IsBlob(e) && IsWorkflowPath(e.path)
  }

  /** The workflow count of the detected labels is the number of workflow
      blobs in the tree. */
  lemma {:induction false} WorkflowCountOfTree(tree: seq<TreeEntry>)
    ensures WorkflowCount(CiConfigs(tree)) == CountEntries(tree, IsWorkflowBlob)
  {
    if tree != [] {
      var init, last := tree[..|tree| - 1], tree[|tree| - 1];
      assert tree == init + [last];
      WorkflowCountOfTree(init);
      WorkflowCountAppend(CiConfigs(init), OptionSeq(CiLabel(last)));
      CountEntriesAppend(init, [last], IsWorkflowBlob);
      assert CountEntries([last], IsWorkflowBlob) == if IsWorkflowBlob(last) then 1 else 0 by {
        assert [last][1..] == [];
      }
      if CiLabel(last).Some? {
        CiLabelIsActionsIff(last);
        assert WorkflowCount([CiLabel(last).value]) == if IsActionsLabel(CiLabel(last).value) then 1 else 0 by {
          assert [CiLabel(last).value][1..] == [];
        }
      }
    }
  }

  /** The score of a list of detected labels. */
  function CiScore(configs: seq<string>): real {
    if configs == [] then 0.0
    else
      var actions := AnyActions(configs);
      (if actions then 50.0 + Bonus(WorkflowCount(configs) > 1, 15.0) else 0.0)
      + Bonus(AnyOther(configs) && !actions, 40.0)
      + 20.0
  }

  /** The score takes four values: none detected, other systems only, one
      workflow, several workflows. */
  lemma CiScoreValues(configs: seq<string>)
    ensures CiScore(configs) == 0.0 <==> configs == []
    ensures CiScore(configs) == 60.0 <==> configs != [] && WorkflowCount(configs) == 0
    ensures CiScore(configs) == 70.0 <==> WorkflowCount(configs) == 1
    ensures CiScore(configs) == 85.0 <==> WorkflowCount(configs) > 1
    ensures 0.0 <= CiScore(configs) <= 100.0
  {
    AnyIsCount(configs);
  }

  /** On a tree: 85 needs two workflow blobs, 70 exactly one. */
  lemma CiScoreOfTree(tree: seq<TreeEntry>)
    ensures CiScore(CiConfigs(tree)) == 85.0 <==> CountEntries(tree, IsWorkflowBlob) >= 2
    ensures CiScore(CiConfigs(tree)) == 70.0 <==> CountEntries(tree, IsWorkflowBlob) == 1
  {
    WorkflowCountOfTree(tree);
    CiScoreValues(CiConfigs(tree));
  }

  /** One Positive finding per label, `prefix` followed by the label. */
  function Labelled(prefix: string, configs: seq<string>): (findings: seq<Finding>)
    ensures |findings| == |configs|
    ensures forall i :: 0 <= i < |configs| ==>
      findings[i].status == Positive && findings[i].message == prefix + configs[i]
  {
    if configs == [] then []
    else Labelled(prefix, configs[..|configs| - 1]) + [PositiveFinding(prefix + configs[|configs| - 1])]
  }

  /** One Positive finding per label that is not a GitHub Actions one. */
  function LabelledOthers(prefix: string, configs: seq<string>): (findings: seq<Finding>)
    ensures |findings| == |configs| - WorkflowCount(configs)
    ensures forall i :: 0 <= i < |findings| ==> findings[i].status == Positive
  {
    if configs == [] then []
    else
      var init, last := configs[..|configs| - 1], configs[|configs| - 1];
      assert configs == init + [last];
      WorkflowCountAppend(init, [last]);
      assert WorkflowCount([last]) == if IsActionsLabel(last) then 1 else 0 by {
        assert [last][1..] == [];
      }
      LabelledOthers(prefix, init) + IfPassed(!IsActionsLabel(last), PositiveFinding(prefix + last))
  }

  /** Push one finding per label (`for config in &ci_configs`). */
  method PushLabelled(findings: seq<Finding>, prefix: string, configs: seq<string>)
    returns (findings': seq<Finding>)
    ensures findings' == findings + Labelled(prefix, configs)
  {
    findings' := findings;
    for i := 0 to |configs|
      invariant findings' == findings + Labelled(prefix, configs[..i])
    {
      assert configs[..i + 1][..i] == configs[..i];
      findings' := findings' + [PositiveFinding(prefix + configs[i])];
    }
    assert configs[..|configs|] == configs;
  }

  /** Push one finding per label that is not a GitHub Actions one
      (`for config in ci_configs.iter().filter(..)`). */
  method PushLabelledOthers(findings: seq<Finding>, prefix: string, configs: seq<string>)
    returns (findings': seq<Finding>)
    ensures findings' == findings + LabelledOthers(prefix, configs)
  {
    findings' := findings;
    for i := 0 to |configs|
      invariant findings' == findings + LabelledOthers(prefix, configs[..i])
    {
      assert configs[..i + 1][..i] == configs[..i];
      if !IsActionsLabel(configs[i]) {
        findings' := findings' + [PositiveFinding(prefix + configs[i])];
      }
    }
    assert configs[..|configs|] == configs;
  }

  function MultipleWorkflows(count: nat): string {
    "Multiple workflows configured (" + NatToString(count) + ")"
  }

  function ActionsFindings(configs: seq<string>): seq<Finding> {
    if AnyActions(configs) then
      [PositiveFinding(ActionsFound)]
      + IfPassed(WorkflowCount(configs) > 1, PositiveFinding(MultipleWorkflows(WorkflowCount(configs))))
    else []
  }

  function OtherFindings(configs: seq<string>): seq<Finding> {
    if AnyOther(configs) && !AnyActions(configs) then Labelled(ConfiguredPrefix, configs)
    else if AnyOther(configs) then LabelledOthers(AdditionalPrefix, configs)
    else []
  }

  function Findings(configs: seq<string>): seq<Finding> {
    if configs == [] then [MissingFinding(NoCiFound)]
    else ActionsFindings(configs) + OtherFindings(configs) + [PositiveFinding(Established)]
  }

  /** With no configuration there is a single Missing finding; otherwise
      every finding is Positive. */
  lemma FindingsStatus(configs: seq<string>)
    ensures configs == [] ==> Findings(configs) == [MissingFinding(NoCiFound)]
    ensures configs != [] ==> forall i :: 0 <= i < |Findings(configs)| ==> Findings(configs)[i].status == Positive
  {
    if configs != [] {
      var a, o := ActionsFindings(configs), OtherFindings(configs);
      var all := a + o + [PositiveFinding(Established)];
      assert Findings(configs) == all;
      forall i | 0 <= i < |all| ensures all[i].status == Positive {
        if i < |a| {
          assert all[i] == a[i];
        } else if i < |a| + |o| {
          assert all[i] == o[i - |a|];
        }
      }
    }
  }

  /** Without workflows every label is reported; with them, the labels of
      the other systems are, after one or two GitHub Actions findings. */
  lemma FindingsCount(configs: seq<string>)
    requires configs != []
    ensures |Findings(configs)| ==
      if WorkflowCount(configs) > 1 then |configs| - WorkflowCount(configs) + 3 else |configs| + 1
  {
    AnyIsCount(configs);
  }

  function Details(configs: seq<string>): string {
    if configs == [] then "No CI/CD pipelines detected"
    else "Found " + NatToString(|configs|) + " CI/CD configuration(s)"
  }

  /** The GitHub Actions block of `CiCdAnalyzer::analyze`. */
  method AnalyzeActions(score: real, findings: seq<Finding>, configs: seq<string>)
    returns (score': real, findings': seq<Finding>, hasActions: bool)
    ensures hasActions == AnyActions(configs)
    ensures score' == score + (if hasActions then 50.0 + Bonus(WorkflowCount(configs) > 1, 15.0) else 0.0)
    ensures findings' == findings + ActionsFindings(configs)
  {
    score', findings' := score, findings;
    hasActions := AnyActions(configs);
    if hasActions {
      score' := score' + 50.0;
      findings' := findings' + [PositiveFinding(ActionsFound)];
      var workflowCount := WorkflowCount(configs);
      score', findings' := AwardIfPassed(score', findings', workflowCount > 1, 15.0,
        PositiveFinding(MultipleWorkflows(workflowCount)));
    }
  }

  /** The other-systems block of `CiCdAnalyzer::analyze`. */
  method AnalyzeOther(score: real, findings: seq<Finding>, configs: seq<string>, hasActions: bool)
    returns (score': real, findings': seq<Finding>)
    requires hasActions == AnyActions(configs)
    ensures score' == score + Bonus(AnyOther(configs) && !hasActions, 40.0)
    ensures findings' == findings + OtherFindings(configs)
  {
    score', findings' := score, findings;
    var otherCi := AnyOther(configs);
    if otherCi && !hasActions {
      score' := score' + 40.0;
      findings' := PushLabelled(findings', ConfiguredPrefix, configs);
    } else if otherCi {
      findings' := PushLabelledOthers(findings', AdditionalPrefix, configs);
    }
  }

  /** `CiCdAnalyzer::analyze`. */
  method Analyze(s: RepoSnapshot) returns (r: AnalysisResult)
    ensures r.score == CiScore(CiConfigs(s.tree))
    ensures r.findings == Findings(CiConfigs(s.tree))
    ensures r.details == Details(CiConfigs(s.tree))
  {
    var score := 0.0;
    var findings: seq<Finding> := [];
    var configs := DetectCiConfigs(s.tree);
    if configs == [] {
      findings := findings + [MissingFinding(NoCiFound)];
    } else {
      var hasActions;
      score, findings, hasActions := AnalyzeActions(score, findings, configs);
      assert findings == ActionsFindings(configs);
      score, findings := AnalyzeOther(score, findings, configs, hasActions);
      score := score + 20.0;
      findings := findings + [PositiveFinding(Established)];
    }
    r := AnalysisResult(score, Details(configs), findings);
  }
}
