# repo-health scoring core in Dafny

repo-health rates a GitHub repository with five analyzers. Each analyzer reads a
snapshot of the repository: its file tree as (path, type) entries, the README
text if there is one, a license flag, an optional archived flag and the
per-contributor commit totals. Each analyzer returns a score, a list of findings
(Positive, Warning or Missing) and a one-line summary. The analyzers are:

- documentation
- tests
- CI/CD
- dependencies
- bus factor

A calculator combines the five scores into a clamped weighted overall score and a
letter grade. A badge URL shows the grade band. A small parser turns the
command-line argument (`owner/repo` or a GitHub URL) into an owner and a
repository name.

Modules, one per source file:

- `Analyzers` (`src/analyzers/mod.rs`): the finding vocabulary and the analysis result, plus two helper methods. `Award` handles a check that pushes one finding either way. `AwardIfPassed` handles a check that pushes a finding only when it passes.
- `Documentation`, `Tests`, `CiCd`, `Dependencies`, `BusFactor` (`src/analyzers/*.rs`): each analyzer is modelled two ways.
  - An `Analyze` method builds the score and the findings step by step, as the Rust code does.
  - Specification functions (`DocScore`, `Findings`, …) say what those values are.
  - Each method's `ensures` ties it to those functions, and lemmas prove what the functions promise.
- `BusFactor` also models the walk itself.
  - `CalculateBusFactor` is the loop over the sorted contributors, with its early `break`.
  - It is proved equal to `BusFactorOf` and `TopContributors`.
  - `BusFactorOf` is proved to be the least prefix length whose commit sum reaches half the total.
  - The stable descending sort is proved to be an ordered, stable permutation.
- `Scoring` (`src/scoring/calculator.rs`): `calculate_overall`, `grade` and `grade_short`.
- `Badge` (`src/output/badge.rs`): `generate_badge_url`.
- `Cli` (`src/cli.rs`): `parse_repo_input`. The URL library's answer is an input to it (`UrlParse`).
- `Report` (`src/main.rs`): the fixed list of analyzers and weights, and the loop that runs them and computes the overall score.
- Helpers:
  - `Wrappers`: Option and Result.
  - `Strings`: the `str` operations the code uses, such as UTF-8 `len`, `contains`, `split`, `trim_end_matches` and `eq_ignore_ascii_case`.
  - `RepoData`: the snapshot types of `src/github/client.rs`, and `any`/`filter().count()` over the tree.

How the walk in `src/analyzers/bus_factor.rs:27-46` decides, as the model follows it:

- The target is `total / 2`, and the walk stops as soon as the running sum reaches it. So two contributors with 50 commits each have bus factor 1.
- `top_contributors` is filled inside the walk, so it holds the first `min(bus factor, 5)` sorted contributors.

## Model

| member | source | states |
|---|---|---|
| Analyzers.PositiveFinding | src/analyzers/mod.rs:46-51 | the finding has status Positive and the message unchanged |
| Analyzers.WarningFinding | src/analyzers/mod.rs:53-58 | the finding has status Warning and the message unchanged |
| Analyzers.MissingFinding | src/analyzers/mod.rs:60-65 | the finding has status Missing and the message unchanged |
| Analyzers.FindingStatusCases | src/analyzers/mod.rs:39-43 | a status is one of exactly three variants; not Positive means Warning or Missing |
| Analyzers.CountStatus | src/analyzers/documentation.rs:80 | the number of findings with a given status is at most the number of findings |
| Analyzers.CountStatusAppend | src/analyzers/documentation.rs:80 | the status count of two finding lists joined is the sum of their counts |
| Analyzers.CountTrue | src/analyzers/documentation.rs:80 | the number of passed checks is at most the number of checks |
| Analyzers.Passed | src/analyzers/mod.rs:32-43 | one Positive-or-not flag per finding |
| Analyzers.PassedSnoc | src/analyzers/mod.rs:32-43 | pushing a finding appends exactly whether it is Positive |
| Analyzers.CountPositiveIsCountPassed | src/analyzers/documentation.rs:80 | the number of Positive findings equals the number of true flags |
| Analyzers.PassedVerdict | src/analyzers/documentation.rs:24-75 | pushing a pass-or-fail verdict appends exactly whether the check passed |
| Analyzers.Award | src/analyzers/documentation.rs:51-56 | adds the points only when the check passed; pushes the Positive finding on a pass and the other finding on a failure |
| Analyzers.AwardIfPassed | src/analyzers/tests.rs:94-97 | adds the points and pushes the Positive finding only when the check passed; otherwise changes nothing |
| RepoData.AnyPathIff | src/analyzers/documentation.rs:47-49 | `tree.iter().any` over paths holds iff some entry's path satisfies the predicate |
| RepoData.AnyPathMonotone | src/analyzers/documentation.rs:47-49 | a tree holding every entry of another keeps every `any` that held |
| RepoData.CountEntries | src/analyzers/tests.rs:69-71 | a filtered count is at most the tree length |
| RepoData.CountEntriesAppend | src/analyzers/tests.rs:69-71 | a filtered count over two trees joined is the sum of their counts |
| RepoData.CountEntriesZero | src/analyzers/tests.rs:69-71 | the filtered count is zero iff no entry passes the filter |
| Strings.Utf8Len | src/analyzers/documentation.rs:28 | the byte length lies between the character count and four times it, and equals it on ASCII text |
| Strings.EqIgnoreAsciiCaseAt | src/analyzers/documentation.rs:68 | ASCII-case-insensitive equality holds iff the lengths agree and every position agrees after folding ASCII letters |
| Strings.OccurrencesZero | src/cli.rs:49 | a character occurs zero times iff it is absent |
| Strings.Split | src/cli.rs:49 | `split` gives one more piece than there are separators, and no piece holds the separator |
| Strings.JoinSplit | src/cli.rs:49 | joining the pieces with the separator gives back the input |
| Strings.SplitAround | src/cli.rs:49-57 | splitting `a`, a separator and `b`, neither holding the separator, gives exactly `[a, b]` |
| Strings.TrimEndMatches | src/cli.rs:44 | the result is a prefix of the input and, for a non-empty suffix, no longer ends with it |
| Strings.TrimEndMatchesRemovesCopies | src/cli.rs:44 | the input is the result followed by a whole number of copies of the suffix |
| Strings.TrimEndMatchesIdempotent | src/cli.rs:44 | trimming twice is trimming once |
| Strings.NatToString | src/analyzers/ci_cd.rs:93 | the decimal rendering is non-empty and made of digits |
| Documentation.Checks | src/analyzers/documentation.rs:23-76 | there are six checks when a README is present and four otherwise |
| Documentation.DocScoreRange | src/analyzers/documentation.rs:23-76 | the score lies in [0, 100] and is 100 iff all six conditions hold |
| Documentation.DocScoreMonotoneInTree | src/analyzers/documentation.rs:47-76 | adding tree entries never lowers the score |
| Documentation.ReadmeFindingsReportChecks | src/analyzers/documentation.rs:23-44 | the README block's findings are Positive exactly where its checks pass; with no README there is one non-Positive finding |
| Documentation.FindingsReportChecks | src/analyzers/documentation.rs:24-75 | each check pushes exactly one finding, Positive iff the check passed |
| Documentation.PositiveFindingsCountChecks | src/analyzers/documentation.rs:78-82 | the element count in the details equals the number of passed checks |
| Documentation.AnalyzeReadme | src/analyzers/documentation.rs:23-44 | the README block's score and findings are those of the specification |
| Documentation.Analyze | src/analyzers/documentation.rs:18-89 | score, findings and details equal the specification; details count the Positive findings and say whether the README is present |
| Tests.IsTestFileIsTestNaming | src/analyzers/tests.rs:9-36 | `is_test_file` is exactly the flat disjunction of its name tests; the Java clause adds nothing |
| Tests.HasTestDirectoryIff | src/analyzers/tests.rs:38-43 | a test directory is found iff some entry, of any type, is named tests, test, `__tests__` or spec |
| Tests.TestFileCountIgnoresNonBlobs | src/analyzers/tests.rs:69-71 | entries that are not blobs never change the test-file count |
| Tests.HasCiHintIff | src/analyzers/tests.rs:88-92 | the CI bonus applies iff some path is under .github/workflows/ or is .circleci/config.yml or .travis.yml |
| Tests.TierScoreValues | src/analyzers/tests.rs:73-85 | the count tier gives 0 below 5, 20 from 5 to 9 and 30 from 10 on, and is monotone in the count |
| Tests.TestsScoreRange | src/analyzers/tests.rs:56-105 | the score lies in [0, 100] and is 100 iff all four bonuses at their maximum |
| Tests.TestsScoreMonotoneInTree | src/analyzers/tests.rs:61-97 | appending tree entries never lowers the score |
| Tests.TierFindingsStatus | src/analyzers/tests.rs:73-85 | the tier pushes two Positive findings at 10 or more, one at 5 to 9, a Warning at 1 to 4 and a Missing at 0 |
| Tests.AnalyzeTier | src/analyzers/tests.rs:73-85 | the count tier adds its score and pushes its findings |
| Tests.Analyze | src/analyzers/tests.rs:56-121 | score, findings and details equal the specification over the blob test-file count |
| CiCd.CiConfigs | src/analyzers/ci_cd.rs:9-33 | every entry contributes at most one label, so there are no more labels than entries |
| CiCd.DetectCiConfigs | src/analyzers/ci_cd.rs:9-33 | the loop over the tree yields exactly the labels of the specification, in tree order |
| CiCd.CiConfigsIgnoresNonBlobs | src/analyzers/ci_cd.rs:13-15 | entries that are not blobs add no label |
| CiCd.AzureIsNotActions | src/analyzers/ci_cd.rs:27-28 | the Azure Pipelines label is not taken for GitHub Actions |
| CiCd.CiLabelIsActionsIff | src/analyzers/ci_cd.rs:17-29 | a detected label counts as GitHub Actions iff its path is a .yml file under .github/workflows/ |
| CiCd.WorkflowCount | src/analyzers/ci_cd.rs:62 | the workflow count is at most the number of labels |
| CiCd.AnyIsCount | src/analyzers/ci_cd.rs:56-70 | some label is Actions iff the workflow count is positive; some label is other iff the count is below the total |
| CiCd.WorkflowCountAppend | src/analyzers/ci_cd.rs:62 | the workflow count of two label lists joined is the sum of their counts |
| CiCd.WorkflowCountOfTree | src/analyzers/ci_cd.rs:9-33 | the workflow count equals the number of workflow blobs in the tree |
| CiCd.CiScoreValues | src/analyzers/ci_cd.rs:47-87 | the score is 0 iff nothing is detected, 60 iff only other systems, 70 iff one workflow, 85 iff several; always within [0, 100] |
| CiCd.CiScoreOfTree | src/analyzers/ci_cd.rs:9-87 | on a tree, 85 iff there are at least two workflow blobs, 70 iff exactly one |
| CiCd.Labelled | src/analyzers/ci_cd.rs:73-75 | one Positive finding per label, carrying the prefix and the label |
| CiCd.LabelledOthers | src/analyzers/ci_cd.rs:77-79 | one Positive finding per label that is not GitHub Actions |
| CiCd.PushLabelled | src/analyzers/ci_cd.rs:73-75 | the loop pushes one finding per label, in order |
| CiCd.PushLabelledOthers | src/analyzers/ci_cd.rs:77-79 | the filtered loop pushes one finding per non-Actions label, in order |
| CiCd.FindingsStatus | src/analyzers/ci_cd.rs:52-87 | with no labels there is exactly one Missing finding; otherwise every finding is Positive |
| CiCd.FindingsCount | src/analyzers/ci_cd.rs:52-87 | the number of findings is fixed by the Actions, workflow and other-label counts |
| CiCd.AnalyzeActions | src/analyzers/ci_cd.rs:56-66 | reports whether Actions is present, and adds 50 plus 15 for several workflows with their findings |
| CiCd.AnalyzeOther | src/analyzers/ci_cd.rs:70-80 | adds 40 only when there are other systems and no Actions, and pushes the matching findings |
| CiCd.Analyze | src/analyzers/ci_cd.rs:46-101 | score, findings and details equal the specification over the detected labels |
| Dependencies.DepLabelIff | src/analyzers/dependencies.rs:17-28 | a path gets a label iff it is one of the listed manifest names |
| Dependencies.NestedManifestIgnored | src/analyzers/dependencies.rs:17-28 | no path containing '/' is matched, so nested manifests are ignored |
| Dependencies.DependencyFiles | src/analyzers/dependencies.rs:9-32 | there are no more labels than tree entries |
| Dependencies.DependencyFilesCount | src/analyzers/dependencies.rs:12-28 | there is exactly one label per manifest blob |
| Dependencies.FindDependencyFiles | src/analyzers/dependencies.rs:9-32 | the loop yields exactly the labels of the specification, in tree order |
| Dependencies.EstimateProperties | src/analyzers/dependencies.rs:34-62 | the estimate is 0 iff there are no manifests and otherwise one of 5, 15 or 30; it grows with the code-file count |
| Dependencies.AbsentArchivedIsActive | src/analyzers/dependencies.rs:107 | an absent archived flag counts as not archived |
| Dependencies.DepScoreValues | src/analyzers/dependencies.rs:81-113 | the score is 0 iff there are no manifests, 40 iff manifests and archived, 80 iff manifests and active |
| Dependencies.DepScoreOfTree | src/analyzers/dependencies.rs:79-113 | 80 iff the tree holds a manifest blob and the repository is not archived |
| Dependencies.FindingsStatus | src/analyzers/dependencies.rs:81-113 | one Missing finding without manifests; otherwise Positive, Positive, then Positive iff not archived |
| Dependencies.AnalyzeManifests | src/analyzers/dependencies.rs:84-113 | the manifest block's score and findings are those of the specification |
| Dependencies.Analyze | src/analyzers/dependencies.rs:75-127 | score, findings and details equal the specification |
| BusFactor.Pairs | src/analyzers/bus_factor.rs:22-24 | one (login, commits) pair per contributor, in order |
| BusFactor.SumAppend | src/analyzers/bus_factor.rs:15 | the commit sum of two lists joined is the sum of their sums |
| BusFactor.HalfTowardZero | src/analyzers/bus_factor.rs:28 | i64 division by 2 truncates toward zero |
| BusFactor.Insert | src/analyzers/bus_factor.rs:25 | inserting adds exactly one element |
| BusFactor.InsertPermutes | src/analyzers/bus_factor.rs:25 | inserting adds the element to the multiset and nothing else |
| BusFactor.InsertKeepsOrder | src/analyzers/bus_factor.rs:25 | inserting into a non-increasing list keeps it non-increasing |
| BusFactor.SortByCommitsDesc | src/analyzers/bus_factor.rs:22-25 | sorting keeps the length |
| BusFactor.SortIsOrderedPermutation | src/analyzers/bus_factor.rs:22-25 | the sorted list is a permutation of the input, non-increasing by commits |
| BusFactor.NonIncreasingPairs | src/analyzers/bus_factor.rs:25 | in a sorted list every earlier element has at least as many commits as every later one |
| BusFactor.InsertWithCommits | src/analyzers/bus_factor.rs:25 | inserting keeps the relative order of elements with equal commits |
| BusFactor.SortIsStable | src/analyzers/bus_factor.rs:25 | contributors with equal commits keep their input order |
| BusFactor.InsertSum | src/analyzers/bus_factor.rs:22-25 | inserting adds the element's commits to the sum |
| BusFactor.SortKeepsSum | src/analyzers/bus_factor.rs:15-25 | sorting keeps the commit total |
| BusFactor.Cover | src/analyzers/bus_factor.rs:34-46 | the walk from step k stops between k and the list length |
| BusFactor.CoverIsLeast | src/analyzers/bus_factor.rs:34-46 | the walk stops at the first prefix reaching the target, or at the end |
| BusFactor.BusFactorOf | src/analyzers/bus_factor.rs:9-49 | the bus factor is at most the number of contributors |
| BusFactor.Annotate | src/analyzers/bus_factor.rs:38-41 | each walked contributor is paired with its share of the total |
| BusFactor.CalculateBusFactor | src/analyzers/bus_factor.rs:9-49 | the loop with its early break returns the specified bus factor and top contributors |
| BusFactor.NoCommitsNoBusFactor | src/analyzers/bus_factor.rs:10-19 | an empty list, or one with total 0, gives bus factor 0 and no top contributors |
| BusFactor.BusFactorIsLeast | src/analyzers/bus_factor.rs:28-46 | with a non-zero total, 1 ≤ bus factor ≤ n; shorter prefixes fall short of total/2; with a positive total the bus-factor prefix reaches it |
| BusFactor.BusFactorUnique | src/analyzers/bus_factor.rs:28-46 | any least prefix length reaching total/2 is the bus factor |
| BusFactor.TopContributorsArePrefix | src/analyzers/bus_factor.rs:32-45 | the top contributors are the first min(bus factor, 5) sorted contributors |
| BusFactor.AnnotateShares | src/analyzers/bus_factor.rs:38-41 | the shares of the annotated entries add up to the share of their commit sum |
| BusFactor.PrefixSumAtMost | src/analyzers/bus_factor.rs:32-37 | with no negative entries, a prefix of the ranking sums to no more than the whole |
| BusFactor.RankingNonNegative | src/analyzers/bus_factor.rs:15-25 | sorting contributors with no negative totals gives no negative entries |
| BusFactor.PrefixSharesAtMostHundred | src/analyzers/bus_factor.rs:32-41 | the shares of a prefix of non-negative entries, out of their total, add up to at most 100% |
| BusFactor.TopSharesAtMostHundred | src/analyzers/bus_factor.rs:27-46 | with no negative commit totals, the percentages of the top contributors add up to at most 100 |
| BusFactor.ScoreBusFactorMonotone | src/analyzers/bus_factor.rs:51-59 | the score bands are monotone and within [0, 100] |
| BusFactor.TopFindings | src/analyzers/bus_factor.rs:99-112 | one finding per top contributor, in order |
| BusFactor.PushTopFindings | src/analyzers/bus_factor.rs:99-112 | the loop pushes one finding per top contributor, in order |
| BusFactor.NoContributorsIsNeutral | src/analyzers/bus_factor.rs:75-82 | no contributor data gives score 50 and exactly one Warning |
| BusFactor.OnlyFirstTopContributorWarns | src/analyzers/bus_factor.rs:99-111 | the only possible Warning is the first top contributor's, and it appears iff their share exceeds 70% |
| BusFactor.ScaleMonotone | src/analyzers/bus_factor.rs:38 | multiplying by a positive total preserves strict order |
| BusFactor.PercentageAboveSeventy | src/analyzers/bus_factor.rs:100 | a share exceeds 70% iff 10 × commits > 7 × total |
| BusFactor.BuildReport | src/analyzers/bus_factor.rs:87-113 | the findings pushed after the walk are those of the specification |
| BusFactor.Analyze | src/analyzers/bus_factor.rs:72-128 | score, findings and details equal the specification, with the neutral path for no data |
| BusFactor.PrefixSums | src/analyzers/bus_factor.rs:35 | the running sums of one, two and three contributors |
| BusFactor.EvenPairHasBusFactorOne | src/analyzers/bus_factor.rs:28-46 | [50, 50] has bus factor 1 |
| BusFactor.ThreeWaySplitHasBusFactorTwo | src/analyzers/bus_factor.rs:28-46 | [34, 33, 33] has bus factor 2 |
| BusFactor.DominantContributorHasBusFactorOne | src/analyzers/bus_factor.rs:21-46 | [10, 90] is sorted first and has bus factor 1 |
| BusFactor.ConcentratedOwnershipExample | src/analyzers/bus_factor.rs:9-110 | [90, 10] has bus factor 1, scores 10, and its third finding is the concentration Warning |
| Scoring.WeightedSumAppend | src/scoring/calculator.rs:7-9 | the weighted sum of two lists joined is the sum of their weighted sums |
| Scoring.WeightedSnoc | src/scoring/calculator.rs:7-9 | one more result adds its score times its weight, and its weight to the total |
| Scoring.Clamp | src/scoring/calculator.rs:11 | the result is in [0, 100], equal to the input inside the range and to the nearer bound outside it |
| Scoring.CalculateOverall | src/scoring/calculator.rs:6-12 | the overall score is in [0, 100] whatever the weights; it is the weighted sum when that is in range; an empty list gives 0 |
| Scoring.WeightedSumBounds | src/scoring/calculator.rs:7-9 | with scores in [0, 100] and non-negative weights, the sum lies between 0 and 100 × the total weight |
| Scoring.OverallIsWeightedSum | src/scoring/calculator.rs:6-12 | when the weights sum to 1, the clamp changes nothing |
| Scoring.OverallMonotone | src/scoring/calculator.rs:6-12 | raising one analyzer's score never lowers the overall score |
| Scoring.WeightedSumMonotone | src/scoring/calculator.rs:7-9 | the weighted sum grows with any one score under a non-negative weight |
| Scoring.Rescaled | src/scoring/calculator.rs:7-9 | every weight is multiplied by k and every score divided by k, names and the rest unchanged |
| Scoring.RescaledKeepsOverall | src/scoring/calculator.rs:6-12 | doubling (any k > 0) every weight while halving (dividing by k) every score leaves the weighted sum and the overall score unchanged |
| Scoring.Band | src/scoring/calculator.rs:14-22 | the number of thresholds (60, 70, 80, 90) reached is at most 4 |
| Scoring.GradeIsBand | src/scoring/calculator.rs:14-32 | `grade` and `grade_short` are fixed by the band |
| Scoring.GradeMonotone | src/scoring/calculator.rs:14-22 | a higher score never gives a lower band, and different grades mean different bands |
| Scoring.FirstWord | src/scoring/calculator.rs:24-32 | the first word is a prefix without a space |
| Scoring.GradeShortIsFirstWord | src/scoring/calculator.rs:24-32 | the short grade is the first word of the long grade |
| Scoring.GradeExamples | src/scoring/calculator.rs:75-81 | 95, 85, 75, 65 and 50 get A+ Excellent, A Good, B Fair, C Needs Improvement and D Poor |
| Scoring.OverallExample | src/scoring/calculator.rs:41-72 | scores 80/90/100/70/100 with weights 0.20/0.25/0.20/0.20/0.15 give 87.5, inside [85, 90] |
| Badge.BadgeIsGradeBand | src/output/badge.rs:1-15 | the badge's label and colour are fixed by the same band as the grade |
| Badge.UrlDeterminesBand | src/output/badge.rs:1-15 | two scores give the same URL iff they are in the same band |
| Badge.BadgeUrlContains | src/output/badge.rs:10-14 | the URL holds the label and the colour |
| Badge.UrlShowsLabelAndColor | src/output/badge.rs:1-15 | each score's URL holds its label and colour |
| Badge.BadgeExamples | src/output/badge.rs:21-34 | 95 shows excellent/brightgreen, 85 good/green, 50 poor/red |
| Cli.OwnerRepoParse | src/cli.rs:47-57 | without "github.com", the input parses iff it holds exactly one '/'; then it is owner + "/" + repo with no '/' in either; otherwise the error names the expected format |
| Cli.OwnerRepoRoundTrip | src/cli.rs:49-57 | any owner and repository without '/' come back from their owner/repo form |
| Cli.TrailingSlashParses | src/cli.rs:49-57 | "a/" parses to ("a", "") because the parts are not checked for emptiness |
| Cli.UrlInputParse | src/cli.rs:29-46 | in the URL branch, fewer than two segments is an error naming the input; otherwise owner is segment 0 and repo is segment 1 minus every trailing ".git" |
| Cli.OwnerRepoExample | src/cli.rs:66-70 | "octocat/Hello-World" parses to (octocat, Hello-World) |
| Cli.UrlExamples | src/cli.rs:72-84 | the GitHub URL, with or without ".git", parses to (octocat, Hello-World) |
| Cli.TrimGitSuffix | src/cli.rs:44 | trimming ".git" from "Hello-World.git" and from "Hello-World" both give "Hello-World" |
| Report.ScoreInRange | src/main.rs:79 | every analyzer's score lies in [0, 100] |
| Report.Results | src/main.rs:72-93 | the k-th pushed result carries the k-th name, weight and analyzer result |
| Report.PlannedSum | src/main.rs:59-65 | the weights 0.20/0.25/0.20/0.20/0.15 sum to 1, so with scores in range the clamp never fires |
| Report.EntryScores | src/main.rs:59-79 | the five pushed entries carry the documentation, tests, CI/CD, dependencies and bus-factor scores, in that order, each within [0, 100] |
| Report.OverallIsPlanned | src/main.rs:97 | on any snapshot the overall score is exactly the weighted sum of the five analyzer scores, within [0, 100] |
| Report.PerfectOverall | src/main.rs:59-97 | the overall score is 100 iff every analyzer gives 100 |
| Report.RunAnalyzer | src/main.rs:79 | running one analyzer gives its specified result |
| Report.Run | src/main.rs:72-98 | the loop pushes every analyzer's result with its name and weight in order, and the overall score is the weighted sum |
| Report.ConcentratedOwnershipRun | src/main.rs:59-98 | a snapshot with only contributors [90, 10] scores 1.5 overall, is graded "D Poor", and the bus-factor analyzer raises the concentration Warning |

## Left out

- Network, retries and decoding (`src/github/client.rs`): the snapshot is an input. `src/github/client.rs` is not part of this model beyond its data types.
- The `async` and `Send + Sync` machinery: each `analyze` is an ordinary method.
- Error propagation with `?`: the analyzers never fail in the code, so the `Result` wrapper around them is dropped.
- Terminal output, colours and the report file write in `src/main.rs`: printing is not modelled.
- The clap `Cli` struct: only `parse_repo_input` is modelled.
- `src/error.rs` and `src/lib.rs` hold only an error enum and module wiring; only `InvalidRepoFormat` is modelled.
- Cli.ParseRepoInput: `Url::parse` and `path_segments` are not modelled. Their outcome is an input: does not parse, has no segments, or a list of segments.
- f64 arithmetic: scores, weights and percentages are exact reals. No rounding is modelled.
- i64 overflow of the commit total and of the running sum is not modelled; integers are unbounded.
- BusFactor.TopFinding: the `{:.1}` percentage text is left out of the message. The message keeps the login and the commit count. The Warning/Positive choice still uses the exact share.
- Formatted messages are built by concatenation; the list in the dependency message uses `Strings.JoinWith` for `join(", ")`.
- Strings.Utf8Len: the UTF-8 length is computed from the characters. Dafny strings are sequences of Unicode scalar values, not bytes.
