/** The bus-factor analyzer: the smallest number of top committers who
    together reach half of all commits, and a score banded by that number. */
module BusFactor {
  import opened Strings
  import opened RepoData
  import opened Analyzers

  const Name: string := "Bus Factor"
  const Weight: real := 0.15

  const NoData := "No contributor data available"
  const NoDataDetails := "Unable to calculate bus factor - no contributor data"
  const Concentration := " - High concentration of ownership"

  /** A contributor reduced to the pair the ranking works on. */
  datatype Ranked = Ranked(login: string, commits: int)

  /** A contributor reported in the analysis, with their share of all commits in percent. */
  datatype TopContributor = TopContributor(login: string, commits: int, percentage: real)

  function Min(a: nat, b: nat): nat {
    if a <= b then a else b
  }

  /** The (login, total) pairs, in input order. */
  function Pairs(contributors: seq<Contributor>): (r: seq<Ranked>)
    ensures |r| == |contributors|
    ensures forall i :: 0 <= i < |r| ==>
      r[i].login == contributors[i].login && r[i].commits == contributors[i].total
  {
    seq(|contributors|, i requires 0 <= i < |contributors| => Ranked(contributors[i].login, contributors[i].total))
  }

  /** The commits of `s`, summed (the last element added last). */
  function Sum(s: seq<Ranked>): int {
    if s == [] then 0 else Sum(s[..|s| - 1]) + s[|s| - 1].commits
  }

  lemma {:induction false} SumAppend(a: seq<Ranked>, b: seq<Ranked>)
    ensures Sum(a + b) == Sum(a) + Sum(b)
  {
    if b == [] {
      assert a + b == a;
    } else {
      assert (a + b)[..|a + b| - 1] == a + b[..|b| - 1];
      SumAppend(a, b[..|b| - 1]);
    }
  }

  /** `contributors.iter().map(|c| c.total).sum()`; i64 overflow is not modelled. */
  function TotalCommits(contributors: seq<Contributor>): int {
    Sum(Pairs(contributors))
  }

  /** `total / 2` on i64: the quotient is truncated toward zero. */
  function HalfTowardZero(total: int): (h: int)
    ensures total >= 0 ==> 0 <= h <= total && total - 1 <= 2 * h <= total
    ensures total < 0 ==> total <= h <= 0 && total <= 2 * h <= total + 1
  {
    if total >= 0 then total / 2 else -((-total) / 2)
  }

  // ---- The ranking: a stable sort by descending commit count ----

  /** Each entry has at least as many commits as the next. */
  predicate NonIncreasing(s: seq<Ranked>) {
    forall i :: 0 <= i < |s| - 1 ==> s[i].commits >= s[i + 1].commits
  }

  /** Insert `x` into a ranking, ahead of every entry with no more commits,
      so that it stays ahead of the equal entries that followed it in the input. */
  function Insert(x: Ranked, t: seq<Ranked>): (r: seq<Ranked>)
    ensures |r| == |t| + 1
  {
    if t == [] || x.commits >= t[0].commits then [x] + t else [t[0]] + Insert(x, t[1..])
  }

  lemma {:induction false} InsertPermutes(x: Ranked, t: seq<Ranked>)
    ensures multiset(Insert(x, t)) == multiset(t) + multiset{x}
  {
    if t != [] && x.commits < t[0].commits {
      InsertPermutes(x, t[1..]);
      assert t == [t[0]] + t[1..];
    }
  }

  lemma {:induction false} InsertKeepsOrder(x: Ranked, t: seq<Ranked>)
    requires NonIncreasing(t)
    ensures NonIncreasing(Insert(x, t))
    ensures Insert(x, t)[0] == x || Insert(x, t)[0] == t[0]
  {
    if t != [] && x.commits < t[0].commits {
      InsertKeepsOrder(x, t[1..]);
      var rest := Insert(x, t[1..]);
      assert Insert(x, t) == [t[0]] + rest;
      assert rest[0] == x || rest[0] == t[1];
    }
  }

  /** `sort_by(|a, b| b.1.cmp(&a.1))`: the library sort is stable, so the
      ranking is modelled by an insertion sort that keeps ties in input order. */
  function SortByCommitsDesc(s: seq<Ranked>): (r: seq<Ranked>)
    ensures |r| == |s|
  {
    if s == [] then [] else Insert(s[0], SortByCommitsDesc(s[1..]))
  }

  /** The ranking is a permutation of its input, in non-increasing order of commits. */
  lemma {:induction false} SortIsOrderedPermutation(s: seq<Ranked>)
    ensures multiset(SortByCommitsDesc(s)) == multiset(s)
    ensures NonIncreasing(SortByCommitsDesc(s))
  {
    if s != [] {
      SortIsOrderedPermutation(s[1..]);
      InsertPermutes(s[0], SortByCommitsDesc(s[1..]));
      InsertKeepsOrder(s[0], SortByCommitsDesc(s[1..]));
      assert s == [s[0]] + s[1..];
    }
  }

  /** Non-increasing between neighbours is non-increasing between any two. */
  lemma {:induction false} NonIncreasingPairs(s: seq<Ranked>, i: nat, j: nat)
    requires NonIncreasing(s) && i <= j < |s|
    ensures s[i].commits >= s[j].commits
    decreases j - i
  {
    if i < j {
      NonIncreasingPairs(s, i + 1, j);
    }
  }

  /** The entries with exactly `commits` commits, in order. */
  function WithCommits(s: seq<Ranked>, commits: int): seq<Ranked> {
    if s == [] then []
    else (if s[0].commits == commits then [s[0]] else []) + WithCommits(s[1..], commits)
  }

  lemma {:induction false} InsertWithCommits(x: Ranked, t: seq<Ranked>, commits: int)
    requires NonIncreasing(t)
    ensures WithCommits(Insert(x, t), commits) ==
      (if x.commits == commits then [x] else []) + WithCommits(t, commits)
  {
    if t == [] || x.commits >= t[0].commits {
      assert Insert(x, t)[1..] == t;
    } else {
      var rest := Insert(x, t[1..]);
      assert Insert(x, t) == [t[0]] + rest;
      assert ([t[0]] + rest)[1..] == rest;
      assert NonIncreasing(t[1..]) by {
        forall i | 0 <= i < |t[1..]| - 1 ensures t[1..][i].commits >= t[1..][i + 1].commits {
          assert t[1..][i] == t[i + 1] && t[1..][i + 1] == t[i + 2];
        }
      }
      InsertWithCommits(x, t[1..], commits);
      var mine := if x.commits == commits then [x] else [];
      var head := if t[0].commits == commits then [t[0]] else [];
      assert mine == [] || head == [];
      assert WithCommits(Insert(x, t), commits) == head + (mine + WithCommits(t[1..], commits));
      assert WithCommits(t, commits) == head + WithCommits(t[1..], commits);
    }
  }

  /** The sort is stable: the entries sharing a commit count keep their input order. */
  lemma {:induction false} SortIsStable(s: seq<Ranked>, commits: int)
    ensures WithCommits(SortByCommitsDesc(s), commits) == WithCommits(s, commits)
  {
    if s != [] {
      SortIsStable(s[1..], commits);
      SortIsOrderedPermutation(s[1..]);
      InsertWithCommits(s[0], SortByCommitsDesc(s[1..]), commits);
    }
  }

  lemma {:induction false} InsertSum(x: Ranked, t: seq<Ranked>)
    ensures Sum(Insert(x, t)) == x.commits + Sum(t)
  {
    if t == [] || x.commits >= t[0].commits {
      SumAppend([x], t);
      assert Sum([x]) == x.commits by { assert [x][..0] == []; }
    } else {
      InsertSum(x, t[1..]);
      SumAppend([t[0]], Insert(x, t[1..]));
      SumAppend([t[0]], t[1..]);
      assert Sum([t[0]]) == t[0].commits by { assert [t[0]][..0] == []; }
      assert t == [t[0]] + t[1..];
    }
  }

  /** Ranking the contributors does not change the commit total. */
  lemma {:induction false} SortKeepsSum(s: seq<Ranked>)
    ensures Sum(SortByCommitsDesc(s)) == Sum(s)
  {
    if s != [] {
      SortKeepsSum(s[1..]);
      InsertSum(s[0], SortByCommitsDesc(s[1..]));
      SumAppend([s[0]], s[1..]);
      assert Sum([s[0]]) == s[0].commits by { assert [s[0]][..0] == []; }
      assert s == [s[0]] + s[1..];
    }
  }

  function Ranking(contributors: seq<Contributor>): seq<Ranked> {
    SortByCommitsDesc(Pairs(contributors))
  }

  // ---- The greedy walk ----

  /** The walk from position `k` on: the length of the first prefix longer
      than `k` whose sum reaches `target`, or the whole length when none does. */
  function Cover(s: seq<Ranked>, target: int, k: nat): (n: nat)
    requires k <= |s|
    ensures k <= n <= |s|
    decreases |s| - k
  {
    if k == |s| then |s|
    else if Sum(s[..k + 1]) >= target then k + 1
    else Cover(s, target, k + 1)
  }

  lemma {:induction false} CoverIsLeast(s: seq<Ranked>, target: int, k: nat)
    requires k < |s|
    ensures k + 1 <= Cover(s, target, k) <= |s|
    ensures Cover(s, target, k) == |s| || Sum(s[..Cover(s, target, k)]) >= target
    ensures Sum(s[..Cover(s, target, k)]) < target ==> Cover(s, target, k) == |s|
    ensures forall j :: k < j < Cover(s, target, k) ==> Sum(s[..j]) < target
    decreases |s| - k
  {
    if Sum(s[..k + 1]) < target && k + 1 < |s| {
      CoverIsLeast(s, target, k + 1);
    }
  }

  /** The walk's result: the least k >= 1 whose prefix reaches the target,
      or the whole length when no prefix does. */
  function FirstCover(s: seq<Ranked>, target: int): nat
    requires s != []
  {
    Cover(s, target, 0)
  }

  /** `calculate_bus_factor`'s first component. */
  function BusFactorOf(contributors: seq<Contributor>): (n: nat)
    ensures n <= |contributors|
  {
    if contributors == [] || TotalCommits(contributors) == 0 then 0
    else FirstCover(Ranking(contributors), HalfTowardZero(TotalCommits(contributors)))
  }

  /** A contributor's share of all commits, in percent (f64 rounding not modelled). */
  function Percentage(commits: int, total: int): real
    requires total != 0
  {
    (commits as real / total as real) * 100.0
  }

  /** The ranked entries with their share of `total`. */
  function Annotate(s: seq<Ranked>, total: int): (r: seq<TopContributor>)
    requires total != 0
    ensures |r| == |s|
    ensures forall i :: 0 <= i < |s| ==>
      r[i] == TopContributor(s[i].login, s[i].commits, Percentage(s[i].commits, total))
  {
    if s == [] then []
    else
      var last := s[|s| - 1];
      Annotate(s[..|s| - 1], total) + [TopContributor(last.login, last.commits, Percentage(last.commits, total))]
  }

  /** `calculate_bus_factor`'s second component: only entries the walk
      visited are recorded, at most five of them. */
  function TopContributors(contributors: seq<Contributor>): seq<TopContributor> {
    if contributors == [] || TotalCommits(contributors) == 0 then []
    else Annotate(Ranking(contributors)[..Min(BusFactorOf(contributors), 5)], TotalCommits(contributors))
  }

  /** The shares of `top`, added up. */
  function SharesSum(top: seq<TopContributor>): real {
    if top == [] then 0.0 else SharesSum(top[..|top| - 1]) + top[|top| - 1].percentage
  }

  predicate NonNegative(s: seq<Ranked>) {
    forall i :: 0 <= i < |s| ==> s[i].commits >= 0
  }

  lemma PercentageAdds(a: int, b: int, total: int)
    requires total != 0
    ensures Percentage(a, total) + Percentage(b, total) == Percentage(a + b, total)
  {
    var t := total as real;
    assert (a + b) as real / t == a as real / t + b as real / t;
  }

  /** The shares of the annotated entries add up to the share of their sum. */
  lemma {:induction false} AnnotateShares(s: seq<Ranked>, total: int)
    requires total != 0
    ensures SharesSum(Annotate(s, total)) == Percentage(Sum(s), total)
  {
    if s != [] {
      var init, last := s[..|s| - 1], s[|s| - 1];
      var r := Annotate(s, total);
      assert r[..|s| - 1] == Annotate(init, total);
      AnnotateShares(init, total);
      PercentageAdds(Sum(init), last.commits, total);
    }
  }

  lemma {:induction false} SumNonNegative(s: seq<Ranked>)
    requires NonNegative(s)
    ensures Sum(s) >= 0
  {
    if s != [] {
      var init := s[..|s| - 1];
      assert NonNegative(init) by {
        forall i | 0 <= i < |init| ensures init[i].commits >= 0 {
          assert init[i] == s[i];
        }
      }
      SumNonNegative(init);
    }
  }

  /** With no negative entries, a prefix sums to no more than the whole. */
  lemma PrefixSumAtMost(s: seq<Ranked>, k: nat)
    requires NonNegative(s) && k <= |s|
    ensures Sum(s[..k]) <= Sum(s)
  {
    var tail := s[k..];
    assert NonNegative(tail) by {
      forall i | 0 <= i < |tail| ensures tail[i].commits >= 0 {
        assert tail[i] == s[k + i];
      }
    }
    SumNonNegative(tail);
    SumAppend(s[..k], tail);
    assert s[..k] + tail == s;
  }

  /** Ranking contributors with no negative totals gives no negative entries. */
  lemma RankingNonNegative(contributors: seq<Contributor>)
    requires forall i :: 0 <= i < |contributors| ==> contributors[i].total >= 0
    ensures NonNegative(Ranking(contributors))
  {
    var p, r := Pairs(contributors), Ranking(contributors);
    SortIsOrderedPermutation(p);
    forall i | 0 <= i < |r| ensures r[i].commits >= 0 {
      assert r[i] in multiset(r);
      assert r[i] in p;
    }
  }

  lemma PercentageMonotone(a: int, b: int, total: int)
    requires total > 0 && a <= b
    ensures Percentage(a, total) <= Percentage(b, total)
  {
    var t := total as real;
    assert a as real / t <= b as real / t by {
      assert b as real / t - a as real / t == (b - a) as real / t;
    }
  }

  /** The shares of a prefix of non-negative entries, out of their total,
      add up to at most 100 percent. */
  lemma PrefixSharesAtMostHundred(r: seq<Ranked>, k: nat, total: int)
    requires NonNegative(r) && k <= |r| && Sum(r) == total && total != 0
    ensures SharesSum(Annotate(r[..k], total)) <= 100.0
  {
    SumNonNegative(r);
    PrefixSumAtMost(r, k);
    AnnotateShares(r[..k], total);
    PercentageMonotone(Sum(r[..k]), total, total);
    assert Percentage(total, total) == 100.0;
  }

  /** With no negative commit totals, the shares reported for the top
      contributors add up to at most 100 percent. */
  lemma TopSharesAtMostHundred(contributors: seq<Contributor>)
    requires forall i :: 0 <= i < |contributors| ==> contributors[i].total >= 0
    ensures SharesSum(TopContributors(contributors)) <= 100.0
  {
    if contributors != [] && TotalCommits(contributors) != 0 {
      var total, r := TotalCommits(contributors), Ranking(contributors);
      RankingNonNegative(contributors);
      SortKeepsSum(Pairs(contributors));
      PrefixSharesAtMostHundred(r, Min(BusFactorOf(contributors), 5), total);
    }
  }

  lemma SumStep(s: seq<Ranked>, i: nat)
    requires i < |s|
    ensures Sum(s[..i + 1]) == Sum(s[..i]) + s[i].commits
  {
    assert s[..i + 1][..i] == s[..i];
  }

  lemma AnnotateStep(s: seq<Ranked>, i: nat, total: int)
    requires i < |s| && total != 0
    ensures Annotate(s[..i + 1], total) ==
      Annotate(s[..i], total) + [TopContributor(s[i].login, s[i].commits, Percentage(s[i].commits, total))]
  {
    assert s[..i + 1][..i] == s[..i];
  }

  /** `calculate_bus_factor`. */
  method CalculateBusFactor(contributors: seq<Contributor>) returns (busFactor: nat, top: seq<TopContributor>)
    ensures busFactor == BusFactorOf(contributors)
    ensures top == TopContributors(contributors)
  {
    if contributors == [] {
      return 0, [];
    }
    var total := TotalCommits(contributors);
    if total == 0 {
      return 0, [];
    }
    var sorted := SortByCommitsDesc(Pairs(contributors));
    var target := HalfTowardZero(total);
    var cumulative := 0;
    busFactor := 0;
    top := [];
    var i := 0;
    while i < |sorted|
      invariant i <= |sorted|
      invariant busFactor == i
      invariant cumulative == Sum(sorted[..i])
      invariant Cover(sorted, target, i) == FirstCover(sorted, target)
      invariant top == Annotate(sorted[..Min(i, 5)], total)
    {
      var entry := sorted[i];
      SumStep(sorted, i);
      cumulative := cumulative + entry.commits;
      busFactor := busFactor + 1;
      var percentage := Percentage(entry.commits, total);
      if |top| < 5 {
        AnnotateStep(sorted, i, total);
        top := top + [TopContributor(entry.login, entry.commits, percentage)];
      }
      if cumulative >= target {
        break;
      }
      i := i + 1;
    }
  }

  /** No contributors, or no commits, give bus factor 0 and no top contributors. */
  lemma NoCommitsNoBusFactor(contributors: seq<Contributor>)
    requires contributors == [] || TotalCommits(contributors) == 0
    ensures BusFactorOf(contributors) == 0 && TopContributors(contributors) == []
  {
  }

  /** The bus factor is the least k >= 1 whose first k ranked contributors
      reach half the total; with a positive total such a k always exists, so
      the walk stops early or at the last contributor having reached it. */
  lemma BusFactorIsLeast(contributors: seq<Contributor>)
    requires contributors != [] && TotalCommits(contributors) != 0
    ensures 1 <= BusFactorOf(contributors) <= |contributors|
    ensures forall k :: 1 <= k < BusFactorOf(contributors) ==>
      Sum(Ranking(contributors)[..k]) < HalfTowardZero(TotalCommits(contributors))
    ensures TotalCommits(contributors) > 0 ==>
      Sum(Ranking(contributors)[..BusFactorOf(contributors)]) >= HalfTowardZero(TotalCommits(contributors))
  {
    var r, target := Ranking(contributors), HalfTowardZero(TotalCommits(contributors));
    CoverIsLeast(r, target, 0);
    if TotalCommits(contributors) > 0 && BusFactorOf(contributors) == |r| {
      SortKeepsSum(Pairs(contributors));
      assert r[..|r|] == r;
    }
  }

  /** Conversely, a k >= 1 whose prefix reaches the target while no shorter
      one does is the bus factor. */
  lemma BusFactorUnique(contributors: seq<Contributor>, k: nat)
    requires contributors != [] && TotalCommits(contributors) != 0
    requires 1 <= k <= |contributors|
    requires Sum(Ranking(contributors)[..k]) >= HalfTowardZero(TotalCommits(contributors))
    requires forall j :: 1 <= j < k ==> Sum(Ranking(contributors)[..j]) < HalfTowardZero(TotalCommits(contributors))
    ensures BusFactorOf(contributors) == k
  {
    var r, target := Ranking(contributors), HalfTowardZero(TotalCommits(contributors));
    CoverIsLeast(r, target, 0);
  }

  /** The top contributors are the first min(bus factor, 5) of the ranking. */
  lemma TopContributorsArePrefix(contributors: seq<Contributor>)
    requires contributors != [] && TotalCommits(contributors) != 0
    ensures |TopContributors(contributors)| == Min(BusFactorOf(contributors), 5)
    ensures forall i :: 0 <= i < |TopContributors(contributors)| ==>
      TopContributors(contributors)[i].login == Ranking(contributors)[i].login
      && TopContributors(contributors)[i].commits == Ranking(contributors)[i].commits
  {
    BusFactorIsLeast(contributors);
  }

  // ---- Scoring and reporting ----

  /** `score_bus_factor`. */
  function ScoreBusFactor(busFactor: nat): real {
    match busFactor
    case 0 => 0.0
    case 1 => 10.0
    case 2 => 40.0
    case 3 => 70.0
    case 4 => 70.0
    case _ => 100.0
  }

  /** The score bands are monotone and within [0, 100]. */
  lemma ScoreBusFactorMonotone(a: nat, b: nat)
    requires a <= b
    ensures 0.0 <= ScoreBusFactor(a) <= ScoreBusFactor(b) <= 100.0
  {
  }

  function BandDetails(busFactor: nat): string {
    match busFactor
    case 0 => "No commit data available"
    case 1 => "Critical: Single person controls >50% of commits"
    case 2 => "Low: Two people control >50% of commits"
    case 3 => "Moderate: Small team of 3-4 core contributors"
    case 4 => "Moderate: Small team of 3-4 core contributors"
    case _ => "Healthy: Well-distributed contributions"
  }

  function BusFactorMessage(busFactor: nat): string {
    "Bus factor: " + NatToString(busFactor) + " (minimum contributors accounting for 50% of commits)"
  }

  function TotalMessage(count: nat): string {
    "Total contributors: " + NatToString(count)
  }

  /** The finding for the top contributor at position `idx`: only the first
      one, and only above 70 percent, is a Warning. */
  function TopFinding(idx: nat, c: TopContributor): Finding {
    var text := c.login + ": " + IntToString(c.commits) + " commits";
    if idx == 0 && c.percentage > 70.0 then WarningFinding(text + Concentration)
    else PositiveFinding(text)
  }

  function TopFindings(top: seq<TopContributor>): (r: seq<Finding>)
    ensures |r| == |top|
    ensures forall i :: 0 <= i < |top| ==> r[i] == TopFinding(i, top[i])
  {
    if top == [] then [] else TopFindings(top[..|top| - 1]) + [TopFinding(|top| - 1, top[|top| - 1])]
  }

  lemma TopFindingsStep(top: seq<TopContributor>, idx: nat)
    requires idx < |top|
    ensures TopFindings(top[..idx + 1]) == TopFindings(top[..idx]) + [TopFinding(idx, top[idx])]
  {
    assert top[..idx + 1][..idx] == top[..idx];
  }

  /** Push one finding per top contributor (`for (idx, ..) in top.iter().enumerate()`). */
  method PushTopFindings(findings: seq<Finding>, top: seq<TopContributor>) returns (findings': seq<Finding>)
    ensures findings' == findings + TopFindings(top)
  {
    findings' := findings;
    for idx := 0 to |top|
      invariant findings' == findings + TopFindings(top[..idx])
    {
      TopFindingsStep(top, idx);
      var c := top[idx];
      var text := c.login + ": " + IntToString(c.commits) + " commits";
      var finding := if idx == 0 && c.percentage > 70.0 then WarningFinding(text + Concentration)
        else PositiveFinding(text);
      assert finding == TopFinding(idx, c);
      findings' := findings' + [finding];
    }
    assert top[..|top|] == top;
  }

  function BusScore(contributors: seq<Contributor>): real {
    if contributors == [] then 50.0 else ScoreBusFactor(BusFactorOf(contributors))
  }

  /** The findings of a computed bus factor and its top contributors. */
  function Report(busFactor: nat, top: seq<TopContributor>, count: nat): seq<Finding> {
    [PositiveFinding(BusFactorMessage(busFactor))]
    + (if top != [] then [PositiveFinding(TotalMessage(count))] + TopFindings(top) else [])
  }

  function Findings(contributors: seq<Contributor>): seq<Finding> {
    if contributors == [] then [WarningFinding(NoData)]
    else Report(BusFactorOf(contributors), TopContributors(contributors), |contributors|)
  }

  function Details(contributors: seq<Contributor>): string {
    if contributors == [] then NoDataDetails else BandDetails(BusFactorOf(contributors))
  }

  /** Without contributor data the analyzer is neutral: 50 points and one Warning. */
  lemma NoContributorsIsNeutral()
    ensures BusScore([]) == 50.0 && Findings([]) == [WarningFinding(NoData)]
  {
  }

  /** With contributor data, the only possible Warning is the first top
      contributor's, third in the list, raised when their share exceeds 70%. */
  lemma OnlyFirstTopContributorWarns(busFactor: nat, top: seq<TopContributor>, count: nat)
    ensures forall i :: 0 <= i < |Report(busFactor, top, count)| && Report(busFactor, top, count)[i].status == Warning ==>
      i == 2 && top[0].percentage > 70.0
    ensures top != [] && top[0].percentage > 70.0 ==> Report(busFactor, top, count)[2].status == Warning
  {
    var f := Report(busFactor, top, count);
    if top != [] {
      var rest := TopFindings(top);
      assert f == [f[0], f[1]] + rest;
      forall i | 0 <= i < |f| && f[i].status == Warning
        ensures i == 2 && top[0].percentage > 70.0
      {
        if i >= 2 {
          assert f[i] == rest[i - 2];
        }
      }
      assert f[2] == rest[0];
    }
  }

  /** `a * t` grows with `a` when `t` is positive. */
  lemma ScaleMonotone(a: real, b: real, t: real)
    requires t > 0.0
    ensures a > b <==> a * t > b * t
  {
    if a > b {
      assert (a - b) * t > 0.0;
    } else {
      assert (b - a) * t >= 0.0;
    }
  }

  /** With a positive total, a share above 70% means more than 7 commits in 10. */
  lemma PercentageAboveSeventy(commits: int, total: int)
    requires total > 0
    ensures Percentage(commits, total) > 70.0 <==> 10 * commits > 7 * total
  {
    var q, t := commits as real / total as real, total as real;
    assert Percentage(commits, total) > 70.0 <==> q > 0.7;
    assert q * t == commits as real;
    ScaleMonotone(q, 0.7, t);
    assert 0.7 * t == (7 * total) as real / 10.0;
    assert commits as real > (7 * total) as real / 10.0 <==> (10 * commits) as real > (7 * total) as real;
  }

  /** The findings block of `BusFactorAnalyzer::analyze`. */
  method BuildReport(busFactor: nat, top: seq<TopContributor>, count: nat) returns (findings: seq<Finding>)
    ensures findings == Report(busFactor, top, count)
  {
    findings := [PositiveFinding(BusFactorMessage(busFactor))];
    if top != [] {
      findings := findings + [PositiveFinding(TotalMessage(count))];
      findings := PushTopFindings(findings, top);
    }
  }

  /** `BusFactorAnalyzer::analyze`. */
  method Analyze(s: RepoSnapshot) returns (r: AnalysisResult)
    ensures r.score == BusScore(s.contributors)
    ensures r.findings == Findings(s.contributors)
    ensures r.details == Details(s.contributors)
  {
    if s.contributors == [] {
      return AnalysisResult(50.0, NoDataDetails, [WarningFinding(NoData)]);
    }
    var busFactor, top := CalculateBusFactor(s.contributors);
    var score := ScoreBusFactor(busFactor);
    var findings := BuildReport(busFactor, top, |s.contributors|);
    r := AnalysisResult(score, BandDetails(busFactor), findings);
  }

  // ---- Worked examples ----

  /** The walk over a concrete ranking of three, as sums of its prefixes. */
  lemma PrefixSums(a: Ranked, b: Ranked, c: Ranked)
    ensures Sum([a]) == a.commits
    ensures Sum([a, b]) == a.commits + b.commits
    ensures Sum([a, b, c]) == a.commits + b.commits + c.commits
  {
    assert [a, b, c][..2] == [a, b];
    assert [a, b][..1] == [a];
    assert [a][..0] == [];
  }

  /** Two equal contributors: the first alone reaches 100 / 2 = 50. */
  lemma EvenPairHasBusFactorOne()
    ensures BusFactorOf([Contributor("a", 50), Contributor("b", 50)]) == 1
  {
    var cs := [Contributor("a", 50), Contributor("b", 50)];
    var r := [Ranked("a", 50), Ranked("b", 50)];
    assert Pairs(cs) == r;
    assert Ranking(cs) == r;
    PrefixSums(r[0], r[1], r[1]);
    assert r[..1] == [r[0]] && r[..2] == r;
  }

  /** 34/33/33: the first two are needed to reach 50. */
  lemma ThreeWaySplitHasBusFactorTwo()
    ensures BusFactorOf([Contributor("a", 34), Contributor("b", 33), Contributor("c", 33)]) == 2
  {
    var cs := [Contributor("a", 34), Contributor("b", 33), Contributor("c", 33)];
    var r := [Ranked("a", 34), Ranked("b", 33), Ranked("c", 33)];
    assert Pairs(cs) == r;
    assert Ranking(cs) == r;
    PrefixSums(r[0], r[1], r[2]);
    assert r[..1] == [r[0]] && r[..2] == [r[0], r[1]] && r[..3] == r;
  }

  /** The ranking puts the 90-commit contributor first, who alone reaches 50. */
  lemma DominantContributorHasBusFactorOne()
    ensures BusFactorOf([Contributor("b", 10), Contributor("a", 90)]) == 1
  {
    var cs := [Contributor("b", 10), Contributor("a", 90)];
    var r := [Ranked("a", 90), Ranked("b", 10)];
    assert Pairs(cs) == [Ranked("b", 10), Ranked("a", 90)];
    assert Ranking(cs) == r;
    PrefixSums(Ranked("b", 10), Ranked("a", 90), Ranked("a", 90));
    PrefixSums(r[0], r[1], r[1]);
    assert r[..1] == [r[0]] && r[..2] == r;
  }

  /** One contributor holding 90 of 100 commits: bus factor 1, score 10, and
      their 90% share raises the concentration Warning. */
  lemma ConcentratedOwnershipExample()
    ensures BusFactorOf([Contributor("A", 90), Contributor("B", 10)]) == 1
    ensures BusScore([Contributor("A", 90), Contributor("B", 10)]) == 10.0
    ensures Findings([Contributor("A", 90), Contributor("B", 10)])[2].status == Warning
  {
    var cs := [Contributor("A", 90), Contributor("B", 10)];
    var r := [Ranked("A", 90), Ranked("B", 10)];
    assert Pairs(cs) == r;
    assert Ranking(cs) == r by {
      assert SortByCommitsDesc(r[1..]) == [r[1]];
    }
    PrefixSums(r[0], r[1], r[1]);
    assert r[..1] == [r[0]];
    var top := TopContributors(cs);
    assert top == [TopContributor("A", 90, Percentage(90, 100))];
    PercentageAboveSeventy(90, 100);
    OnlyFirstTopContributorWarns(1, top, 2);
  }
}
