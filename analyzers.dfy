/** The vocabulary every analyzer emits: findings with a status, and the
    result record holding a score, a summary and the findings in order. */
module Analyzers {

  datatype FindingStatus = Positive | Warning | Missing

  datatype Finding = Finding(status: FindingStatus, message: string)

  datatype AnalysisResult = AnalysisResult(score: real, details: string, findings: seq<Finding>)

  /** `Finding::positive`. */
  function PositiveFinding(message: string): (f: Finding)
    ensures f.status == Positive && f.message == message
  {
    Finding(Positive, message)
  }

  /** `Finding::warning`. */
  function WarningFinding(message: string): (f: Finding)
    ensures f.status == Warning && f.message == message
  {
    Finding(Warning, message)
  }

  /** `Finding::missing`. */
  function MissingFinding(message: string): (f: Finding)
    ensures f.status == Missing && f.message == message
  {
    Finding(Missing, message)
  }

  /** A finding that is not Positive is a Warning or a Missing one: the
      status has exactly three values. */
  lemma FindingStatusCases(s: FindingStatus)
    ensures s == Positive || s == Warning || s == Missing
    ensures s != Positive <==> s == Warning || s == Missing
  {
  }

  /** How many of `findings` have status `status`
      (`findings.iter().filter(..).count()`). */
  function CountStatus(findings: seq<Finding>, status: FindingStatus): (n: nat)
    ensures n <= |findings|
  {
    if findings == [] then 0
    else (if findings[0].status == status then 1 else 0) + CountStatus(findings[1..], status)
  }

  lemma {:induction false} CountStatusAppend(a: seq<Finding>, b: seq<Finding>, status: FindingStatus)
    ensures CountStatus(a + b, status) == CountStatus(a, status) + CountStatus(b, status)
  {
    if a != [] {
      assert (a + b)[1..] == a[1..] + b;
      CountStatusAppend(a[1..], b, status);
    } else {
      assert a + b == b;
    }
  }

  /** Number of `true` values in `checks`. */
  function CountTrue(checks: seq<bool>): (n: nat)
    ensures n <= |checks|
  {
    if checks == [] then 0 else (if checks[0] then 1 else 0) + CountTrue(checks[1..])
  }

  /** For each finding, whether it is Positive: the findings report a list
      of check outcomes when this equals that list. */
  function Passed(findings: seq<Finding>): (r: seq<bool>)
    ensures |r| == |findings|
  {
    seq(|findings|, i requires 0 <= i < |findings| => findings[i].status == Positive)
  }

  lemma PassedSnoc(findings: seq<Finding>, f: Finding)
    ensures Passed(findings + [f]) == Passed(findings) + [f.status == Positive]
  {
  }

  /** The number of Positive findings is the number of passed checks they report. */
  lemma {:induction false} CountPositiveIsCountPassed(findings: seq<Finding>)
    ensures CountStatus(findings, Positive) == CountTrue(Passed(findings))
  {
    if findings != [] {
      CountPositiveIsCountPassed(findings[1..]);
      assert Passed(findings)[1..] == Passed(findings[1..]);
    }
  }

  /** Points for a check: `points` when it passed, nothing otherwise. */
  function Bonus(passed: bool, points: real): real {
    if passed then points else 0.0
  }

  /** The finding a check reports: `onPass` when it passed, `onFail` otherwise. */
  function Verdict(passed: bool, onPass: Finding, onFail: Finding): Finding {
    if passed then onPass else onFail
  }

  /** A verdict between a Positive and a non-Positive finding reports the
      check's outcome. */
  lemma PassedVerdict(findings: seq<Finding>, passed: bool, onPass: Finding, onFail: Finding)
    requires onPass.status == Positive && onFail.status != Positive
    ensures Passed(findings + [Verdict(passed, onPass, onFail)]) == Passed(findings) + [passed]
  {
    PassedSnoc(findings, Verdict(passed, onPass, onFail));
  }

  /** One rung of an additive scoring ladder, the `if check { score += points;
      findings.push(positive) } else { findings.push(other) }` block every
      analyzer repeats. */
  method Award(score: real, findings: seq<Finding>, passed: bool, points: real, onPass: Finding, onFail: Finding)
    returns (score': real, findings': seq<Finding>)
    ensures score' == score + Bonus(passed, points)
    ensures findings' == findings + [Verdict(passed, onPass, onFail)]
  {
    if passed {
      score' := score + points;
      findings' := findings + [onPass];
    } else {
      score' := score;
      findings' := findings + [onFail];
    }
  }

  /** The finding a bonus-only check reports: `onPass` when it passed, none otherwise. */
  function IfPassed(passed: bool, onPass: Finding): seq<Finding> {
    if passed then [onPass] else []
  }

  /** A bonus-only rung, `if check { score += points; findings.push(positive) }`,
      which reports nothing when the check fails. */
  method AwardIfPassed(score: real, findings: seq<Finding>, passed: bool, points: real, onPass: Finding)
    returns (score': real, findings': seq<Finding>)
    ensures score' == score + Bonus(passed, points)
    ensures findings' == findings + IfPassed(passed, onPass)
  {
    score', findings' := score, findings;
    if passed {
      score' := score + points;
      findings' := findings + [onPass];
    }
  }
}
