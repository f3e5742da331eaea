/** The shields.io badge for the overall score: a label and a colour per
    band, on the same thresholds as the letter grade. */
module Badge {
  import opened Strings
  import opened Scoring

  const UrlPrefix := "https://img.shields.io/badge/repo--health-"
  const UrlSuffix := "?style=flat-square&logo=github"

  /** The badge label and colour of a score. */
  function LabelAndColor(score: real): (string, string) {
    if score >= 90.0 then ("excellent", "brightgreen")
    else if score >= 80.0 then ("good", "green")
    else if score >= 70.0 then ("fair", "yellow")
    else if score >= 60.0 then ("needs--improvement", "orange")
    else ("poor", "red")
  }

  /** The badges from the lowest band to the highest. */
  const Badges: seq<(string, string)> := [("poor", "red"), ("needs--improvement", "orange"),
    ("fair", "yellow"), ("good", "green"), ("excellent", "brightgreen")]

  function BadgeUrl(name: string, color: string): string {
    UrlPrefix + name + "-" + color + UrlSuffix
  }

  /** `generate_badge_url`. */
  function GenerateBadgeUrl(score: real): string {
    var (name, color) := LabelAndColor(score);
    BadgeUrl(name, color)
  }

  /** The badge follows the grade's bands: the same thresholds pick the entry. */
  lemma BadgeIsGradeBand(score: real)
    ensures LabelAndColor(score) == Badges[Band(score)]
    ensures GenerateBadgeUrl(score) == BadgeUrl(Badges[Band(score)].0, Badges[Band(score)].1)
  {
  }

  /** Scores in different bands get different URLs, so the URL tells the band. */
  lemma UrlDeterminesBand(a: real, b: real)
    ensures GenerateBadgeUrl(a) == GenerateBadgeUrl(b) <==> Band(a) == Band(b)
  {
    BadgeIsGradeBand(a);
    BadgeIsGradeBand(b);
    if Band(a) != Band(b) {
      assert |GenerateBadgeUrl(a)| != |GenerateBadgeUrl(b)|;
    }
  }

  lemma BadgeUrlContains(name: string, color: string)
    ensures Contains(BadgeUrl(name, color), name) && Contains(BadgeUrl(name, color), color)
  {
    var rest := "-" + color + UrlSuffix;
    assert BadgeUrl(name, color) == UrlPrefix + name + rest;
    ContainsMiddle(UrlPrefix, name, rest);
    ContainsMiddle(UrlPrefix + name + "-", color, UrlSuffix);
  }

  /** The label and colour appear in the URL. */
  lemma UrlShowsLabelAndColor(score: real)
    ensures Contains(GenerateBadgeUrl(score), LabelAndColor(score).0)
    ensures Contains(GenerateBadgeUrl(score), LabelAndColor(score).1)
  {
    BadgeUrlContains(LabelAndColor(score).0, LabelAndColor(score).1);
  }

  /** 95 is excellent and bright green, 85 good and green, 50 poor and red. */
  lemma BadgeExamples()
    ensures Contains(GenerateBadgeUrl(95.0), "excellent") && Contains(GenerateBadgeUrl(95.0), "brightgreen")
    ensures Contains(GenerateBadgeUrl(85.0), "good") && Contains(GenerateBadgeUrl(85.0), "green")
    ensures Contains(GenerateBadgeUrl(50.0), "poor") && Contains(GenerateBadgeUrl(50.0), "red")
  {
    UrlShowsLabelAndColor(95.0);
    UrlShowsLabelAndColor(85.0);
    UrlShowsLabelAndColor(50.0);
  }
}
