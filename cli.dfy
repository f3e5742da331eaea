/** Parsing the repository argument: either `owner/repo` or a GitHub URL. */
module Cli {
  import opened Wrappers
  import opened Strings

  /** `RepoHealthError::InvalidRepoFormat`. */
  datatype RepoError = InvalidRepoFormat(message: string)

  /** What the URL library makes of an input that mentions github.com: it
      does not parse, it has no path segments, or it has these segments. */
  datatype UrlParse = Unparsable | NoPathSegments | PathSegments(segments: seq<string>)

  const ExpectedFormat := "Expected format: owner/repo"

  /** `parse_repo_input`; `url` stands for `Url::parse(input)` and its path segments. */
  function ParseRepoInput(input: string, url: UrlParse): Result<(string, string), RepoError> {
    if Contains(input, "github.com") then
      match url
      case Unparsable => Err(InvalidRepoFormat(input))
      case NoPathSegments => Err(InvalidRepoFormat(input))
      case PathSegments(segments) =>
        if |segments| < 2 then Err(InvalidRepoFormat(input))
        else Ok((segments[0], TrimEndMatches(segments[1], ".git")))
    else
      var parts := Split(input, '/');
      if |parts| != 2 then Err(InvalidRepoFormat(ExpectedFormat))
      else Ok((parts[0], parts[1]))
  }

  /** Outside the URL branch the input parses exactly when it holds one '/',
      into the text before it and the text after it; otherwise the error
      names the expected format. */
  lemma OwnerRepoParse(input: string, url: UrlParse)
    requires !Contains(input, "github.com")
    ensures ParseRepoInput(input, url).Ok? <==> Occurrences(input, '/') == 1
    ensures ParseRepoInput(input, url).Ok? ==>
      var (owner, repo) := ParseRepoInput(input, url).value;
      input == owner + "/" + repo && '/' !in owner && '/' !in repo
    ensures ParseRepoInput(input, url).Err? ==>
      ParseRepoInput(input, url).error == InvalidRepoFormat(ExpectedFormat)
  {
    var parts := Split(input, '/');
    if |parts| == 2 {
      JoinSplit(input, '/');
      assert JoinOn(parts, '/') == parts[0] + ['/'] + parts[1];
    }
  }

  /** Conversely, any owner and repository without a '/' come back from
      their `owner/repo` form, empty ones included. */
  lemma OwnerRepoRoundTrip(owner: string, repo: string, url: UrlParse)
    requires '/' !in owner && '/' !in repo
    requires !Contains(owner + "/" + repo, "github.com")
    ensures ParseRepoInput(owner + "/" + repo, url) == Ok((owner, repo))
  {
    SplitAround(owner, repo, '/');
  }

  /** The parts are not checked for emptiness: "a/" names owner "a" and an empty repository. */
  lemma TrailingSlashParses(url: UrlParse)
    ensures ParseRepoInput("a/", url) == Ok(("a", ""))
  {
    ShorterNotContains("a/", "github.com");
    OwnerRepoRoundTrip("a", "", url);
    assert "a" + "/" + "" == "a/";
  }

  /** In the URL branch the first two path segments are owner and repository;
      every trailing ".git" is trimmed from the repository, and fewer than
      two segments is an error naming the input. */
  lemma UrlInputParse(input: string, segments: seq<string>)
    requires Contains(input, "github.com")
    ensures |segments| < 2 ==> ParseRepoInput(input, PathSegments(segments)) == Err(InvalidRepoFormat(input))
    ensures |segments| >= 2 ==>
      var (owner, repo) := ParseRepoInput(input, PathSegments(segments)).value;
      owner == segments[0] && !EndsWith(repo, ".git")
      && segments[1] == repo + Repeat(".git", TrimmedCopies(segments[1], ".git"))
  {
    if |segments| >= 2 {
      TrimEndMatchesRemovesCopies(segments[1], ".git");
    }
  }

  /** "octocat/Hello-World" parses to octocat and Hello-World. */
  lemma OwnerRepoExample(url: UrlParse)
    ensures ParseRepoInput("octocat/Hello-World", url) == Ok(("octocat", "Hello-World"))
  {
    var input := "octocat/Hello-World";
    assert input == "octocat" + "/" + "Hello-World";
    assert !Contains(input, "github.com") by {
      forall i: nat | i <= |input| ensures !MatchesAt(input, "github.com", i) {
        if i + 10 <= |input| {
          assert input[i..i + 10][0] == input[i];
          assert input[i..i + 10][1] == input[i + 1];
        }
      }
    }
    OwnerRepoRoundTrip("octocat", "Hello-World", url);
  }

  /** A GitHub URL names the owner and repository in its path; with ".git"
      appended it names the same repository. */
  lemma UrlExamples()
    ensures ParseRepoInput("https://" + "github.com" + "/octocat/Hello-World",
      PathSegments(["octocat", "Hello-World"])) == Ok(("octocat", "Hello-World"))
    ensures ParseRepoInput("https://" + "github.com" + "/octocat/Hello-World.git",
      PathSegments(["octocat", "Hello-World.git"])) == Ok(("octocat", "Hello-World"))
  {
    ContainsMiddle("https://", "github.com", "/octocat/Hello-World");
    ContainsMiddle("https://", "github.com", "/octocat/Hello-World.git");
    TrimGitSuffix();
  }

  /** Trimming ".git" from "Hello-World.git" and from "Hello-World". */
  lemma TrimGitSuffix()
    ensures TrimEndMatches("Hello-World", ".git") == "Hello-World"
    ensures TrimEndMatches("Hello-World.git", ".git") == "Hello-World"
  {
    var s := "Hello-World";
    assert s[|s| - 4] == 'o';
    assert s[|s| - 4..][0] == s[|s| - 4];
    var g := "Hello-World.git";
    assert g[|g| - 4..] == ".git";
    assert g[..|g| - 4] == s;
  }
}
