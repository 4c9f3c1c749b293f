/**
  The GitHub request the analyzer makes: the authorization headers, the owner/repo path
  taken from the repository URL, and the "list pull request files" endpoint.
 */
module Request {
  import opened Wrappers
  import opened PyStr

  /** The public GitHub REST API, a fixed setting. */
  const GithubApiBase: string := "https://api.github.com"

  /** The prefix stripped from a repository URL to leave its owner/repo path. */
  const GithubWebPrefix: string := "https://github.com/"

  const AcceptHeader: string := "application/vnd.github.v3+json"

  /** The two request headers the analyzer sends to GitHub. */
  datatype Headers = Headers(authorization: string, accept: string)

  /**
    The headers for an optional access token. A missing or empty token is falsy in Python,
    and the Authorization header is then sent empty rather than left out.
   */
  function AuthHeaders(githubToken: Option<string>): (h: Headers)
    ensures h.accept == AcceptHeader
    ensures h.authorization == "" <==> githubToken.None? || githubToken.value == ""
    ensures h.authorization != "" ==>
      |h.authorization| > 6 && h.authorization[..6] == "token " &&
      h.authorization[6..] == githubToken.value
  {
    var authorization :=
      if githubToken.Some? && githubToken.value != "" then "token " + githubToken.value else "";
    Headers(authorization, AcceptHeader)
  }

  /** `repo_url.replace("https://github.com/", "")`: every occurrence of the prefix is removed. */
  function OwnerRepo(repoUrl: string): string {
    RemoveAll(repoUrl, GithubWebPrefix)
  }

  /** The endpoint listing the files changed by pull request `prNumber`. */
  function FilesUrl(repoUrl: string, prNumber: int): string {
    GithubApiBase + "/repos/" + OwnerRepo(repoUrl) + "/pulls/" + IntToDecimal(prNumber) + "/files"
  }

  /**
    For a canonical repository URL, `https://github.com/` followed by a path in which that
    prefix does not occur again, the endpoint is the API base, `/repos/`, that path,
    `/pulls/`, the decimal pull-request number and `/files`.
   */
  lemma FilesUrlOfCanonical(path: string, prNumber: int)
    requires !Occurs(path, GithubWebPrefix)
    ensures OwnerRepo(GithubWebPrefix + path) == path
    ensures FilesUrl(GithubWebPrefix + path, prNumber) ==
      "https://api.github.com/repos/" + path + "/pulls/" + IntToDecimal(prNumber) + "/files"
  {
    RemoveAllLeading(GithubWebPrefix, path);
  }

  /** A repository URL that does not contain the prefix at all is used as the path unchanged. */
  lemma OwnerRepoWithoutPrefix(repoUrl: string)
    requires !Occurs(repoUrl, GithubWebPrefix)
    ensures OwnerRepo(repoUrl) == repoUrl
  {
    RemoveAllAbsent(repoUrl, GithubWebPrefix);
  }

  /** Two different pull requests of one repository are never fetched from the same URL. */
  lemma FilesUrlSeparatesPulls(repoUrl: string, a: int, b: int)
    requires FilesUrl(repoUrl, a) == FilesUrl(repoUrl, b)
    ensures a == b
  {
    var head := GithubApiBase + "/repos/" + OwnerRepo(repoUrl) + "/pulls/";
    var da, db := IntToDecimal(a), IntToDecimal(b);
    assert FilesUrl(repoUrl, a) == head + da + "/files";
    assert FilesUrl(repoUrl, b) == head + db + "/files";
    assert |da| == |db|;
    assert (head + da + "/files")[|head|..|head| + |da|] == da;
    assert (head + db + "/files")[|head|..|head| + |db|] == db;
    IntToDecimalInjective(a, b);
  }
}
