/** The activity records of internal/github/types.go and the statistics computed
    over them. */
module ActivityTypes {
  import opened Wrappers
  import opened Helpers

  /** A commit kept by the commit collector. */
  datatype CommitInfo = CommitInfo(
    sha: string,
    message: string,
    repo: string,
    url: string,
    author: string,
    date: Time,
    additions: int,
    deletions: int)

  /** A pull request found by the search; `mergedAt` present reads as merged. */
  datatype PullRequestInfo = PullRequestInfo(
    number: int,
    title: string,
    repo: string,
    url: string,
    state: string,
    createdAt: Time,
    mergedAt: Option<Time>,
    additions: int,
    deletions: int,
    comments: int)

  /** An issue found by the search; `closedAt` present reads as closed. */
  datatype IssueInfo = IssueInfo(
    number: int,
    title: string,
    repo: string,
    url: string,
    state: string,
    createdAt: Time,
    closedAt: Option<Time>,
    comments: int)

  /** A review submitted by the user. */
  datatype ReviewInfo = ReviewInfo(
    prNumber: int,
    prTitle: string,
    repo: string,
    url: string,
    state: string,
    createdAt: Time)

  /** Everything collected for one user over one time window. */
  datatype UserActivity = UserActivity(
    username: string,
    since: Time,
    until: Time,
    commits: seq<CommitInfo>,
    pullRequests: seq<PullRequestInfo>,
    issues: seq<IssueInfo>,
    reviews: seq<ReviewInfo>)

  /** The sum of `f` over `s`. */
  function Sum<T>(s: seq<T>, f: T -> int): int
  {
    if s == [] then 0 else Sum(s[..|s| - 1], f) + f(s[|s| - 1])
  }

  /** How many elements of `s` satisfy `p`; never more than there are. */
  function Count<T>(s: seq<T>, p: T -> bool): (n: nat)
    ensures n <= |s|
  {
    if s == [] then 0 else Count(s[..|s| - 1], p) + (if p(s[|s| - 1]) then 1 else 0)
  }

  function CommitAdditions(c: CommitInfo): int { c.additions }
  function CommitDeletions(c: CommitInfo): int { c.deletions }
  function PullRequestAdditions(pr: PullRequestInfo): int { pr.additions }
  function PullRequestDeletions(pr: PullRequestInfo): int { pr.deletions }
  predicate IsMerged(pr: PullRequestInfo) { pr.mergedAt.Some? }
  predicate IsClosed(issue: IssueInfo) { issue.closedAt.Some? }

  /** The keys of the statistics map, as the report templates read them. */
  const StatisticKeys: set<string> := {
    "total_commits", "total_prs", "merged_prs", "total_issues", "closed_issues",
    "total_reviews", "code_additions", "code_deletions", "net_code_changes"}

  /** Lines added over commits and pull requests together. */
  function CodeAdditions(a: UserActivity): int {
    Sum(a.commits, CommitAdditions) + Sum(a.pullRequests, PullRequestAdditions)
  }

  /** Lines deleted over commits and pull requests together. */
  function CodeDeletions(a: UserActivity): int {
    Sum(a.commits, CommitDeletions) + Sum(a.pullRequests, PullRequestDeletions)
  }

  /** The first two loops of `Statistics`: line counts over the commits, then
      over the pull requests. */
  method LineTotals(a: UserActivity) returns (totalAdditions: int, totalDeletions: int)
    ensures totalAdditions == CodeAdditions(a)
    ensures totalDeletions == CodeDeletions(a)
  {
    totalAdditions := 0;
    totalDeletions := 0;

    for i := 0 to |a.commits|
      invariant totalAdditions == Sum(a.commits[..i], CommitAdditions)
      invariant totalDeletions == Sum(a.commits[..i], CommitDeletions)
    {
      assert a.commits[..i + 1][..i] == a.commits[..i];
      totalAdditions := totalAdditions + a.commits[i].additions;
      totalDeletions := totalDeletions + a.commits[i].deletions;
    }
    assert a.commits[..|a.commits|] == a.commits;

    for i := 0 to |a.pullRequests|
      invariant totalAdditions == Sum(a.commits, CommitAdditions) + Sum(a.pullRequests[..i], PullRequestAdditions)
      invariant totalDeletions == Sum(a.commits, CommitDeletions) + Sum(a.pullRequests[..i], PullRequestDeletions)
    {
      assert a.pullRequests[..i + 1][..i] == a.pullRequests[..i];
      totalAdditions := totalAdditions + a.pullRequests[i].additions;
      totalDeletions := totalDeletions + a.pullRequests[i].deletions;
    }
    assert a.pullRequests[..|a.pullRequests|] == a.pullRequests;
  }

  /** The merged-pull-request loop of `Statistics`. */
  method CountMerged(prs: seq<PullRequestInfo>) returns (mergedPRs: nat)
    ensures mergedPRs == Count(prs, IsMerged) <= |prs|
  {
    mergedPRs := 0;
    for i := 0 to |prs|
      invariant mergedPRs == Count(prs[..i], IsMerged)
    {
      assert prs[..i + 1][..i] == prs[..i];
      if prs[i].mergedAt.Some? {
        mergedPRs := mergedPRs + 1;
      }
    }
    assert prs[..|prs|] == prs;
  }

  /** The closed-issue loop of `Statistics`. */
  method CountClosed(issues: seq<IssueInfo>) returns (closedIssues: nat)
    ensures closedIssues == Count(issues, IsClosed) <= |issues|
  {
    closedIssues := 0;
    for i := 0 to |issues|
      invariant closedIssues == Count(issues[..i], IsClosed)
    {
      assert issues[..i + 1][..i] == issues[..i];
      if issues[i].closedAt.Some? {
        closedIssues := closedIssues + 1;
      }
    }
    assert issues[..|issues|] == issues;
  }

  /** `UserActivity.Statistics`: the counts and line totals of an activity. The
      activity is a value, so it is left as it was and every call gives the same map. */
  method Statistics(a: UserActivity) returns (stats: map<string, int>)
    ensures stats.Keys == StatisticKeys
    ensures stats["total_commits"] == |a.commits|
    ensures stats["total_prs"] == |a.pullRequests|
    ensures stats["total_issues"] == |a.issues|
    ensures stats["total_reviews"] == |a.reviews|
    ensures stats["code_additions"] == CodeAdditions(a)
    ensures stats["code_deletions"] == CodeDeletions(a)
    ensures stats["net_code_changes"] == stats["code_additions"] - stats["code_deletions"]
    ensures stats["merged_prs"] == Count(a.pullRequests, IsMerged) <= stats["total_prs"]
    ensures stats["closed_issues"] == Count(a.issues, IsClosed) <= stats["total_issues"]
  {
    var totalAdditions, totalDeletions := LineTotals(a);
    var mergedPRs := CountMerged(a.pullRequests);
    var closedIssues := CountClosed(a.issues);
    stats := map[
      "total_commits" := |a.commits|,
      "total_prs" := |a.pullRequests|,
      "merged_prs" := mergedPRs,
      "total_issues" := |a.issues|,
      "closed_issues" := closedIssues,
      "total_reviews" := |a.reviews|,
      "code_additions" := totalAdditions,
      "code_deletions" := totalDeletions,
      "net_code_changes" := totalAdditions - totalDeletions];
  }

  /** Sums split over concatenation, so totals over several collected pages add up. */
  lemma {:induction false} SumAppend<T>(s: seq<T>, t: seq<T>, f: T -> int)
    ensures Sum(s + t, f) == Sum(s, f) + Sum(t, f)
    decreases |t|
  {
    if t != [] {
      var init := t[..|t| - 1];
      assert (s + t)[..|s + t| - 1] == s + init;
      SumAppend(s, init, f);
    } else {
      assert s + t == s;
    }
  }

  /** A count reaches the length exactly when every element satisfies the test:
      all pull requests merged, all issues closed. */
  lemma {:induction false} CountAll<T>(s: seq<T>, p: T -> bool)
    ensures Count(s, p) == |s| <==> forall k :: 0 <= k < |s| ==> p(s[k])
    decreases |s|
  {
    if s != [] {
      var init := s[..|s| - 1];
      CountAll(init, p);
      assert forall k :: 0 <= k < |init| ==> init[k] == s[k];
    }
  }

  /** A count is 0 exactly when no element satisfies the test. */
  lemma {:induction false} CountNone<T>(s: seq<T>, p: T -> bool)
    ensures Count(s, p) == 0 <==> forall k :: 0 <= k < |s| ==> !p(s[k])
    decreases |s|
  {
    if s != [] {
      var init := s[..|s| - 1];
      CountNone(init, p);
      assert forall k :: 0 <= k < |init| ==> init[k] == s[k];
    }
  }
}
