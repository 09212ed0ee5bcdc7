/** The four collectors of internal/github/fetcher.go and `FetchActivities`,
    which runs them in order. The GitHub API is replaced by oracles: the user's
    event timeline and the two issue searches as page oracles, the commit and
    pull-request detail lookups as functions that may fail (`None`). */
module Fetcher {
  import opened Wrappers
  import opened Helpers
  import opened Paging
  import opened ActivityTypes

  /** One commit listed in a push payload. Its `Author` is assumed present
      (the source reads `Author.Name` without a nil check); its name may be nil. */
  datatype PushCommit = PushCommit(
    sha: Option<string>,
    message: Option<string>,
    authorName: Option<string>,
    url: Option<string>)

  /** The review in a review payload; `userLogin` is nil when the review's user
      or that user's login is nil. */
  datatype Review = Review(userLogin: Option<string>, state: Option<string>, htmlUrl: Option<string>)

  /** The pull request a review payload refers to. */
  datatype PullRequestRef = PullRequestRef(number: Option<int>, title: Option<string>)

  /** What decoding an event's payload yields: a push, a review, some other
      kind of payload, or a decoding error. */
  datatype Payload =
    | PushPayload(commits: seq<PushCommit>)
    | ReviewPayload(review: Option<Review>, pullRequest: Option<PullRequestRef>)
    | OtherPayload
    | Undecodable

  /** A timeline event. Its type is assumed present (the source dereferences it
      unchecked); `repoName` is nil when the event's repo or its name is nil. */
  datatype Event = Event(kind: string, createdAt: Option<Time>, repoName: Option<string>, payload: Payload)

  datatype CommitStats = CommitStats(additions: Option<int>, deletions: Option<int>)

  /** The result of a commit-detail lookup: the verified identities (nil when the
      account or its login is nil) and the line statistics. */
  datatype CommitDetail = CommitDetail(
    authorLogin: Option<string>,
    committerLogin: Option<string>,
    stats: Option<CommitStats>)

  /** The result of a pull-request detail lookup. */
  datatype PullRequestDetail = PullRequestDetail(additions: Option<int>, deletions: Option<int>, mergedAt: Option<Time>)

  /** One search result; `isPullRequest` is "its PullRequestLinks are set" and
      `repoFullName` is nil when its repository or that repository's full name is nil. */
  datatype SearchItem = SearchItem(
    number: Option<int>,
    title: Option<string>,
    htmlUrl: Option<string>,
    state: Option<string>,
    createdAt: Option<Time>,
    comments: Option<int>,
    repoFullName: Option<string>,
    closedAt: Option<Time>,
    isPullRequest: bool)

  /** `Repositories.GetCommit(owner, repo, sha)`; `None` is a failed lookup. */
  type CommitLookup = (string, string, string) -> Option<CommitDetail>

  /** `PullRequests.Get(owner, repo, number)`; `None` is a failed lookup. */
  type PullRequestLookup = (string, string, int) -> Option<PullRequestDetail>

  /** The GitHub API as the fetcher sees it. The commit walk and the review walk
      each list the user's timeline with their own requests, so each has its own
      listing: the second may fail, or answer differently, after the first
      succeeded. The two searches are the pull-request query and the issue
      query, whose text is not modelled. */
  datatype Api = Api(
    events: Pages<Event>,
    reviewEvents: Pages<Event>,
    commitDetail: CommitLookup,
    pullRequestDetail: PullRequestLookup,
    pullRequestSearch: Pages<SearchItem>,
    issueSearch: Pages<SearchItem>)

  /** The stage `FetchActivities` failed at, and the listing error it got. */
  datatype Stage = CommitsStage | PullRequestsStage | IssuesStage | ReviewsStage
  datatype FetchError = FetchError(stage: Stage, cause: string) {
    /** The text `FetchActivities` wraps a stage's listing error in: it ends
        with the listing error, and the character after "failed to fetch "
        tells the four stages apart. */
    function Message(): (m: string)
      ensures "failed to fetch " <= m
      ensures |m| >= 18 + |cause| && m[|m| - |cause|..] == cause
      ensures m[16] == match stage
        case CommitsStage => 'c' case PullRequestsStage => 'p' case IssuesStage => 'i' case ReviewsStage => 'r'
    {
      match stage
      case CommitsStage => "failed to fetch commits: " + cause
      case PullRequestsStage => "failed to fetch pull requests: " + cause
      case IssuesStage => "failed to fetch issues: " + cause
      case ReviewsStage => "failed to fetch reviews: " + cause
    }
  }

  /** The event has a timestamp and it lies in [since, until], both ends included. */
  predicate InWindow(e: Event, since: Time, until: Time) {
    e.createdAt.Some? && since <= e.createdAt.value <= until
  }

  // ----- commits -----

  /** The verified author's or committer's login is the user's; nil never matches. */
  predicate AuthoredBy(d: CommitDetail, username: string) {
    d.authorLogin == Some(username) || d.committerLogin == Some(username)
  }

  /** Lines added according to the detail, 0 when the stats or the field are nil. */
  function StatAdditions(d: CommitDetail): int {
    if d.stats.Some? then GetInt(d.stats.value.additions) else 0
  }

  /** Lines deleted according to the detail, 0 when the stats or the field are nil. */
  function StatDeletions(d: CommitDetail): int {
    if d.stats.Some? then GetInt(d.stats.value.deletions) else 0
  }

  /** A commit record that asking the detail lookup again would confirm: its
      repository splits into owner and name, the lookup of its SHA succeeds,
      the user is the verified author or committer, and the line counts are
      the lookup's. */
  predicate Verified(c: CommitInfo, username: string, lookup: CommitLookup) {
    var (owner, name) := ParseRepoName(c.repo);
    && owner != "" && name != ""
    && lookup(owner, name, c.sha).Some?
    && AuthoredBy(lookup(owner, name, c.sha).value, username)
    && c.additions == StatAdditions(lookup(owner, name, c.sha).value)
    && c.deletions == StatDeletions(lookup(owner, name, c.sha).value)
  }

  /** The fate of one pushed commit: silently skipped, skipped with a notice
      because someone else wrote it, or recorded. */
  datatype Verdict = Skipped | NotAuthor(sha: string) | Accepted(commit: CommitInfo)

  /** The checks a pushed commit goes through in a push to `repo` at `date`. */
  function Verify(pc: PushCommit, repo: string, date: Time, username: string, lookup: CommitLookup): (v: Verdict)
    ensures v.Accepted? <==>
      && pc.sha.Some? && pc.message.Some? && repo != ""
      && ParseRepoName(repo).0 != "" && ParseRepoName(repo).1 != ""
      && lookup(ParseRepoName(repo).0, ParseRepoName(repo).1, pc.sha.value).Some?
      && AuthoredBy(lookup(ParseRepoName(repo).0, ParseRepoName(repo).1, pc.sha.value).value, username)
    ensures v.NotAuthor? ==> pc.sha == Some(v.sha)
    ensures v.Accepted? ==>
      && Verified(v.commit, username, lookup)
      && pc.sha == Some(v.commit.sha) && pc.message == Some(v.commit.message)
      && v.commit.repo == repo && v.commit.date == date
      && v.commit.author == GetString(pc.authorName) && v.commit.url == GetString(pc.url)
  {
    if pc.sha.None? || pc.message.None? || repo == "" then Skipped
    else
      var (owner, name) := ParseRepoName(repo);
      if owner == "" || name == "" then Skipped
      else
        match lookup(owner, name, pc.sha.value)
        case None => Skipped
        case Some(d) =>
          if !AuthoredBy(d, username) then NotAuthor(pc.sha.value)
          else Accepted(CommitInfo(pc.sha.value, pc.message.value, repo, GetString(pc.url),
                                   GetString(pc.authorName), date, StatAdditions(d), StatDeletions(d)))
  }

  function Kept(v: Verdict): seq<CommitInfo> {
    if v.Accepted? then [v.commit] else []
  }

  function PushedCommit(repo: string, date: Time, username: string, lookup: CommitLookup): PushCommit -> seq<CommitInfo> {
    pc => Kept(Verify(pc, repo, date, username, lookup))
  }

  /** The commits an event contributes: those of an in-window push that pass `Verify`. */
  function EventCommits(e: Event, username: string, since: Time, until: Time, lookup: CommitLookup): (r: seq<CommitInfo>)
    ensures r != [] ==> InWindow(e, since, until) && e.kind == "PushEvent" && e.payload.PushPayload?
  {
    if !InWindow(e, since, until) || e.kind != "PushEvent" || !e.payload.PushPayload? then []
    else FlatMap(e.payload.commits, PushedCommit(GetString(e.repoName), e.createdAt.value, username, lookup))
  }

  function PushedBy(username: string, since: Time, until: Time, lookup: CommitLookup): Event -> seq<CommitInfo> {
    e => EventCommits(e, username, since, until, lookup)
  }

  /** The skip notice for a commit by someone else slices the first 7 bytes of
      its SHA, which fails on a shorter SHA; this event gives no such commit.
      Characters stand in for bytes, which agree on hexadecimal SHAs. */
  predicate ShaPrintable(e: Event, username: string, since: Time, until: Time, lookup: CommitLookup) {
    InWindow(e, since, until) && e.kind == "PushEvent" && e.payload.PushPayload? ==>
      forall k :: 0 <= k < |e.payload.commits| ==>
        var v := Verify(e.payload.commits[k], GetString(e.repoName), e.createdAt.value, username, lookup);
        v.NotAuthor? ==> |v.sha| >= 7
  }

  function ShaSafe(username: string, since: Time, until: Time, lookup: CommitLookup): Event -> bool {
    e => ShaPrintable(e, username, since, until, lookup)
  }

  /** The commits of one page of events (the body of the page loop of `fetchCommits`). */
  method CommitsOfPage(events: seq<Event>, username: string, since: Time, until: Time, lookup: CommitLookup)
    returns (commits: seq<CommitInfo>)
    requires forall k :: 0 <= k < |events| ==> ShaPrintable(events[k], username, since, until, lookup)
    ensures commits == FlatMap(events, PushedBy(username, since, until, lookup))
  {
    commits := [];
    for i := 0 to |events|
      invariant commits == FlatMap(events[..i], PushedBy(username, since, until, lookup))
    {
      FlatMapPrefix(events, i, PushedBy(username, since, until, lookup));
      var found := CommitsOfEvent(events[i], username, since, until, lookup);
      commits := commits + found;
    }
    assert events[..|events|] == events;
  }

  /** One event of the page loop of `fetchCommits`: an event without a time or
      outside the window is passed over, and an in-window push contributes its
      verified commits. */
  method CommitsOfEvent(event: Event, username: string, since: Time, until: Time, lookup: CommitLookup)
    returns (found: seq<CommitInfo>)
    requires ShaPrintable(event, username, since, until, lookup)
    ensures found == EventCommits(event, username, since, until, lookup)
  {
    found := [];
    if event.createdAt.None? {
      return;
    }
    var t := event.createdAt.value;
    if t < since || t > until {
      return;
    }
    if event.kind == "PushEvent" && event.payload.PushPayload? {
      found := CommitsOfPush(event.payload.commits, GetString(event.repoName), t, username, lookup);
    }
  }

  /** The commits of one push to `repo` at `date` that are recorded, in push order. */
  method CommitsOfPush(pushed: seq<PushCommit>, repo: string, date: Time, username: string, lookup: CommitLookup)
    returns (commits: seq<CommitInfo>)
    requires forall k :: 0 <= k < |pushed| ==>
      var v := Verify(pushed[k], repo, date, username, lookup); v.NotAuthor? ==> |v.sha| >= 7
    ensures commits == FlatMap(pushed, PushedCommit(repo, date, username, lookup))
  {
    commits := [];
    for j := 0 to |pushed|
      invariant commits == FlatMap(pushed[..j], PushedCommit(repo, date, username, lookup))
    {
      FlatMapPrefix(pushed, j, PushedCommit(repo, date, username, lookup));
      var kept := CheckPushedCommit(pushed[j], repo, date, username, lookup);
      commits := commits + kept;
    }
    assert pushed[..|pushed|] == pushed;
  }

  /** One pushed commit: the nil checks, the detail lookup, the authorship check
      and the line counts, giving the record to append if any. */
  method CheckPushedCommit(commit: PushCommit, repo: string, date: Time, username: string, lookup: CommitLookup)
    returns (kept: seq<CommitInfo>)
    requires var v := Verify(commit, repo, date, username, lookup); v.NotAuthor? ==> |v.sha| >= 7
    ensures kept == Kept(Verify(commit, repo, date, username, lookup))
  {
    kept := [];
    if commit.sha.None? || commit.message.None? {
      return;
    }
    var authorName := GetString(commit.authorName);
    if repo != "" {
      var (owner, repoName) := ParseRepoName(repo);
      if owner != "" && repoName != "" {
        var detail := lookup(owner, repoName, commit.sha.value);
        if detail.Some? {
          var c := detail.value;
          var isAuthor := false;
          if c.authorLogin.Some? && c.authorLogin.value == username {
            isAuthor := true;
          }
          if c.committerLogin.Some? && c.committerLogin.value == username {
            isAuthor := true;
          }
          if !isAuthor {
            // the short SHA the skip notice shows
            var shortSha := commit.sha.value[..7];
            return;
          }
          var additions, deletions := 0, 0;
          if c.stats.Some? {
            if c.stats.value.additions.Some? {
              additions := c.stats.value.additions.value;
            }
            if c.stats.value.deletions.Some? {
              deletions := c.stats.value.deletions.value;
            }
          }
          kept := [CommitInfo(commit.sha.value, commit.message.value, repo, GetString(commit.url),
                              authorName, date, additions, deletions)];
        }
      }
    }
  }

  /** Every commit an event contributes lies in the window, carries the event's
      time and repository, comes from a push event and is verified. */
  lemma EventCommitsFacts(e: Event, username: string, since: Time, until: Time, lookup: CommitLookup, c: CommitInfo)
    requires c in EventCommits(e, username, since, until, lookup)
    ensures InWindow(e, since, until) && e.createdAt == Some(c.date) && since <= c.date <= until
    ensures e.kind == "PushEvent" && c.repo == GetString(e.repoName)
    ensures Verified(c, username, lookup)
  {
    var each := PushedCommit(GetString(e.repoName), e.createdAt.value, username, lookup);
    FlatMapMember(e.payload.commits, each, c);
    var k :| 0 <= k < |e.payload.commits| && c in each(e.payload.commits[k]);
  }

  /** `fetchCommits`: walks the timeline page by page and records the verified
      commits of in-window pushes; a listing error is the whole result. */
  method FetchCommits(api: Api, username: string, since: Time, until: Time, ghost bound: nat)
    returns (r: Result<seq<CommitInfo>, string>, ghost requested: seq<nat>)
    requires Ends(api.events, 0, bound)
    requires AllVisited(api.events, 0, bound, ShaSafe(username, since, until, api.commitDetail))
    ensures r == Gather(api.events, PushedBy(username, since, until, api.commitDetail), 0, bound)
    ensures requested == Requested(api.events, 0, bound)
    ensures r.Ok? ==> forall c :: c in r.value ==>
      && since <= c.date <= until && Verified(c, username, api.commitDetail)
      && exists p, e :: p in requested && api.events(p).Listed? && e in api.events(p).items
                        && e.kind == "PushEvent" && e.createdAt == Some(c.date) && GetString(e.repoName) == c.repo
  {
    var each := PushedBy(username, since, until, api.commitDetail);
    ghost var safe := ShaSafe(username, since, until, api.commitDetail);
    FetchedCommitsVerified(api, username, since, until, bound);
    var commits: seq<CommitInfo> := [];
    var page: nat := 0;
    ghost var fuel: nat := bound;
    requested := [];
    PrependNothing(Gather(api.events, each, 0, bound));
    while true
      invariant Ends(api.events, page, fuel) && AllVisited(api.events, page, fuel, safe)
      invariant Prepend(commits, Gather(api.events, each, page, fuel)) == Gather(api.events, each, 0, bound)
      invariant requested + Requested(api.events, page, fuel) == Requested(api.events, 0, bound)
      decreases fuel
    {
      var response := api.events(page);
      GatherStep(api.events, each, page, fuel, commits);
      requested := requested + [page];
      if response.ListError? {
        r := Err(response.cause);
        return;
      }
      AllVisitedHere(api.events, page, fuel, safe);
      assert forall k :: 0 <= k < |response.items| ==> safe(response.items[k]);
      var found := CommitsOfPage(response.items, username, since, until, api.commitDetail);
      commits := commits + found;
      if response.next == 0 {
        r := Ok(commits);
        return;
      }
      page := response.next;
      fuel := fuel - 1;
    }
  }

  /** Every commit a successful commit walk returns lies in the window, is
      verified, and carries the time and repository of a push event listed on
      a requested page. */
  lemma FetchedCommitsVerified(api: Api, username: string, since: Time, until: Time, bound: nat)
    requires Ends(api.events, 0, bound)
    ensures var r := Gather(api.events, PushedBy(username, since, until, api.commitDetail), 0, bound);
      r.Ok? ==> forall c :: c in r.value ==>
        && since <= c.date <= until && Verified(c, username, api.commitDetail)
        && exists p, e :: p in Requested(api.events, 0, bound) && api.events(p).Listed? && e in api.events(p).items
                          && e.kind == "PushEvent" && e.createdAt == Some(c.date) && GetString(e.repoName) == c.repo
  {
    var each := PushedBy(username, since, until, api.commitDetail);
    var r := Gather(api.events, each, 0, bound);
    if r.Ok? {
      forall c | c in r.value
        ensures since <= c.date <= until && Verified(c, username, api.commitDetail)
        ensures exists p, e :: p in Requested(api.events, 0, bound) && api.events(p).Listed? && e in api.events(p).items
                               && e.kind == "PushEvent" && e.createdAt == Some(c.date) && GetString(e.repoName) == c.repo
      {
        GatherProvenance(api.events, each, 0, bound, c);
        var p, e :| p in Requested(api.events, 0, bound) && api.events(p).Listed?
                    && e in api.events(p).items && c in each(e);
        EventCommitsFacts(e, username, since, until, api.commitDetail, c);
      }
    }
  }

  // ----- reviews -----

  /** The event is a decoded review event whose review's user is `username`. */
  predicate ReviewedByUser(e: Event, username: string) {
    && e.kind == "PullRequestReviewEvent"
    && e.payload.ReviewPayload?
    && e.payload.review.Some?
    && e.payload.review.value.userLogin == Some(username)
  }

  /** The review an event contributes, if it is an in-window review by the user. */
  function EventReviews(e: Event, username: string, since: Time, until: Time): (r: seq<ReviewInfo>)
    ensures |r| <= 1
    ensures r != [] <==> InWindow(e, since, until) && ReviewedByUser(e, username)
    ensures r != [] ==> r[0].createdAt == e.createdAt.value && r[0].repo == GetString(e.repoName)
  {
    if !InWindow(e, since, until) || e.kind != "PullRequestReviewEvent" then []
    else
      match e.payload
      case ReviewPayload(review, pullRequest) =>
        if review.None? || review.value.userLogin != Some(username) then []
        else
          [ReviewInfo(
             if pullRequest.Some? then GetInt(pullRequest.value.number) else 0,
             if pullRequest.Some? then GetString(pullRequest.value.title) else "",
             GetString(e.repoName),
             GetString(review.value.htmlUrl),
             GetString(review.value.state),
             e.createdAt.value)]
      case _ => []
  }

  /** A review an event contributes lies in the window and carries the time and
      repository of a review event by `username`. */
  lemma EventReviewFacts(e: Event, username: string, since: Time, until: Time, rv: ReviewInfo)
    requires rv in EventReviews(e, username, since, until)
    ensures since <= rv.createdAt <= until && ReviewedByUser(e, username)
    ensures e.createdAt == Some(rv.createdAt) && rv.repo == GetString(e.repoName)
  {
    assert rv == EventReviews(e, username, since, until)[0];
  }

  function ReviewedBy(username: string, since: Time, until: Time): Event -> seq<ReviewInfo> {
    e => EventReviews(e, username, since, until)
  }

  /** The reviews of one page of events (the body of the page loop of `fetchReviews`). */
  method ReviewsOfPage(events: seq<Event>, username: string, since: Time, until: Time)
    returns (reviews: seq<ReviewInfo>)
    ensures reviews == FlatMap(events, ReviewedBy(username, since, until))
  {
    reviews := [];
    for i := 0 to |events|
      invariant reviews == FlatMap(events[..i], ReviewedBy(username, since, until))
    {
      FlatMapPrefix(events, i, ReviewedBy(username, since, until));
      var found := ReviewsOfEvent(events[i], username, since, until);
      reviews := reviews + found;
    }
    assert events[..|events|] == events;
  }

  /** One event of the page loop of `fetchReviews`: the checks on time, window,
      kind, payload and reviewer, then the record built field by field. */
  method ReviewsOfEvent(event: Event, username: string, since: Time, until: Time)
    returns (found: seq<ReviewInfo>)
    ensures found == EventReviews(event, username, since, until)
  {
    found := [];
    if event.createdAt.None? {
      return;
    }
    var t := event.createdAt.value;
    if t < since || t > until {
      return;
    }
    if event.kind == "PullRequestReviewEvent" {
      if !event.payload.ReviewPayload? {
        return;
      }
      var payload := event.payload;
      if payload.review.Some? && payload.review.value.userLogin.Some? {
        if payload.review.value.userLogin.value != username {
          return;
        }
      } else {
        return;
      }
      var review := ReviewInfo(0, "", GetString(event.repoName), "", "", t);
      if payload.review.Some? {
        review := review.(state := GetString(payload.review.value.state),
                          url := GetString(payload.review.value.htmlUrl));
      }
      if payload.pullRequest.Some? {
        review := review.(prNumber := GetInt(payload.pullRequest.value.number),
                          prTitle := GetString(payload.pullRequest.value.title));
      }
      found := [review];
    }
  }

  /** `fetchReviews`: walks the timeline page by page and records the user's
      in-window reviews; a listing error is the whole result. */
  method FetchReviews(api: Api, username: string, since: Time, until: Time, ghost bound: nat)
    returns (r: Result<seq<ReviewInfo>, string>, ghost requested: seq<nat>)
    requires Ends(api.reviewEvents, 0, bound)
    ensures r == Gather(api.reviewEvents, ReviewedBy(username, since, until), 0, bound)
    ensures requested == Requested(api.reviewEvents, 0, bound)
    ensures r.Ok? ==> forall rv :: rv in r.value ==>
      && since <= rv.createdAt <= until
      && exists p, e :: p in requested && api.reviewEvents(p).Listed? && e in api.reviewEvents(p).items
                        && ReviewedByUser(e, username) && e.createdAt == Some(rv.createdAt)
                        && rv in EventReviews(e, username, since, until) && rv.repo == GetString(e.repoName)
  {
    var each := ReviewedBy(username, since, until);
    FetchedReviewsByUser(api, username, since, until, bound);
    var reviews: seq<ReviewInfo> := [];
    var page: nat := 0;
    ghost var fuel: nat := bound;
    requested := [];
    PrependNothing(Gather(api.reviewEvents, each, 0, bound));
    while true
      invariant Ends(api.reviewEvents, page, fuel)
      invariant Prepend(reviews, Gather(api.reviewEvents, each, page, fuel)) == Gather(api.reviewEvents, each, 0, bound)
      invariant requested + Requested(api.reviewEvents, page, fuel) == Requested(api.reviewEvents, 0, bound)
      decreases fuel
    {
      var response := api.reviewEvents(page);
      GatherStep(api.reviewEvents, each, page, fuel, reviews);
      requested := requested + [page];
      if response.ListError? {
        r := Err(response.cause);
        return;
      }
      var found := ReviewsOfPage(response.items, username, since, until);
      reviews := reviews + found;
      if response.next == 0 {
        r := Ok(reviews);
        return;
      }
      page := response.next;
      fuel := fuel - 1;
    }
  }

  /** Every review a successful review walk returns lies in the window and comes
      from a review event, on a requested page, whose review user is `username`. */
  lemma FetchedReviewsByUser(api: Api, username: string, since: Time, until: Time, bound: nat)
    requires Ends(api.reviewEvents, 0, bound)
    ensures var r := Gather(api.reviewEvents, ReviewedBy(username, since, until), 0, bound);
      r.Ok? ==> forall rv :: rv in r.value ==>
        && since <= rv.createdAt <= until
        && exists p, e :: p in Requested(api.reviewEvents, 0, bound) && api.reviewEvents(p).Listed? && e in api.reviewEvents(p).items
                          && ReviewedByUser(e, username) && e.createdAt == Some(rv.createdAt)
                        && rv in EventReviews(e, username, since, until) && rv.repo == GetString(e.repoName)
  {
    var each := ReviewedBy(username, since, until);
    var r := Gather(api.reviewEvents, each, 0, bound);
    if r.Ok? {
      forall rv | rv in r.value
        ensures since <= rv.createdAt <= until
        ensures exists p, e :: p in Requested(api.reviewEvents, 0, bound) && api.reviewEvents(p).Listed? && e in api.reviewEvents(p).items
                               && ReviewedByUser(e, username) && e.createdAt == Some(rv.createdAt)
                        && rv in EventReviews(e, username, since, until) && rv.repo == GetString(e.repoName)
      {
        GatherProvenance(api.reviewEvents, each, 0, bound, rv);
        var p, e :| p in Requested(api.reviewEvents, 0, bound) && api.reviewEvents(p).Listed?
                    && e in api.reviewEvents(p).items && rv in each(e);
        EventReviewFacts(e, username, since, until, rv);
      }
    }
  }

  /** The review stage can fail on its own: a timeline that served the commit
      walk in full may refuse the review walk's first request while both
      searches come back empty, so `FetchActivities` ends with the review error. */
  lemma ReviewStageCanFail(username: string, since: Time, until: Time, commitDetail: CommitLookup,
                           pullRequestDetail: PullRequestLookup, cause: string)
    ensures var api := Api(p => Listed([], 0), p => ListError(cause), commitDetail, pullRequestDetail,
                           p => Listed([], 0), p => Listed([], 0));
      && Gather(api.events, PushedBy(username, since, until, api.commitDetail), 0, 1) == Ok([])
      && Gather(api.pullRequestSearch, PullRequestsFound(api.pullRequestDetail), 0, 1) == Ok([])
      && Gather(api.issueSearch, IssueItems, 0, 1) == Ok([])
      && Gather(api.reviewEvents, ReviewedBy(username, since, until), 0, 1) == Err(cause)
      && Assemble(username, since, until, Ok([]), Ok([]), Ok([]), Err(cause)) == Err(FetchError(ReviewsStage, cause))
  {
  }

  // ----- pull requests and issues -----

  /** The record made from a pull-request search result, enriched by the detail
      lookup when the repository splits into owner and name and the lookup
      succeeds. `MergedAt` starts as the search's `ClosedAt` and only a non-nil
      detail `MergedAt` replaces it; a failed lookup leaves 0 lines each way. */
  function PullRequestOf(item: SearchItem, lookup: PullRequestLookup): (pr: PullRequestInfo)
    ensures pr.number == GetInt(item.number) && pr.title == GetString(item.title)
    ensures pr.repo == GetString(item.repoFullName) && pr.url == GetString(item.htmlUrl)
    ensures pr.state == GetString(item.state) && pr.createdAt == GetTime(item.createdAt)
    ensures pr.comments == GetInt(item.comments)
    ensures var (owner, name) := ParseRepoName(pr.repo);
      if owner != "" && name != "" && lookup(owner, name, pr.number).Some? then
        var d := lookup(owner, name, pr.number).value;
        && pr.additions == GetInt(d.additions) && pr.deletions == GetInt(d.deletions)
        && pr.mergedAt == (if d.mergedAt.Some? then d.mergedAt else item.closedAt)
      else
        pr.additions == 0 && pr.deletions == 0 && pr.mergedAt == item.closedAt
  {
    var found := PullRequestInfo(GetInt(item.number), GetString(item.title), GetString(item.repoFullName),
                                 GetString(item.htmlUrl), GetString(item.state), GetTime(item.createdAt),
                                 GetTimePointer(item.closedAt), 0, 0, GetInt(item.comments));
    if found.repo == "" then found
    else
      var (owner, name) := ParseRepoName(found.repo);
      if owner == "" || name == "" then found
      else
        match lookup(owner, name, found.number)
        case None => found
        case Some(d) =>
          found.(additions := GetInt(d.additions), deletions := GetInt(d.deletions),
                 mergedAt := if d.mergedAt.Some? then GetTimePointer(d.mergedAt) else found.mergedAt)
  }

  /** The record made from an issue search result. */
  function IssueOf(item: SearchItem): (issue: IssueInfo)
    ensures issue.number == GetInt(item.number) && issue.title == GetString(item.title)
    ensures issue.repo == GetString(item.repoFullName) && issue.url == GetString(item.htmlUrl)
    ensures issue.state == GetString(item.state) && issue.createdAt == GetTime(item.createdAt)
    ensures issue.closedAt == item.closedAt && issue.comments == GetInt(item.comments)
  {
    IssueInfo(GetInt(item.number), GetString(item.title), GetString(item.repoFullName), GetString(item.htmlUrl),
              GetString(item.state), GetTime(item.createdAt), GetTimePointer(item.closedAt), GetInt(item.comments))
  }

  function PullRequestsFound(lookup: PullRequestLookup): SearchItem -> seq<PullRequestInfo> {
    (item: SearchItem) => if item.isPullRequest then [PullRequestOf(item, lookup)] else []
  }

  function IssueItems(item: SearchItem): seq<IssueInfo> {
    if item.isPullRequest then [] else [IssueOf(item)]
  }

  /** The pull requests of one page of search results (the body of the page loop of `fetchPullRequests`). */
  method PullRequestsOfPage(items: seq<SearchItem>, lookup: PullRequestLookup) returns (prs: seq<PullRequestInfo>)
    ensures prs == FlatMap(items, PullRequestsFound(lookup))
  {
    prs := [];
    for i := 0 to |items|
      invariant prs == FlatMap(items[..i], PullRequestsFound(lookup))
    {
      var issue := items[i];
      FlatMapPrefix(items, i, PullRequestsFound(lookup));
      if !issue.isPullRequest {
        continue;
      }
      var pr := PullRequestOfItem(issue, lookup);
      prs := prs + [pr];
    }
    assert items[..|items|] == items;
  }

  /** One pull-request result of the page loop of `fetchPullRequests`: the
      record from the search fields, then the detail lookup's line counts and
      merge time when the repository splits and the lookup succeeds. */
  method PullRequestOfItem(issue: SearchItem, lookup: PullRequestLookup) returns (pr: PullRequestInfo)
    ensures pr == PullRequestOf(issue, lookup)
  {
    pr := PullRequestInfo(GetInt(issue.number), GetString(issue.title), "", GetString(issue.htmlUrl),
                          GetString(issue.state), GetTime(issue.createdAt), None, 0, 0, GetInt(issue.comments));
    if issue.repoFullName.Some? {
      pr := pr.(repo := issue.repoFullName.value);
    }
    if issue.closedAt.Some? {
      pr := pr.(mergedAt := GetTimePointer(issue.closedAt));
    }
    if pr.repo != "" {
      var (owner, repoName) := ParseRepoName(pr.repo);
      if owner != "" && repoName != "" {
        var detail := lookup(owner, repoName, pr.number);
        if detail.Some? {
          pr := pr.(additions := GetInt(detail.value.additions), deletions := GetInt(detail.value.deletions));
          if detail.value.mergedAt.Some? {
            pr := pr.(mergedAt := GetTimePointer(detail.value.mergedAt));
          }
        }
      }
    }
  }

  /** The issues of one page of search results (the body of the page loop of `fetchIssues`). */
  method IssuesOfPage(items: seq<SearchItem>) returns (issues: seq<IssueInfo>)
    ensures issues == FlatMap(items, IssueItems)
  {
    issues := [];
    for i := 0 to |items|
      invariant issues == FlatMap(items[..i], IssueItems)
    {
      var issue := items[i];
      FlatMapPrefix(items, i, IssueItems);
      if issue.isPullRequest {
        continue;
      }
      var info := IssueOfItem(issue);
      issues := issues + [info];
    }
    assert items[..|items|] == items;
  }

  /** One issue result of the page loop of `fetchIssues`: the record from the
      search fields. */
  method IssueOfItem(issue: SearchItem) returns (info: IssueInfo)
    ensures info == IssueOf(issue)
  {
    info := IssueInfo(GetInt(issue.number), GetString(issue.title), "", GetString(issue.htmlUrl),
                      GetString(issue.state), GetTime(issue.createdAt), None, GetInt(issue.comments));
    if issue.repoFullName.Some? {
      info := info.(repo := issue.repoFullName.value);
    }
    if issue.closedAt.Some? {
      info := info.(closedAt := GetTimePointer(issue.closedAt));
    }
  }

  /** `fetchPullRequests`: pages through the pull-request search, keeping only
      results with pull-request links; a search error is the whole result. */
  method FetchPullRequests(api: Api, ghost bound: nat)
    returns (r: Result<seq<PullRequestInfo>, string>, ghost requested: seq<nat>)
    requires Ends(api.pullRequestSearch, 0, bound)
    ensures r == Gather(api.pullRequestSearch, PullRequestsFound(api.pullRequestDetail), 0, bound)
    ensures requested == Requested(api.pullRequestSearch, 0, bound)
  {
    var each := PullRequestsFound(api.pullRequestDetail);
    var prs: seq<PullRequestInfo> := [];
    var page: nat := 0;
    ghost var fuel: nat := bound;
    requested := [];
    PrependNothing(Gather(api.pullRequestSearch, each, 0, bound));
    while true
      invariant Ends(api.pullRequestSearch, page, fuel)
      invariant Prepend(prs, Gather(api.pullRequestSearch, each, page, fuel)) == Gather(api.pullRequestSearch, each, 0, bound)
      invariant requested + Requested(api.pullRequestSearch, page, fuel) == Requested(api.pullRequestSearch, 0, bound)
      decreases fuel
    {
      var response := api.pullRequestSearch(page);
      GatherStep(api.pullRequestSearch, each, page, fuel, prs);
      requested := requested + [page];
      if response.ListError? {
        r := Err(response.cause);
        return;
      }
      var found := PullRequestsOfPage(response.items, api.pullRequestDetail);
      prs := prs + found;
      if response.next == 0 {
        r := Ok(prs);
        return;
      }
      page := response.next;
      fuel := fuel - 1;
    }
  }

  /** `fetchIssues`: pages through the issue search, keeping only results
      without pull-request links; a search error is the whole result. */
  method FetchIssues(api: Api, ghost bound: nat)
    returns (r: Result<seq<IssueInfo>, string>, ghost requested: seq<nat>)
    requires Ends(api.issueSearch, 0, bound)
    ensures r == Gather(api.issueSearch, IssueItems, 0, bound)
    ensures requested == Requested(api.issueSearch, 0, bound)
  {
    var issues: seq<IssueInfo> := [];
    var page: nat := 0;
    ghost var fuel: nat := bound;
    requested := [];
    PrependNothing(Gather(api.issueSearch, IssueItems, 0, bound));
    while true
      invariant Ends(api.issueSearch, page, fuel)
      invariant Prepend(issues, Gather(api.issueSearch, IssueItems, page, fuel)) == Gather(api.issueSearch, IssueItems, 0, bound)
      invariant requested + Requested(api.issueSearch, page, fuel) == Requested(api.issueSearch, 0, bound)
      decreases fuel
    {
      var response := api.issueSearch(page);
      GatherStep(api.issueSearch, IssueItems, page, fuel, issues);
      requested := requested + [page];
      if response.ListError? {
        r := Err(response.cause);
        return;
      }
      var found := IssuesOfPage(response.items);
      issues := issues + found;
      if response.next == 0 {
        r := Ok(issues);
        return;
      }
      page := response.next;
      fuel := fuel - 1;
    }
  }

  /** On one list of search results, pull-request results become pull requests
      only and the others issues only: as many records as results in all. */
  lemma {:induction false} SearchSplit(items: seq<SearchItem>, lookup: PullRequestLookup)
    ensures |FlatMap(items, PullRequestsFound(lookup))| == Count(items, (item: SearchItem) => item.isPullRequest)
    ensures |FlatMap(items, IssueItems)| == |items| - Count(items, (item: SearchItem) => item.isPullRequest)
    decreases |items|
  {
    if items != [] {
      SearchSplit(items[..|items| - 1], lookup);
    }
  }

  /** Every pull request comes from a pull-request result, every issue from another result. */
  lemma SearchProvenance(items: seq<SearchItem>, lookup: PullRequestLookup)
    ensures forall pr :: pr in FlatMap(items, PullRequestsFound(lookup)) ==>
      exists k :: 0 <= k < |items| && items[k].isPullRequest && pr == PullRequestOf(items[k], lookup)
    ensures forall issue :: issue in FlatMap(items, IssueItems) ==>
      exists k :: 0 <= k < |items| && !items[k].isPullRequest && issue == IssueOf(items[k])
  {
    forall pr | pr in FlatMap(items, PullRequestsFound(lookup))
      ensures exists k :: 0 <= k < |items| && items[k].isPullRequest && pr == PullRequestOf(items[k], lookup)
    {
      FlatMapMember(items, PullRequestsFound(lookup), pr);
    }
    forall issue | issue in FlatMap(items, IssueItems)
      ensures exists k :: 0 <= k < |items| && !items[k].isPullRequest && issue == IssueOf(items[k])
    {
      FlatMapMember(items, IssueItems, issue);
    }
  }

  /** No deduplication: a pull request listed twice is recorded twice. */
  lemma DuplicatesKept(item: SearchItem, lookup: PullRequestLookup)
    requires item.isPullRequest
    ensures FlatMap([item, item], PullRequestsFound(lookup)) == [PullRequestOf(item, lookup), PullRequestOf(item, lookup)]
  {
    var each := PullRequestsFound(lookup);
    FlatMapSnoc([], item, each);
    assert [] + [item] == [item];
    FlatMapSnoc([item], item, each);
    assert [item] + [item] == [item, item];
  }

  // ----- line totals over pages -----

  /** The sum of `f` over the records of each page of `ps`, page by page. */
  function PageSums<T, R>(src: Pages<T>, each: T -> seq<R>, ps: seq<nat>, f: R -> int): int
  {
    if ps == [] then 0
    else (if src(ps[0]).Listed? then Sum(FlatMap(src(ps[0]).items, each), f) else 0) + PageSums(src, each, ps[1..], f)
  }

  /** The total over what the walk collected is the sum of the pages' totals,
      since the collector appends one page's records after another. */
  lemma {:induction false} SumCollected<T, R>(src: Pages<T>, each: T -> seq<R>, ps: seq<nat>, f: R -> int)
    ensures Sum(Collected(src, each, ps), f) == PageSums(src, each, ps, f)
    decreases |ps|
  {
    if ps != [] {
      var first := if src(ps[0]).Listed? then FlatMap(src(ps[0]).items, each) else [];
      SumAppend(first, Collected(src, each, ps[1..]), f);
      SumCollected(src, each, ps[1..], f);
    }
  }

  /** The lines a successful commit walk adds up to are the lines of each
      requested page's commits, summed over the pages. */
  lemma CommitLinesByPage(api: Api, username: string, since: Time, until: Time, bound: nat)
    requires Ends(api.events, 0, bound)
    ensures var each := PushedBy(username, since, until, api.commitDetail);
      var r := Gather(api.events, each, 0, bound);
      var ps := Requested(api.events, 0, bound);
      r.Ok? ==>
        && Sum(r.value, CommitAdditions) == PageSums(api.events, each, ps, CommitAdditions)
        && Sum(r.value, CommitDeletions) == PageSums(api.events, each, ps, CommitDeletions)
  {
    var each := PushedBy(username, since, until, api.commitDetail);
    var ps := Requested(api.events, 0, bound);
    GatherCollects(api.events, each, 0, bound);
    SumCollected(api.events, each, ps, CommitAdditions);
    SumCollected(api.events, each, ps, CommitDeletions);
  }

  // ----- all four -----

  /** What `FetchActivities` makes of the four stage results: the first stage
      that failed, in the order commits, pull requests, issues, reviews, with
      its error; otherwise the activity holding all four. */
  function Assemble(username: string, since: Time, until: Time,
                    commits: Result<seq<CommitInfo>, string>, prs: Result<seq<PullRequestInfo>, string>,
                    issues: Result<seq<IssueInfo>, string>, reviews: Result<seq<ReviewInfo>, string>)
    : Result<UserActivity, FetchError>
  {
    if commits.Err? then Err(FetchError(CommitsStage, commits.error))
    else if prs.Err? then Err(FetchError(PullRequestsStage, prs.error))
    else if issues.Err? then Err(FetchError(IssuesStage, issues.error))
    else if reviews.Err? then Err(FetchError(ReviewsStage, reviews.error))
    else Ok(UserActivity(username, since, until, commits.value, prs.value, issues.value, reviews.value))
  }

  /** The fetch succeeds exactly when all four stages do, and then the activity
      is the user's window with the four results unchanged. */
  lemma AssembleOk(username: string, since: Time, until: Time,
                   commits: Result<seq<CommitInfo>, string>, prs: Result<seq<PullRequestInfo>, string>,
                   issues: Result<seq<IssueInfo>, string>, reviews: Result<seq<ReviewInfo>, string>)
    ensures var r := Assemble(username, since, until, commits, prs, issues, reviews);
      && (r.Ok? <==> commits.Ok? && prs.Ok? && issues.Ok? && reviews.Ok?)
      && (r.Ok? ==>
            r.value == UserActivity(username, since, until, commits.value, prs.value, issues.value, reviews.value))
  {
  }

  /** A failed fetch names the stage whose error it carries, and every stage
      before that one succeeded: later stages never mask an earlier failure. */
  lemma AssembleError(username: string, since: Time, until: Time,
                      commits: Result<seq<CommitInfo>, string>, prs: Result<seq<PullRequestInfo>, string>,
                      issues: Result<seq<IssueInfo>, string>, reviews: Result<seq<ReviewInfo>, string>)
    ensures var r := Assemble(username, since, until, commits, prs, issues, reviews);
      r.Err? ==> match r.error.stage
        case CommitsStage => commits == Err(r.error.cause)
        case PullRequestsStage => commits.Ok? && prs == Err(r.error.cause)
        case IssuesStage => commits.Ok? && prs.Ok? && issues == Err(r.error.cause)
        case ReviewsStage => commits.Ok? && prs.Ok? && issues.Ok? && reviews == Err(r.error.cause)
  {
  }

  /** `FetchActivities`: commits, then pull requests, then issues, then reviews;
      the first stage that fails ends the fetch with its error and nothing else. */
  method FetchActivities(api: Api, username: string, since: Time, until: Time,
                         ghost eventBound: nat, ghost pullRequestBound: nat, ghost issueBound: nat,
                         ghost reviewBound: nat)
    returns (r: Result<UserActivity, FetchError>)
    requires Ends(api.events, 0, eventBound)
    requires AllVisited(api.events, 0, eventBound, ShaSafe(username, since, until, api.commitDetail))
    requires Ends(api.pullRequestSearch, 0, pullRequestBound)
    requires Ends(api.issueSearch, 0, issueBound)
    requires Ends(api.reviewEvents, 0, reviewBound)
    ensures r == Assemble(username, since, until,
      Gather(api.events, PushedBy(username, since, until, api.commitDetail), 0, eventBound),
      Gather(api.pullRequestSearch, PullRequestsFound(api.pullRequestDetail), 0, pullRequestBound),
      Gather(api.issueSearch, IssueItems, 0, issueBound),
      Gather(api.reviewEvents, ReviewedBy(username, since, until), 0, reviewBound))
    ensures r.Ok? ==> forall c :: c in r.value.commits ==>
      since <= c.date <= until && Verified(c, username, api.commitDetail)
    ensures r.Ok? ==> forall rv :: rv in r.value.reviews ==> since <= rv.createdAt <= until
  {
    var commits, _ := FetchCommits(api, username, since, until, eventBound);
    if commits.Err? {
      return Err(FetchError(CommitsStage, commits.error));
    }
    var prs, _ := FetchPullRequests(api, pullRequestBound);
    if prs.Err? {
      return Err(FetchError(PullRequestsStage, prs.error));
    }
    var issues, _ := FetchIssues(api, issueBound);
    if issues.Err? {
      return Err(FetchError(IssuesStage, issues.error));
    }
    var reviews, _ := FetchReviews(api, username, since, until, reviewBound);
    if reviews.Err? {
      return Err(FetchError(ReviewsStage, reviews.error));
    }
    return Ok(UserActivity(username, since, until, commits.value, prs.value, issues.value, reviews.value));
  }
}
