# GitHub activity collection, modelled in Dafny

This project models the core of a service that gathers a GitHub user's
activity for a weekly report.

- **Collectors.** The fetcher in `internal/github/fetcher.go` produces four collections:
  - pushed commits: taken from the user's event timeline, then checked against the commit API for authorship and line counts;
  - pull requests and issues: taken from the issue search;
  - reviews: taken from the event timeline.
- **Stop at the first error.** `FetchActivities` runs the four collections in order. The first one that fails ends the fetch with a wrapped error.
- **Statistics.** `Statistics` in `internal/github/types.go` totals the collected activity.
- **Configuration check.** `Validate` in `internal/config/config.go` checks the configuration.
- **Webhook handler.** Three rules come from `internal/api/handler.go`:
  - the webhook token check of `AuthMiddleware`;
  - the username `TrimSpace`;
  - the token choice of `processWebhookAsync`.

The GitHub API is represented by pure functions: oracles.

- **Listings.** A paginated listing is a function from page number to a page. Page 0 is the first request, made with no page set. A page is either a list of items with the next page number (0 for "no more") or a listing error.
- **Two timeline listings.** The commit walk and the review walk each list the timeline with their own requests. The model gives each walk its own listing (`events` and `reviewEvents`), so the review walk can fail, or see other pages, after the commit walk succeeded.
- **Lookups.** The commit and pull-request detail lookups are functions that may answer nothing. Nothing stands for any failed call, which the Go code ignores.
- **Pointer fields.** Optional Go pointer fields are `Option`s.
- **Time.** Times are Unix seconds. The zero `time.Time` is `ZeroTime`.
- **Page walks.** Each collector is a `while` loop over pages, proved against `Paging.Gather`. `Gather` is the recursive definition of what the walk collects. `Paging.Requested` lists the pages it asks for.
- **Termination.** A page walk ends only if the listing's `next` chain does. The methods take that as a precondition (`Paging.Ends`) with a ghost bound.

Two facts about the collectors shape the model:

- **No deduplication.** Nothing is deduplicated by SHA or number. `Fetcher.DuplicatesKept` shows that a result listed twice is recorded twice.
- **Pull requests and issues come from search.** They come from two issue-search listings, not from timeline events.

Modules:

| module | contents |
|---|---|
| `Wrappers` | `Option`, `Result` |
| `Helpers` | `parseRepoName` and the `get*` accessors |
| `Paging` | the page oracle, `Ends`, `Requested`, `FlatMap`, `Gather` and the lemmas about walks |
| `ActivityTypes` | the records of `types.go` and `Statistics` |
| `Fetcher` | the collectors and `FetchActivities` |
| `Config` | the configuration records and `Validate` |
| `Handler` | the authorisation check, `TrimSpace` and the token choice |

## Model

| member | source | states |
|---|---|---|
| Helpers.ParseRepoName | internal/github/fetcher.go:378-385 | With a '/' in the name, the owner is the part before the first '/', and owner + "/" + name rebuilds the input. Without one, both parts are empty. |
| Helpers.ScanForSlash | internal/github/fetcher.go:379-384 | Scanning from index i gives the split at the first '/' at or after i, or ("","") if there is none. |
| Helpers.ParseRepoNameJoin | internal/github/fetcher.go:378-385 | For any owner without '/', parsing "owner/repo" gives back exactly (owner, repo), even when repo contains '/'. |
| Helpers.GetString | internal/github/fetcher.go:387-392 | nil gives "", otherwise the pointed-to string. |
| Helpers.GetInt | internal/github/fetcher.go:394-399 | nil gives 0, otherwise the pointed-to int. |
| Helpers.GetTime | internal/github/fetcher.go:401-406 | nil gives the zero time, otherwise the pointed-to time. |
| Helpers.GetTimePointer | internal/github/fetcher.go:408-414 | nil stays nil, and a time is kept as it is. |
| Paging.RequestedChain | internal/github/fetcher.go:77-81 | The first page requested is the starting page. Each later request is the `NextPage` of the previous response. The walk stops at the first error or at NextPage 0. |
| Paging.GatherCollects | internal/github/fetcher.go:77-178 | A walk fails with exactly the error of the last page it requested. Otherwise it returns the items collected from every requested page, in order. |
| Paging.GatherProvenance | internal/github/fetcher.go:83-178 | Every collected record comes from an item listed on a page the walk requested. |
| Paging.FlatMapMember | internal/github/fetcher.go:83-107 | A record is in a page's result iff it comes from one of that page's items. |
| ActivityTypes.Count | internal/github/types.go:79-91 | A count of matching records is at most the number of records. |
| ActivityTypes.SumAppend | internal/github/types.go:66-77 | A property of `Sum`, the total the line loops compute: the sum over a concatenation of two sequences is the sum of the two sums. `Fetcher.SumCollected` uses it for the pages a walk appends. |
| ActivityTypes.CountAll | internal/github/types.go:79-91 | The count equals the length iff every record matches. |
| ActivityTypes.CountNone | internal/github/types.go:79-91 | The count is 0 iff no record matches. |
| ActivityTypes.LineTotals | internal/github/types.go:66-77 | The two line-count loops give the additions and the deletions summed over the commits and then the pull requests. |
| ActivityTypes.CountMerged | internal/github/types.go:79-84 | The loop counts the pull requests whose MergedAt is set. The count is at most the number of pull requests. |
| ActivityTypes.CountClosed | internal/github/types.go:86-91 | The loop counts the issues whose ClosedAt is set. The count is at most the number of issues. |
| ActivityTypes.Statistics | internal/github/types.go:65-104 | The map has exactly the nine keys. Additions and deletions are over commits and pull requests. net_code_changes is additions minus deletions. merged_prs counts pull requests with MergedAt set and is at most total_prs. closed_issues counts issues with ClosedAt set and is at most total_issues. |
| Fetcher.Verify | internal/github/fetcher.go:109-164 | A pushed commit is recorded iff its SHA and message exist, the repository name splits into owner and name, the lookup succeeds and its author or committer login is the user. The record copies SHA, message, repo, author and URL, takes the event time, and takes the lookup's line counts. A lookup by someone else is reported with its SHA. |
| Fetcher.CheckPushedCommit | internal/github/fetcher.go:109-164 | The nil checks, the lookup, the author-or-committer test and the line counts give exactly the record `Verify` accepts, or nothing. |
| Fetcher.CommitsOfPush | internal/github/fetcher.go:109-165 | The commits of one push are the verified commits in payload order. |
| Fetcher.CommitsOfPage | internal/github/fetcher.go:83-168 | One page yields, in order, the verified commits of its in-window PushEvents with a decodable payload. |
| Fetcher.CommitsOfEvent | internal/github/fetcher.go:84-108 | One event's body of the page loop gives exactly `EventCommits`: nothing for an event without a time or outside the window, and the verified commits of an in-window push. |
| Fetcher.EventCommits | internal/github/fetcher.go:84-108 | An event contributes commits only if it is an in-window PushEvent whose payload decodes. |
| Fetcher.EventCommitsFacts | internal/github/fetcher.go:85-164 | A commit that comes from an event comes from an in-window PushEvent. It has that event's time and repository and passed the lookup check. |
| Fetcher.FetchCommits | internal/github/fetcher.go:73-179 | The result is the walk `Gather` over the timeline. Every returned commit is in the window, is confirmed by the lookup and has the time and repository of a listed PushEvent. |
| Fetcher.FetchedCommitsVerified | internal/github/fetcher.go:83-164 | Every commit a successful walk returns is in the window and verified. It matches a PushEvent on a requested page. |
| Fetcher.EventReviews | internal/github/fetcher.go:316-364 | An event gives at most one review. It gives one iff it is an in-window PullRequestReviewEvent whose payload decodes and whose review's user login is the user. The review then carries the event's time and repository. |
| Fetcher.ReviewsOfPage | internal/github/fetcher.go:316-365 | One page yields the reviews of its events in order. |
| Fetcher.ReviewsOfEvent | internal/github/fetcher.go:316-364 | One event's body of the page loop gives exactly `EventReviews`. |
| Fetcher.EventReviewFacts | internal/github/fetcher.go:316-364 | A review an event contributes is in the window and carries the time and repository of a review event by the user. |
| Fetcher.FetchReviews | internal/github/fetcher.go:306-375 | The result is the walk `Gather` over the review walk's own timeline listing. Every review is in the window and is the review of an event by the user on a listed page, with that event's time and repository. |
| Fetcher.FetchedReviewsByUser | internal/github/fetcher.go:316-351 | Every review a successful walk returns is in the window. It is the review of a review event by the user on a requested page, and has that event's time and repository. |
| Fetcher.ReviewStageCanFail | internal/github/fetcher.go:59-65 | With the commit walk and both searches succeeding, the review walk can still fail on its own listing. The assembled result is then the review-stage error, so that error is reachable. |
| Fetcher.PullRequestOf | internal/github/fetcher.go:207-237 | Search fields are copied, with nil read as the zero value. If the repository splits and the detail lookup succeeds, the lookup gives the line counts and a non-nil merged time replaces the closed time. Otherwise there are 0 lines and MergedAt is the search's ClosedAt. |
| Fetcher.IssueOf | internal/github/fetcher.go:276-291 | Search fields are copied, with nil read as the zero value. ClosedAt is kept as a pointer. |
| Fetcher.PullRequestsOfPage | internal/github/fetcher.go:202-240 | One page yields one pull request per pull-request result, in order. |
| Fetcher.PullRequestOfItem | internal/github/fetcher.go:207-237 | The per-result body of the page loop builds exactly `PullRequestOf`. |
| Fetcher.IssuesOfPage | internal/github/fetcher.go:271-294 | One page yields one issue per result that is not a pull request, in order. |
| Fetcher.IssueOfItem | internal/github/fetcher.go:276-291 | The per-result body of the page loop builds exactly `IssueOf`. |
| Fetcher.FetchPullRequests | internal/github/fetcher.go:182-249 | The result is the walk `Gather` over the pull-request search. |
| Fetcher.FetchIssues | internal/github/fetcher.go:252-303 | The result is the walk `Gather` over the issue search. |
| Fetcher.SearchSplit | internal/github/fetcher.go:202-205 | On a list of results, pull requests number as many as the pull-request results. Issues number as many as the rest. |
| Fetcher.SearchProvenance | internal/github/fetcher.go:202-294 | Every pull request is built from a pull-request result. Every issue is built from a result that is not one. |
| Fetcher.SumCollected | internal/github/fetcher.go:77-178 | The total of a field over the records collected from a list of pages is the sum of the per-page totals. |
| Fetcher.CommitLinesByPage | internal/github/fetcher.go:83-178 | For a successful commit walk, the added and deleted lines of all returned commits are the sums over the requested pages of each page's commit lines. |
| Fetcher.DuplicatesKept | internal/github/fetcher.go:202-240 | A pull-request result listed twice gives two equal records. Nothing is deduplicated. |
| Fetcher.AssembleOk | internal/github/fetcher.go:22-70 | The fetch succeeds exactly when all four stages succeed. The activity is then the user's window with the four stage results unchanged. |
| Fetcher.AssembleError | internal/github/fetcher.go:22-70 | A failed fetch carries the error of the stage it names, and every earlier stage succeeded, so a later stage never masks an earlier failure. |
| Fetcher.FetchActivities | internal/github/fetcher.go:22-70 | Commits, pull requests, issues and reviews are fetched in that order, and the result is `Assemble` of the four walk results. `Assemble` returns the first failing stage's error, tagged with the stage, or else the activity holding the four results. Commits come from the `events` listing and reviews from the separate `reviewEvents` listing. Its commits are in the window and verified, and its reviews are in the window. |
| Fetcher.FetchError.Message | internal/github/fetcher.go:34-64 | The error text starts with "failed to fetch " and ends with the listing error. The next character names the stage: c, p, i or r for commits, pull requests, issues or reviews. |
| Config.Validate | internal/config/config.go:95-109 | Valid iff there is at least one GitHub token, the LLM API key is set and the provider is openai, claude, deepseek or custom. Otherwise the error is the first rule broken, in that order. |
| Config.ConfigError.Message | internal/config/config.go:95-109 | The first character tells the three errors apart. A refused provider's text starts with "invalid LLM provider: " and ends with the provider. |
| Handler.TrimPrefix | internal/api/handler.go:39 | The prefix is removed once if present, and the input is kept otherwise. |
| Handler.Authorized | internal/api/handler.go:36-47 | The request passes iff the header is "Bearer " + token, or does not start with "Bearer " and equals the token. |
| Handler.OneBearerRemoved | internal/api/handler.go:39-41 | Only one "Bearer " is removed: "Bearer Bearer t" matches the token "Bearer t" but not "t". |
| Handler.MissingHeaderPassesEmptyToken | internal/api/handler.go:36-41 | With an empty webhook token, a request without the header passes. |
| Handler.AsciiSpace | internal/api/handler.go:146 | Below U+0080, `IsSpace`, the white-space set of `strings.TrimSpace` (Go's `unicode.IsSpace`), holds exactly for space and for tab through carriage return. |
| Handler.LeadingSpace | internal/api/handler.go:146 | Counts the white space that starts the string. |
| Handler.TrailingSpace | internal/api/handler.go:146 | Finds where the white space that ends the string starts. |
| Handler.TrimSpace | internal/api/handler.go:146 | The result is a stretch of the input with only white space before and after it, and it neither starts nor ends with white space. |
| Handler.TrimSpaceIdempotent | internal/api/handler.go:146 | Trimming a trimmed name changes nothing. |
| Handler.FirstMatch | internal/api/handler.go:152-158 | Finds the index of the first entry for the user, with no earlier entry for them, or reports that there is none. |
| Handler.TokenFor | internal/api/handler.go:151-170 | The first entry for the user gives the token if that token is non-empty. Otherwise the first entry's token is used. With no entries or an empty token, the error is "no GitHub token configured". A chosen token is never empty. |
| Handler.SelectToken | internal/api/handler.go:151-170 | The scan with `break` chooses exactly `TokenFor`. |
| Handler.ResolveToken | internal/api/handler.go:146-170 | The username is trimmed, and the trimmed name chooses the token. |
| Handler.ValidatedConfigSelects | internal/api/handler.go:160-170 | With a validated configuration whose first token is non-empty, a token is always chosen. |
| Handler.ValidatedConfigMayLackToken | internal/api/handler.go:151-170 | `Validate` does not look at token contents. If a validated configuration's first token is empty and the user's entries hold only empty tokens, the choice fails with "no GitHub token configured". |
| Handler.EmptyTokenValidates | internal/api/handler.go:151-170 | A configuration whose only entry has an empty token passes `Validate`, and the token choice for that entry's user fails. |

## Left out

- Logging (`println`, `log`), the Feishu error notifications and the search query text are output or formatting only, so they are not modelled.
- Search window: the model does not filter pull requests or issues by time. The `created:since..until` qualifier in the query text is what restricts them, and that is up to GitHub.
- Context cancellation, timeouts, rate limits and OAuth client construction (`internal/github/client.go`) are left out. They are I/O, and a failed call is what the oracles give instead.
- 64-bit integers: line counts, numbers and the statistics are unbounded integers, so Go `int` overflow is not modelled.
- A nil event `Type` and a nil pushed-commit `Author` make the Go code dereference nil. The model cannot represent them: `Event.kind` is a plain string, and a pushed commit's author is always present (only its name may be nil).
- Fetcher.FetchCommits: requires that every skipped, non-authored commit on a visited page has a SHA of at least 7 characters. The Go code slices `(*commit.SHA)[:7]` there, which panics below 7 bytes. The model counts characters instead of bytes; the two agree for the hexadecimal SHAs GitHub returns.
- Fetcher.FetchActivities: requires that all four listings end, even those of stages an earlier failure skips. A walk whose `NextPage` chain cycles forever is not modelled.
- The webhook token lives in a `Webhook` section that `internal/config/config.go` does not declare. `Handler.Authorized` takes the configured token as a parameter.
- `config.Load`, the report builder, the LLM clients, the notifier, the scheduler and `main` are not part of this model.
- Nil chains such as `event.Repo.Name` and `review.User.Login` are collapsed into one optional field each. A nil anywhere in the chain is a missing value.
