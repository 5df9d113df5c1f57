# Job board: search, posting and dashboard logic

A model, in Dafny, of the server and client logic of a small job-board web
application. The application lets signed-in users post jobs, search the job
table, and see a dashboard of their postings and applications. Almost all of
it is page rendering; the part modelled here is the record logic under it:

- `GET /api/jobs` (module `JobsRoute`): three optional filters (`q`, `type`,
  `location`) read from the query string with `get(..) || undefined`, a
  conjunctive `where` clause (keyword in title, company or description,
  ignoring case; exact type; location substring, ignoring case), ordering
  by `postedAt` descending, and the owner join.
- `POST /api/jobs` (class `JobsRoute.JobStore`): the session gate (no user id
  means a redirect to `/sign-in` and no insert) and the insert, whose owner is
  always the session's user, whatever the payload says; a failed insert
  answers 500 and adds nothing.
- The client helper `getJobs` (module `GetJobsQuery`): up to three conditional
  `append` calls on a parameter list, and the non-OK response check.
- The dashboard (module `Dashboard`): the user's applications (newest first,
  each with its job and the job's owner), the user's posted jobs (newest
  first, each with its application count) and the four counters.
- The home page (module `HomePage`): the three newest jobs with the owner's name.

The data store is modelled in memory: the job table is a `seq<Job>`, the
application table a `seq<Application>`, users a `map` from id to `User`.
Ids are strings; the store's primary key on jobs is the predicate
`Entities.UniqueIds`, which `JobStore` keeps as its invariant. Case-insensitive
matching is ASCII lower-casing of both sides followed by a substring test
(`Text`). The store's `orderBy ... desc` is a stable insertion sort
(`Seqs.SortDesc`); everything proved about it is sortedness plus being a
permutation, which any store ordering also satisfies.

Session, clock, generated ids, the network and the store's failures are
inputs: `Option<Session>`, `now`, `newId`, a `fetch` function and a
`storeFails` flag.

The job type is a free string compared exactly: the post and search forms
offer four values (app/jobs/post/page.tsx:88-91, app/jobs/page.tsx:62-65),
but the route accepts and matches any string. An empty filter string is the
same as an absent one (the route's `|| undefined`).

## Model

| member | source | states |
|---|---|---|
| `UrlParams.Get` | app/api/jobs/route.ts:8-10 | `searchParams.get`: absent iff no pair has the key; otherwise the value of the first pair with that key |
| `UrlParams.OrUndefined` | app/api/jobs/route.ts:8-10 | `v \|\| undefined`: a non-empty value is kept, a missing or empty one becomes absent |
| `JobsRoute.ReadFilters` | app/api/jobs/route.ts:7-10 | each filter is the first value of its query parameter when that value is non-empty, and absent when the parameter is missing or empty |
| `Text.ContainsAtOffset` | app/api/jobs/route.ts:18-20 | `contains` is substring search: it holds iff the needle starts at some offset of the haystack |
| `Text.InsensitiveToCase` | app/api/jobs/route.ts:18-20 | `mode: "insensitive"`: upper-casing the searched text or the search term does not change whether it matches |
| `Text.ContainsInsensitive` | app/api/jobs/route.ts:18-20 | `contains` with `mode: "insensitive"`: the empty term and any term whose lower-cased text occurs at the start of the lower-cased field match; the full meaning is in `Text.ContainsAtOffset` and `Text.InsensitiveToCase` |
| `JobsRoute.Matches` | app/api/jobs/route.ts:13-26 | the `where: { AND: [...] }` predicate; with no non-empty filter every job matches; conjunction and per-filter meaning in `JobsRoute.FiltersAreConjunctive`, `JobsRoute.KeywordAndTypeSemantics` and `JobsRoute.LocationSemantics` |
| `JobsRoute.LocationSemantics` | app/api/jobs/route.ts:25 | a non-empty location filter matches iff it occurs, ignoring ASCII case, at some offset of the job's location (a substring, not only a prefix) |
| `JobsRoute.KeywordMatches` | app/api/jobs/route.ts:15-22 | the `OR` over title, company and description; its meaning as an offset match in any one field is in `JobsRoute.KeywordAndTypeSemantics` |
| `JobsRoute.Matching` | app/api/jobs/route.ts:13-26 | the rows the `where` clause selects all match and come from the table; completeness in `JobsRoute.SearchJobsSpec` |
| `JobsRoute.SearchJobs` | app/api/jobs/route.ts:12-28 | `findMany` with `orderBy: { postedAt: "desc" }`: newest first, never more rows than the table; permutation of the matching subset in `JobsRoute.SearchJobsSpec` |
| `JobsRoute.SearchJobsSpec` | app/api/jobs/route.ts:12-29 | the search result is sorted by `postedAt` descending, every element satisfies the filters, and each job occurs exactly as often as in the table if it matches, else never (a permutation of the matching subset) |
| `JobsRoute.ListJobsSpec` | app/api/jobs/route.ts:6-31 | every listed job is in the table and satisfies every supplied filter, the list is newest first, and every matching job of the table is listed |
| `JobsRoute.ListJobs` | app/api/jobs/route.ts:29 | each listed job carries its owner's user record (`include: { postedBy: true }`) |
| `JobsRoute.WithOwners` | app/api/jobs/route.ts:29 | the owner join keeps the jobs and their order and attaches each one's owner |
| `JobsRoute.EmptyFiltersMatchAll` | app/api/jobs/route.ts:15-25 | an absent filter and an empty-string filter impose no constraint |
| `JobsRoute.FiltersAreConjunctive` | app/api/jobs/route.ts:13-26 | a job matches the three filters iff it matches each one alone (logical AND) |
| `JobsRoute.KeywordAndTypeSemantics` | app/api/jobs/route.ts:15-24 | the keyword matches iff it occurs, ignoring case, in the title, the company or the description (any one suffices); `type` matches iff exactly equal, with case |
| `JobsRoute.NoParamsListsEverything` | app/api/jobs/route.ts:8-29 | with no query parameters the filters are all absent and GET returns the whole table, newest first |
| `JobsRoute.SearchExample` | app/api/jobs/route.ts:12-30 | two jobs at "Acme": keyword "acme" lists both newest first; type "Contract", location "remote", and keyword plus type each keep exactly the one job they fit |
| `JobsRoute.NewJob` | app/api/jobs/route.ts:44-47 | the created record's owner is the session's user; title, company, location, type, description and salary are the payload's; id and timestamp are the store's |
| `JobsRoute.OwnerComesFromSession` | app/api/jobs/route.ts:44-47 | an owner id in the payload has no effect on the created job |
| `Entities.SessionUserId` | app/api/jobs/route.ts:37 | the acting identity exists iff there is a session with a user whose id is a non-empty string, and it is then that id |
| `JobsRoute.JobStore.Post` | app/api/jobs/route.ts:34-56 | without a session user id: redirect to `/sign-in`, table unchanged; insert failure: 500, table unchanged; otherwise exactly one job appended, built from the payload with the session's user as owner; ids stay unique |
| `JobsRoute.CreatedJobIsListed` | app/api/jobs/route.ts:43-48 | a job appended by POST is listed by a GET without filters |
| `Entities.UniqueIdsAppend` | app/api/jobs/route.ts:43-48 | appending a job whose id is not yet taken keeps job ids unique |
| `Seqs.SortDescCounts` | app/api/jobs/route.ts:28 | the `postedAt: "desc"` ordering is a permutation of its input |
| `Seqs.SortDesc` | app/api/jobs/route.ts:28 | the ordering's output has the input's length and is sorted by the key, largest first |
| `Seqs.FilterCounts` | app/api/jobs/route.ts:13-26 | a `where` clause keeps every occurrence of a satisfying row and no other row |
| `GetJobsQuery.BuildParams` | lib/queries/getJobs.ts:10-14 | the parameter list built by the three conditional appends is `QueryFor(f)` |
| `GetJobsQuery.QueryShape` | lib/queries/getJobs.ts:12-14 | at most three pairs; keys strictly in the order q, type, location, so none twice; a filter's pair is present iff the filter is non-empty |
| `GetJobsQuery.NoFiltersNoParams` | lib/queries/getJobs.ts:10-16 | with no non-empty filter the parameter list is empty |
| `GetJobsQuery.RoundTrip` | lib/queries/getJobs.ts:12-14 | the route reads back exactly the filters sent, empty strings becoming absent; filters without empty strings come back unchanged |
| `GetJobsQuery.Normalized` | lib/queries/getJobs.ts:12-14 | per filter: a non-empty value is kept and a missing or empty one becomes absent; filters with no empty string are left unchanged |
| `GetJobsQuery.QueryFor` | lib/queries/getJobs.ts:12-14 | at most three pairs, none with an empty value; order, uniqueness and round trip in `GetJobsQuery.QueryShape` and `GetJobsQuery.RoundTrip` |
| `GetJobsQuery.NormalizedMatchesAlike` | app/api/jobs/route.ts:15-25 | the route's matching does not distinguish an empty filter from an absent one |
| `GetJobsQuery.SearchThroughQuery` | lib/queries/getJobs.ts:10-16 | searching through the built query string lists the same jobs as searching with the form's filters directly |
| `GetJobsQuery.GetJobs` | lib/queries/getJobs.ts:16-19 | a non-OK response gives the error "Failed to fetch jobs", never a list; an OK response gives its body |
| `Dashboard.StatsSpec` | app/dashboard/page.tsx:45-50 | `totalPostedJobs` is the number of the user's jobs, `totalApplications` the number of the user's applications, `pendingApplications` the number of those that are pending (so at most the total), `totalJobApplications` the number of applications referencing one of the user's jobs |
| `Dashboard.SumCountsIsApplicationsOn` | app/dashboard/page.tsx:32-38 | the `reduce` of per-job application counts over jobs with distinct ids is the start value plus the number of applications on those jobs |
| `Dashboard.ApplicationsOnSplit` | app/dashboard/page.tsx:49 | adding one new job id to a set of ids adds that job's application count |
| `Dashboard.PendingCount` | app/dashboard/page.tsx:48 | joining applications to their jobs does not change how many are pending |
| `Dashboard.FilterLengthPermutation` | app/dashboard/page.tsx:46-48 | the counters do not depend on the order of the query results |
| `Dashboard.ApplicationsListSpec` | app/dashboard/page.tsx:11-25 | the applications listed are, as a multiset, exactly the user's applications; newest first; each with the job it references and that job's owner |
| `Dashboard.PostedJobsListSpec` | app/dashboard/page.tsx:28-42 | the jobs listed are, as a multiset, exactly the user's jobs; newest first; each with its own application count |
| `Dashboard.UserApplications` | app/dashboard/page.tsx:11-25 | the applications query; its contents, order and joins are stated in `Dashboard.ApplicationsListSpec` |
| `Dashboard.UserPostedJobs` | app/dashboard/page.tsx:28-42 | the posted-jobs query; its contents, order and counts are stated in `Dashboard.PostedJobsListSpec` |
| `Dashboard.ApplicationCount` | app/dashboard/page.tsx:32-38 | `_count.applications`: the number of applications referencing the job; summed over the user's jobs in `Dashboard.SumCountsIsApplicationsOn` |
| `Dashboard.DashboardPage` | app/dashboard/page.tsx:9-50 | the page's counters: posted jobs and applications are the lengths of the two lists, pending at most the total; their meaning in `Dashboard.StatsSpec` |
| `Dashboard.ComputeStats` | app/dashboard/page.tsx:45-50 | `totalPostedJobs` and `totalApplications` are the two lengths, `pendingApplications` at most `totalApplications` |
| `Dashboard.SumCounts` | app/dashboard/page.tsx:49 | the `reduce` from a start value is never below it and equals it when every count is zero; its value in `Dashboard.SumCountsIsApplicationsOn` |
| `Dashboard.WithJobs` | app/dashboard/page.tsx:15-21 | the job include keeps the applications and their order; each one's job and owner in `Dashboard.ApplicationsListSpec` |
| `Dashboard.WithCounts` | app/dashboard/page.tsx:32-38 | the `_count` include keeps the jobs and their order; each one's count in `Dashboard.PostedJobsListSpec` |
| `Dashboard.NewUserSeesZeros` | app/dashboard/page.tsx:9-50 | a user with no jobs and no applications gets four zero counters |
| `HomePage.NewestSpec` | app/page.tsx:5-9 | `take` after `orderBy desc`: exactly min(k, table size) jobs, sorted newest first, all from the table, and no job left out is newer than the oldest one returned |
| `HomePage.RecentJobsSpec` | app/page.tsx:5-17 | the home page shows min(3, table size) jobs, at most 3, newest first, each from the table with its owner's name |
| `HomePage.PosterName` | app/page.tsx:10-16 | the name shown is the owner record's name when the owner is known, and none otherwise |
| `HomePage.Newest` | app/page.tsx:5-9 | `take: k` after `orderBy: { postedAt: "desc" }`: exactly min(k, table size) jobs, newest first; top-k in `HomePage.NewestSpec` |
| `HomePage.RecentJobs` | app/page.tsx:5-17 | the cards are the jobs of `Newest(jobs, 3)`, in that order |
| `Entities.Owner` | app/api/jobs/route.ts:29 | `include: { postedBy: true }`: the owner's record exactly when the owner id is a known user |
| `Entities.FindJob` | app/dashboard/page.tsx:15-21 | the job an application references: a table job with that id, or none when no job has it |

## Left out

- Rendering: every page's JSX, the navigation bar, the layouts, date formatting with `formatDistanceToNow`.
- The search page and the posting form (app/jobs/page.tsx, app/jobs/post/page.tsx): UI and request wiring; the search page's `|| undefined` is the same as the route's, modelled once.
- Authentication plumbing (auth.ts, lib/auth.ts): the session is an `Option<Session>` input; `requireAuth`'s own redirect when there is no session is folded into POST's redirect outcome.
- Single-job lookup (app/jobs/[id]/page.tsx) is not part of this model.
- The database: transport errors, atomicity and its Unicode case folding. Matching ignores case for ASCII letters only; every other character must match exactly.
- The order of jobs with equal `postedAt`: the store leaves it unspecified; `Seqs.SortDesc` fixes one, and no lemma depends on which.
- POST payload: fields other than the form's (an `id`, a `postedAt`, unknown keys) that the spread would pass to the store are not modelled; the id and timestamp come from the store. A payload the store rejects (a missing required field) is the `storeFails` outcome. The `console.error` log is left out.
- `JobsRoute.JobStore.Post`: an id collision is treated as a rejected insert (the primary key), which the store's generated ids make practically impossible.
- Dashboard: the page is modelled for a user whose id is present; with no session at all, `requireAuth` redirects to `/sign-in` before any query, which is not modelled. With a session user lacking an id, `?? undefined` makes the store drop the `where` key and both queries return every row; that case is not modelled. The concurrent `Promise.all` is two independent reads of the same tables.
- `Dashboard.StatsSpec`: the fold equals the count of applications on the user's jobs only when job ids are unique, which the lemma requires (the store's primary key).
- `HomePage.RecentJobsSpec`: the top-k property (nothing left out is newer) is stated for `Newest` in `HomePage.NewestSpec`, not repeated here.
- `GetJobsQuery.GetJobs`: `URLSearchParams.toString` percent-encoding and the network are left out; the query is a list of key/value pairs and `fetch` a function parameter.
