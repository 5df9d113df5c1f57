/**
 * The browser-side `getJobs` helper: it turns the search form's filters into
 * a query string for `GET /api/jobs` and turns a failed response into an error.
 */
module GetJobsQuery {
  import opened Wrappers
  import opened Seqs
  import opened Entities
  import opened UrlParams
  import opened JobsRoute

  /** The pairs `getJobs` appends: one per truthy filter, in the order q, type, location. */
  function QueryFor(f: Filters): (r: seq<Param>)
    ensures |r| <= 3
    ensures forall i :: 0 <= i < |r| ==> r[i].value != ""
  {
    (if Truthy(f.q) then [Param("q", f.q.value)] else [])
    + (if Truthy(f.jobType) then [Param("type", f.jobType.value)] else [])
    + (if Truthy(f.location) then [Param("location", f.location.value)] else [])
  }

  /** `new URLSearchParams()` followed by the three conditional `append` calls. */
  method BuildParams(f: Filters) returns (params: seq<Param>)
    ensures params == QueryFor(f)
  {
    params := [];
    if Truthy(f.q) {
      params := params + [Param("q", f.q.value)];
    }
    if Truthy(f.jobType) {
      params := params + [Param("type", f.jobType.value)];
    }
    if Truthy(f.location) {
      params := params + [Param("location", f.location.value)];
    }
  }

  /** Position of a key in the fixed append order. */
  function KeyRank(key: string): int
  {
    if key == "q" then 0 else if key == "type" then 1 else if key == "location" then 2 else 3
  }

  /**
   * At most three pairs, keys strictly in the order q, type, location (so no
   * key twice), and a key is present iff its filter is truthy, with its value.
   */
  lemma QueryShape(f: Filters)
    ensures |QueryFor(f)| <= 3
    ensures forall i, k :: 0 <= i < k < |QueryFor(f)| ==> KeyRank(QueryFor(f)[i].key) < KeyRank(QueryFor(f)[k].key)
    ensures forall i :: 0 <= i < |QueryFor(f)| ==> KeyRank(QueryFor(f)[i].key) < 3
    ensures Truthy(f.q) <==> Param("q", f.q.GetOr("")) in QueryFor(f)
    ensures Truthy(f.jobType) <==> Param("type", f.jobType.GetOr("")) in QueryFor(f)
    ensures Truthy(f.location) <==> Param("location", f.location.GetOr("")) in QueryFor(f)
  {
  }

  /** No filters, no parameters. */
  lemma NoFiltersNoParams(f: Filters)
    requires !Truthy(f.q) && !Truthy(f.jobType) && !Truthy(f.location)
    ensures QueryFor(f) == []
  {
  }

  /** The filters with empty strings replaced by absent ones. */
  function Normalized(f: Filters): (g: Filters)
    ensures NoEmptyFilter(g)
    ensures NoEmptyFilter(f) ==> g == f
    ensures Truthy(f.q) ==> g.q == f.q
    ensures !Truthy(f.q) ==> g.q.None?
    ensures Truthy(f.jobType) ==> g.jobType == f.jobType
    ensures !Truthy(f.jobType) ==> g.jobType.None?
    ensures Truthy(f.location) ==> g.location == f.location
    ensures !Truthy(f.location) ==> g.location.None?
  {
    Filters(OrUndefined(f.q), OrUndefined(f.jobType), OrUndefined(f.location))
  }

  /**
   * Round trip: the route reads back exactly the filters the client sent,
   * except that an empty filter arrives as an absent one.
   */
  lemma {:induction false} RoundTrip(f: Filters)
    ensures ReadFilters(QueryFor(f)) == Normalized(f)
    ensures NoEmptyFilter(f) ==> ReadFilters(QueryFor(f)) == f
  {
    var p := QueryFor(f);
    var a := if Truthy(f.q) then [Param("q", f.q.value)] else [];
    var b := if Truthy(f.jobType) then [Param("type", f.jobType.value)] else [];
    var c := if Truthy(f.location) then [Param("location", f.location.value)] else [];
    assert p == a + b + c;
    assert Get(p, "q") == (if Truthy(f.q) then f.q else None) by {
      if Truthy(f.q) { assert p[0] == Param("q", f.q.value); }
    }
    assert Get(p, "type") == (if Truthy(f.jobType) then f.jobType else None) by {
      if Truthy(f.jobType) { assert p[|a|] == Param("type", f.jobType.value); }
    }
    assert Get(p, "location") == (if Truthy(f.location) then f.location else None) by {
      if Truthy(f.location) { assert p[|a| + |b|] == Param("location", f.location.value); }
    }
  }

  /** Matching ignores whether an empty filter is sent as "" or left out. */
  lemma NormalizedMatchesAlike(job: Job, f: Filters)
    ensures Matches(job, Normalized(f)) <==> Matches(job, f)
  {
  }

  /** Searching through the query string gives the same jobs as searching with the form's filters. */
  lemma {:induction false} SearchThroughQuery(jobs: seq<Job>, users: map<string, User>, f: Filters)
    ensures ListJobs(jobs, users, QueryFor(f)) == WithOwners(SearchJobs(jobs, f), users)
  {
    RoundTrip(f);
    forall i | 0 <= i < |jobs| ensures Matches(jobs[i], Normalized(f)) == Matches(jobs[i], f) {
      NormalizedMatchesAlike(jobs[i], f);
    }
    FilterAgree(jobs, (j: Job) => Matches(j, Normalized(f)), (j: Job) => Matches(j, f));
  }

  /** What `fetch` hands back: the status code and the decoded JSON body. */
  datatype Response = Response(status: int, body: seq<Listing>)

  /** `Response.ok`: a status in the range 200-299. */
  predicate Ok(res: Response)
  {
    200 <= res.status <= 299
  }

  const FetchError := "Failed to fetch jobs"

  /**
   * `getJobs(filters)`. The network round trip is the parameter `fetch`,
   * given the query parameters it is called with.
   */
  method GetJobs(f: Filters, fetch: seq<Param> -> Response) returns (r: Result<seq<Listing>, string>)
    ensures Ok(fetch(QueryFor(f))) ==> r == Success(fetch(QueryFor(f)).body)
    ensures !Ok(fetch(QueryFor(f))) ==> r == Failure(FetchError)
  {
    var params := BuildParams(f);
    var res := fetch(params);
    if !Ok(res) {
      return Failure(FetchError);
    }
    r := Success(res.body);
  }
}
