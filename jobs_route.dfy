/**
 * The `/api/jobs` route: `GET` searches the job table with three optional
 * filters, newest first; `POST` creates a job owned by the signed-in user.
 */
module JobsRoute {
  import opened Wrappers
  import opened Text
  import opened Seqs
  import opened Entities
  import opened UrlParams

  /** The three search filters; each may be absent. */
  datatype Filters = Filters(q: Option<string>, jobType: Option<string>, location: Option<string>)

  const NoFilters := Filters(None, None, None)

  /** Every filter is either absent or a non-empty string. */
  predicate NoEmptyFilter(f: Filters)
  {
    (f.q.None? || Truthy(f.q)) && (f.jobType.None? || Truthy(f.jobType)) && (f.location.None? || Truthy(f.location))
  }

  /** Reading the filters off the request URL, with `get(..) || undefined`. */
  function ReadFilters(params: seq<Param>): (f: Filters)
    ensures NoEmptyFilter(f)
    ensures Truthy(Get(params, "q")) ==> f.q == Get(params, "q")
    ensures !Truthy(Get(params, "q")) ==> f.q.None?
    ensures Truthy(Get(params, "type")) ==> f.jobType == Get(params, "type")
    ensures !Truthy(Get(params, "type")) ==> f.jobType.None?
    ensures Truthy(Get(params, "location")) ==> f.location == Get(params, "location")
    ensures !Truthy(Get(params, "location")) ==> f.location.None?
  {
    Filters(OrUndefined(Get(params, "q")), OrUndefined(Get(params, "type")), OrUndefined(Get(params, "location")))
  }

  /** The keyword occurs, ignoring case, in the title, the company or the description. */
  predicate KeywordMatches(job: Job, q: string)
    ensures q == "" ==> KeywordMatches(job, q)
    ensures ContainsInsensitive(job.description, q) ==> KeywordMatches(job, q)
  {
    || ContainsInsensitive(job.title, q)
    || ContainsInsensitive(job.company, q)
    || ContainsInsensitive(job.description, q)
  }

  /**
   * The `where: { AND: [...] }` clause: each truthy filter adds one conjunct,
   * each absent or empty filter adds `{}`, which holds of every job.
   */
  predicate Matches(job: Job, f: Filters)
    ensures !Truthy(f.q) && !Truthy(f.jobType) && !Truthy(f.location) ==> Matches(job, f)
  {
    && (Truthy(f.q) ==> KeywordMatches(job, f.q.value))
    && (Truthy(f.jobType) ==> job.jobType == f.jobType.value)
    && (Truthy(f.location) ==> ContainsInsensitive(job.location, f.location.value))
  }

  /** The jobs of the table that satisfy the `where` clause, in table order. */
  function Matching(jobs: seq<Job>, f: Filters): (r: seq<Job>)
    ensures |r| <= |jobs|
    ensures forall i :: 0 <= i < |r| ==> Matches(r[i], f) && r[i] in jobs
  {
    Filter(jobs, (j: Job) => Matches(j, f))
  }

  /** `findMany({ where, orderBy: { postedAt: "desc" } })`. */
  function SearchJobs(jobs: seq<Job>, f: Filters): (r: seq<Job>)
    ensures |r| <= |jobs|
    ensures SortedDesc(r, PostedAt)
  {
    SortDesc(Matching(jobs, f), PostedAt)
  }

  /** One element of the JSON array: the job with its owner's user record. */
  datatype Listing = Listing(job: Job, postedBy: Option<User>)

  function WithOwners(jobs: seq<Job>, users: map<string, User>): (r: seq<Listing>)
    ensures |r| == |jobs|
    ensures forall i :: 0 <= i < |r| ==> r[i].job == jobs[i] && r[i].postedBy == Owner(users, jobs[i])
  {
    seq(|jobs|, i requires 0 <= i < |jobs| => Listing(jobs[i], Owner(users, jobs[i])))
  }

  /** `GET /api/jobs?<params>`: the response body. */
  function ListJobs(jobs: seq<Job>, users: map<string, User>, params: seq<Param>): (r: seq<Listing>)
    ensures forall i :: 0 <= i < |r| ==> r[i].postedBy == Owner(users, r[i].job)
  {
    WithOwners(SearchJobs(jobs, ReadFilters(params)), users)
  }

  /**
   * The search result is exactly the matching jobs of the table, each as often
   * as it occurs there, ordered by `postedAt` from newest to oldest.
   */
  lemma SearchJobsSpec(jobs: seq<Job>, f: Filters)
    ensures SortedDesc(SearchJobs(jobs, f), PostedAt)
    ensures forall j :: multiset(SearchJobs(jobs, f))[j] == if Matches(j, f) then multiset(jobs)[j] else 0
    ensures forall i :: 0 <= i < |SearchJobs(jobs, f)| ==> Matches(SearchJobs(jobs, f)[i], f)
  {
    var m := Matching(jobs, f);
    SortDescCounts(m, PostedAt);
    forall j ensures multiset(SearchJobs(jobs, f))[j] == if Matches(j, f) then multiset(jobs)[j] else 0 {
      FilterCounts(jobs, (j: Job) => Matches(j, f), j);
    }
    forall i | 0 <= i < |SearchJobs(jobs, f)| ensures Matches(SearchJobs(jobs, f)[i], f) {
      var j := SearchJobs(jobs, f)[i];
      assert j in multiset(SearchJobs(jobs, f));
      FilterCounts(jobs, (j: Job) => Matches(j, f), j);
    }
  }

  /** The GET response: every listed job satisfies every supplied filter, newest first, none missing. */
  lemma {:induction false} ListJobsSpec(jobs: seq<Job>, users: map<string, User>, params: seq<Param>)
    ensures var r := ListJobs(jobs, users, params);
            && (forall i :: 0 <= i < |r| ==> Matches(r[i].job, ReadFilters(params)) && r[i].job in jobs)
            && (forall i, k :: 0 <= i < k < |r| ==> r[i].job.postedAt >= r[k].job.postedAt)
            && (forall j :: j in jobs && Matches(j, ReadFilters(params)) ==> exists i :: 0 <= i < |r| && r[i].job == j)
  {
    var f := ReadFilters(params);
    var s := SearchJobs(jobs, f);
    var r := ListJobs(jobs, users, params);
    SearchJobsSpec(jobs, f);
    forall i | 0 <= i < |r| ensures r[i].job in jobs {
      assert r[i].job == s[i];
      assert s[i] in multiset(s);
    }
    forall j | j in jobs && Matches(j, f) ensures exists i :: 0 <= i < |r| && r[i].job == j {
      assert j in multiset(jobs);
      assert j in multiset(s);
      var i :| 0 <= i < |s| && s[i] == j;
      assert r[i].job == j;
    }
  }

  /** An absent filter and an empty one impose no constraint: every job matches no filters at all. */
  lemma EmptyFiltersMatchAll(job: Job)
    ensures Matches(job, NoFilters)
    ensures Matches(job, Filters(Some(""), Some(""), Some("")))
  {
  }

  /** The filters combine by AND: a job matches all three iff it matches each one on its own. */
  lemma FiltersAreConjunctive(job: Job, f: Filters)
    ensures Matches(job, f) <==>
              && Matches(job, Filters(f.q, None, None))
              && Matches(job, Filters(None, f.jobType, None))
              && Matches(job, Filters(None, None, f.location))
  {
  }

  /**
   * The keyword filter: any one of title, company and description suffices,
   * matched ignoring case; `type` is compared exactly, with case.
   */
  lemma KeywordAndTypeSemantics(job: Job, q: string, t: string)
    requires q != "" && t != ""
    ensures Matches(job, Filters(Some(q), None, None)) <==>
              || (exists i :: 0 <= i <= |job.title| && Lower(q) <= Lower(job.title)[i..])
              || (exists i :: 0 <= i <= |job.company| && Lower(q) <= Lower(job.company)[i..])
              || (exists i :: 0 <= i <= |job.description| && Lower(q) <= Lower(job.description)[i..])
    ensures Matches(job, Filters(None, Some(t), None)) <==> job.jobType == t
  {
    ContainsAtOffset(Lower(job.title), Lower(q));
    ContainsAtOffset(Lower(job.company), Lower(q));
    ContainsAtOffset(Lower(job.description), Lower(q));
  }

  /** The location filter matches iff it occurs, ignoring case, anywhere in the job's location. */
  lemma LocationSemantics(job: Job, l: string)
    requires l != ""
    ensures Matches(job, Filters(None, None, Some(l))) <==>
              exists i :: 0 <= i <= |job.location| && Lower(l) <= Lower(job.location)[i..]
  {
    ContainsAtOffset(Lower(job.location), Lower(l));
  }

  /** With no query parameters, GET returns the whole table, newest first. */
  lemma {:induction false} NoParamsListsEverything(jobs: seq<Job>, users: map<string, User>)
    ensures ReadFilters([]) == NoFilters
    ensures ListJobs(jobs, users, []) == WithOwners(SortDesc(jobs, PostedAt), users)
    ensures multiset(SearchJobs(jobs, NoFilters)) == multiset(jobs)
  {
    FilterAll(jobs, (j: Job) => Matches(j, NoFilters));
    SortDescCounts(jobs, PostedAt);
  }

  /**
   * Two jobs at one company, the first posted later: a keyword search lists
   * both newest first, and each narrower filter keeps only the job it fits.
   */
  lemma {:induction false} SearchExample()
    ensures var a := Job("a", "Backend Engineer", "Acme", "Remote", "Full-time", "Builds APIs", None, 2, "u1");
            var b := Job("b", "Designer", "Acme", "NYC", "Contract", "Draws", None, 1, "u2");
            && SearchJobs([b, a], Filters(Some("acme"), None, None)) == [a, b]
            && SearchJobs([b, a], Filters(None, Some("Contract"), None)) == [b]
            && SearchJobs([b, a], Filters(None, None, Some("remote"))) == [a]
            && SearchJobs([b, a], Filters(Some("acme"), Some("Contract"), None)) == [b]
  {
    var a := Job("a", "Backend Engineer", "Acme", "Remote", "Full-time", "Builds APIs", None, 2, "u1");
    var b := Job("b", "Designer", "Acme", "NYC", "Contract", "Draws", None, 1, "u2");
    assert Lower("Acme") == "acme";
    assert Lower("acme") == "acme";
    assert Lower("Remote") == "remote" && Lower("remote") == "remote";
    assert Contains("acme", "acme");
    assert Contains("remote", "remote");
    assert Lower("NYC") == "nyc";
    assert !Contains("nyc", "remote");
    assert Matches(a, Filters(Some("acme"), None, None)) && Matches(b, Filters(Some("acme"), None, None));
    assert !Matches(a, Filters(None, Some("Contract"), None)) && Matches(b, Filters(None, Some("Contract"), None));
    assert Matches(a, Filters(None, None, Some("remote"))) && !Matches(b, Filters(None, None, Some("remote")));
    assert [b, a][1..] == [a];
  }

  // ---------------------------------------------------------------- POST

  /** The JSON body of a POST; nothing about it is validated, and its `postedById` is ignored. */
  datatype JobPayload = JobPayload(
    title: string,
    company: string,
    location: string,
    jobType: string,
    description: string,
    salary: Option<string>,
    postedById: Option<string>)

  datatype PostResponse =
    | Redirect(location: string)
    | Created(job: Job)
    | ServerError(status: int, message: string)

  const SignInPath := "/sign-in"
  const InternalServerError := ServerError(500, "Internal server error")

  /**
   * `{ ...data, postedById: session.user.id }`: the payload's fields, with the
   * owner taken from the session; the id and the timestamp come from the store.
   */
  function NewJob(payload: JobPayload, owner: string, id: string, now: int): (j: Job)
    ensures j.postedById == owner
    ensures j.id == id && j.postedAt == now
    ensures && j.title == payload.title && j.company == payload.company && j.location == payload.location
            && j.jobType == payload.jobType && j.description == payload.description && j.salary == payload.salary
  {
    Job(id, payload.title, payload.company, payload.location, payload.jobType,
        payload.description, payload.salary, now, owner)
  }

  /** Whatever owner the payload names, the created job is the same. */
  lemma OwnerComesFromSession(payload: JobPayload, claimed: Option<string>, owner: string, id: string, now: int)
    ensures NewJob(payload.(postedById := claimed), owner, id, now) == NewJob(payload, owner, id, now)
  {
  }

  /** The job table, as far as the route reads and writes it. */
  class JobStore {
    var jobs: seq<Job>

    ghost predicate Valid()
      reads this
    {
      UniqueIds(jobs)
    }

    constructor ()
      ensures Valid() && jobs == []
    {
      jobs := [];
    }

    /**
     * `POST /api/jobs`. `newId` and `now` are the store's generated id and
     * clock; `storeFails` stands for any rejection of the insert by the store.
     * An id that is already taken violates the primary key and fails too.
     */
    method Post(session: Option<Session>, payload: JobPayload, newId: string, now: int, storeFails: bool)
      returns (response: PostResponse)
      requires Valid()
      modifies this
      ensures Valid()
      ensures SessionUserId(session).None? ==> response == Redirect(SignInPath) && jobs == old(jobs)
      ensures SessionUserId(session).Some? && (storeFails || newId in IdSet(old(jobs))) ==>
                response == InternalServerError && jobs == old(jobs)
      ensures SessionUserId(session).Some? && !storeFails && newId !in IdSet(old(jobs)) ==>
                && response == Created(NewJob(payload, SessionUserId(session).value, newId, now))
                && jobs == old(jobs) + [response.job]
      ensures response.Created? ==> response.job.postedById == SessionUserId(session).value
    {
      var owner := SessionUserId(session);
      if owner.None? {
        return Redirect(SignInPath);
      }
      if storeFails || newId in IdSet(jobs) {
        return InternalServerError;
      }
      var job := NewJob(payload, owner.value, newId, now);
      UniqueIdsAppend(jobs, job);
      jobs := jobs + [job];
      response := Created(job);
    }
  }

  /** A job the POST created is listed by a GET without filters. */
  lemma {:induction false} CreatedJobIsListed(jobs: seq<Job>, users: map<string, User>, job: Job)
    ensures exists i :: 0 <= i < |ListJobs(jobs + [job], users, [])| && ListJobs(jobs + [job], users, [])[i].job == job
  {
    ListJobsSpec(jobs + [job], users, []);
    NoParamsListsEverything(jobs + [job], users);
    EmptyFiltersMatchAll(job);
    assert (jobs + [job])[|jobs|] == job;
    assert job in jobs + [job] && Matches(job, ReadFilters([]));
  }
}
