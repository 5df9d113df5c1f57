/**
 * The records the pages read and write (User, Job, Application), the
 * signed-in session, and the primary-key facts the data store guarantees.
 */
module Entities {
  import opened Wrappers
  import opened Seqs

  datatype User = User(id: string, name: Option<string>, email: Option<string>)

  datatype Job = Job(
    id: string,
    title: string,
    company: string,
    location: string,
    jobType: string,
    description: string,
    salary: Option<string>,
    postedAt: int,
    postedById: string)

  datatype Status = Pending | Accepted | Rejected

  datatype Application = Application(
    id: string,
    jobId: string,
    userId: string,
    status: Status,
    appliedAt: int)

  /** The session object handed out by the identity provider; every part may be missing. */
  datatype SessionUser = SessionUser(id: Option<string>, name: Option<string>, email: Option<string>)
  datatype Session = Session(user: Option<SessionUser>)

  /** Sort keys of the two `orderBy` clauses. */
  function PostedAt(j: Job): int { j.postedAt }
  function AppliedAt(a: Application): int { a.appliedAt }

  /**
   * The identity a request acts for: present exactly when there is a session,
   * it has a user, and that user's id is truthy (a non-empty string).
   */
  function SessionUserId(session: Option<Session>): (r: Option<string>)
    ensures r.Some? ==> r.value != ""
    ensures r.Some? ==> session.Some? && session.value.user.Some? && r == session.value.user.value.id
    ensures r.Some? <==> session.Some? && session.value.user.Some? && session.value.user.value.id.Some?
                         && session.value.user.value.id.value != ""
  {
    match session
    case None => None
    case Some(s) =>
      match s.user
      case None => None
      case Some(u) => if u.id.Some? && u.id.value != "" then u.id else None
  }

  /** `include: { postedBy: true }`: the user record a job's owner reference points to. */
  function Owner(users: map<string, User>, job: Job): (r: Option<User>)
    ensures r.Some? <==> job.postedById in users
    ensures r.Some? ==> r.value == users[job.postedById]
  {
    if job.postedById in users then Some(users[job.postedById]) else None
  }

  /** Lookup by primary key: the job an application's `jobId` refers to. */
  function FindJob(jobs: seq<Job>, id: string): (r: Option<Job>)
    ensures r.Some? ==> r.value in jobs && r.value.id == id
    ensures r.None? ==> forall i :: 0 <= i < |jobs| ==> jobs[i].id != id
  {
    if jobs == [] then None
    else if jobs[0].id == id then Some(jobs[0])
    else FindJob(jobs[1..], id)
  }

  /** The ids of the jobs in `jobs`. */
  function IdSet(jobs: seq<Job>): set<string>
  {
    if jobs == [] then {} else {jobs[0].id} + IdSet(jobs[1..])
  }

  /** No two jobs share an id (the primary key of the job table). */
  predicate UniqueIds(jobs: seq<Job>)
  {
    |IdSet(jobs)| == |jobs|
  }

  lemma {:induction false} IdSetMembers(jobs: seq<Job>, x: string)
    ensures x in IdSet(jobs) <==> exists j :: j in jobs && j.id == x
  {
    if jobs != [] {
      IdSetMembers(jobs[1..], x);
      assert jobs == [jobs[0]] + jobs[1..];
    }
  }

  lemma {:induction false} IdSetBound(jobs: seq<Job>)
    ensures |IdSet(jobs)| <= |jobs|
  {
    if jobs != [] {
      IdSetBound(jobs[1..]);
    }
  }

  /** With unique ids, the first job's id occurs nowhere else and the rest are unique too. */
  lemma {:induction false} UniqueIdsTail(jobs: seq<Job>)
    requires jobs != [] && UniqueIds(jobs)
    ensures jobs[0].id !in IdSet(jobs[1..])
    ensures UniqueIds(jobs[1..])
  {
    IdSetBound(jobs[1..]);
  }

  lemma {:induction false} IdSetAppend(jobs: seq<Job>, job: Job)
    ensures IdSet(jobs + [job]) == IdSet(jobs) + {job.id}
  {
    if jobs != [] {
      IdSetAppend(jobs[1..], job);
      assert (jobs + [job])[1..] == jobs[1..] + [job];
    }
  }

  /** Appending a job whose id is new keeps the ids unique. */
  lemma {:induction false} UniqueIdsAppend(jobs: seq<Job>, job: Job)
    requires UniqueIds(jobs) && job.id !in IdSet(jobs)
    ensures UniqueIds(jobs + [job])
  {
    IdSetAppend(jobs, job);
  }

  /** Reordering the same jobs keeps the same ids, so it keeps them unique. */
  lemma {:induction false} IdSetPermutation(s: seq<Job>, t: seq<Job>)
    requires multiset(s) == multiset(t)
    ensures IdSet(s) == IdSet(t)
    ensures UniqueIds(s) <==> UniqueIds(t)
  {
    forall x ensures x in IdSet(s) <==> x in IdSet(t) {
      IdSetMembers(s, x);
      IdSetMembers(t, x);
      forall j ensures j in s <==> j in t {
        assert j in s <==> j in multiset(s);
        assert j in t <==> j in multiset(t);
      }
    }
    assert |s| == |multiset(s)| == |multiset(t)| == |t|;
  }

  /** Every id of a filtered table is an id of the table. */
  lemma {:induction false} IdSetFilter(jobs: seq<Job>, p: Job -> bool)
    ensures IdSet(Filter(jobs, p)) <= IdSet(jobs)
  {
    forall x | x in IdSet(Filter(jobs, p)) ensures x in IdSet(jobs) {
      IdSetMembers(Filter(jobs, p), x);
      IdSetMembers(jobs, x);
    }
  }

  /** A `where` clause keeps the ids of the selected jobs unique. */
  lemma {:induction false} UniqueIdsFilter(jobs: seq<Job>, p: Job -> bool)
    requires UniqueIds(jobs)
    ensures UniqueIds(Filter(jobs, p))
  {
    if jobs != [] {
      UniqueIdsTail(jobs);
      UniqueIdsFilter(jobs[1..], p);
      if p(jobs[0]) {
        var rest := Filter(jobs[1..], p);
        IdSetFilter(jobs[1..], p);
        assert ([jobs[0]] + rest)[1..] == rest;
      }
    }
  }
}
