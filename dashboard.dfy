/**
 * The dashboard page's data: the signed-in user's applications and posted
 * jobs, read side by side, and the four counters derived from them.
 */
module Dashboard {
  import opened Wrappers
  import opened Seqs
  import opened Entities

  /** An entry of the applications query: the application, its job, and that job's owner. */
  datatype AppliedJob = AppliedJob(application: Application, job: Option<Job>, postedBy: Option<User>)

  /** An entry of the posted-jobs query: a job with its `_count.applications`. */
  datatype PostedJob = PostedJob(job: Job, applicationCount: nat)

  datatype Stats = Stats(
    totalPostedJobs: nat,
    totalApplications: nat,
    pendingApplications: nat,
    totalJobApplications: nat)

  datatype Page = Page(applications: seq<AppliedJob>, postedJobs: seq<PostedJob>, stats: Stats)

  /** `where: { userId }` on the application table. */
  function ApplicationsOf(apps: seq<Application>, user: string): seq<Application>
  {
    Filter(apps, (a: Application) => a.userId == user)
  }

  /** `where: { postedById }` on the job table. */
  function JobsPostedBy(jobs: seq<Job>, user: string): seq<Job>
  {
    Filter(jobs, (j: Job) => j.postedById == user)
  }

  /** The applications whose job is one of `ids`. */
  function ApplicationsOn(apps: seq<Application>, ids: set<string>): seq<Application>
  {
    Filter(apps, (a: Application) => a.jobId in ids)
  }

  /** `_count: { select: { applications: true } }` for one job. */
  function ApplicationCount(apps: seq<Application>, jobId: string): (r: nat)
    ensures r <= |apps|
  {
    |ApplicationsOn(apps, {jobId})|
  }

  /** `include: { job: { include: { postedBy: true } } }`. */
  function WithJobs(apps: seq<Application>, jobs: seq<Job>, users: map<string, User>): (r: seq<AppliedJob>)
    ensures |r| == |apps|
    ensures forall i :: 0 <= i < |r| ==> r[i].application == apps[i]
  {
    seq(|apps|, i requires 0 <= i < |apps| =>
      var job := FindJob(jobs, apps[i].jobId);
      AppliedJob(apps[i], job, if job.Some? then Owner(users, job.value) else None))
  }

  /** `include: { _count: ... }` on each posted job. */
  function WithCounts(jobs: seq<Job>, apps: seq<Application>): (r: seq<PostedJob>)
    ensures |r| == |jobs|
    ensures forall i :: 0 <= i < |r| ==> r[i].job == jobs[i]
  {
    seq(|jobs|, i requires 0 <= i < |jobs| => PostedJob(jobs[i], ApplicationCount(apps, jobs[i].id)))
  }

  /** The applications an applications list shows, in its order. */
  function ApplicationsIn(list: seq<AppliedJob>): (r: seq<Application>)
    ensures |r| == |list|
    ensures forall i :: 0 <= i < |r| ==> r[i] == list[i].application
  {
    seq(|list|, i requires 0 <= i < |list| => list[i].application)
  }

  /** The jobs a posted-jobs list shows, in its order. */
  function JobsIn(list: seq<PostedJob>): (r: seq<Job>)
    ensures |r| == |list|
    ensures forall i :: 0 <= i < |r| ==> r[i] == list[i].job
  {
    seq(|list|, i requires 0 <= i < |list| => list[i].job)
  }

  /** The applications query, newest application first. */
  function UserApplications(apps: seq<Application>, jobs: seq<Job>, users: map<string, User>, user: string): (r: seq<AppliedJob>)
    ensures |r| == |ApplicationsOf(apps, user)|
    ensures forall i, k :: 0 <= i < k < |r| ==> r[i].application.appliedAt >= r[k].application.appliedAt
  {
    WithJobs(SortDesc(ApplicationsOf(apps, user), AppliedAt), jobs, users)
  }

  /** The posted-jobs query, newest job first. */
  function UserPostedJobs(jobs: seq<Job>, apps: seq<Application>, user: string): (r: seq<PostedJob>)
    ensures |r| == |JobsPostedBy(jobs, user)|
    ensures forall i, k :: 0 <= i < k < |r| ==> r[i].job.postedAt >= r[k].job.postedAt
  {
    WithCounts(SortDesc(JobsPostedBy(jobs, user), PostedAt), apps)
  }

  predicate IsPending(a: AppliedJob)
  {
    a.application.status == Pending
  }

  /** `postedJobs.reduce((sum, job) => sum + job._count.applications, acc)`. */
  function SumCounts(posted: seq<PostedJob>, acc: nat): (r: nat)
    ensures r >= acc
    ensures (forall i :: 0 <= i < |posted| ==> posted[i].applicationCount == 0) ==> r == acc
  {
    if posted == [] then acc else SumCounts(posted[1..], acc + posted[0].applicationCount)
  }

  /** The `stats` object. */
  function ComputeStats(applications: seq<AppliedJob>, postedJobs: seq<PostedJob>): (r: Stats)
    ensures r.totalPostedJobs == |postedJobs| && r.totalApplications == |applications|
    ensures r.pendingApplications <= r.totalApplications
  {
    Stats(|postedJobs|, |applications|, |Filter(applications, IsPending)|, SumCounts(postedJobs, 0))
  }

  /** The page's data for the user with id `user`; both reads see the same tables. */
  function DashboardPage(jobs: seq<Job>, apps: seq<Application>, users: map<string, User>, user: string): (r: Page)
    ensures r.stats.totalPostedJobs == |r.postedJobs| && r.stats.totalApplications == |r.applications|
    ensures r.stats.pendingApplications <= r.stats.totalApplications
  {
    var applications := UserApplications(apps, jobs, users, user);
    var postedJobs := UserPostedJobs(jobs, apps, user);
    Page(applications, postedJobs, ComputeStats(applications, postedJobs))
  }

  // ---------------------------------------------------------------- lemmas

  /** Adding one job id to a set of ids adds that job's applications to the count. */
  lemma {:induction false} ApplicationsOnSplit(apps: seq<Application>, id: string, ids: set<string>)
    requires id !in ids
    ensures |ApplicationsOn(apps, {id} + ids)| == ApplicationCount(apps, id) + |ApplicationsOn(apps, ids)|
  {
    if apps != [] {
      ApplicationsOnSplit(apps[1..], id, ids);
    }
  }

  /**
   * The fold of per-job counts, over jobs with distinct ids, adds to the
   * start value the number of applications that reference one of those jobs.
   */
  lemma {:induction false} SumCountsIsApplicationsOn(jobs: seq<Job>, apps: seq<Application>, acc: nat)
    requires UniqueIds(jobs)
    ensures SumCounts(WithCounts(jobs, apps), acc) == acc + |ApplicationsOn(apps, IdSet(jobs))|
  {
    var posted := WithCounts(jobs, apps);
    if jobs == [] {
      FilterNone(apps, (a: Application) => a.jobId in IdSet(jobs));
    } else {
      UniqueIdsTail(jobs);
      assert posted[1..] == WithCounts(jobs[1..], apps);
      SumCountsIsApplicationsOn(jobs[1..], apps, acc + ApplicationCount(apps, jobs[0].id));
      ApplicationsOnSplit(apps, jobs[0].id, IdSet(jobs[1..]));
    }
  }

  /** Reordering a sequence does not change how many of its elements a filter keeps. */
  lemma FilterLengthPermutation<T>(s: seq<T>, t: seq<T>, p: T -> bool)
    requires multiset(s) == multiset(t)
    ensures |Filter(s, p)| == |Filter(t, p)|
  {
    forall x ensures multiset(Filter(s, p))[x] == multiset(Filter(t, p))[x] {
      FilterCounts(s, p, x);
      FilterCounts(t, p, x);
    }
    assert multiset(Filter(s, p)) == multiset(Filter(t, p));
    assert |Filter(s, p)| == |multiset(Filter(s, p))|;
    assert |Filter(t, p)| == |multiset(Filter(t, p))|;
  }

  /** Attaching jobs to applications does not change which of them are pending. */
  lemma {:induction false} PendingCount(apps: seq<Application>, jobs: seq<Job>, users: map<string, User>)
    ensures |Filter(WithJobs(apps, jobs, users), IsPending)| == |Filter(apps, (a: Application) => a.status == Pending)|
  {
    if apps != [] {
      PendingCount(apps[1..], jobs, users);
      assert WithJobs(apps, jobs, users)[1..] == WithJobs(apps[1..], jobs, users);
    }
  }

  /**
   * The four counters: posted jobs and applications are the user's rows of each
   * table; pending counts the user's pending applications, so it is at most the
   * total; the fold equals the number of applications on the user's jobs.
   */
  lemma {:induction false} StatsSpec(jobs: seq<Job>, apps: seq<Application>, users: map<string, User>, user: string)
    requires UniqueIds(jobs)
    ensures var s := DashboardPage(jobs, apps, users, user).stats;
            && s.totalPostedJobs == |JobsPostedBy(jobs, user)|
            && s.totalApplications == |ApplicationsOf(apps, user)|
            && s.pendingApplications == |Filter(ApplicationsOf(apps, user), (a: Application) => a.status == Pending)|
            && s.pendingApplications <= s.totalApplications
            && s.totalJobApplications == |ApplicationsOn(apps, IdSet(JobsPostedBy(jobs, user)))|
  {
    var mine := ApplicationsOf(apps, user);
    var sortedApps := SortDesc(mine, AppliedAt);
    var posted := JobsPostedBy(jobs, user);
    var sortedJobs := SortDesc(posted, PostedAt);
    SortDescCounts(mine, AppliedAt);
    SortDescCounts(posted, PostedAt);
    PendingCount(sortedApps, jobs, users);
    FilterLengthPermutation(sortedApps, mine, (a: Application) => a.status == Pending);
    UniqueIdsFilter(jobs, (j: Job) => j.postedById == user);
    IdSetPermutation(sortedJobs, posted);
    SumCountsIsApplicationsOn(sortedJobs, apps, 0);
  }

  /**
   * The applications list: exactly the user's applications (each as often as
   * in the table), newest first, each with the job it references and that
   * job's owner.
   */
  lemma ApplicationsListSpec(jobs: seq<Job>, apps: seq<Application>, users: map<string, User>, user: string)
    ensures var r := UserApplications(apps, jobs, users, user);
            && (forall i :: 0 <= i < |r| ==>
                  && r[i].application in apps && r[i].application.userId == user
                  && r[i].job == FindJob(jobs, r[i].application.jobId)
                  && r[i].postedBy == (if r[i].job.Some? then Owner(users, r[i].job.value) else None))
            && (forall i, k :: 0 <= i < k < |r| ==> r[i].application.appliedAt >= r[k].application.appliedAt)
            && multiset(ApplicationsIn(r)) == multiset(ApplicationsOf(apps, user))
  {
    var mine := ApplicationsOf(apps, user);
    var sa := SortDesc(mine, AppliedAt);
    SortDescCounts(mine, AppliedAt);
    assert ApplicationsIn(UserApplications(apps, jobs, users, user)) == sa;
    forall i | 0 <= i < |sa| ensures sa[i] in mine {
      assert sa[i] in multiset(sa);
    }
  }

  /**
   * The posted-jobs list: exactly the user's jobs (each as often as in the
   * table), newest first, each with its own application count.
   */
  lemma PostedJobsListSpec(jobs: seq<Job>, apps: seq<Application>, user: string)
    ensures var r := UserPostedJobs(jobs, apps, user);
            && (forall i :: 0 <= i < |r| ==>
                  r[i].job in jobs && r[i].job.postedById == user && r[i].applicationCount == ApplicationCount(apps, r[i].job.id))
            && (forall i, k :: 0 <= i < k < |r| ==> r[i].job.postedAt >= r[k].job.postedAt)
            && multiset(JobsIn(r)) == multiset(JobsPostedBy(jobs, user))
  {
    var posted := JobsPostedBy(jobs, user);
    var sj := SortDesc(posted, PostedAt);
    SortDescCounts(posted, PostedAt);
    assert JobsIn(UserPostedJobs(jobs, apps, user)) == sj;
    forall i | 0 <= i < |sj| ensures sj[i] in posted {
      assert sj[i] in multiset(sj);
    }
  }

  /** A user who has posted nothing and applied nowhere sees four zeros. */
  lemma {:induction false} NewUserSeesZeros(jobs: seq<Job>, apps: seq<Application>, users: map<string, User>, user: string)
    requires forall i :: 0 <= i < |jobs| ==> jobs[i].postedById != user
    requires forall i :: 0 <= i < |apps| ==> apps[i].userId != user
    ensures DashboardPage(jobs, apps, users, user).stats == Stats(0, 0, 0, 0)
  {
    FilterNone(jobs, (j: Job) => j.postedById == user);
    FilterNone(apps, (a: Application) => a.userId == user);
    assert UniqueIds([]);
    SumCountsIsApplicationsOn([], apps, 0);
  }
}
