/** The home page's "latest jobs": `findMany({ take: 3, orderBy: { postedAt: "desc" } })`. */
module HomePage {
  import opened Wrappers
  import opened Seqs
  import opened Entities

  const LatestCount: nat := 3

  /** A job with `postedBy: { select: { name: true } }`. */
  datatype JobCard = JobCard(job: Job, posterName: Option<string>)

  /** The owner's name, when the owner's record is there and has one. */
  function PosterName(users: map<string, User>, job: Job): (r: Option<string>)
    ensures job.postedById in users ==> r == users[job.postedById].name
    ensures job.postedById !in users ==> r.None?
  {
    if job.postedById in users then users[job.postedById].name else None
  }

  function Min(a: nat, b: nat): nat
  {
    if a < b then a else b
  }

  /** The first `k` jobs in newest-first order. */
  function Newest(jobs: seq<Job>, k: nat): (r: seq<Job>)
    ensures |r| == Min(k, |jobs|)
    ensures SortedDesc(r, PostedAt)
  {
    var sorted := SortDesc(jobs, PostedAt);
    sorted[..Min(k, |sorted|)]
  }

  /** The `recentJobs` query. */
  function RecentJobs(jobs: seq<Job>, users: map<string, User>): (r: seq<JobCard>)
    ensures |r| == |Newest(jobs, LatestCount)|
    ensures forall i :: 0 <= i < |r| ==> r[i].job == Newest(jobs, LatestCount)[i]
  {
    var latest := Newest(jobs, LatestCount);
    seq(|latest|, i requires 0 <= i < |latest| => JobCard(latest[i], PosterName(users, latest[i])))
  }

  /**
   * Top-k selection: exactly min(k, table size) jobs, newest first, all taken
   * from the table, and no job left out is newer than the oldest one returned.
   */
  lemma {:induction false} NewestSpec(jobs: seq<Job>, k: nat)
    ensures |Newest(jobs, k)| == Min(k, |jobs|)
    ensures SortedDesc(Newest(jobs, k), PostedAt)
    ensures multiset(Newest(jobs, k)) <= multiset(jobs)
    ensures |Newest(jobs, k)| > 0 ==>
              forall j :: j in multiset(jobs) - multiset(Newest(jobs, k)) ==> j.postedAt <= Newest(jobs, k)[|Newest(jobs, k)| - 1].postedAt
  {
    var s := SortDesc(jobs, PostedAt);
    var m := Min(k, |s|);
    SortDescCounts(jobs, PostedAt);
    TakeSorted(s, m, PostedAt);
    assert s == s[..m] + s[m..];
    assert multiset(s) == multiset(s[..m]) + multiset(s[m..]);
    if m > 0 {
      TakeLeavesSmaller(s, m, PostedAt);
    }
  }

  /** The home page shows min(3, number of jobs) jobs, newest first, each with its owner's name. */
  lemma {:induction false} RecentJobsSpec(jobs: seq<Job>, users: map<string, User>)
    ensures |RecentJobs(jobs, users)| == Min(3, |jobs|) <= 3
    ensures forall i :: 0 <= i < |RecentJobs(jobs, users)| ==>
              RecentJobs(jobs, users)[i].job in jobs
              && RecentJobs(jobs, users)[i].posterName == PosterName(users, RecentJobs(jobs, users)[i].job)
    ensures forall i, k :: 0 <= i < k < |RecentJobs(jobs, users)| ==>
              RecentJobs(jobs, users)[i].job.postedAt >= RecentJobs(jobs, users)[k].job.postedAt
  {
    var latest := Newest(jobs, LatestCount);
    var r := RecentJobs(jobs, users);
    NewestSpec(jobs, LatestCount);
    forall i | 0 <= i < |latest| ensures latest[i] in jobs {
      assert latest[i] in multiset(latest);
    }
    assert forall i :: 0 <= i < |r| ==> r[i] == JobCard(latest[i], PosterName(users, latest[i]));
  }
}
