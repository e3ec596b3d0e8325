/** The report queue as the web UI uses it: a thin wrapper over a BullMQ
    queue. The store behind the queue is modelled as the sequence of jobs it
    holds, in insertion order, each in exactly one state; what the wrapper
    adds is the priority default, the progress normalisation, the status
    filter, the newest-first order, the stats total, the grace arithmetic
    and the `force` gate. */
module Queue {
  import opened Wrappers
  import opened Js
  import Sorting

  datatype State = Waiting | Active | Completed | Failed | Delayed

  function StateName(s: State): string {
    match s
    case Waiting => "waiting"
    case Active => "active"
    case Completed => "completed"
    case Failed => "failed"
    case Delayed => "delayed"
  }

  /** The state a status name denotes, if any. */
  function StateNamed(name: string): (s: Option<State>)
    ensures s.Some? ==> StateName(s.value) == name
    ensures s.None? ==> forall t: State :: StateName(t) != name
  {
    if name == "waiting" then Some(Waiting)
    else if name == "active" then Some(Active)
    else if name == "completed" then Some(Completed)
    else if name == "failed" then Some(Failed)
    else if name == "delayed" then Some(Delayed)
    else None
  }

  /** `ReportJobData` */
  datatype JobData = JobData(
    pipelineId: string,
    reportType: string,
    outputFormat: string,
    inputs: seq<Prop>,
    profileName: Option<string>,
    reportName: Option<string>)

  /** `ReportJobResult` */
  datatype JobResult = JobResult(
    outputPath: string,
    fileName: string,
    fileSize: int,
    duration: int,
    generatedAt: string)

  /** A job as the queue stores it. `progress` is whatever the worker last
      reported: a number or an object. */
  datatype Job = Job(
    id: string,
    name: string,
    data: JobData,
    priority: int,
    progress: Value,
    state: State,
    returnvalue: Option<JobResult>,
    failedReason: Option<string>,
    timestamp: int,
    processedOn: Option<int>,
    finishedOn: Option<int>,
    attemptsMade: nat)

  /** What `getJobStatus` and `getAllJobs` report for one job. */
  datatype JobInfo = JobInfo(
    id: string,
    name: string,
    data: JobData,
    progress: Value,
    status: string,
    result: Option<JobResult>,
    failedReason: Option<string>,
    createdAt: int,
    processedOn: Option<int>,
    finishedOn: Option<int>,
    attemptsMade: nat)

  const JobName: string := "generate-report"
  const DefaultPriority: int := 5

  // ---------------------------------------------------------------
  // Adding jobs and reading them back
  // ---------------------------------------------------------------

  /** `options?.priority || 5`: an absent or zero priority becomes 5, any
      other is kept. */
  function PriorityOf(priority: Option<int>): (p: int)
    ensures p != 0
    ensures priority.Some? && priority.value != 0 ==> p == priority.value
    ensures priority.None? || priority.value == 0 ==> p == DefaultPriority
  {
    OrNum(priority, DefaultPriority)
  }

  /** A numeric progress `p` is reported as `{ percentage: p }`; an object
      (or anything else) is passed through. */
  function NormalizeProgress(p: Value): (q: Value)
    ensures !q.Num?
    ensures p.Num? ==> q.Obj? && Keys(q.props) == ["percentage"] && Lookup(q.props, "percentage") == p
    ensures !p.Num? ==> q == p
  {
    if p.Num? then Obj([Prop("percentage", p)]) else p
  }

  /** Normalising an already normalised progress changes nothing. */
  lemma NormalizeIdempotent(p: Value)
    ensures NormalizeProgress(NormalizeProgress(p)) == NormalizeProgress(p)
  {
  }

  function InfoOf(j: Job): JobInfo {
    JobInfo(j.id, j.name, j.data, NormalizeProgress(j.progress), StateName(j.state), j.returnvalue,
      j.failedReason, j.timestamp, j.processedOn, j.finishedOn, j.attemptsMade)
  }

  function Infos(jobs: seq<Job>): (r: seq<JobInfo>)
    ensures |r| == |jobs|
    ensures forall i :: 0 <= i < |jobs| ==> r[i] == InfoOf(jobs[i])
  {
    seq(|jobs|, i requires 0 <= i < |jobs| => InfoOf(jobs[i]))
  }

  /** The `map(job => ({ ... }))` of `getAllJobs`. */
  method DescribeJobs(picked: seq<Job>) returns (infos: seq<JobInfo>)
    ensures infos == Infos(picked)
  {
    infos := [];
    var i := 0;
    while i < |picked|
      invariant 0 <= i <= |picked|
      invariant |infos| == i
      invariant forall k :: 0 <= k < i ==> infos[k] == InfoOf(picked[k])
    {
      infos := infos + [InfoOf(picked[i])];
      i := i + 1;
    }
  }

  predicate DistinctIds(jobs: seq<Job>) {
    forall i, j :: 0 <= i < j < |jobs| ==> jobs[i].id != jobs[j].id
  }

  predicate HasId(jobs: seq<Job>, id: string) {
    exists i :: 0 <= i < |jobs| && jobs[i].id == id
  }

  /** The store's `getJob`: the job with this id. */
  function FindJob(jobs: seq<Job>, id: string): (r: Option<Job>)
    ensures r.Some? <==> HasId(jobs, id)
    ensures r.Some? ==> r.value in jobs && r.value.id == id
  {
    if jobs == [] then None
    else if jobs[0].id == id then Some(jobs[0])
    else
      var r := FindJob(jobs[1..], id);
      assert HasId(jobs, id) ==> HasId(jobs[1..], id) by {
        if HasId(jobs, id) {
          var i :| 0 <= i < |jobs| && jobs[i].id == id;
          assert jobs[1..][i - 1].id == id;
        }
      }
      assert HasId(jobs[1..], id) ==> HasId(jobs, id) by {
        if HasId(jobs[1..], id) {
          var i :| 0 <= i < |jobs[1..]| && jobs[1..][i].id == id;
          assert jobs[i + 1].id == id;
        }
      }
      r
  }

  /** The jobs in one state, in queue order (`getWaiting`, `getActive`, ...). */
  function OfState(jobs: seq<Job>, s: State): (r: seq<Job>)
    ensures forall j :: j in r <==> j in jobs && j.state == s
    ensures |r| <= |jobs|
  {
    if jobs == [] then []
    else (if jobs[0].state == s then [jobs[0]] else []) + OfState(jobs[1..], s)
  }

  // ---------------------------------------------------------------
  // Listing
  // ---------------------------------------------------------------

  /** `!status || status === name`: an absent or empty status asks for
      every list the wrapper reads. */
  predicate Wanted(status: Option<string>, s: State) {
    status.None? || status.value == "" || status.value == StateName(s)
  }

  /** The lists `getAllJobs` reads and concatenates, in this order. Delayed
      jobs are never read. */
  function Selected(jobs: seq<Job>, status: Option<string>): seq<Job> {
    Part(jobs, status, Waiting) + Part(jobs, status, Active)
    + Part(jobs, status, Completed) + Part(jobs, status, Failed)
  }

  function Part(jobs: seq<Job>, status: Option<string>, s: State): seq<Job> {
    if Wanted(status, s) then OfState(jobs, s) else []
  }

  predicate NewestFirstOrder(infos: seq<JobInfo>) {
    forall i, j :: 0 <= i < j < |infos| ==> infos[i].createdAt >= infos[j].createdAt
  }

  function Keyed(infos: seq<JobInfo>): (es: seq<(JobInfo, int)>)
    ensures |es| == |infos|
    ensures forall i :: 0 <= i < |infos| ==> es[i] == (infos[i], infos[i].createdAt)
  {
    seq(|infos|, i requires 0 <= i < |infos| => (infos[i], infos[i].createdAt))
  }

  /** `sort((a, b) => b.createdAt - a.createdAt)`: a stable sort, newest first. */
  function NewestFirst(infos: seq<JobInfo>): (r: seq<JobInfo>)
    ensures NewestFirstOrder(r)
    ensures multiset(r) == multiset(infos)
    ensures |r| == |infos|
  {
    NewestFirstOrdered(infos);
    NewestFirstPerm(infos);
    Sorting.Firsts(Sorting.SortDesc(Keyed(infos)))
  }

  lemma NewestFirstOrdered(infos: seq<JobInfo>)
    ensures NewestFirstOrder(Sorting.Firsts(Sorting.SortDesc(Keyed(infos))))
  {
    var es := Keyed(infos);
    var sorted := Sorting.SortDesc(es);
    var r := Sorting.Firsts(sorted);
    Sorting.FirstsAt(sorted);
    forall i | 0 <= i < |sorted| ensures sorted[i].1 == sorted[i].0.createdAt {
      assert sorted[i] in multiset(es);
    }
    forall i, j | 0 <= i < j < |r| ensures r[i].createdAt >= r[j].createdAt {
      assert r[i] == sorted[i].0 && r[j] == sorted[j].0;
    }
  }

  lemma NewestFirstPerm(infos: seq<JobInfo>)
    ensures multiset(Sorting.Firsts(Sorting.SortDesc(Keyed(infos)))) == multiset(infos)
  {
    var es := Keyed(infos);
    Sorting.SortDescFirsts(es);
    Sorting.FirstsAt(es);
    assert Sorting.Firsts(es) == infos;
  }

  /** The jobs `getAllJobs` lists: exactly the jobs of a wanted state other
      than delayed, each once, newest first. */
  lemma {:induction false} AllJobsShape(jobs: seq<Job>, status: Option<string>)
    ensures var r := NewestFirst(Infos(Selected(jobs, status)));
      NewestFirstOrder(r)
      && (forall x :: x in r ==>
            exists j :: j in jobs && x == InfoOf(j) && j.state != Delayed && Wanted(status, j.state))
      && (forall j :: j in jobs && j.state != Delayed && Wanted(status, j.state) ==> InfoOf(j) in r)
  {
    var sel := Selected(jobs, status);
    var infos := Infos(sel);
    var r := NewestFirst(infos);
    SelectedMembers(jobs, status);
    forall x | x in r
      ensures exists j :: j in jobs && x == InfoOf(j) && j.state != Delayed && Wanted(status, j.state)
    {
      assert x in multiset(infos);
      var i :| 0 <= i < |infos| && infos[i] == x;
      assert sel[i] in sel;
    }
    forall j | j in jobs && j.state != Delayed && Wanted(status, j.state) ensures InfoOf(j) in r {
      var i :| 0 <= i < |sel| && sel[i] == j;
      assert infos[i] in multiset(r);
    }
  }

  /** The jobs the wrapper reads for a status are those in a wanted state
      other than delayed. */
  lemma SelectedMembers(jobs: seq<Job>, status: Option<string>)
    ensures forall j :: j in Selected(jobs, status) <==> j in jobs && j.state != Delayed && Wanted(status, j.state)
  {
    var w, a, c, f := Part(jobs, status, Waiting), Part(jobs, status, Active),
      Part(jobs, status, Completed), Part(jobs, status, Failed);
    forall j ensures j in w + a + c + f <==> j in jobs && j.state != Delayed && Wanted(status, j.state) {
      assert j in w + a + c + f <==> j in w || j in a || j in c || j in f;
    }
  }

  /** A status naming no list the wrapper reads (`"delayed"` among them)
      lists nothing. */
  lemma UnreadStatusListsNothing(jobs: seq<Job>, status: string)
    requires status !in ["", "waiting", "active", "completed", "failed"]
    ensures Selected(jobs, Some(status)) == []
  {
  }

  // ---------------------------------------------------------------
  // Counting and cleaning
  // ---------------------------------------------------------------

  /** `getQueueStats` */
  datatype QueueStats = QueueStats(waiting: nat, active: nat, completed: nat, failed: nat, delayed: nat, total: nat)

  /** The per-state counts of `getDetailedJobCounts`. */
  datatype Counts = Counts(completed: nat, failed: nat, active: nat, delayed: nat, waiting: nat)

  function CountOf(jobs: seq<Job>, s: State): nat {
    |OfState(jobs, s)|
  }

  /** Every job is in exactly one of the five states, so the five counts
      add up to the number of jobs. */
  lemma {:induction false} CountsCover(jobs: seq<Job>)
    ensures CountOf(jobs, Waiting) + CountOf(jobs, Active) + CountOf(jobs, Completed)
            + CountOf(jobs, Failed) + CountOf(jobs, Delayed) == |jobs|
  {
    if jobs != [] {
      CountsCover(jobs[1..]);
    }
  }

  const MsPerHour: int := 60 * 60 * 1000
  const MsPerDay: int := 24 * 60 * 60 * 1000
  const CompletedCleanLimit: nat := 1000
  const FailedCleanLimit: nat := 500

  /** The time a job counts as finished at, for cleaning. */
  function Stamp(j: Job): int {
    if j.finishedOn.Some? then j.finishedOn.value else j.timestamp
  }

  predicate Expired(j: Job, s: State, cutoff: int) {
    j.state == s && Stamp(j) < cutoff
  }

  /** The ids of the jobs in state `s` finished before `cutoff`, in queue order. */
  function ExpiredIds(jobs: seq<Job>, s: State, cutoff: int): (ids: seq<string>)
    ensures |ids| <= |jobs|
  {
    if jobs == [] then []
    else (if Expired(jobs[0], s, cutoff) then [jobs[0].id] else []) + ExpiredIds(jobs[1..], s, cutoff)
  }

  /** With distinct ids, a job is determined by its id. */
  lemma DistinctIdsSame(jobs: seq<Job>, a: Job, b: Job)
    requires DistinctIds(jobs) && a in jobs && b in jobs && a.id == b.id
    ensures a == b
  {
    var i :| 0 <= i < |jobs| && jobs[i] == a;
    var k :| 0 <= k < |jobs| && jobs[k] == b;
    assert !(i < k) && !(k < i);
  }

  /** The expired ids are exactly the ids of the expired jobs. */
  lemma {:induction false} ExpiredIdsMembers(jobs: seq<Job>, s: State, cutoff: int)
    ensures forall id :: id in ExpiredIds(jobs, s, cutoff) <==> exists j :: j in jobs && Expired(j, s, cutoff) && j.id == id
  {
    if jobs != [] {
      ExpiredIdsMembers(jobs[1..], s, cutoff);
      assert forall j :: j in jobs <==> j == jobs[0] || j in jobs[1..];
    }
  }

  /** The store's `clean(grace, limit, type)`: at most `limit` of the
      expired ids (all of them when `limit` is 0), oldest in queue order first. */
  function CleanIds(jobs: seq<Job>, s: State, cutoff: int, limit: nat): (ids: seq<string>)
    ensures ids <= ExpiredIds(jobs, s, cutoff)
    ensures limit > 0 ==> |ids| <= limit
    ensures |ExpiredIds(jobs, s, cutoff)| <= limit || limit == 0 ==> ids == ExpiredIds(jobs, s, cutoff)
  {
    var all := ExpiredIds(jobs, s, cutoff);
    if limit == 0 || |all| <= limit then all else all[..limit]
  }

  /** Every cleaned id is that of an expired job in the state. */
  lemma CleanIdsExpired(jobs: seq<Job>, s: State, cutoff: int, limit: nat)
    ensures forall id :: id in CleanIds(jobs, s, cutoff, limit) ==> exists j :: j in jobs && Expired(j, s, cutoff) && j.id == id
  {
    ExpiredIdsMembers(jobs, s, cutoff);
    var ids := CleanIds(jobs, s, cutoff, limit);
    var all := ExpiredIds(jobs, s, cutoff);
    assert forall id :: id in ids ==> id in all by {
      forall id | id in ids ensures id in all {
        var k :| 0 <= k < |ids| && ids[k] == id;
        assert all[k] == id;
      }
    }
  }

  function Without(jobs: seq<Job>, ids: seq<string>): (r: seq<Job>)
    ensures |r| <= |jobs|
  {
    if jobs == [] then []
    else (if jobs[0].id in ids then [] else [jobs[0]]) + Without(jobs[1..], ids)
  }

  /** Removal keeps exactly the jobs whose id is not removed. */
  lemma {:induction false} WithoutMembers(jobs: seq<Job>, ids: seq<string>)
    ensures forall j :: j in Without(jobs, ids) <==> j in jobs && j.id !in ids
  {
    if jobs != [] {
      WithoutMembers(jobs[1..], ids);
      assert forall j :: j in jobs <==> j == jobs[0] || j in jobs[1..];
    }
  }

  /** Removing by id keeps the remaining ids distinct. */
  lemma {:induction false} WithoutDistinct(jobs: seq<Job>, ids: seq<string>)
    requires DistinctIds(jobs)
    ensures DistinctIds(Without(jobs, ids))
  {
    if jobs != [] {
      WithoutDistinct(jobs[1..], ids);
      WithoutMembers(jobs[1..], ids);
      var rest := Without(jobs[1..], ids);
      assert forall k :: 0 <= k < |rest| ==> rest[k].id != jobs[0].id by {
        forall k | 0 <= k < |rest| ensures rest[k].id != jobs[0].id {
          assert rest[k] in jobs[1..];
          var m :| 0 <= m < |jobs[1..]| && jobs[1..][m] == rest[k];
          assert jobs[m + 1] == rest[k];
        }
      }
    }
  }

  /** Cleaning removes exactly the chosen expired jobs of one state: with
      distinct ids, every removed job was expired and in that state, and
      every other job stays. */
  lemma CleanRemovesOnlyExpired(jobs: seq<Job>, s: State, cutoff: int, limit: nat)
    requires DistinctIds(jobs)
    ensures var ids := CleanIds(jobs, s, cutoff, limit);
      (forall j :: j in jobs && !Expired(j, s, cutoff) ==> j in Without(jobs, ids))
      && (forall j :: j in jobs && j !in Without(jobs, ids) ==> Expired(j, s, cutoff))
  {
    var ids := CleanIds(jobs, s, cutoff, limit);
    CleanIdsExpired(jobs, s, cutoff, limit);
    WithoutMembers(jobs, ids);
    forall j | j in jobs && j !in Without(jobs, ids) ensures Expired(j, s, cutoff) {
      var j2 :| j2 in jobs && Expired(j2, s, cutoff) && j2.id == j.id;
      DistinctIdsSame(jobs, j, j2);
    }
  }

  // ---------------------------------------------------------------
  // The queue
  // ---------------------------------------------------------------

  /** What `addReportJob` returns. */
  datatype Added = Added(id: string, name: string)

  class ReportQueue {
    var jobs: seq<Job>

    ghost predicate Valid()
      reads this
    {
      DistinctIds(jobs)
    }

    constructor ()
      ensures Valid() && jobs == []
    {
      jobs := [];
    }

    /** `addReportJob`: a waiting job with the defaulted priority. The id is
        the caller's `jobId` when given, else the one the store generates;
        as in BullMQ, adding under an id the queue already holds returns
        that job and adds nothing. */
    method AddReportJob(data: JobData, priority: Option<int>, jobId: Option<string>, generatedId: string, now: int)
      returns (r: Added)
      requires Valid()
      modifies this
      ensures Valid()
      ensures r.id == jobId.GetOr(generatedId)
      ensures HasId(old(jobs), r.id) ==> jobs == old(jobs) && r.name == FindJob(jobs, r.id).value.name
      ensures !HasId(old(jobs), r.id) ==>
        r.name == JobName
        && jobs == old(jobs) + [Job(r.id, JobName, data, PriorityOf(priority), Num(0), Waiting,
                                    None, None, now, None, None, 0)]
    {
      var id := jobId.GetOr(generatedId);
      var existing := FindJob(jobs, id);
      if existing.Some? {
        return Added(id, existing.value.name);
      }
      jobs := jobs + [Job(id, JobName, data, PriorityOf(priority), Num(0), Waiting, None, None, now, None, None, 0)];
      r := Added(id, JobName);
    }

    /** `getJobStatus`: `None` (null) for an unknown id. */
    method GetJobStatus(jobId: string) returns (r: Option<JobInfo>)
      ensures r.None? <==> !HasId(jobs, jobId)
      ensures r.Some? ==> exists j :: j in jobs && j.id == jobId && r.value == InfoOf(j)
      ensures r.Some? ==> r.value.id == jobId && !r.value.progress.Num?
    {
      var job := FindJob(jobs, jobId);
      if job.None? {
        return None;
      }
      r := Some(InfoOf(job.value));
    }

    /** `getAllJobs`: push the wanted lists, describe every job, sort newest first. */
    method GetAllJobs(status: Option<string>) returns (r: seq<JobInfo>)
      ensures r == NewestFirst(Infos(Selected(jobs, status)))
    {
      var picked: seq<Job> := [];
      if Wanted(status, Waiting) {
        picked := picked + OfState(jobs, Waiting);
      }
      assert picked == Part(jobs, status, Waiting);
      if Wanted(status, Active) {
        picked := picked + OfState(jobs, Active);
      }
      assert picked == Part(jobs, status, Waiting) + Part(jobs, status, Active);
      if Wanted(status, Completed) {
        picked := picked + OfState(jobs, Completed);
      }
      assert picked == Part(jobs, status, Waiting) + Part(jobs, status, Active) + Part(jobs, status, Completed);
      if Wanted(status, Failed) {
        picked := picked + OfState(jobs, Failed);
      }
      assert picked == Selected(jobs, status);
      var infos := DescribeJobs(picked);
      r := NewestFirst(infos);
    }

    /** `removeJob` */
    method RemoveJob(jobId: string) returns (r: Outcome)
      requires Valid()
      modifies this
      ensures Valid()
      ensures r.Fail? <==> !HasId(old(jobs), jobId)
      ensures r.Fail? ==> r.msg == "Job not found" && jobs == old(jobs)
      ensures r.Pass? ==> jobs == Without(old(jobs), [jobId]) && !HasId(jobs, jobId)
    {
      var job := FindJob(jobs, jobId);
      if job.None? {
        return Fail("Job not found");
      }
      WithoutDistinct(jobs, [jobId]);
      WithoutMembers(jobs, [jobId]);
      jobs := Without(jobs, [jobId]);
      r := Pass;
    }

    /** `getQueueStats` */
    method GetQueueStats() returns (s: QueueStats)
      ensures s.waiting == CountOf(jobs, Waiting) && s.active == CountOf(jobs, Active)
      ensures s.completed == CountOf(jobs, Completed) && s.failed == CountOf(jobs, Failed)
      ensures s.delayed == CountOf(jobs, Delayed)
      ensures s.total == |jobs|
    {
      var w, a, c, f, d := CountOf(jobs, Waiting), CountOf(jobs, Active), CountOf(jobs, Completed),
        CountOf(jobs, Failed), CountOf(jobs, Delayed);
      CountsCover(jobs);
      s := QueueStats(w, a, c, f, d, w + a + c + f + d);
    }

    /** `getDetailedJobCounts` */
    method GetDetailedJobCounts() returns (c: Counts)
      ensures c.completed == CountOf(jobs, Completed) && c.failed == CountOf(jobs, Failed)
      ensures c.active == CountOf(jobs, Active) && c.delayed == CountOf(jobs, Delayed)
      ensures c.waiting == CountOf(jobs, Waiting)
    {
      c := Counts(CountOf(jobs, Completed), CountOf(jobs, Failed), CountOf(jobs, Active),
        CountOf(jobs, Delayed), CountOf(jobs, Waiting));
    }

    /** `cleanOldJobs(grace, limit, type)`: the store's clean, returning the
        deleted ids. A type naming no state deletes nothing. */
    method CleanOldJobs(grace: int, limit: nat, kind: string, now: int) returns (deleted: seq<string>)
      requires Valid()
      modifies this
      ensures Valid()
      ensures StateNamed(kind).None? ==> deleted == [] && jobs == old(jobs)
      ensures StateNamed(kind).Some? ==>
        deleted == CleanIds(old(jobs), StateNamed(kind).value, now - grace, limit)
        && jobs == Without(old(jobs), deleted)
    {
      var s := StateNamed(kind);
      if s.None? {
        return [];
      }
      deleted := CleanIds(jobs, s.value, now - grace, limit);
      WithoutDistinct(jobs, deleted);
      jobs := Without(jobs, deleted);
    }

    /** `cleanCompletedJobs(hoursOld)`: completed jobs finished more than
        `hoursOld` hours ago, at most 1000 of them. */
    method CleanCompletedJobs(hoursOld: int, now: int) returns (n: nat)
      requires Valid()
      modifies this
      ensures Valid()
      ensures var ids := CleanIds(old(jobs), Completed, now - hoursOld * MsPerHour, CompletedCleanLimit);
        n == |ids| && jobs == Without(old(jobs), ids)
      ensures n <= 1000
    {
      var grace := hoursOld * 60 * 60 * 1000;
      var deleted := CleanOldJobs(grace, 1000, "completed", now);
      n := |deleted|;
    }

    /** `cleanFailedJobs(daysOld)`: failed jobs finished more than `daysOld`
        days ago, at most 500 of them. */
    method CleanFailedJobs(daysOld: int, now: int) returns (n: nat)
      requires Valid()
      modifies this
      ensures Valid()
      ensures var ids := CleanIds(old(jobs), Failed, now - daysOld * MsPerDay, FailedCleanLimit);
        n == |ids| && jobs == Without(old(jobs), ids)
      ensures n <= 500
    {
      var grace := daysOld * 24 * 60 * 60 * 1000;
      var deleted := CleanOldJobs(grace, 500, "failed", now);
      n := |deleted|;
    }

    /** `obliterateAllJobs`: refuses unless forced, then deletes everything. */
    method ObliterateAllJobs(force: bool) returns (r: Outcome)
      requires Valid()
      modifies this
      ensures Valid()
      ensures r.Fail? <==> !force
      ensures !force ==> r.msg == "Must set force=true to obliterate all jobs" && jobs == old(jobs)
      ensures force ==> jobs == []
    {
      if !force {
        return Fail("Must set force=true to obliterate all jobs");
      }
      jobs := [];
      r := Pass;
    }
  }
}
