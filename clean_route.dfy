/** The `/api/jobs/clean` route: `POST` picks one queue operation from the
    request's `action` and fills in defaults; `GET` reports the job counts
    and recommends cleaning when a list has grown large. */
module CleanRoute {
  import opened Wrappers
  import opened Js
  import Queue

  /** The request body's fields. The numeric ones are `None` when absent;
      `action`, `type` and `force` are whatever JSON value was sent. */
  datatype Body = Body(
    action: Value,
    kind: Value,
    grace: Option<int>,
    limit: Option<nat>,
    hoursOld: Option<int>,
    daysOld: Option<int>,
    force: Value)

  /** A destructuring default: applies only when the field is `undefined`. */
  function Default(v: Value, d: Value): (r: Value)
    ensures v.Undefined? ==> r == d
    ensures !v.Undefined? ==> r == v
  {
    if v.Undefined? then d else v
  }

  const DefaultLimit: nat := 1000
  const DefaultHoursOld: int := 24
  const DefaultDaysOld: int := 7
  const CompletedGraceMs: int := 24 * 60 * 60 * 1000
  const OtherGraceMs: int := 7 * 24 * 60 * 60 * 1000
  const ForceMessage: string := "Must set force=true to obliterate all jobs"

  /** The queue operation a request asks for, with its arguments settled. */
  datatype Plan =
    | CleanOld(graceMs: int, limit: nat, kind: Value)
    | CleanCompleted(hoursOld: int)
    | CleanFailed(daysOld: int)
    | Obliterate
    | Reject(error: string)

  /** `grace || (type === "completed" ? 24 h : 7 days)` */
  function GraceMs(grace: Option<int>, kind: Value): (ms: int)
    ensures grace.Some? && grace.value != 0 ==> ms == grace.value
    ensures (grace.None? || grace.value == 0) && kind == Str("completed") ==> ms == 86400000
    ensures (grace.None? || grace.value == 0) && kind != Str("completed") ==> ms == 604800000
  {
    OrNum(grace, if kind == Str("completed") then CompletedGraceMs else OtherGraceMs)
  }

  /** The `switch` of `POST`. */
  function PlanFor(b: Body): Plan {
    var action := Default(b.action, Str("clean"));
    var kind := Default(b.kind, Str("completed"));
    var limit := if b.limit.Some? then b.limit.value else DefaultLimit;
    var force := Default(b.force, Bool(false));
    if action == Str("clean") then CleanOld(GraceMs(b.grace, kind), limit, kind)
    else if action == Str("clean-completed") then CleanCompleted(OrNum(b.hoursOld, DefaultHoursOld))
    else if action == Str("clean-failed") then CleanFailed(OrNum(b.daysOld, DefaultDaysOld))
    else if action == Str("obliterate") then (if Truthy(force) then Obliterate else Reject(ForceMessage))
    else Reject("Unknown action: " + ToStr(action))
  }

  /** An empty body cleans completed jobs older than 24 hours, at most 1000. */
  lemma EmptyBodyDefaults()
    ensures PlanFor(Body(Undefined, Undefined, None, None, None, None, Undefined))
      == CleanOld(86400000, 1000, Str("completed"))
  {
  }

  /** A `clean` of another type without a grace waits 7 days. */
  lemma CleanOtherTypeDefault(kind: Value, limit: Option<nat>)
    requires !kind.Undefined? && kind != Str("completed")
    ensures PlanFor(Body(Str("clean"), kind, None, limit, None, None, Undefined)).graceMs == 604800000
  {
  }

  /** Obliteration happens only when `force` is truthy; otherwise the
      request is refused and nothing is deleted. */
  lemma ObliterateNeedsForce(b: Body)
    requires b.action == Str("obliterate")
    ensures PlanFor(b).Obliterate? <==> Truthy(b.force)
    ensures !Truthy(b.force) ==> PlanFor(b) == Reject(ForceMessage)
  {
  }

  /** Exactly the five known actions are accepted (an absent one being
      `clean`); any other value is refused with its own name. */
  lemma UnknownActionRejected(b: Body)
    ensures var a := Default(b.action, Str("clean"));
      (PlanFor(b).Reject? && PlanFor(b).error != ForceMessage)
      <==> a !in {Str("clean"), Str("clean-completed"), Str("clean-failed"), Str("obliterate")}
    ensures var a := Default(b.action, Str("clean"));
      a !in {Str("clean"), Str("clean-completed"), Str("clean-failed"), Str("obliterate")}
      ==> PlanFor(b) == Reject("Unknown action: " + ToStr(a))
  {
    var a := Default(b.action, Str("clean"));
    if a !in {Str("clean"), Str("clean-completed"), Str("clean-failed"), Str("obliterate")} {
      UnknownMessageDiffers(ToStr(a));
    }
  }

  lemma UnknownMessageDiffers(name: string)
    ensures "Unknown action: " + name != ForceMessage
  {
    assert ("Unknown action: " + name)[0] == 'U';
  }

  // ---------------------------------------------------------------
  // Responses
  // ---------------------------------------------------------------

  /** The `result` record that follows `success: true`. */
  datatype Outcome =
    | Cleaned(kind: Value, deletedCount: nat, graceHours: real)
    | CleanedCompleted(deletedCount: nat, hoursOld: int)
    | CleanedFailed(deletedCount: nat, daysOld: int)
    | Obliterated(message: string)

  datatype Response = Success(result: Outcome) | BadRequest(error: string)

  /** The response to a plan and the jobs left afterwards. */
  function Effect(p: Plan, jobs: seq<Queue.Job>, now: int): (Response, seq<Queue.Job>) {
    match p
    case Reject(msg) => (BadRequest(msg), jobs)
    case Obliterate => (Success(Obliterated("All jobs deleted")), [])
    case CleanCompleted(h) =>
      var ids := Queue.CleanIds(jobs, Queue.Completed, now - h * Queue.MsPerHour, Queue.CompletedCleanLimit);
      (Success(CleanedCompleted(|ids|, h)), Queue.Without(jobs, ids))
    case CleanFailed(d) =>
      var ids := Queue.CleanIds(jobs, Queue.Failed, now - d * Queue.MsPerDay, Queue.FailedCleanLimit);
      (Success(CleanedFailed(|ids|, d)), Queue.Without(jobs, ids))
    case CleanOld(g, l, k) =>
      var s := if k.Str? then Queue.StateNamed(k.s) else None;
      var ids := if s.Some? then Queue.CleanIds(jobs, s.value, now - g, l) else [];
      (Success(Cleaned(k, |ids|, g as real / 3600000.0)), Queue.Without(jobs, ids))
  }

  /** A refused request deletes nothing. */
  lemma RefusalDeletesNothing(b: Body, jobs: seq<Queue.Job>, now: int)
    requires PlanFor(b).Reject?
    ensures Effect(PlanFor(b), jobs, now).1 == jobs
    ensures Effect(PlanFor(b), jobs, now).0.BadRequest?
  {
  }

  /** `POST`: carries out the plan on the queue. */
  method Post(q: Queue.ReportQueue, b: Body, now: int) returns (resp: Response)
    requires q.Valid()
    modifies q
    ensures q.Valid()
    ensures (resp, q.jobs) == Effect(PlanFor(b), old(q.jobs), now)
  {
    var p := PlanFor(b);
    match p {
      case Reject(msg) =>
        resp := BadRequest(msg);
      case Obliterate =>
        var done := q.ObliterateAllJobs(true);
        resp := Success(Obliterated("All jobs deleted"));
      case CleanCompleted(h) =>
        var n := q.CleanCompletedJobs(h, now);
        resp := Success(CleanedCompleted(n, h));
      case CleanFailed(d) =>
        var n := q.CleanFailedJobs(d, now);
        resp := Success(CleanedFailed(n, d));
      case CleanOld(g, l, k) =>
        WithoutNothing(q.jobs);
        var deleted: seq<string> := [];
        if k.Str? {
          deleted := q.CleanOldJobs(g, l, k.s, now);
        }
        resp := Success(Cleaned(k, |deleted|, g as real / 3600000.0));
    }
  }

  lemma {:induction false} WithoutNothing(jobs: seq<Queue.Job>)
    ensures Queue.Without(jobs, []) == jobs
  {
    if jobs != [] {
      WithoutNothing(jobs[1..]);
      assert jobs == [jobs[0]] + jobs[1..];
    }
  }

  // ---------------------------------------------------------------
  // GET
  // ---------------------------------------------------------------

  const CompletedThreshold: nat := 100
  const FailedThreshold: nat := 50

  function ShouldClean(n: nat): string {
    "Should clean (" + IntToString(n) + " jobs)"
  }

  /** The `recommendations` record. */
  function Recommendations(c: Queue.Counts): (r: seq<Prop>)
    ensures DistinctKeys(r)
    ensures Lookup(r, "completed") == (if c.completed > 100 then Str(ShouldClean(c.completed)) else Undefined)
    ensures Lookup(r, "failed") == (if c.failed > 50 then Str(ShouldClean(c.failed)) else Undefined)
    ensures forall p :: p in r ==> p.key in {"completed", "failed"}
  {
    (if c.completed > CompletedThreshold then [Prop("completed", Str(ShouldClean(c.completed)))] else [])
    + (if c.failed > FailedThreshold then [Prop("failed", Str(ShouldClean(c.failed)))] else [])
  }

  datatype Report = Report(counts: Queue.Counts, recommendations: seq<Prop>)

  /** `GET` */
  method Get(q: Queue.ReportQueue) returns (r: Report)
    ensures r.counts == Queue.Counts(Queue.CountOf(q.jobs, Queue.Completed), Queue.CountOf(q.jobs, Queue.Failed),
                                     Queue.CountOf(q.jobs, Queue.Active), Queue.CountOf(q.jobs, Queue.Delayed),
                                     Queue.CountOf(q.jobs, Queue.Waiting))
    ensures r.recommendations == Recommendations(r.counts)
    ensures Lookup(r.recommendations, "completed").Str? <==> Queue.CountOf(q.jobs, Queue.Completed) > 100
    ensures Lookup(r.recommendations, "failed").Str? <==> Queue.CountOf(q.jobs, Queue.Failed) > 50
  {
    var counts := q.GetDetailedJobCounts();
    r := Report(counts, Recommendations(counts));
  }
}
