/** Scheduled jobs (crates/orion-api/src/orchestration.rs and the scheduler loop in
    crates/orion-api/src/main.rs). The cron crate is a parameter: which expressions are valid, which instants
    are slots of an expression, and the least slot after an instant. */
module Scheduler {
  import opened Text

  type Time = int

  datatype Cron = Cron(valid: string -> bool, slot: (string, Time) -> bool, next: (string, Time) -> Option<Time>)

  /** `schedule.after(t).next()` is the least slot after `t`. */
  ghost predicate Lawful(c: Cron) {
    forall e, t ::
      match c.next(e, t)
      case Some(n) => t < n && c.slot(e, n) && forall s :: t < s < n ==> !c.slot(e, s)
      case None => forall s :: t < s ==> !c.slot(e, s)
  }

  datatype Mode = IdCheck | AgenticRun

  datatype Significance = Low | Medium | High

  datatype Job = Job(
    id: string, name: string, cron: string, enabled: bool, mode: Mode, goal: string, policy: string,
    createdAt: Time, updatedAt: Time, lastRunAt: Option<Time>, nextRunAt: Option<Time>,
    lastStatus: Option<string>, lastSignificance: Option<Significance>)

  datatype CreateRequest = CreateRequest(name: string, cron: string, mode: Mode, goal: string, enabled: bool,
    policy: string)

  datatype UpdateRequest = UpdateRequest(
    name: Option<string>, cron: Option<string>, mode: Option<Mode>, goal: Option<string>,
    enabled: Option<bool>, policy: Option<string>)

  /** How one execution of a job goes: whether it reaches the update of the job, and what it records. */
  datatype Execution = Execution(reached: bool, finished: Time, significance: Significance, status: string)

  // ---- Pure parts ----

  function InvalidCron(expr: string): string {
    "Invalid cron expression '" + expr + "'"
  }

  function NextRunAt(c: Cron, expr: string, from: Time): Result<Time, string> {
    if !c.valid(expr) then Err(InvalidCron(expr))
    else
      match c.next(expr, from)
      case Some(n) => Ok(n)
      case None => Err("Cron expression does not yield a future run")
  }

  function OkOnly(r: Result<Time, string>): Option<Time> {
    match r
    case Ok(t) => Some(t)
    case Err(_) => None
  }

  /** A job is due for slots after its last run, or after its creation if it never ran. */
  function Reference(j: Job): Time {
    match j.lastRunAt
    case Some(t) => t
    case None => j.createdAt
  }

  function IsJobDue(c: Cron, j: Job, now: Time): Result<bool, string> {
    if !c.valid(j.cron) then Err(InvalidCron(j.cron))
    else
      match c.next(j.cron, Reference(j))
      case Some(n) => Ok(n <= now)
      case None => Ok(false)
  }

  function UpdateAfterExecution(c: Cron, j: Job, x: Execution): Job {
    j.(lastRunAt := Some(x.finished), lastSignificance := Some(x.significance), lastStatus := Some(x.status),
       updatedAt := x.finished, nextRunAt := OkOnly(NextRunAt(c, j.cron, x.finished)))
  }

  predicate Fires(c: Cron, j: Job, now: Time) {
    j.enabled && IsJobDue(c, j, now) == Ok(true)
  }

  /** The slot a firing is charged to: the first one after the reference. */
  function ChargedSlot(c: Cron, j: Job, now: Time): Time
    requires Fires(c, j, now)
  {
    c.next(j.cron, Reference(j)).value
  }

  /** A tick leaves a job as it is, unless it fires and its execution reaches the update. */
  function Ticked(c: Cron, j: Job, now: Time, x: Execution): Job {
    if Fires(c, j, now) && x.reached then UpdateAfterExecution(c, j, x) else j
  }

  // ---- Times of one job ----

  /** What the times of a job satisfy after any change. */
  ghost predicate JobTimes(c: Cron, j: Job, clock: Time) {
    j.createdAt <= Reference(j) <= j.updatedAt <= clock
    && j.nextRunAt == OkOnly(NextRunAt(c, j.cron, j.updatedAt))
  }

  /** A job is due at `now` exactly when a slot lies after its reference and not after `now`. */
  lemma DueIffSlotPassed(c: Cron, j: Job, now: Time)
    requires Lawful(c) && c.valid(j.cron)
    ensures IsJobDue(c, j, now) == Ok(true) <==> exists s :: Reference(j) < s <= now && c.slot(j.cron, s)
  {
  }

  /** Progress: at a tick, an enabled job with a valid expression and a slot behind its reference fires. */
  lemma SlotPassedFires(c: Cron, j: Job, now: Time, s: Time)
    requires Lawful(c) && c.valid(j.cron) && j.enabled
    requires Reference(j) < s <= now && c.slot(j.cron, s)
    ensures Fires(c, j, now) && Reference(j) < ChargedSlot(c, j, now) <= s
  {
  }

  /** `next_run_at` never promises too early: once it has passed, the job is due. */
  lemma NextRunPassedIsDue(c: Cron, j: Job, clock: Time, t: Time)
    requires Lawful(c) && JobTimes(c, j, clock)
    requires j.nextRunAt.Some? && j.nextRunAt.value <= t
    ensures IsJobDue(c, j, t) == Ok(true)
  {
    DueIffSlotPassed(c, j, t);
  }

  /** `next_run_at` is exactly when the job becomes due if and only if no slot lies between the job's
      reference and its last change. */
  lemma NextRunExactIffNoSlotSkipped(c: Cron, j: Job, clock: Time)
    requires Lawful(c) && JobTimes(c, j, clock) && c.valid(j.cron)
    ensures (forall t :: IsJobDue(c, j, t) == Ok(true) <==> j.nextRunAt.Some? && j.nextRunAt.value <= t)
       <==> (forall s :: Reference(j) < s <= j.updatedAt ==> !c.slot(j.cron, s))
  {
    if s :| Reference(j) < s <= j.updatedAt && c.slot(j.cron, s) {
      DueIffSlotPassed(c, j, s);
      assert !(j.nextRunAt.Some? && j.nextRunAt.value <= s);
    } else {
      forall t ensures IsJobDue(c, j, t) == Ok(true) <==> j.nextRunAt.Some? && j.nextRunAt.value <= t {
        DueIffSlotPassed(c, j, t);
      }
    }
  }

  /** So it is exact after a creation or an execution, when the last change is the reference. */
  lemma NextRunExactAfterCreateOrRun(c: Cron, j: Job, clock: Time, t: Time)
    requires Lawful(c) && JobTimes(c, j, clock) && c.valid(j.cron) && j.updatedAt == Reference(j)
    ensures IsJobDue(c, j, t) == Ok(true) <==> j.nextRunAt.Some? && j.nextRunAt.value <= t
  {
    NextRunExactIffNoSlotSkipped(c, j, clock);
  }

  /** Two ticks in a row charge the same slot exactly when the first one's update was lost, that is, when
      the jobs file could not be saved (or the execution stopped short of the update). */
  lemma SlotChargedTwiceIffUpdateLost(c: Cron, j: Job, now: Time, x: Execution, saved: bool, later: Time)
    requires Lawful(c) && Fires(c, j, now) && now <= x.finished <= later
    ensures var j' := if saved then Ticked(c, j, now, x) else j;
      Fires(c, j', later) && ChargedSlot(c, j', later) == ChargedSlot(c, j, now) <==> !(saved && x.reached)
  {
  }

  // ---- The list operations ----

  method CreateJob(c: Cron, jobs: seq<Job>, request: CreateRequest, id: string, now: Time)
    returns (jobs': seq<Job>, r: Result<Job, string>)
    ensures r.Ok? <==> Trim(request.name) != "" && Trim(request.goal) != "" && c.valid(request.cron)
    ensures r.Err? ==> jobs' == jobs
    ensures r.Ok? ==> jobs' == jobs + [r.value] && JobTimes(c, r.value, now)
    ensures r.Ok? ==> r.value == Job(id, Trim(request.name), Trim(request.cron), request.enabled, request.mode,
      Trim(request.goal), request.policy, now, now, None, r.value.nextRunAt, None, None)
  {
    if Trim(request.name) == "" {
      return jobs, Err("Job name is required");
    }
    if Trim(request.goal) == "" {
      return jobs, Err("Job goal_template is required");
    }
    if !c.valid(request.cron) {
      return jobs, Err(InvalidCron(request.cron));
    }
    var job := Job(id, Trim(request.name), Trim(request.cron), request.enabled, request.mode, Trim(request.goal),
                   request.policy, now, now, None, None, None, None);
    job := job.(nextRunAt := OkOnly(NextRunAt(c, job.cron, now)));
    return jobs + [job], Ok(job);
  }

  /** `iter().position(|j| j.job_id == id)`, the list's length if there is none. */
  function IndexOf(jobs: seq<Job>, id: string): (i: nat)
    ensures i <= |jobs| && (i < |jobs| ==> jobs[i].id == id)
    ensures forall k :: 0 <= k < i ==> jobs[k].id != id
  {
    if jobs == [] || jobs[0].id == id then 0
    else
      var i := IndexOf(jobs[1..], id);
      assert forall k :: 0 < k < 1 + i ==> jobs[k].id == jobs[1..][k - 1].id;
      1 + i
  }

  /** What an update has to satisfy, field by field. */
  predicate Acceptable(c: Cron, request: UpdateRequest) {
    (request.name.Some? ==> Trim(request.name.value) != "")
    && (request.cron.Some? ==> c.valid(Trim(request.cron.value)))
    && (request.goal.Some? ==> Trim(request.goal.value) != "")
  }

  lemma AcceptableExactly(c: Cron, request: UpdateRequest)
    ensures Acceptable(c, request) <==>
      (request.name.None? || Trim(request.name.value) != "")
      && (request.goal.None? || Trim(request.goal.value) != "")
      && (request.cron.None? || c.valid(Trim(request.cron.value)))
  {
  }

  function Given(field: Option<string>, current: string): string {
    match field
    case Some(v) => Trim(v)
    case None => current
  }

  /** The job with the given fields set and its times brought up to date. */
  function Edited(c: Cron, j: Job, request: UpdateRequest, now: Time): Job {
    j.(name := Given(request.name, j.name), cron := Given(request.cron, j.cron), goal := Given(request.goal, j.goal),
       mode := if request.mode.Some? then request.mode.value else j.mode,
       enabled := if request.enabled.Some? then request.enabled.value else j.enabled,
       policy := if request.policy.Some? then request.policy.value else j.policy,
       updatedAt := now, nextRunAt := OkOnly(NextRunAt(c, Given(request.cron, j.cron), now)))
  }

  /** The times and the past of a job. */
  predicate SameHistory(a: Job, b: Job) {
    a.id == b.id && a.createdAt == b.createdAt && a.lastRunAt == b.lastRunAt
    && a.lastStatus == b.lastStatus && a.lastSignificance == b.lastSignificance
  }

  /** What a job is set up to do. */
  predicate SameDefinition(a: Job, b: Job) {
    a.id == b.id && a.name == b.name && a.cron == b.cron && a.enabled == b.enabled && a.mode == b.mode
    && a.goal == b.goal && a.policy == b.policy
  }

  /** An accepted update sets the fields that are given, trimmed where they are text, keeps the others and the job's
      past, and brings its times up to date. */
  lemma EditedFacts(c: Cron, j: Job, request: UpdateRequest, now: Time)
    requires Lawful(c) && Reference(j) <= now && j.createdAt <= Reference(j)
    ensures var j' := Edited(c, j, request, now);
      SameHistory(j, j') && JobTimes(c, j', now) && j'.updatedAt == now
      && (request.name.Some? ==> j'.name == Trim(request.name.value))
      && (request.cron.Some? ==> j'.cron == Trim(request.cron.value))
      && (request.goal.Some? ==> j'.goal == Trim(request.goal.value))
      && (request.mode.Some? ==> j'.mode == request.mode.value)
      && (request.enabled.Some? ==> j'.enabled == request.enabled.value)
      && (request.policy.Some? ==> j'.policy == request.policy.value)
      && (request.name.None? ==> j'.name == j.name) && (request.cron.None? ==> j'.cron == j.cron)
      && (request.goal.None? ==> j'.goal == j.goal)
      && (request.mode.None? ==> j'.mode == j.mode) && (request.enabled.None? ==> j'.enabled == j.enabled)
      && (request.policy.None? ==> j'.policy == j.policy)
  {
    hide Trim;
  }

  /** An execution moves the reference to its end, records its outcome, and leaves what the job is set up to do. */
  lemma ExecutedFacts(c: Cron, j: Job, x: Execution)
    requires j.createdAt <= x.finished
    ensures var j' := UpdateAfterExecution(c, j, x);
      SameDefinition(j, j') && JobTimes(c, j', x.finished) && j'.createdAt == j.createdAt
      && Reference(j') == j'.updatedAt == x.finished
      && j'.lastStatus == Some(x.status) && j'.lastSignificance == Some(x.significance)
  {
  }

  /** A partial update in place. A field that fails validation stops it, but the fields before it have
      been written by then, without the times being brought up to date. */
  method UpdateJob(c: Cron, jobs: seq<Job>, id: string, request: UpdateRequest, now: Time)
    returns (jobs': seq<Job>, r: Result<Job, string>)
    ensures r.Ok? <==> IndexOf(jobs, id) < |jobs| && Acceptable(c, request)
    ensures Acceptable(c, request) <==>
      (request.name.None? || Trim(request.name.value) != "")
      && (request.goal.None? || Trim(request.goal.value) != "")
      && (request.cron.None? || c.valid(Trim(request.cron.value)))
    ensures r.Ok? ==>
      r.value == Edited(c, jobs[IndexOf(jobs, id)], request, now) && jobs' == jobs[IndexOf(jobs, id) := r.value]
    ensures r.Err? ==> |jobs'| == |jobs|
    ensures r.Err? ==> forall i :: 0 <= i < |jobs| ==>
      SameHistory(jobs[i], jobs'[i]) && jobs'[i].updatedAt == jobs[i].updatedAt
        && jobs'[i].nextRunAt == jobs[i].nextRunAt
  {
    AcceptableExactly(c, request);
    hide Edited, Acceptable, IndexOf;
    var i := IndexOf(jobs, id);
    if i == |jobs| {
      return jobs, Err("Job not found");
    }
    var job, error := EditJob(c, jobs[i], request, now);
    r := if error.Some? then Err(error.value) else Ok(job);
    jobs' := jobs[i := job];
  }

  /** The fields one by one, each checked before it is written. */
  method EditJob(c: Cron, original: Job, request: UpdateRequest, now: Time) returns (job: Job, error: Option<string>)
    ensures error.None? <==> Acceptable(c, request)
    ensures error.None? ==> job == Edited(c, original, request, now)
    ensures error.Some? ==>
      SameHistory(original, job) && job.updatedAt == original.updatedAt && job.nextRunAt == original.nextRunAt
  {
    hide Trim, NextRunAt, OkOnly, InvalidCron;
    job, error := original, None;
    if request.name.Some? {
      if Trim(request.name.value) == "" {
        return job, Some("Job name cannot be empty");
      }
      job := job.(name := Trim(request.name.value));
    }
    assert job == original.(name := Given(request.name, original.name));
    if request.cron.Some? {
      var cron := Trim(request.cron.value);
      if !c.valid(cron) {
        return job, Some(InvalidCron(cron));
      }
      job := job.(cron := cron);
    }
    ghost var named := original.(name := Given(request.name, original.name));
    assert job == named.(cron := Given(request.cron, original.cron));
    job := job.(mode := if request.mode.Some? then request.mode.value else job.mode);
    if request.goal.Some? {
      if Trim(request.goal.value) == "" {
        return job, Some("Job goal_template cannot be empty");
      }
      job := job.(goal := Trim(request.goal.value));
    }
    job := job.(enabled := if request.enabled.Some? then request.enabled.value else job.enabled);
    job := job.(policy := if request.policy.Some? then request.policy.value else job.policy);
    job := job.(updatedAt := now, nextRunAt := OkOnly(NextRunAt(c, job.cron, now)));
  }

  function Toggled(c: Cron, j: Job, enabled: bool, now: Time): Job {
    j.(enabled := enabled, updatedAt := now, nextRunAt := OkOnly(NextRunAt(c, j.cron, now)))
  }

  method SetJobEnabled(c: Cron, jobs: seq<Job>, id: string, enabled: bool, now: Time)
    returns (jobs': seq<Job>, r: Result<Job, string>)
    ensures r.Ok? <==> IndexOf(jobs, id) < |jobs|
    ensures r.Err? ==> jobs' == jobs
    ensures r.Ok? ==>
      r.value == Toggled(c, jobs[IndexOf(jobs, id)], enabled, now) && jobs' == jobs[IndexOf(jobs, id) := r.value]
    ensures r.Ok? ==>
      var j := jobs[IndexOf(jobs, id)];
      r.value.enabled == enabled && SameDefinition(j.(enabled := enabled), r.value) && SameHistory(j, r.value)
      && Reference(r.value) == Reference(j) && (!enabled ==> forall t :: !Fires(c, r.value, t))
  {
    var i := IndexOf(jobs, id);
    if i == |jobs| {
      return jobs, Err("Job not found");
    }
    var job := jobs[i].(enabled := enabled);
    job := job.(updatedAt := now, nextRunAt := OkOnly(NextRunAt(c, job.cron, now)));
    return jobs[i := job], Ok(job);
  }

  /** Re-enabling keeps the reference, so a slot that went by while the job was off makes it due at once, whatever
      `next_run_at` was just set to; without such a slot `next_run_at` is exact again. */
  lemma ReenabledDueAtOnceIff(c: Cron, j: Job, now: Time)
    requires Lawful(c) && c.valid(j.cron) && Reference(j) <= now
    ensures var j' := Toggled(c, j, true, now);
      (Fires(c, j', now) <==> exists s :: Reference(j) < s <= now && c.slot(j.cron, s))
      && (j'.nextRunAt.Some? ==> j'.nextRunAt.value > now)
      && (!Fires(c, j', now) ==>
            forall t :: IsJobDue(c, j', t) == Ok(true) <==> j'.nextRunAt.Some? && j'.nextRunAt.value <= t)
  {
    hide IsJobDue;
    var j' := Toggled(c, j, true, now);
    DueIffSlotPassed(c, j', now);
    if !Fires(c, j', now) {
      forall t ensures IsJobDue(c, j', t) == Ok(true) <==> j'.nextRunAt.Some? && j'.nextRunAt.value <= t {
        DueIffSlotPassed(c, j', t);
      }
    }
  }

  /** An expression with a slot every ten. */
  function EveryTen(): Cron {
    Cron(_ => true, (_, t) => t % 10 == 0, (_, t) => Some(t - t % 10 + 10))
  }

  /** It does happen: created at 5, switched off, and on again at 25, a job with slots at 10, 20, 30, … fires at 25,
      charged to 10, while `next_run_at` says 30. */
  lemma ReenabledFiresBeforeNextRun(id: string, goal: string)
    ensures var c := EveryTen();
      var created := Job(id, "n", "e", true, IdCheck, goal, "", 5, 5, None, Some(10), None, None);
      var on := Toggled(c, Toggled(c, created, false, 7), true, 25);
      Lawful(c) && JobTimes(c, created, 5) && on.nextRunAt == Some(30) && Fires(c, on, 25)
        && ChargedSlot(c, on, 25) == 10
  {
  }

  /** The jobs that do not have this id, in order. */
  function Retained(jobs: seq<Job>, id: string): seq<Job> {
    if jobs == [] then []
    else (if jobs[0].id != id then [jobs[0]] else []) + Retained(jobs[1..], id)
  }

  lemma {:induction false} RetainedFrom(jobs: seq<Job>, id: string)
    ensures forall j :: j in Retained(jobs, id) <==> j in jobs && j.id != id
    ensures UniqueIds(jobs) ==> UniqueIds(Retained(jobs, id))
    ensures |Retained(jobs, id)| <= |jobs| && (|Retained(jobs, id)| == |jobs| <==> IndexOf(jobs, id) == |jobs|)
  {
    if jobs != [] {
      RetainedFrom(jobs[1..], id);
      var rest := Retained(jobs[1..], id);
      if UniqueIds(jobs) {
        forall k | 0 <= k < |rest| ensures rest[k].id != jobs[0].id {
          assert rest[k] in jobs[1..];
        }
      }
    }
  }

  /** With unique ids, removing is cutting out the one job with this id. */
  lemma {:induction false} RetainedIsCut(jobs: seq<Job>, id: string)
    requires UniqueIds(jobs)
    ensures var i := IndexOf(jobs, id);
      Retained(jobs, id) == if i < |jobs| then jobs[..i] + jobs[i + 1..] else jobs
  {
    if jobs != [] {
      var first, rest := jobs[0], jobs[1..];
      if first.id == id {
        RetainedAll(rest, id);
        assert jobs[..0] + jobs[1..] == rest;
      } else {
        RetainedIsCut(rest, id);
        CutBehind(first, rest, IndexOf(rest, id));
        assert jobs == [first] + rest;
      }
    }
  }

  lemma CutBehind(first: Job, rest: seq<Job>, i: nat)
    requires i <= |rest|
    ensures var jobs := [first] + rest;
      i < |rest| ==> [first] + (rest[..i] + rest[i + 1..]) == jobs[..i + 1] + jobs[i + 2..]
  {
  }

  lemma {:induction false} RetainedAll(jobs: seq<Job>, id: string)
    requires forall j :: 0 <= j < |jobs| ==> jobs[j].id != id
    ensures Retained(jobs, id) == jobs
  {
    if jobs != [] {
      RetainedAll(jobs[1..], id);
    }
  }

  predicate UniqueIds(jobs: seq<Job>) {
    forall i, k :: 0 <= i < k < |jobs| ==> jobs[i].id != jobs[k].id
  }

  // ---- Charges ----

  /** A scheduled run that reached the update and was saved. */
  datatype Charge = Charge(jobId: string, cron: string, slot: Time, at: Time, finished: Time)

  /** One charge against the cron law and the clock. */
  ghost predicate ChargeSound(c: Cron, ch: Charge, lastTick: Time) {
    c.slot(ch.cron, ch.slot) && ch.slot <= ch.at <= ch.finished && ch.at <= lastTick
  }

  /** Charges of one job, in order: each slot lies after everything the earlier charge covered. */
  ghost predicate ChargesOrdered(charges: seq<Charge>) {
    forall i, k :: 0 <= i < k < |charges| && charges[i].jobId == charges[k].jobId ==>
      charges[i].finished < charges[k].slot
  }

  /** The charges of a job lie after its creation and not after its reference. */
  ghost predicate ChargesCovered(j: Job, charges: seq<Charge>) {
    forall i :: 0 <= i < |charges| && charges[i].jobId == j.id ==>
      j.createdAt < charges[i].slot && charges[i].finished <= Reference(j)
  }

  /** The charges of one job under one expression. */
  function ChargesOf(charges: seq<Charge>, id: string, cron: string): seq<Charge> {
    if charges == [] then []
    else
      var rest := ChargesOf(charges[..|charges| - 1], id, cron);
      var last := charges[|charges| - 1];
      if last.jobId == id && last.cron == cron then rest + [last] else rest
  }

  /** Slots of an expression in (a, b]. */
  function SlotCount(c: Cron, cron: string, a: Time, b: Time): nat
    decreases b - a
  {
    if b <= a then 0 else SlotCount(c, cron, a, b - 1) + (if c.slot(cron, b) then 1 else 0)
  }

  /** `SlotCount` counts the slots. */
  lemma {:induction false} SlotCountCounts(c: Cron, cron: string, a: Time, b: Time)
    ensures SlotCount(c, cron, a, b) == |set s | a < s <= b && c.slot(cron, s)|
    decreases b - a
  {
    var all := set s | a < s <= b && c.slot(cron, s);
    if a < b {
      SlotCountCounts(c, cron, a, b - 1);
      var before := set s | a < s <= b - 1 && c.slot(cron, s);
      assert all == if c.slot(cron, b) then before + {b} else before;
    } else {
      assert all == {};
    }
  }

  /** No slot twice: each charge is for a later slot than the one before. */
  ghost predicate Increasing(chs: seq<Charge>) {
    forall i, k :: 0 <= i < k < |chs| ==> chs[i].slot < chs[k].slot
  }

  lemma {:induction false} ChargesOfFacts(charges: seq<Charge>, id: string, cron: string)
    ensures forall ch :: ch in ChargesOf(charges, id, cron) <==> ch in charges && ch.jobId == id && ch.cron == cron
  {
    if charges != [] {
      var before, last := charges[..|charges| - 1], charges[|charges| - 1];
      ChargesOfFacts(before, id, cron);
      assert charges == before + [last];
    }
  }

  lemma {:induction false} ChargesOfIncreasing(c: Cron, charges: seq<Charge>, id: string, cron: string, lastTick: Time)
    requires ChargesOrdered(charges)
    requires forall i :: 0 <= i < |charges| ==> ChargeSound(c, charges[i], lastTick)
    ensures Increasing(ChargesOf(charges, id, cron))
  {
    if charges != [] {
      var n := |charges| - 1;
      var before := charges[..n];
      ChargesOfIncreasing(c, before, id, cron, lastTick);
      ChargesOfFacts(before, id, cron);
      var chs := ChargesOf(before, id, cron);
      if charges[n].jobId == id {
        forall k | 0 <= k < |chs| ensures chs[k].slot < charges[n].slot {
          EarlierSlot(c, charges, chs[k], lastTick);
        }
      }
    }
  }

  lemma EarlierSlot(c: Cron, charges: seq<Charge>, ch: Charge, lastTick: Time)
    requires charges != [] && ChargesOrdered(charges)
    requires forall i :: 0 <= i < |charges| ==> ChargeSound(c, charges[i], lastTick)
    requires ch in charges[..|charges| - 1] && ch.jobId == charges[|charges| - 1].jobId
    ensures ch.slot < charges[|charges| - 1].slot
  {
    var i :| 0 <= i < |charges| - 1 && charges[..|charges| - 1][i] == ch;
    assert charges[i] == ch && ChargeSound(c, charges[i], lastTick);
  }

  /** Charges for strictly increasing slots in (a, b] are no more than there are slots. */
  lemma {:induction false} CountIncreasing(c: Cron, cron: string, a: Time, b: Time, chs: seq<Charge>)
    requires Increasing(chs) && forall k :: 0 <= k < |chs| ==> a < chs[k].slot <= b && c.slot(cron, chs[k].slot)
    ensures |chs| <= SlotCount(c, cron, a, b)
    decreases b - a
  {
    if chs != [] {
      var n := |chs| - 1;
      if chs[n].slot == b {
        CountIncreasing(c, cron, a, b - 1, chs[..n]);
      } else {
        CountIncreasing(c, cron, a, b - 1, chs);
      }
    }
  }

  // ---- Jobs that are switched off ----

  /** The jobs file and the charges after a step, and the ids that step has switched on. */
  datatype Snapshot = Snapshot(file: seq<Job>, charges: seq<Charge>, on: set<string>)

  /** No job with this id is enabled. */
  predicate Off(file: seq<Job>, id: string) {
    forall i :: 0 <= i < |file| && file[i].id == id ==> !file[i].enabled
  }

  /** A step charges only jobs that are not off, and what is off stays off unless the step switches it on. */
  ghost predicate KeepsOff(a: Snapshot, b: Snapshot) {
    a.charges <= b.charges
    && (forall m :: |a.charges| <= m < |b.charges| ==> !Off(a.file, b.charges[m].jobId))
    && (forall id :: Off(a.file, id) && id !in b.on ==> Off(b.file, id))
  }

  lemma RemovingKeepsOff(a: Snapshot, b: Snapshot)
    requires a.charges == b.charges && forall j :: j in b.file ==> j in a.file
    ensures KeepsOff(a, b)
  {
    forall id | Off(a.file, id) ensures Off(b.file, id) {
      forall i | 0 <= i < |b.file| && b.file[i].id == id ensures !b.file[i].enabled {
        assert b.file[i] in b.file;
        var k :| 0 <= k < |a.file| && a.file[k] == b.file[i];
      }
    }
  }

  lemma TickingKeepsOff(c: Cron, a: Snapshot, b: Snapshot, now: Time, runs: nat -> Execution)
    requires a.charges <= b.charges && forall m :: |a.charges| <= m < |b.charges| ==> !Off(a.file, b.charges[m].jobId)
    requires |b.file| == |a.file| && forall k :: 0 <= k < |b.file| ==> b.file[k] == Ticked(c, a.file[k], now, runs(k))
    ensures KeepsOff(a, b)
  {
    hide Fires;
    forall id | Off(a.file, id) ensures Off(b.file, id) {
      forall k | 0 <= k < |b.file| && b.file[k].id == id ensures !b.file[k].enabled {
        assert a.file[k].id == id;
      }
    }
  }

  lemma NothingKeepsOff(a: Snapshot, b: Snapshot)
    requires a.file == b.file && a.charges == b.charges
    ensures KeepsOff(a, b)
  {
  }

  lemma FiringIsNotOff(c: Cron, file: seq<Job>, i: nat, now: Time)
    requires i < |file| && Fires(c, file[i], now)
    ensures !Off(file, file[i].id)
  {
  }

  /** A job that is switched off gets no charge, from any tick, until it is switched on. */
  lemma {:induction false} OffUntilSwitchedOn(trace: seq<Snapshot>, i: nat, j: nat, id: string)
    requires i <= j < |trace| && forall k :: 0 <= k < |trace| - 1 ==> KeepsOff(trace[k], trace[k + 1])
    requires Off(trace[i].file, id) && forall k :: i < k <= j ==> id !in trace[k].on
    ensures Off(trace[j].file, id) && trace[i].charges <= trace[j].charges
    ensures forall m :: |trace[i].charges| <= m < |trace[j].charges| ==> trace[j].charges[m].jobId != id
  {
    if i < j {
      OffUntilSwitchedOn(trace, i, j - 1, id);
      assert KeepsOff(trace[j - 1], trace[j - 1 + 1]);
    }
  }

  // ---- The jobs file and the handlers over it ----

  class JobStore {
    const c: Cron
    var file: seq<Job>
    ghost var charges: seq<Charge>
    ghost var clock: Time
    ghost var lastTick: Time
    ghost var usedIds: set<string>

    constructor (c: Cron, start: Time)
      ensures this.c == c && Valid() && file == [] && charges == [] && clock == start
    {
      this.c := c;
      file, charges, clock, lastTick, usedIds := [], [], start, start, {};
    }

    /** What holds after any sequence of requests and ticks. */
    ghost predicate Valid()
      reads this
    {
      UniqueIds(file) && ChargesOrdered(charges) && lastTick <= clock
      && (forall i :: 0 <= i < |file| ==>
         JobTimes(c, file[i], clock) && ChargesCovered(file[i], charges) && file[i].id in usedIds)
      && (forall i :: 0 <= i < |charges| ==>
         ChargeSound(c, charges[i], lastTick) && charges[i].finished <= clock && charges[i].jobId in usedIds)
    }

    /** The store as a step that switches on these ids leaves it. */
    ghost function After(on: set<string>): Snapshot
      reads this
    {
      Snapshot(file, charges, on)
    }

    /** POST …/jobs. The id is a fresh UUID. */
    method ApiCreate(request: CreateRequest, id: string, now: Time, saveOk: bool) returns (r: Result<Job, string>)
      requires Valid() && clock <= now && id !in usedIds
      modifies this
      ensures Valid() && clock == now && charges == old(charges)
      ensures file == if r.Ok? then old(file) + [r.value] else old(file)
      ensures r.Ok? <==> saveOk && Trim(request.name) != "" && Trim(request.goal) != "" && c.valid(request.cron)
      ensures KeepsOff(old(After({})), After(if request.enabled then {id} else {}))
    {
      clock := now;
      var jobs, created := CreateJob(c, file, request, id, now);
      usedIds := usedIds + {id};
      if created.Err? {
        return created;
      }
      if !saveOk {
        return Err("Write jobs file");
      }
      file := jobs;
      return created;
    }

    /** POST …/jobs/{id}. A rejected update is not saved, so its half-written job never reaches the file. */
    method ApiUpdate(id: string, request: UpdateRequest, now: Time, saveOk: bool) returns (r: Result<Job, string>)
      requires Valid() && clock <= now
      modifies this
      ensures Valid() && clock == now && charges == old(charges)
      ensures r.Ok? <==> saveOk && IndexOf(old(file), id) < |old(file)| && Acceptable(c, request)
      ensures r.Err? ==> file == old(file)
      ensures r.Ok? ==>
        file == old(file)[IndexOf(old(file), id) := Edited(c, old(file)[IndexOf(old(file), id)], request, now)]
      ensures KeepsOff(old(After({})), After(if request.enabled == Some(true) then {id} else {}))
    {
      var jobs, updated := UpdateJob(c, file, id, request, now);
      clock := now;
      if updated.Err? {
        return updated;
      }
      if !saveOk {
        return Err("Write jobs file");
      }
      ReplaceKeepsValid(file, IndexOf(file, id), updated.value, now);
      file := jobs;
      return updated;
    }

    method ApiSetEnabled(id: string, enabled: bool, now: Time, saveOk: bool) returns (r: Result<Job, string>)
      requires Valid() && clock <= now
      modifies this
      ensures Valid() && clock == now && charges == old(charges)
      ensures r.Ok? <==> saveOk && IndexOf(old(file), id) < |old(file)|
      ensures r.Err? ==> file == old(file)
      ensures r.Ok? ==>
        file == old(file)[IndexOf(old(file), id) := Toggled(c, old(file)[IndexOf(old(file), id)], enabled, now)]
      ensures r.Ok? ==>
        var j, j' := old(file)[IndexOf(old(file), id)], file[IndexOf(old(file), id)];
        j'.enabled == enabled && SameDefinition(j.(enabled := enabled), j') && SameHistory(j, j')
        && (!enabled ==> forall t :: !Fires(c, j', t))
      ensures KeepsOff(old(After({})), After(if enabled then {id} else {}))
    {
      var jobs, updated := SetJobEnabled(c, file, id, enabled, now);
      clock := now;
      if updated.Err? {
        return updated;
      }
      if !saveOk {
        return Err("Write jobs file");
      }
      ReplaceKeepsValid(file, IndexOf(file, id), updated.value, now);
      file := jobs;
      return updated;
    }

    /** A changed job keeps the store valid if its past is the old one, or reaches further. */
    lemma ReplaceKeepsValid(jobs: seq<Job>, i: nat, job: Job, now: Time)
      requires UniqueIds(jobs) && i < |jobs| && job.id == jobs[i].id && job.createdAt == jobs[i].createdAt
      requires Reference(jobs[i]) <= Reference(job) && JobTimes(c, job, now)
      requires forall k :: 0 <= k < |jobs| ==>
        JobTimes(c, jobs[k], now) && ChargesCovered(jobs[k], charges) && jobs[k].id in usedIds
      ensures var jobs' := jobs[i := job];
        UniqueIds(jobs') &&
        forall k :: 0 <= k < |jobs'| ==>
          JobTimes(c, jobs'[k], now) && ChargesCovered(jobs'[k], charges) && jobs'[k].id in usedIds
    {
      var jobs' := jobs[i := job];
      forall k | 0 <= k < |jobs'|
        ensures jobs'[k].id == jobs[k].id && JobTimes(c, jobs'[k], now) && ChargesCovered(jobs'[k], charges)
          && jobs'[k].id in usedIds
      {
        assert JobTimes(c, jobs[k], now) && ChargesCovered(jobs[k], charges);
      }
    }

    method ApiDelete(id: string, now: Time, saveOk: bool) returns (r: Result<(), string>)
      requires Valid() && clock <= now
      modifies this
      ensures Valid() && clock == now && charges == old(charges)
      ensures file == if r.Ok? then Retained(old(file), id) else old(file)
      ensures r.Ok? <==> saveOk && IndexOf(old(file), id) < |old(file)|
      ensures r.Ok? ==> file == old(file)[..IndexOf(old(file), id)] + old(file)[IndexOf(old(file), id) + 1..]
      ensures KeepsOff(old(After({})), After({}))
    {
      hide JobTimes, ChargesCovered, ChargeSound, ChargesOrdered, Retained, Off, KeepsOff, IndexOf;
      ghost var before := After({});
      TimesStay(clock, now);
      clock := now;
      RetainedIsCut(file, id);
      RetainedFrom(file, id);
      var jobs := Retained(file, id);
      if |jobs| == |file| {
        NothingKeepsOff(before, After({}));
        return Err("Job not found");
      }
      if !saveOk {
        NothingKeepsOff(before, After({}));
        return Err("Write jobs file");
      }
      forall k | 0 <= k < |jobs|
        ensures JobTimes(c, jobs[k], now) && ChargesCovered(jobs[k], charges) && jobs[k].id in usedIds
      {
        assert jobs[k] in file;
      }
      file := jobs;
      RemovingKeepsOff(before, After({}));
      return Ok(());
    }

    /** Times stay in order as the clock moves on. */
    lemma TimesStay(earlier: Time, now: Time)
      requires earlier <= now && forall i :: 0 <= i < |file| ==> JobTimes(c, file[i], earlier)
      ensures forall i :: 0 <= i < |file| ==> JobTimes(c, file[i], now)
    {
    }

    /** POST …/jobs/{id}/run. A manual run is not charged to a slot, but moves the reference. */
    method ApiRunNow(id: string, x: Execution, saveOk: bool) returns (r: Result<(), string>)
      requires Valid() && clock <= x.finished
      modifies this
      ensures Valid() && clock == x.finished && charges == old(charges)
      ensures r.Err? ==> file == old(file)
      ensures r.Ok? <==> saveOk && x.reached && IndexOf(old(file), id) < |old(file)|
      ensures r.Ok? ==>
        file == old(file)[IndexOf(old(file), id) := UpdateAfterExecution(c, old(file)[IndexOf(old(file), id)], x)]
      ensures KeepsOff(old(After({})), After({}))
    {
      clock := x.finished;
      var i := IndexOf(file, id);
      if i == |file| {
        return Err("Job not found");
      }
      if !x.reached {
        return Err("run failed");
      }
      if !saveOk {
        return Err("Write jobs file");
      }
      assert JobTimes(c, file[i], old(clock));
      ReplaceKeepsValid(file, i, UpdateAfterExecution(c, file[i], x), x.finished);
      file := file[i := UpdateAfterExecution(c, file[i], x)];
      return Ok(());
    }

    /** One tick: every enabled job that is due is executed, then the list is saved if anything ran. The
        charges are those of the executions whose update reached the file. */
    method Tick(now: Time, runs: nat -> Execution, after: Time, saveOk: bool)
      requires Lawful(c) && Valid() && clock <= now <= after
      requires forall i :: now <= runs(i).finished <= after
      modifies this
      ensures Valid() && clock == after && lastTick == now
      ensures |file| == |old(file)|
      ensures forall i :: 0 <= i < |file| ==>
        file[i] == if saveOk then Ticked(c, old(file)[i], now, runs(i)) else old(file)[i]
      ensures old(charges) <= charges && (!saveOk ==> charges == old(charges))
      ensures KeepsOff(old(After({})), After({}))
      ensures saveOk ==> forall i :: 0 <= i < |file| && Fires(c, old(file)[i], now) && runs(i).reached ==>
        Charge(old(file)[i].id, old(file)[i].cron, ChargedSlot(c, old(file)[i], now), now, runs(i).finished) in charges
    {
      hide UpdateAfterExecution, ChargesOrdered, ChargesCovered, ChargeSound, JobTimes, Off, KeepsOff;
      ghost var start := After({});
      TickBegins(now, after);
      var before := file;
      var jobs := before;
      var changed := false;
      ghost var more := charges;
      for i := 0 to |before|
        modifies {}
        invariant |jobs| == |before| && (!changed ==> jobs == before && more == charges)
        invariant forall k :: 0 <= k < |jobs| ==>
          jobs[k] == if k < i then Ticked(c, before[k], now, runs(k)) else before[k]
        invariant charges <= more && TickInv(jobs, more, now, after)
        invariant forall m :: |charges| <= m < |more| ==> !Off(before, more[m].jobId)
        invariant forall k :: 0 <= k < i && Fires(c, before[k], now) && runs(k).reached ==>
          Charge(before[k].id, before[k].cron, ChargedSlot(c, before[k], now), now, runs(k).finished) in more
      {
        var job := jobs[i];
        var due := IsJobDue(c, job, now);
        if job.enabled && due == Ok(true) {
          changed := true;
          if runs(i).reached {
            FiringIsNotOff(c, before, i, now);
            ghost var ch := Charge(job.id, job.cron, ChargedSlot(c, job, now), now, runs(i).finished);
            ChargeKeepsInv(jobs, more, i, ch, runs(i), now, after);
            more := more + [ch];
            jobs := jobs[i := UpdateAfterExecution(c, job, runs(i))];
          }
        }
      }
      clock, lastTick := after, now;
      if changed && saveOk {
        file := jobs;
        charges := more;
        TickingKeepsOff(c, start, After({}), now, runs);
      } else {
        NothingKeepsOff(start, After({}));
      }
    }

    /** The store's invariant over the list a tick works on. */
    ghost predicate TickInv(jobs: seq<Job>, more: seq<Charge>, now: Time, after: Time)
      reads this
    {
      UniqueIds(jobs) && ChargesOrdered(more)
      && (forall i :: 0 <= i < |jobs| ==>
         JobTimes(c, jobs[i], after) && ChargesCovered(jobs[i], more) && jobs[i].id in usedIds)
      && (forall i :: 0 <= i < |more| ==>
         ChargeSound(c, more[i], now) && more[i].finished <= after && more[i].jobId in usedIds)
    }

    lemma TickBegins(now: Time, after: Time)
      requires Valid() && clock <= now <= after
      ensures TickInv(file, charges, now, after)
    {
    }

    lemma ChargeKeepsInv(jobs: seq<Job>, more: seq<Charge>, i: nat, ch: Charge, x: Execution, now: Time, after: Time)
      requires Lawful(c) && TickInv(jobs, more, now, after) && i < |jobs| && Fires(c, jobs[i], now)
      requires now <= x.finished <= after && Reference(jobs[i]) <= x.finished
      requires ch == Charge(jobs[i].id, jobs[i].cron, ChargedSlot(c, jobs[i], now), now, x.finished)
      ensures TickInv(jobs[i := UpdateAfterExecution(c, jobs[i], x)], more + [ch], now, after)
    {
      var jobs' := jobs[i := UpdateAfterExecution(c, jobs[i], x)];
      var more' := more + [ch];
      assert JobTimes(c, jobs[i], after) && ChargesCovered(jobs[i], more);
      forall k | 0 <= k < |jobs'|
        ensures jobs'[k].id == jobs[k].id && JobTimes(c, jobs'[k], after) && ChargesCovered(jobs'[k], more')
          && jobs'[k].id in usedIds
      {
        assert JobTimes(c, jobs[k], after) && ChargesCovered(jobs[k], more);
      }
      forall a, b | 0 <= a < b < |more'| && more'[a].jobId == more'[b].jobId ensures more'[a].finished < more'[b].slot {
      }
    }

    /** Safety over any history: under any one expression, a job is never charged more often than the expression
        has slots between the job's creation and the last tick, and never twice for the same slot. */
    lemma ChargesWithinSlots(j: Job, cron: string)
      requires Valid() && j in file
      ensures |ChargesOf(charges, j.id, cron)| <= SlotCount(c, cron, j.createdAt, lastTick)
      ensures Increasing(ChargesOf(charges, j.id, cron))
    {
      var chs := ChargesOf(charges, j.id, cron);
      ChargesOfFacts(charges, j.id, cron);
      ChargesOfIncreasing(c, charges, j.id, cron, lastTick);
      forall k | 0 <= k < |chs| ensures j.createdAt < chs[k].slot <= lastTick && c.slot(cron, chs[k].slot) {
        var i :| 0 <= i < |file| && file[i] == j;
        assert ChargesCovered(file[i], charges) && chs[k] in charges;
        var m :| 0 <= m < |charges| && charges[m] == chs[k];
        assert ChargeSound(c, charges[m], lastTick);
      }
      CountIncreasing(c, cron, j.createdAt, lastTick, chs);
    }
  }
}
