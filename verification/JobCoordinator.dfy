/** The coordinator of background installation jobs: one runs at a time, at most eight are remembered. */
module JobCoordinator {
  import opened Common
  import opened InstallTransaction
  import InstallApply

  const MAX_JOBS := 8

  datatype JobState = JobRunning | JobCompleted | JobFailed

  datatype Stage = Queued | At(step: Step) | AllDone | GivenUp | RolledBack

  datatype Job = Job(
    id: string, state: JobState, currentStep: Stage, progress: int, steps: seq<Step>,
    failureStep: FailureStep, canRetry: bool, canRollback: bool, lastUpdated: int)

  datatype Error = ContextDone | InvalidApply | RandomFailed | ServiceClosed | ApplyBusy | JobNotFound
                 | RollbackUnavailable | ConfirmationRequired

  datatype Result<+T> = Ok(value: T) | Err(error: Error)

  /** Where a run failed, as a client is told. */
  datatype FailureStep = Unknown | In(stage: InstallApply.FailureStage) | InComplete

  /** What the coordinator tells errors apart by. */
  datatype Kind = AlreadyInstalled | Busy | Invalid | Preflight | Other

  /** How one run of the apply service ends: the steps it returns, or an error
      of some kind, perhaps with a stage of its own and something to roll back. */
  datatype Outcome = Succeeded(steps: seq<Step>) | Failure(stage: FailureStep, kind: Kind, canRollback: bool)

  /** `publicJobError`, as far as a retry goes. */
  predicate MayRetry(kind: Kind) { !kind.AlreadyInstalled? && !kind.Invalid? }

  /** The table at the end of `publicJobFailureStep`. */
  function NextStage(last: Stage): FailureStep {
    match last
    case Queued => In(InstallApply.InPlan)
    case At(Plan) => In(InstallApply.InDatabase)
    case At(Database) => In(InstallApply.InRedis)
    case At(Redis) => In(InstallApply.InSchema)
    case At(Schema) => In(InstallApply.InIdentity)
    case At(Identity) => In(InstallApply.InEnvironment)
    case At(Environment) => In(InstallApply.InLock)
    case At(Lock) => InComplete
    case _ => Unknown
  }

  /** `publicJobFailureStep`. */
  function Blamed(stage: FailureStep, kind: Kind, last: Stage): FailureStep {
    if !stage.Unknown? then stage
    else match kind
      case Busy => In(InstallApply.InCoordination)
      case Invalid => In(InstallApply.InRequest)
      case AlreadyInstalled => In(InstallApply.InLock)
      case _ => NextStage(last)
  }

  /** The stage in which a step is done. */
  function StageOf(step: Step): FailureStep {
    match step
    case Plan => In(InstallApply.InPlan)
    case Database => In(InstallApply.InDatabase)
    case Redis => In(InstallApply.InRedis)
    case Schema => In(InstallApply.InSchema)
    case Identity => In(InstallApply.InIdentity)
    case Environment => In(InstallApply.InEnvironment)
    case Lock => In(InstallApply.InLock)
    case _ => Unknown
  }

  type Jobs = map<string, Job>

  function StepProgress(step: Step): int {
    match step
    case Plan => 10
    case Database => 20
    case Redis => 30
    case Schema => 50
    case Identity => 70
    case Environment => 90
    case Lock => 100
    case _ => 0
  }

  /** The percentages shown, step by step. */
  const PROGRESS := [10, 20, 30, 50, 70, 90, 100]

  /** What a running job shows once `apply` has reported its first `n` steps. */
  ghost predicate Shows(job: Job, n: nat) {
    && n <= |InstallApply.REPORT_ORDER| && job.steps == InstallApply.REPORT_ORDER[..n]
    && job.progress == (if n == 0 then 0 else StepProgress(InstallApply.REPORT_ORDER[n - 1]))
    && job.currentStep == if n == 0 then Queued else At(InstallApply.REPORT_ORDER[n - 1])
  }

  /** Reporting the next step in order raises the progress. */
  lemma NextStepRaises(job: Job, n: nat)
    requires Shows(job, n) && n < |InstallApply.REPORT_ORDER|
    ensures var step := InstallApply.REPORT_ORDER[n];
            step !in job.steps && StepProgress(step) > job.progress && StepProgress(step) == PROGRESS[n]
            && job.steps + [step] == InstallApply.REPORT_ORDER[..n + 1]
  {
    assert InstallApply.REPORT_ORDER == [Plan, Database, Redis, Schema, Identity, Environment, Lock];
  }

  /** An error without a stage of its own is blamed on the first step not yet
      reported, never on one that was. */
  lemma BlamesTheNextStep(job: Job, n: nat, kind: Kind)
    requires Shows(job, n) && (kind.Preflight? || kind.Other?)
    ensures Blamed(Unknown, kind, job.currentStep)
            == if n < |InstallApply.REPORT_ORDER| then StageOf(InstallApply.REPORT_ORDER[n]) else InComplete
    ensures forall step | step in job.steps :: Blamed(Unknown, kind, job.currentStep) != StageOf(step)
  {
    assert InstallApply.REPORT_ORDER == [Plan, Database, Redis, Schema, Identity, Environment, Lock];
    forall i | 0 <= i < n ensures Blamed(Unknown, kind, job.currentStep) != StageOf(InstallApply.REPORT_ORDER[i]) {}
  }

  lemma ProgressIsBounded(job: Job, n: nat)
    requires Shows(job, n)
    ensures job.progress <= 100
  {}

  /** Only the job called `active` may be running. */
  ghost predicate OnlyRuns(jobs: Jobs, active: string) {
    && (forall id | id in jobs :: jobs[id].id == id && id != "")
    && (forall id | id in jobs && jobs[id].state.JobRunning? :: id == active)
  }

  /** What the lock guards. */
  datatype State = State(jobs: Jobs, active: string, closed: bool, rollbackInFlight: bool, snapshot: Option<Job>)

  class ApplyJobService {
    var jobs: Jobs
    var active: string
    var closed: bool
    var rollbackInFlight: bool
    /** The job a rollback in flight read before it released the lock. */
    var snapshot: Option<Job>
    /** How many steps the active job's run has reported. */
    ghost var reported: nat

    ghost predicate Valid()
      reads this
    {
      && |jobs| <= MAX_JOBS && OnlyRuns(jobs, active)
      && (active != "" ==> active in jobs && jobs[active].state.JobRunning? && Shows(jobs[active], reported))
      && (rollbackInFlight <==> snapshot.Some?)
      && (snapshot.Some? ==>
            && snapshot.value.id in jobs && jobs[snapshot.value.id] == snapshot.value
            && snapshot.value.state.JobFailed? && snapshot.value.canRollback)
    }

    ghost function Now(): State reads this { State(jobs, active, closed, rollbackInFlight, snapshot) }

    /** No remembered job's progress goes down. */
    twostate predicate NoneFallsBack()
      reads this
    {
      forall id | id in old(jobs) && id in jobs :: jobs[id].progress >= old(jobs)[id].progress
    }

    constructor ()
      ensures Valid() && jobs == map[] && active == "" && !closed
    {
      jobs, active, closed, rollbackInFlight, snapshot, reported := map[], "", false, false, None, 0;
    }

    /** The least recently updated job that is neither kept nor running. */
    method Oldest(keep: string) returns (oldestID: string)
      requires "" !in jobs
      ensures oldestID == "" <==> forall id | id in jobs :: id == keep || jobs[id].state.JobRunning?
      ensures oldestID != "" ==>
                && oldestID in jobs && oldestID != keep && !jobs[oldestID].state.JobRunning?
                && forall id | id in jobs && id != keep && !jobs[id].state.JobRunning? ::
                     jobs[oldestID].lastUpdated <= jobs[id].lastUpdated
    {
      oldestID := "";
      var oldest := 0;
      var ids := jobs.Keys;
      while ids != {}
        invariant ids <= jobs.Keys
        invariant oldestID == "" <==> forall id | id in jobs && id !in ids :: id == keep || jobs[id].state.JobRunning?
        invariant oldestID != "" ==>
                    && oldestID in jobs && oldestID != keep && !jobs[oldestID].state.JobRunning?
                    && oldest == jobs[oldestID].lastUpdated
                    && forall id | id in jobs && id !in ids && id != keep && !jobs[id].state.JobRunning? ::
                         oldest <= jobs[id].lastUpdated
        decreases |ids|
      {
        var id :| id in ids;
        ids := ids - {id};
        if id == keep || jobs[id].state.JobRunning? { continue; }
        if oldestID == "" || jobs[id].lastUpdated < oldest {
          oldestID, oldest := id, jobs[id].lastUpdated;
        }
      }
    }

    /** Forgets the oldest finished jobs until eight are left. Since only the
        kept job can be running, there is always one to forget. */
    method Prune(keep: string)
      requires OnlyRuns(jobs, keep) && keep in jobs
      modifies this`jobs
      ensures |jobs| == if |old(jobs)| <= MAX_JOBS then |old(jobs)| else MAX_JOBS
      ensures keep in jobs && jobs.Keys <= old(jobs).Keys && forall id | id in jobs :: jobs[id] == old(jobs)[id]
      ensures |old(jobs)| <= MAX_JOBS ==> jobs == old(jobs)
      ensures forall gone, id | gone in old(jobs) && gone !in jobs && id in jobs && id != keep ::
                old(jobs)[gone].lastUpdated <= jobs[id].lastUpdated
    {
      while |jobs| > MAX_JOBS
        invariant keep in jobs && jobs.Keys <= old(jobs).Keys && forall id | id in jobs :: jobs[id] == old(jobs)[id]
        invariant |old(jobs)| <= MAX_JOBS ==> jobs == old(jobs)
        invariant |old(jobs)| > MAX_JOBS ==> MAX_JOBS <= |jobs|
        invariant forall gone, id | gone in old(jobs) && gone !in jobs && id in jobs && id != keep ::
                    old(jobs)[gone].lastUpdated <= jobs[id].lastUpdated
        decreases |jobs|
      {
        var oldestID := Oldest(keep);
        if oldestID == "" {
          OnlyOneKept(jobs, keep);
          return;
        }
        assert (jobs - {oldestID}).Keys == jobs.Keys - {oldestID};
        jobs := jobs - {oldestID};
      }
    }

    /** `id` is the random job ID. A job starts only when none runs and no rollback is in flight. */
    method Start(done: bool, valid: bool, id: Option<string>, now: int) returns (r: Result<Job>)
      requires Valid()
      requires id.Some? ==> id.value != "" && id.value !in jobs
      modifies this`jobs, this`active, this`reported
      ensures Valid() && NoneFallsBack()
      ensures r.Ok? <==> !done && valid && id.Some? && !closed && old(active) == "" && !rollbackInFlight
      ensures r == Err(ApplyBusy) <==> !done && valid && id.Some? && !closed && (old(active) != "" || rollbackInFlight)
      ensures r == Err(ServiceClosed) <==> !done && valid && id.Some? && closed
      ensures r.Err? ==> jobs == old(jobs) && active == old(active) && reported == old(reported)
      ensures r.Err? ==> r.error in {ContextDone, InvalidApply, RandomFailed, ServiceClosed, ApplyBusy}
      ensures r.Ok? ==>
                && r.value == Job(id.value, JobRunning, Queued, 0, [], Unknown, false, false, now)
                && active == id.value && jobs[active] == r.value && reported == 0
                && |jobs| == (if |old(jobs)| < MAX_JOBS then |old(jobs)| + 1 else MAX_JOBS)
                && forall x | x in jobs && x != active :: x in old(jobs) && jobs[x] == old(jobs)[x]
    {
      if done { return Err(ContextDone); }
      if !valid { return Err(InvalidApply); }
      if id.None? { return Err(RandomFailed); }
      if closed { return Err(ServiceClosed); }
      if active in jobs && jobs[active].state.JobRunning? { return Err(ApplyBusy); }
      if rollbackInFlight { return Err(ApplyBusy); }
      var job := Job(id.value, JobRunning, Queued, 0, [], Unknown, false, false, now);
      Admit(job);
      return Ok(job);
    }

    /** Stores the new active job, then forgets what no longer fits. */
    method Admit(job: Job)
      requires Valid() && active == "" && !rollbackInFlight
      requires job.id != "" && job.id !in jobs && job.state.JobRunning? && Shows(job, 0)
      modifies this`jobs, this`active, this`reported
      ensures Valid() && active == job.id && reported == 0 && job.id in jobs && jobs[job.id] == job
      ensures |jobs| == if |old(jobs)| < MAX_JOBS then |old(jobs)| + 1 else MAX_JOBS
      ensures forall x | x in jobs && x != job.id :: x in old(jobs) && jobs[x] == old(jobs)[x]
    {
      assert (jobs[job.id := job]).Keys == jobs.Keys + {job.id};
      jobs := jobs[job.id := job];
      active := job.id;
      reported := 0;
      Prune(job.id);
    }

    /** The first critical section of `Retry`: whether the job may be retried. */
    method CheckRetry(id: string) returns (r: Result<()>)
      ensures r.Ok? <==> id in jobs && jobs[id].state.JobFailed? && jobs[id].canRetry
      ensures r == Err(JobNotFound) <==> id !in jobs
      ensures r.Err? ==> r.error in {JobNotFound, InvalidApply}
    {
      if id !in jobs { return Err(JobNotFound); }
      if !(jobs[id].state.JobFailed? && jobs[id].canRetry) { return Err(InvalidApply); }
      return Ok(());
    }

    /** Whether a job owns the installation right now. */
    method InstallationActive() returns (r: bool)
      requires Valid()
      ensures r <==> exists id :: id in jobs && jobs[id].state.JobRunning?
    {
      r := active in jobs && jobs[active].state.JobRunning?;
    }

    /** Appends a step unless it is listed already. */
    method AppendOnce(steps: seq<Step>, step: Step) returns (r: seq<Step>)
      ensures r == if step in steps then steps else steps + [step]
    {
      for i := 0 to |steps|
        invariant step !in steps[..i]
      {
        if steps[i] == step { return steps; }
      }
      r := steps + [step];
    }

    /** A step report. `apply` reports the steps of one run in their order. */
    method UpdateProgress(id: string, step: Step, now: int)
      requires Valid()
      requires id in jobs && id == active ==>
                 reported < |InstallApply.REPORT_ORDER| && step == InstallApply.REPORT_ORDER[reported]
      modifies this`jobs, this`reported
      ensures Valid() && NoneFallsBack()
      ensures id !in old(jobs) || !old(jobs)[id].state.JobRunning? ==> jobs == old(jobs) && reported == old(reported)
      ensures id in old(jobs) && old(jobs)[id].state.JobRunning? ==>
                && id in jobs && jobs == old(jobs)[id := jobs[id]] && reported == old(reported) + 1
                && jobs[id].progress > old(jobs)[id].progress && jobs[id].currentStep == At(step)
                && jobs[id].steps == old(jobs)[id].steps + [step] && jobs[id].state.JobRunning?
                && jobs[id] == old(jobs)[id].(
                     currentStep := At(step), progress := jobs[id].progress,
                     steps := jobs[id].steps, lastUpdated := now)
                && jobs[id].progress == PROGRESS[old(reported)]
    {
      if id !in jobs || !jobs[id].state.JobRunning? { return; }
      var job := jobs[id];
      NextStepRaises(job, reported);
      job := job.(currentStep := At(step), progress := StepProgress(step));
      var steps := AppendOnce(job.steps, step);
      job := job.(steps := steps, lastUpdated := now);
      jobs := jobs[id := job];
      reported := reported + 1;
    }

    /** What the end of a run makes of its job. */
    method Conclude(given: Job, outcome: Outcome, now: int) returns (job: Job)
      ensures job.id == given.id && !job.state.JobRunning? && job.lastUpdated == now
      ensures match outcome
              case Succeeded(steps) =>
                && job.state.JobCompleted? && job.currentStep == AllDone && job.progress == 100 && job.steps == steps
                && job.failureStep == Unknown
                && !job.canRetry && !job.canRollback
              case Failure(stage, kind, canRollback) =>
                && job.state.JobFailed? && job.currentStep == GivenUp
                && job.progress == given.progress && job.steps == given.steps
                && job.failureStep == Blamed(stage, kind, given.currentStep)
                && (stage != Unknown ==> job.failureStep == stage)
                && (stage == Unknown && kind == Busy ==> job.failureStep == In(InstallApply.InCoordination))
                && (stage == Unknown && kind == Invalid ==> job.failureStep == In(InstallApply.InRequest))
                && (stage == Unknown && kind == AlreadyInstalled ==> job.failureStep == In(InstallApply.InLock))
                && (job.canRetry <==> kind in {Busy, Preflight, Other} && !closed) && job.canRollback == canRollback
    {
      job := given.(lastUpdated := now);
      match outcome {
        case Failure(stage, kind, canRollback) =>
          job := job.(
            state := JobFailed, canRetry := MayRetry(kind), failureStep := Blamed(stage, kind, job.currentStep),
            canRollback := canRollback);
          if closed { job := job.(canRetry := false); }
          job := job.(currentStep := GivenUp);
        case Succeeded(steps) =>
          job := job.(state := JobCompleted, currentStep := AllDone, progress := 100, steps := steps,
            failureStep := Unknown, canRetry := false, canRollback := false);
      }
    }

    /** The end of the active job's run. */
    method Finish(id: string, outcome: Outcome, now: int)
      requires Valid() && id != "" && id == active
      modifies this`jobs, this`active
      ensures Valid() && NoneFallsBack()
      ensures active == "" && id in old(jobs) && id in jobs && jobs == old(jobs)[id := jobs[id]]
      ensures match outcome
              case Succeeded(steps) =>
                && jobs[id].state.JobCompleted? && jobs[id].progress == 100 && jobs[id].steps == steps
                && jobs[id].currentStep == AllDone && jobs[id].failureStep == Unknown && jobs[id].lastUpdated == now
                && !jobs[id].canRetry && !jobs[id].canRollback
              case Failure(stage, kind, canRollback) =>
                && jobs[id].state.JobFailed? && jobs[id].progress == old(jobs)[id].progress
                && jobs[id].currentStep == GivenUp && jobs[id].steps == old(jobs)[id].steps
                && jobs[id].lastUpdated == now
                && (stage != Unknown ==> jobs[id].failureStep == stage)
                && (stage == Unknown && kind == Busy ==> jobs[id].failureStep == In(InstallApply.InCoordination))
                && (stage == Unknown && kind == Invalid ==> jobs[id].failureStep == In(InstallApply.InRequest))
                && (stage == Unknown && kind == AlreadyInstalled ==> jobs[id].failureStep == In(InstallApply.InLock))
                && (stage.Unknown? && (kind.Preflight? || kind.Other?) ==>
                      jobs[id].failureStep == if reported < |InstallApply.REPORT_ORDER|
                                              then StageOf(InstallApply.REPORT_ORDER[reported]) else InComplete)
                && (jobs[id].canRetry <==> kind in {Busy, Preflight, Other} && !closed)
                   && jobs[id].canRollback == canRollback
    {
      if id !in jobs { return; }
      ProgressIsBounded(jobs[id], reported);
      if outcome.Failure? && (outcome.kind.Preflight? || outcome.kind.Other?) {
        BlamesTheNextStep(jobs[id], reported, outcome.kind);
      }
      var job := Conclude(jobs[id], outcome, now);
      assert (jobs[id := job]).Keys == jobs.Keys;
      jobs := jobs[id := job];
      if active == id { active := ""; }
    }

    /** The part of `Rollback` before the lock is released. */
    method BeginRollback(id: string, confirmed: bool, done: bool) returns (r: Result<()>)
      requires Valid()
      modifies this`rollbackInFlight, this`snapshot
      ensures Valid()
      ensures r.Ok? <==>
              && confirmed && !done && id in jobs && jobs[id].state.JobFailed? && jobs[id].canRollback
              && !old(rollbackInFlight)
      ensures r.Ok? ==> rollbackInFlight && snapshot == Some(jobs[id])
      ensures r.Err? ==> rollbackInFlight == old(rollbackInFlight) && snapshot == old(snapshot)
      ensures r == Err(ConfirmationRequired) <==> !confirmed
      ensures r == Err(ContextDone) <==> confirmed && done
      ensures r == Err(JobNotFound) <==> confirmed && !done && id !in jobs
      ensures r == Err(RollbackUnavailable) <==>
              confirmed && !done && id in jobs && !(jobs[id].state.JobFailed? && jobs[id].canRollback)
      ensures r.Err? ==> r.error in {ConfirmationRequired, ContextDone, JobNotFound, RollbackUnavailable, ApplyBusy}
    {
      if !confirmed { return Err(ConfirmationRequired); }
      if done { return Err(ContextDone); }
      if id !in jobs { return Err(JobNotFound); }
      if !jobs[id].state.JobFailed? || !jobs[id].canRollback { return Err(RollbackUnavailable); }
      if rollbackInFlight { return Err(ApplyBusy); }
      rollbackInFlight := true;
      snapshot := Some(jobs[id]);
      return Ok(());
    }

    /** The part after the runner's rollback. The stale snapshot it writes back
        is still the stored job, so only the fields named here change. */
    method EndRollback(failed: bool, now: int) returns (r: Result<()>)
      requires Valid() && rollbackInFlight
      modifies this`rollbackInFlight, this`snapshot, this`jobs
      ensures Valid() && NoneFallsBack() && !rollbackInFlight
      ensures r == if failed then Err(RollbackUnavailable) else Ok(())
      ensures failed ==> jobs == old(jobs)
      ensures !failed ==>
                var id := old(snapshot).value.id;
                && id in old(jobs) && old(jobs)[id].state.JobFailed? && |jobs| == |old(jobs)|
                && jobs == old(jobs)[id := old(jobs)[id].(
                             canRollback := false, canRetry := true, currentStep := RolledBack, lastUpdated := now)]
    {
      var job := snapshot.value;
      rollbackInFlight, snapshot := false, None;
      if failed { return Err(RollbackUnavailable); }
      job := job.(canRollback := false, canRetry := true, currentStep := RolledBack, lastUpdated := now);
      assert (jobs[job.id := job]).Keys == jobs.Keys;
      jobs := jobs[job.id := job];
      return Ok(());
    }

    method Close()
      requires Valid()
      modifies this`closed
      ensures Valid() && closed
    {
      closed := true;
    }
  }

  /** One critical section of the coordinator. */
  datatype Event =
    | Started(done: bool, valid: bool, id: Option<string>, now: int)
    | RetryChecked(of: string)
    | Reported(now: int)
    | StaleReport(of: string, step: Step, now: int)
    | Ended(outcome: Outcome, now: int)
    | RollbackBegun(of: string, confirmed: bool, done: bool)
    | RollbackEnded(failed: bool, now: int)
    | ClosedDown

  /** Whether a start is admitted. */
  predicate Admits(a: State, done: bool, valid: bool, id: Option<string>) {
    !done && valid && id.Some? && !a.closed && a.active == "" && !a.rollbackInFlight
  }

  /** What each of them makes of what the lock guards. */
  ghost predicate Serves(e: Event, a: State, b: State) {
    match e
    case Started(done, valid, id, _) =>
      if Admits(a, done, valid, id) then
        && b.active == id.value && id.value in b.jobs && b.jobs[id.value].state.JobRunning?
        && b == a.(jobs := b.jobs, active := b.active)
        && forall x | x in b.jobs && x != id.value :: x in a.jobs && b.jobs[x] == a.jobs[x]
      else b == a
    case RetryChecked(_) => b == a
    case Reported(_) =>
      if a.active in a.jobs && |a.jobs[a.active].steps| < |InstallApply.REPORT_ORDER| then
        var steps := a.jobs[a.active].steps;
        && a.active in b.jobs && b == a.(jobs := a.jobs[a.active := b.jobs[a.active]])
        && b.jobs[a.active].steps == steps + [InstallApply.REPORT_ORDER[|steps|]]
        && b.jobs[a.active].progress == PROGRESS[|steps|] && b.jobs[a.active].state.JobRunning?
      else b == a
    case StaleReport(_, _, _) => b == a
    case Ended(outcome, _) =>
      if a.active == "" then b == a
      else
        && a.active in b.jobs && b == a.(active := "", jobs := a.jobs[a.active := b.jobs[a.active]])
        && b.jobs[a.active].state == if outcome.Succeeded? then JobCompleted else JobFailed
    case RollbackBegun(of, confirmed, done) =>
      if confirmed && !done && of in a.jobs && a.jobs[of].state.JobFailed? && a.jobs[of].canRollback
         && !a.rollbackInFlight
      then b == a.(rollbackInFlight := true, snapshot := Some(a.jobs[of]))
      else b == a
    case RollbackEnded(failed, now) =>
      && b == a.(rollbackInFlight := false, snapshot := None, jobs := b.jobs)
      && b.jobs == if a.snapshot.None? || failed then a.jobs
                   else a.jobs[a.snapshot.value.id := a.snapshot.value.(
                     canRollback := false, canRetry := true, currentStep := RolledBack, lastUpdated := now)]
    case ClosedDown => b == a.(closed := true)
  }

  /** The states between the first `n` events: each has done what is said of it. */
  ghost predicate TracedTo(events: seq<Event>, n: nat, states: seq<State>) {
    && n <= |events| && |states| == n + 1
    && forall k | 0 <= k < n :: Serves(events[k], states[k], states[k + 1])
  }

  ghost predicate Traced(events: seq<Event>, states: seq<State>) { TracedTo(events, |events|, states) }

  lemma TracedStep(events: seq<Event>, n: nat, states: seq<State>, next: State)
    requires n < |events| && TracedTo(events, n, states) && Serves(events[n], states[n], next)
    ensures TracedTo(events, n + 1, states + [next])
  {}

  /** Job IDs come from the random source: an ID drawn once is never drawn again. */
  ghost predicate DrawsOnce(events: seq<Event>) {
    forall i, j | 0 <= i < j < |events| && events[i].Started? && events[j].Started? && events[i].id.Some? ::
      events[i].id != events[j].id
  }

  /** From event `i` on they are new to the jobs remembered, too. */
  ghost predicate DrawsNew(events: seq<Event>, i: nat, jobs: Jobs) {
    forall k | i <= k < |events| && events[k].Started? && events[k].id.Some? ::
      events[k].id.value != "" && events[k].id.value !in jobs
  }

  /** No event before `i` drew this ID. */
  ghost predicate Undrawn(events: seq<Event>, i: nat, id: string) {
    forall k | 0 <= k < i && k < |events| && events[k].Started? :: events[k].id != Some(id)
  }

  /** No job remembered before and after has lost progress. */
  ghost predicate Progressed(before: Jobs, after: Jobs) {
    forall id | id in before && id in after :: after[id].progress >= before[id].progress
  }

  /** Any interleaving of critical sections. At every point at most one job is
      running, it is the active one, at most eight are remembered, and over the
      whole run no job's progress goes down. */
  method Interleave(service: ApplyJobService, events: seq<Event>) returns (ghost states: seq<State>)
    requires service.Valid() && DrawsOnce(events) && DrawsNew(events, 0, service.jobs)
    modifies service
    ensures service.Valid() && |service.jobs| <= MAX_JOBS
    ensures forall a, b | a in service.jobs && b in service.jobs ::
              service.jobs[a].state.JobRunning? && service.jobs[b].state.JobRunning? ==> a == b == service.active
    ensures old(service.closed) ==> service.closed && (old(service.active) == "" ==> service.active == "")
    ensures Progressed(old(service.jobs), service.jobs)
    ensures forall id | id in service.jobs && Undrawn(events, |events|, id) :: id in old(service.jobs)
    ensures Traced(events, states) && states[0] == old(service.Now()) && states[|events|] == service.Now()
  {
    states := [service.Now()];
    for i := 0 to |events|
      invariant service.Valid() && DrawsNew(events, i, service.jobs)
      invariant TracedTo(events, i, states) && states[0] == old(service.Now()) && states[i] == service.Now()
      invariant old(service.closed) ==> service.closed && (old(service.active) == "" ==> service.active == "")
      invariant Progressed(old(service.jobs), service.jobs)
      invariant forall id | id in service.jobs && Undrawn(events, i, id) :: id in old(service.jobs)
      invariant forall id | id in service.jobs && id in old(service.jobs) :: Undrawn(events, i, id)
    {
      Move(service, events[i]);
      TracedStep(events, i, states, service.Now());
      states := states + [service.Now()];
    }
  }

  /** One critical section; only a start adds a job, the one it drew. */
  method Move(service: ApplyJobService, e: Event)
    requires service.Valid()
    requires e.Started? && e.id.Some? ==> e.id.value != "" && e.id.value !in service.jobs
    modifies service
    ensures service.Valid() && Progressed(old(service.jobs), service.jobs)
    ensures Serves(e, old(service.Now()), service.Now())
    ensures forall id | id in service.jobs :: id in old(service.jobs) || (e.Started? && e.id == Some(id))
    ensures old(service.closed) ==> service.closed && (old(service.active) == "" ==> service.active == "")
  {
    match e {
      case Started(done, valid, id, now) =>
        var started := service.Start(done, valid, id, now);
      case RetryChecked(of) =>
        var checked := service.CheckRetry(of);
      case Reported(now) =>
        if service.active != "" && |service.jobs[service.active].steps| < |InstallApply.REPORT_ORDER| {
          var next := InstallApply.REPORT_ORDER[|service.jobs[service.active].steps|];
          service.UpdateProgress(service.active, next, now);
        }
      case StaleReport(of, step, now) =>
        if of != service.active { service.UpdateProgress(of, step, now); }
      case Ended(outcome, now) =>
        if service.active != "" { service.Finish(service.active, outcome, now); }
      case RollbackBegun(of, confirmed, done) =>
        var begun := service.BeginRollback(of, confirmed, done);
      case RollbackEnded(failed, now) =>
        if service.rollbackInFlight { var ended := service.EndRollback(failed, now); }
      case ClosedDown =>
        service.Close();
    }
  }

  /** `Retry`: the check, whatever happens before the start, and the start under
      the guards of any other. */
  method Retry(service: ApplyJobService, id: string, between: seq<Event>, done: bool, valid: bool,
               drawn: Option<string>, now: int)
    returns (r: Result<Job>, ghost states: seq<State>)
    requires service.Valid() && DrawsOnce(between + [Started(done, valid, drawn, now)])
    requires DrawsNew(between + [Started(done, valid, drawn, now)], 0, service.jobs)
    modifies service
    ensures service.Valid() && Progressed(old(service.jobs), service.jobs)
    ensures r.Ok? ==>
              && id in old(service.jobs)
              && old(service.jobs)[id].state.JobFailed? && old(service.jobs)[id].canRetry
    ensures r.Ok? ==> service.active == r.value.id && !service.closed && !service.rollbackInFlight
    ensures id in old(service.jobs) && old(service.jobs)[id].state.JobFailed? && old(service.jobs)[id].canRetry ==>
              && Traced(between, states) && states[0] == old(service.Now())
              && Serves(Started(done, valid, drawn, now), states[|between|], service.Now())
              && (r.Ok? <==> Admits(states[|between|], done, valid, drawn))
    ensures !(id in old(service.jobs) && old(service.jobs)[id].state.JobFailed? && old(service.jobs)[id].canRetry) ==>
              r.Err? && service.jobs == old(service.jobs)
  {
    states := [service.Now()];
    var checked := service.CheckRetry(id);
    if checked.Err? { return Err(checked.error), states; }
    var all := between + [Started(done, valid, drawn, now)];
    assert forall k | 0 <= k < |between| :: all[k] == between[k];
    assert all[|between|] == Started(done, valid, drawn, now);
    states := Interleave(service, between);
    r := service.Start(done, valid, drawn, now);
  }

  lemma OnlyOneKept(jobs: Jobs, keep: string)
    requires OnlyRuns(jobs, keep) && forall id | id in jobs :: id == keep || jobs[id].state.JobRunning?
    ensures |jobs| <= 1
  {
    assert jobs.Keys <= {keep};
    if keep in jobs { assert jobs.Keys == {keep}; } else { assert jobs.Keys == {}; }
  }
}
