/** The worker that drains a queue: claim, run the handler, settle the task. */
module JobWorker {
  import opened Common
  import opened JobQueue

  /** What a handler call came to. */
  datatype Outcome = Success | HandlerError(cause: Cause, parentCancelled: bool)

  /** Everything one `RunOnce` meets: its context ending before the start or
      while waiting for a slot, and the handler's outcome. */
  datatype Turn = Turn(doneBefore: bool, doneWaiting: bool, outcome: Outcome)

  /** How a part of `Execute` ends: the run goes on, returns nil, or returns an error. */
  datatype Answer = GoesOn | ReturnsNil | ReturnsError(error: Error)

  /** Where a run stands that has claimed a task: not yet begun, waiting for
      a slot with its copy of the task, or inside the handler.  A stranded task
      was left behind, still running, by a run that found its ID in flight. */
  datatype Phase = Claimed | Waiting(copy: Task) | Calling | Stranded

  type Holders = map<string, Phase>

  /** The runs that have settled their task and are on their way out, and
      whether they still hold a slot; their in-flight mark is still there. */
  type Leaving = map<string, bool>

  ghost function CallsOf(calls: map<string, nat>, id: string): nat {
    if id in calls then calls[id] else 0
  }

  ghost function InFlight(holders: Holders): set<string> {
    set id | id in holders && (holders[id].Waiting? || holders[id].Calling?)
  }

  ghost function InHandler(holders: Holders): set<string> {
    set id | id in holders && holders[id].Calling?
  }

  ghost function Slotted(leaving: Leaving): set<string> {
    set id | id in leaving && leaving[id]
  }

  /** The tasks left behind. */
  ghost function StrandedIn(holders: Holders): set<string> {
    set id | id in holders && holders[id].Stranded?
  }

  /** A run that steps out keeps its mark and its slot. */
  lemma StepOutKeeps(holders: Holders, leaving: Leaving, id: string)
    requires id in holders && holders[id].Calling? && InFlight(holders) !! leaving.Keys
    ensures var held, out := holders - {id}, leaving[id := true];
            && InFlight(held) + out.Keys == InFlight(holders) + leaving.Keys && InFlight(held) !! out.Keys
            && |InHandler(held)| + |Slotted(out)| == |InHandler(holders)| + |Slotted(leaving)|
  {
    var held, out := holders - {id}, leaving[id := true];
    assert id in InFlight(holders) && id !in leaving;
    assert InFlight(held) == InFlight(holders) - {id} && InHandler(held) == InHandler(holders) - {id};
    assert Slotted(out) == Slotted(leaving) + {id};
  }

  /** A waiting run that steps out with a slot keeps its mark. */
  lemma WaiterOutKeeps(holders: Holders, leaving: Leaving, id: string)
    requires id in holders && holders[id].Waiting? && InFlight(holders) !! leaving.Keys
    ensures var held, out := holders - {id}, leaving[id := true];
            && InFlight(held) + out.Keys == InFlight(holders) + leaving.Keys && InFlight(held) !! out.Keys
            && |InHandler(held)| + |Slotted(out)| == |InHandler(holders)| + |Slotted(leaving)| + 1
  {
    var held, out := holders - {id}, leaving[id := true];
    assert id in InFlight(holders) && id !in leaving;
    assert InFlight(held) == InFlight(holders) - {id} && InHandler(held) == InHandler(holders);
    assert Slotted(out) == Slotted(leaving) + {id};
  }

  /** One task, seen by the workers: a running task is held by a run or
      stranded, a held or stranded one is running or cancelled, and every handler call except one in
      progress, one that succeeded or one that was cancelled has used up an
      attempt. */
  ghost predicate TaskInv(t: Task, initial: int, holders: Holders, calls: nat) {
    && (t.status.Running? ==> t.id in holders)
    && (t.id in holders ==> t.status.Running? || t.status.Cancelled?)
    && (t.id in holders && holders[t.id].Waiting? && Terminal(holders[t.id].copy.status) ==> t.status.Cancelled?)
    && calls <= t.attempts - initial
                + if (if t.id in holders then holders[t.id].Calling? else t.status.Succeeded? || t.status.Cancelled?)
                  then 1 else 0
  }

  ghost predicate TaskAt(tasks: map<string, Task>, initial: map<string, int>, holders: Holders, calls: map<string, nat>,
                         id: string)
  {
    id in tasks && id in initial ==>
      tasks[id].id == id && TaskInv(tasks[id], initial[id], holders, CallsOf(calls, id))
  }

  ghost predicate Consistent(tasks: map<string, Task>, initial: map<string, int>, holders: Holders,
                             calls: map<string, nat>) {
    && holders.Keys <= tasks.Keys == initial.Keys
    && (forall id {:trigger TaskAt(tasks, initial, holders, calls, id)} :: TaskAt(tasks, initial, holders, calls, id))
  }

  /** A step that touches one task only has that task to answer for. */
  lemma OneTaskMoves(tasks: map<string, Task>, initial: map<string, int>, holders: Holders, calls: map<string, nat>,
                     id: string, after: map<string, Task>, held: Holders, called: map<string, nat>)
    requires Consistent(tasks, initial, holders, calls)
    requires after.Keys == tasks.Keys && held.Keys <= tasks.Keys
    requires forall x | x in tasks && x != id :: after[x] == tasks[x] && CallsOf(called, x) == CallsOf(calls, x)
    requires forall x | x != id :: (x in held <==> x in holders) && (x in held ==> held[x] == holders[x])
    requires id in after ==> after[id].id == id && TaskInv(after[id], initial[id], held, CallsOf(called, id))
    ensures Consistent(after, initial, held, called)
  {
    forall x ensures TaskAt(after, initial, held, called, x) {
      if x != id { assert TaskAt(tasks, initial, holders, calls, x); }
    }
  }

  /** Claiming hands a task nobody holds to one run, which is not in flight yet. */
  lemma ClaimKeeps(tasks: map<string, Task>, initial: map<string, int>, holders: Holders, calls: map<string, nat>,
                   id: string)
    requires Consistent(tasks, initial, holders, calls) && id in tasks && Claimable(tasks[id])
    ensures id !in holders
    ensures var after, held := tasks[id := tasks[id].(status := Running)], holders[id := Claimed];
            && Consistent(after, initial, held, calls)
            && InFlight(held) == InFlight(holders) && InHandler(held) == InHandler(holders)
  {
    assert TaskAt(tasks, initial, holders, calls, id);
    var after, held := tasks[id := tasks[id].(status := Running)], holders[id := Claimed];
    OneTaskMoves(tasks, initial, holders, calls, id, after, held, calls);
  }

  /** Only one task differs. */
  ghost predicate Only(before: map<string, Task>, after: map<string, Task>, id: string) {
    && id in before && before.Keys == after.Keys
    && forall x | x in before && x != id :: after[x] == before[x]
  }

  /** One attempt used up: to be retried below the limit, dead at it. */
  predicate UsedUp(before: Task, after: Task, cause: Cause) {
    after == before.(
      attempts := before.attempts + 1, lastError := Code(cause),
      status := if before.attempts + 1 < before.maxAttempts then Failed else DeadLetter)
  }

  /** What a handler's outcome makes of a running task. */
  predicate Outcomes(before: Task, after: Task, outcome: Outcome) {
    match outcome
    case Success => after == before.(status := Succeeded)
    case HandlerError(cause, parentCancelled) =>
      if parentCancelled then after == before.(status := Cancelled) else UsedUp(before, after, cause)
  }

  /** What a run reports of its handler's outcome. */
  function Reported(outcome: Outcome): Result<()> {
    match outcome
    case Success => Ok(())
    case HandlerError(cause, parentCancelled) => Err(if parentCancelled then ContextDone else HandlerFailed(cause))
  }

  /** What a run that ended reports. */
  function Answers(t: Task, turn: Turn, handlers: set<string>): Result<()> {
    if turn.doneBefore then Err(ContextDone)
    else if t.kind !in handlers then Err(HandlerNotFound)
    else if turn.doneWaiting then Err(ContextDone)
    else Reported(turn.outcome)
  }

  predicate CallsHandler(t: Task, turn: Turn, handlers: set<string>) {
    !turn.doneBefore && t.kind in handlers && !turn.doneWaiting
  }

  /** What a whole run makes of a running task. */
  predicate Ran(before: Task, after: Task, turn: Turn, handlers: set<string>) {
    if turn.doneBefore then after.status.Cancelled?
    else if before.kind !in handlers then UsedUp(before, after, OtherCause)
    else if turn.doneWaiting then after.status.Cancelled?
    else Outcomes(before, after, turn.outcome)
  }

  lemma LetGo(holders: Holders, id: string, phase: Phase)
    ensures holders[id := phase] - {id} == holders - {id}
  {}

  lemma HeldAndLet(holders: Holders, id: string, first: Phase, second: Phase)
    requires id !in holders
    ensures holders[id := first] - {id} == holders
    ensures holders[id := first][id := second] == holders[id := second]
  {}

  lemma LetOut(leaving: Leaving, id: string, slot: bool)
    requires id !in leaving
    ensures leaving[id := slot] - {id} == leaving
  {}

  /** Every claimed run settles its task or uses up one attempt. */
  lemma RunShrinksBudget(before: map<string, Task>, after: map<string, Task>, id: string, turn: Turn,
                         handlers: set<string>)
    requires Only(before, after, id)
    requires Claimable(before[id]) && Ran(before[id].(status := Running), after[id], turn, handlers)
    ensures after.Keys == before.Keys && Budget(after, before.Keys) < Budget(before, before.Keys)
  {
    assert after == before[id := after[id]];
    BudgetUpdate(before, id, after[id]);
  }

  /** A failure before the handler ran costs an attempt, or nothing when the task is settled. */
  lemma FailKeeps(tasks: map<string, Task>, initial: map<string, int>, holders: Holders, calls: map<string, nat>,
                  id: string, after: map<string, Task>)
    requires Consistent(tasks, initial, holders, calls) && id in holders
             && (holders[id].Claimed? || holders[id].Waiting?)
    requires Only(tasks, after, id) && after[id].id == id && !after[id].status.Running?
    requires after[id].attempts >= tasks[id].attempts
    ensures Consistent(after, initial, holders - {id}, calls)
    ensures InFlight(holders - {id}) == InFlight(holders) - {id} && InHandler(holders - {id}) == InHandler(holders)
  {
    assert TaskAt(tasks, initial, holders, calls, id);
    OneTaskMoves(tasks, initial, holders, calls, id, after, holders - {id}, calls);
  }

  lemma WaitKeeps(tasks: map<string, Task>, initial: map<string, int>, holders: Holders, calls: map<string, nat>,
                  id: string)
    requires Consistent(tasks, initial, holders, calls) && id in holders && holders[id].Claimed?
    ensures var held := holders[id := Waiting(tasks[id])];
            && Consistent(tasks, initial, held, calls)
            && InFlight(held) == InFlight(holders) + {id} && InHandler(held) == InHandler(holders)
  {
    var held := holders[id := Waiting(tasks[id])];
    assert TaskAt(tasks, initial, holders, calls, id);
    OneTaskMoves(tasks, initial, holders, calls, id, tasks, held, calls);
  }

  lemma StrandKeeps(tasks: map<string, Task>, initial: map<string, int>, holders: Holders, calls: map<string, nat>,
                    id: string)
    requires Consistent(tasks, initial, holders, calls) && id in holders && holders[id].Claimed?
    ensures var held := holders[id := Stranded];
            && Consistent(tasks, initial, held, calls)
            && InFlight(held) == InFlight(holders) && InHandler(held) == InHandler(holders)
  {
    var held := holders[id := Stranded];
    assert TaskAt(tasks, initial, holders, calls, id);
    OneTaskMoves(tasks, initial, holders, calls, id, tasks, held, calls);
  }

  lemma CallKeeps(tasks: map<string, Task>, initial: map<string, int>, holders: Holders, calls: map<string, nat>,
                  id: string)
    requires Consistent(tasks, initial, holders, calls) && id in holders && holders[id].Waiting?
    ensures var held, called := holders[id := Calling], calls[id := CallsOf(calls, id) + 1];
            && Consistent(tasks, initial, held, called) && InFlight(held) == InFlight(holders)
            && |InHandler(held)| == |InHandler(holders)| + 1
  {
    var held, called := holders[id := Calling], calls[id := CallsOf(calls, id) + 1];
    assert TaskAt(tasks, initial, holders, calls, id);
    OneTaskMoves(tasks, initial, holders, calls, id, tasks, held, called);
    assert InHandler(held) == InHandler(holders) + {id};
  }

  lemma FinishKeeps(tasks: map<string, Task>, initial: map<string, int>, holders: Holders, calls: map<string, nat>,
                    id: string, after: map<string, Task>)
    requires Consistent(tasks, initial, holders, calls) && id in holders && holders[id].Calling?
    requires Only(tasks, after, id) && after[id].id == id && !after[id].status.Running?
    requires after[id].attempts >=
               tasks[id].attempts + if after[id].status.Succeeded? || after[id].status.Cancelled? then 0 else 1
    ensures Consistent(after, initial, holders - {id}, calls)
  {
    assert TaskAt(tasks, initial, holders, calls, id);
    OneTaskMoves(tasks, initial, holders, calls, id, after, holders - {id}, calls);
  }

  /** The longest a handler can go on being called. */
  function CallLimit(t: Task, initial: int): nat {
    if t.maxAttempts - initial > 1 then t.maxAttempts - initial else 1
  }

  /** What the locks of queue, worker and semaphore guard. */
  datatype State = State(
    tasks: map<string, Task>, byIdempotency: map<string, string>, holders: Holders, leaving: Leaving, slots: nat)

  class Worker {
    const queue: MemoryQueue
    const concurrency: nat
    /** The task types with a registered handler. */
    var handlers: set<string>
    var inFlight: set<string>
    /** Slots of the semaphore in use. */
    var slots: nat
    /** Where each run stands: what Go keeps on goroutine stacks. */
    var holders: Holders
    var leaving: Leaving
    /** Handler calls so far, for each task. */
    ghost var calls: map<string, nat>

    ghost predicate Valid()
      reads this, queue
    {
      && queue.Valid() && 0 < concurrency
      && Consistent(queue.tasks, queue.initial, holders, calls)
      && inFlight == InFlight(holders) + leaving.Keys && InFlight(holders) !! leaving.Keys
      && leaving.Keys <= queue.tasks.Keys
      && slots == |InHandler(holders)| + |Slotted(leaving)| <= concurrency
    }

    ghost function Now(): State
      reads this, queue
    {
      State(queue.tasks, queue.byIdempotency, holders, leaving, slots)
    }

    /** No run is under way. */
    ghost predicate Quiet()
      reads this
    {
      leaving == map[] && forall id | id in holders :: holders[id].Stranded?
    }

    constructor (queue: MemoryQueue, concurrency: int, handlers: set<string>)
      requires queue.Valid() && queue.tasks == map[]
      ensures Valid() && this.queue == queue && this.handlers == handlers && holders == map[] && calls == map[]
      ensures Quiet() && this.concurrency == if concurrency <= 0 then 1 else concurrency
    {
      this.queue, this.handlers := queue, handlers;
      this.concurrency := if concurrency <= 0 then 1 else concurrency;
      inFlight, slots, holders, leaving, calls := {}, 0, map[], map[], map[];
    }

    /** A task that came with fewer attempts than its limit has its handler
        called at most as often as it had attempts left; any other task at
        most once. */
    lemma HandlerCallsAreBounded(id: string)
      requires Valid() && id in queue.tasks
      ensures CallsOf(calls, id) <= CallLimit(queue.tasks[id], queue.initial[id])
    {
      assert TaskAt(queue.tasks, queue.initial, holders, calls, id);
      assert CountedAt(queue.tasks, queue.initial, id);
    }

    /** A live task is below its limit exactly when it came below it. */
    lemma LiveTasksStayBelowLimit(id: string)
      requires Valid() && id in queue.tasks && !Terminal(queue.tasks[id].status)
      ensures queue.tasks[id].attempts < queue.tasks[id].maxAttempts
              <==> queue.initial[id] < queue.tasks[id].maxAttempts
    {
      assert CountedAt(queue.tasks, queue.initial, id);
    }

    /* ---------- outside calls ---------- */

    method Enqueue(given: Task, drawn: Option<string>, now: int) returns (r: Result<Task>)
      requires Valid()
      requires drawn.Some? ==> drawn.value !in queue.tasks
      modifies queue, this`calls
      ensures Valid()
      ensures forall id | id in old(queue.tasks) :: id in queue.tasks && queue.tasks[id] == old(queue.tasks)[id]
      ensures r.Ok? ==> r.value.id in queue.tasks && queue.tasks[r.value.id] == r.value
      ensures old(queue.tasks) == map[] && queue.WellFormed(given) && Trim(given.id) != "" ==>
                && r.Ok? && queue.tasks.Keys == {given.id} && r.value.id == given.id
                && r.value == given.(status := Pending, createdAt := now, maxAttempts := r.value.maxAttempts)
                && (given.maxAttempts > 0 ==> r.value.maxAttempts == given.maxAttempts)
      ensures r.Ok? <==>
              && queue.WellFormed(given)
              && (given.idempotencyKey in old(queue.byIdempotency)
                  || if Trim(given.id) == "" then drawn.Some? else given.id !in old(queue.tasks))
      ensures r.Err? || given.idempotencyKey in old(queue.byIdempotency) ==> queue.tasks == old(queue.tasks)
      ensures r.Ok? && given.idempotencyKey !in old(queue.byIdempotency) ==>
                && r.value.id !in old(queue.tasks) && queue.tasks == old(queue.tasks)[r.value.id := r.value]
                && r.value.status.Pending? && r.value.kind == given.kind
    {
      ghost var tasks, initial := queue.tasks, queue.initial;
      assert KeyHasTask(queue.tasks, queue.byIdempotency, given.idempotencyKey);
      r := queue.Enqueue(given, drawn, now);
      if queue.tasks != tasks {
        calls := calls[r.value.id := 0];
        forall x ensures TaskAt(queue.tasks, queue.initial, holders, calls, x) {
          if x in tasks { assert TaskAt(tasks, initial, holders, old(calls), x); }
        }
      }
    }

    /** An outside cancellation, at any moment. */
    method Cancel(id: string) returns (r: Result<()>)
      requires Valid()
      modifies queue`tasks
      ensures Valid()
      ensures r.Ok? ==>
                && id in old(queue.tasks)
                && queue.tasks == old(queue.tasks)[id := old(queue.tasks)[id].(status := Cancelled)]
      ensures r.Err? ==> queue.tasks == old(queue.tasks)
      ensures r.Ok? <==> id in old(queue.tasks) && !Terminal(old(queue.tasks)[id].status)
    {
      ghost var tasks := queue.tasks;
      r := queue.Transition(id, Cancelled);
      assert TaskAt(tasks, queue.initial, holders, calls, id);
      OneTaskMoves(tasks, queue.initial, holders, calls, id, queue.tasks, holders, calls);
    }

    /* ---------- one run, step by step ---------- */

    method Claim() returns (r: Result<Task>)
      requires Valid()
      modifies this`holders, queue`tasks
      ensures Valid()
      ensures r.Err? <==> forall id | id in old(queue.tasks) :: !Claimable(old(queue.tasks)[id])
      ensures r.Err? ==> r.error == QueueEmpty && queue.tasks == old(queue.tasks) && holders == old(holders)
      ensures r.Ok? ==>
                && r.value.id in old(queue.tasks) && Claimable(old(queue.tasks)[r.value.id])
                && r.value.id !in old(holders) && holders == old(holders)[r.value.id := Claimed]
                && r.value == old(queue.tasks)[r.value.id].(status := Running)
                && queue.tasks == old(queue.tasks)[r.value.id := r.value]
    {
      ghost var tasks := queue.tasks;
      r := queue.ClaimPending();
      if r.Ok? {
        ClaimKeeps(tasks, queue.initial, holders, calls, r.value.id);
        holders := holders[r.value.id := Claimed];
      }
    }

    /** A run ends before its handler was called: its task is settled or still to be retried. */
    method Release(id: string)
      requires queue.Valid() && Consistent(queue.tasks, queue.initial, holders, calls)
      requires id in holders && (holders[id].Claimed? || holders[id].Waiting?) && !queue.tasks[id].status.Running?
      modifies this`holders
      ensures holders == old(holders) - {id}
      ensures Consistent(queue.tasks, queue.initial, holders, calls)
      ensures InFlight(holders) == InFlight(old(holders)) - {id} && InHandler(holders) == InHandler(old(holders))
    {
      assert TaskAt(queue.tasks, queue.initial, holders, calls, id);
      holders := holders - {id};
      OneTaskMoves(queue.tasks, queue.initial, old(holders), calls, id, queue.tasks, holders, calls);
    }

    /** Gives the task back as cancelled, unless it already was. */
    method GiveUp(id: string)
      requires Valid() && id in holders && holders[id].Claimed?
      modifies this`holders, queue`tasks
      ensures Valid() && holders == old(holders) - {id}
      ensures id in old(queue.tasks)
              && queue.tasks == old(queue.tasks)[id := old(queue.tasks)[id].(status := Cancelled)]
    {
      assert TaskAt(queue.tasks, queue.initial, holders, calls, id);
      var cancelled := Cancel(id);
      Release(id);
    }

    /** Marks the task as failed once more, unless it is settled already, and lets it go. */
    method FailUnstarted(id: string)
      requires Valid() && id in holders && holders[id].Claimed?
      modifies this`holders, queue`tasks
      ensures Valid() && holders == old(holders) - {id}
      ensures id in old(queue.tasks) && id in queue.tasks && Only(old(queue.tasks), queue.tasks, id)
      ensures if old(queue.tasks)[id].status.Running? then UsedUp(old(queue.tasks)[id], queue.tasks[id], OtherCause)
              else queue.tasks[id].status.Cancelled?
    {
      ghost var tasks := queue.tasks;
      assert TaskAt(tasks, queue.initial, holders, calls, id);
      var failed := queue.Fail(id, Some(OtherCause));
      FailKeeps(tasks, queue.initial, holders, calls, id, queue.tasks);
      holders := holders - {id};
    }

    /** The run ends without touching the task it claimed. */
    method Strand(id: string)
      requires Valid() && id in holders && holders[id].Claimed?
      modifies this`holders
      ensures Valid() && holders == old(holders)[id := Stranded]
    {
      StrandKeeps(queue.tasks, queue.initial, holders, calls, id);
      holders := holders[id := Stranded];
    }

    /** The run marks its task as in flight and keeps a copy of it. */
    method Mark(id: string)
      requires Valid() && id in holders && holders[id].Claimed? && id !in inFlight
      modifies this`holders, this`inFlight
      ensures Valid() && id in queue.tasks && holders == old(holders)[id := Waiting(queue.tasks[id])]
      ensures inFlight == old(inFlight) + {id}
    {
      WaitKeeps(queue.tasks, queue.initial, holders, calls, id);
      inFlight := inFlight + {id};
      holders := holders[id := Waiting(queue.tasks[id])];
    }

    /** `Execute` up to the in-flight mark.  A run that finds the mark of an
        earlier one returns at once, and the task it claimed is stranded: this
        happens exactly when its context is alive, a handler is registered and
        the ID is still in flight. */
    method Begin(id: string, done: bool) returns (r: Answer)
      requires Valid() && id in holders && holders[id].Claimed?
      modifies this`holders, this`inFlight, queue`tasks
      ensures Valid() && id in old(queue.tasks) && id in queue.tasks
      ensures r == ReturnsNil <==> !done && old(queue.tasks)[id].kind in handlers && id in old(inFlight)
      ensures r == ReturnsNil ==>
                && queue.tasks == old(queue.tasks) && holders == old(holders)[id := Stranded]
                && inFlight == old(inFlight)
      ensures r == GoesOn ==>
                && queue.tasks == old(queue.tasks) && holders == old(holders)[id := Waiting(queue.tasks[id])]
                && inFlight == old(inFlight) + {id}
      ensures r.ReturnsError? ==>
                && Only(old(queue.tasks), queue.tasks, id)
                && holders == old(holders) - {id}
      ensures r == ReturnsError(ContextDone) <==> done
      ensures r == ReturnsError(HandlerNotFound) <==> !done && old(queue.tasks)[id].kind !in handlers
      ensures r.ReturnsError? ==> r.error in {ContextDone, HandlerNotFound}
      ensures r == ReturnsError(ContextDone) ==> queue.tasks[id].status.Cancelled?
      ensures r == ReturnsError(HandlerNotFound) ==>
                if old(queue.tasks)[id].status.Running? then UsedUp(old(queue.tasks)[id], queue.tasks[id], OtherCause)
                else queue.tasks[id].status.Cancelled?
    {
      if done {
        GiveUp(id);
        return ReturnsError(ContextDone);
      }
      var got := queue.Get(id);
      if got.Err? { return ReturnsError(TaskNotFound); }
      if got.value.kind !in handlers {
        FailUnstarted(id);
        return ReturnsError(HandlerNotFound);
      }
      if id in inFlight {
        Strand(id);
        return ReturnsNil;
      }
      Mark(id);
      return GoesOn;
    }

    /** A waiting run whose context ended leaves without a slot; its task
        becomes cancelled, unless it already was.  The mark goes first, but
        nobody can claim the task in between. */
    method Leave(id: string)
      requires Valid() && id in holders && holders[id].Waiting?
      modifies this`holders, this`inFlight, queue`tasks
      ensures Valid() && id in old(queue.tasks) && holders == old(holders) - {id}
      ensures queue.tasks == old(queue.tasks)[id := old(queue.tasks)[id].(status := Cancelled)]
    {
      assert TaskAt(queue.tasks, queue.initial, holders, calls, id);
      var cancelled := Cancel(id);
      inFlight := inFlight - {id};
      Release(id);
    }

    /** A run whose copy says the task is settled is on its way out, with a slot. */
    method LeaveSettled(id: string)
      requires Valid() && id in holders && holders[id].Waiting? && queue.tasks[id].status.Cancelled?
               && slots < concurrency
      modifies this`holders, this`leaving, this`slots
      ensures Valid() && holders == old(holders) - {id} && leaving == old(leaving)[id := true]
      ensures slots == old(slots) + 1
    {
      WaiterOutKeeps(holders, leaving, id);
      slots := slots + 1;
      leaving := leaving[id := true];
      Release(id);
    }

    /** `Start` finds the task running already, or cancelled meanwhile. */
    method Start(id: string)
      requires queue.Valid() && id in queue.tasks
               && (queue.tasks[id].status.Running? || queue.tasks[id].status.Cancelled?)
      modifies queue`tasks
      ensures queue.Valid() && queue.tasks == old(queue.tasks)
    {
      var started := queue.Transition(id, Running);
    }

    /** The handler is called, holding a slot. */
    method TakeSlot(id: string)
      requires Valid() && id in holders && holders[id].Waiting? && slots < concurrency
      modifies this`holders, this`slots, this`calls
      ensures Valid() && holders == old(holders)[id := Calling]
      ensures calls == old(calls)[id := CallsOf(old(calls), id) + 1]
      ensures slots == old(slots) + 1
    {
      CallKeeps(queue.tasks, queue.initial, holders, calls, id);
      slots := slots + 1;
      holders := holders[id := Calling];
      calls := calls[id := CallsOf(calls, id) + 1];
    }

    /** The handler has returned and `tasks` was settled: the run is on its way out. */
    method StepOut(id: string, ghost tasks: map<string, Task>)
      requires queue.Valid() && 0 < concurrency && Consistent(tasks, queue.initial, holders, calls)
      requires inFlight == InFlight(holders) + leaving.Keys && InFlight(holders) !! leaving.Keys
      requires leaving.Keys <= tasks.Keys
      requires slots == |InHandler(holders)| + |Slotted(leaving)| <= concurrency
      requires id in holders && holders[id].Calling? && id in queue.tasks && Only(tasks, queue.tasks, id)
      requires var after := queue.tasks[id];
               && after.id == id && !after.status.Running?
               && after.attempts >=
                  tasks[id].attempts + if after.status.Succeeded? || after.status.Cancelled? then 0 else 1
      modifies this`holders, this`leaving
      ensures Valid() && holders == old(holders) - {id} && leaving == old(leaving)[id := true]
    {
      FinishKeeps(tasks, queue.initial, holders, calls, id, queue.tasks);
      StepOutKeeps(holders, leaving, id);
      leaving := leaving[id := true];
      holders := holders - {id};
    }

    /** The deferred release of the slot. */
    method FreeSlot(id: string)
      requires Valid() && id in leaving && leaving[id]
      modifies this`leaving, this`slots
      ensures Valid() && leaving == old(leaving)[id := false] && slots == old(slots) - 1
    {
      leaving := leaving[id := false];
      assert id in Slotted(old(leaving)) && Slotted(leaving) == Slotted(old(leaving)) - {id};
      slots := slots - 1;
    }

    /** The deferred removal of the in-flight mark. */
    method Unmark(id: string)
      requires Valid() && id in leaving && !leaving[id]
      modifies this`leaving, this`inFlight
      ensures Valid() && leaving == old(leaving) - {id} && inFlight == old(inFlight) - {id}
    {
      leaving := leaving - {id};
      assert Slotted(leaving) == Slotted(old(leaving));
      inFlight := inFlight - {id};
    }

    /** Waits for a slot, then calls the handler unless the run's copy says the
        task is settled; it goes on inside the handler. */
    method Enter(id: string, task: Task, done: bool) returns (r: Answer)
      requires Valid() && id in holders && holders[id] == Waiting(task)
      requires !done ==> slots < concurrency
      modifies this`holders, this`leaving, this`inFlight, this`slots, this`calls, queue`tasks
      ensures Valid() && id in old(queue.tasks)
      ensures leaving == if r == ReturnsNil then old(leaving)[id := true] else old(leaving)
      ensures r == GoesOn ==>
                && queue.tasks == old(queue.tasks) && holders == old(holders)[id := Calling]
                && calls == old(calls)[id := CallsOf(old(calls), id) + 1]
      ensures r != GoesOn ==>
                && holders == old(holders) - {id} && calls == old(calls) && id in queue.tasks
                && Only(old(queue.tasks), queue.tasks, id) && queue.tasks[id].status.Cancelled?
      ensures r == ReturnsError(ContextDone) <==> done
      ensures r == GoesOn <==> !done && !Terminal(task.status)
      ensures r.ReturnsError? <==> done
      ensures slots == old(slots) + if done then 0 else 1
    {
      assert TaskAt(queue.tasks, queue.initial, holders, calls, id);
      if done {
        Leave(id);
        return ReturnsError(ContextDone);
      }
      if Terminal(task.status) {
        LeaveSettled(id);
        return ReturnsNil;
      }
      Start(id);
      TakeSlot(id);
      return GoesOn;
    }

    /** The queue transition a handler's outcome asks for. */
    method Settle(id: string, outcome: Outcome) returns (r: Result<()>)
      requires queue.Valid() && id in queue.tasks
      modifies queue`tasks
      ensures queue.Valid() && id in queue.tasks && Only(old(queue.tasks), queue.tasks, id)
      ensures Terminal(old(queue.tasks)[id].status) ==> queue.tasks == old(queue.tasks)
      ensures !Terminal(old(queue.tasks)[id].status) ==>
                match outcome
                case Success => queue.tasks[id] == old(queue.tasks)[id].(status := Succeeded) && r == Ok(())
                case HandlerError(cause, parentCancelled) =>
                  if parentCancelled
                  then queue.tasks[id] == old(queue.tasks)[id].(status := Cancelled) && r == Err(ContextDone)
                  else UsedUp(old(queue.tasks)[id], queue.tasks[id], cause) && r == Err(HandlerFailed(cause))
      ensures Terminal(old(queue.tasks)[id].status) ==>
                match outcome
                case Success => r == Err(TaskConflict)
                case HandlerError(cause, parentCancelled) =>
                  r == Err(if parentCancelled then ContextDone else HandlerFailed(cause))
    {
      match outcome {
        case Success =>
          r := queue.Transition(id, Succeeded);
        case HandlerError(cause, parentCancelled) =>
          if parentCancelled {
            var cancelled := queue.Transition(id, Cancelled);
            r := Err(ContextDone);
          } else {
            r := queue.Fail(id, Some(cause));
            if r.Ok? { r := Err(HandlerFailed(cause)); }
          }
      }
    }

    /** What `Execute` does once the handler has returned: the queue transition.
        The run still holds its slot and its mark. */
    method Return(id: string, outcome: Outcome) returns (r: Result<()>)
      requires Valid() && id in holders && holders[id].Calling?
      modifies this`holders, this`leaving, queue`tasks
      ensures Valid() && holders == old(holders) - {id} && leaving == old(leaving)[id := true]
      ensures id in old(queue.tasks) && id in queue.tasks && Only(old(queue.tasks), queue.tasks, id)
      ensures if old(queue.tasks)[id].status.Running? then Outcomes(old(queue.tasks)[id], queue.tasks[id], outcome)
              else queue.tasks[id].status.Cancelled?
      ensures old(queue.tasks)[id].status.Running? ==> r == Reported(outcome)
    {
      ghost var tasks := queue.tasks;
      assert TaskAt(tasks, queue.initial, holders, calls, id);
      r := Settle(id, outcome);
      StepOut(id, tasks);
    }

    /** The two deferred steps of a run, nobody else in between. */
    method Exit(id: string)
      requires Valid() && id in leaving && leaving[id]
      modifies this`leaving, this`inFlight, this`slots
      ensures Valid() && leaving == old(leaving) - {id} && id !in inFlight && slots == old(slots) - 1
    {
      FreeSlot(id);
      Unmark(id);
    }

    /** Runs `Execute` from the in-flight mark on, nobody else moving. */
    method Proceed(id: string, task: Task, turn: Turn) returns (r: Result<()>, end: End)
      requires Valid() && id in holders && holders[id] == Waiting(task)
      requires id in queue.tasks && queue.tasks[id] == task
      modifies this`holders, this`leaving, this`inFlight, this`slots, this`calls, queue`tasks
      ensures Valid() && id in queue.tasks && leaving == old(leaving)
      ensures end.LeftWaiting? <==> !turn.doneWaiting && old(slots) == concurrency
      ensures end.LeftWaiting? ==>
                r == Ok(()) && holders == old(holders) && queue.tasks == old(queue.tasks) && calls == old(calls)
      ensures !end.LeftWaiting? ==>
                && end.Ended? && holders == old(holders) - {id}
                && Only(old(queue.tasks), queue.tasks, id)
                && (if !task.status.Running? || turn.doneWaiting then queue.tasks[id].status.Cancelled?
                    else Outcomes(task, queue.tasks[id], turn.outcome))
                && (task.status.Running? ==> r == if turn.doneWaiting then Err(ContextDone) else Reported(turn.outcome))
                && (task.status.Running? ==>
                      CallsOf(calls, id) == CallsOf(old(calls), id) + if turn.doneWaiting then 0 else 1)
    {
      assert TaskAt(queue.tasks, queue.initial, holders, calls, id);
      assert id in InFlight(holders);
      if !turn.doneWaiting && slots == concurrency { return Ok(()), LeftWaiting; }
      LetOut(leaving, id, true);
      LetGo(holders, id, Calling);
      var entered := Enter(id, task, turn.doneWaiting);
      if entered.ReturnsError? { return Err(entered.error), Ended; }
      if entered.GoesOn? { r := Return(id, turn.outcome); } else { r := Ok(()); }
      Exit(id);
      end := Ended;
    }

    /** One whole run on a claimed task, nobody else moving: what it makes of the
        task, and whether it called the handler, follows from the turn and from
        what it finds.  It strands the task exactly when the ID is still in
        flight, and waits exactly when every slot is taken. */
    method Execute(id: string, turn: Turn) returns (r: Result<()>, end: End)
      requires Valid() && id in holders && holders[id].Claimed?
      modifies this`holders, this`leaving, this`inFlight, this`slots, this`calls, queue`tasks
      ensures Valid() && id in old(queue.tasks) && id in queue.tasks && leaving == old(leaving)
      ensures Only(old(queue.tasks), queue.tasks, id)
      ensures end.LeftStranded? <==>
              !turn.doneBefore && old(queue.tasks)[id].kind in handlers && id in old(inFlight)
      ensures end.LeftWaiting? <==>
              && CallsHandler(old(queue.tasks)[id], turn, handlers)
              && id !in old(inFlight) && old(slots) == concurrency
      ensures end.LeftStranded? ==> holders == old(holders)[id := Stranded]
      ensures end.LeftWaiting? ==> holders == old(holders)[id := Waiting(queue.tasks[id])]
      ensures !end.Ended? ==> queue.tasks[id] == old(queue.tasks)[id] && calls == old(calls)
      ensures end.Ended? ==>
                && holders == old(holders) - {id}
                && (if old(queue.tasks)[id].status.Running?
                    then Ran(old(queue.tasks)[id], queue.tasks[id], turn, handlers)
                    else queue.tasks[id].status.Cancelled?)
      ensures !end.Ended? ==> r == Ok(())
      ensures end.Ended? && old(queue.tasks)[id].status.Running? ==>
                r == Answers(old(queue.tasks)[id], turn, handlers)
      ensures end.Ended? && old(queue.tasks)[id].status.Running? ==>
                CallsOf(calls, id) ==
                CallsOf(old(calls), id) + if CallsHandler(old(queue.tasks)[id], turn, handlers) then 1 else 0
    {
      var begun := Begin(id, turn.doneBefore);
      if begun.ReturnsError? { return Err(begun.error), Ended; }
      if begun.ReturnsNil? { return Ok(()), LeftStranded; }
      LetGo(old(holders), id, Waiting(queue.tasks[id]));
      r, end := Proceed(id, queue.tasks[id], turn);
    }

    /** Claims one task and runs it, whatever other runs are under way: nothing
        can be claimed and nothing changes, or exactly one claimable task is
        settled, loses an attempt, is stranded, or is left waiting for a slot. */
    method RunOnce(turn: Turn) returns (r: Result<()>, ran: Option<string>, end: End)
      requires Valid()
      modifies this`holders, this`leaving, this`inFlight, this`slots, this`calls, queue`tasks
      ensures Valid() && leaving == old(leaving)
      ensures ran.None? <==> forall id | id in old(queue.tasks) :: !Claimable(old(queue.tasks)[id])
      ensures ran.None? ==> r.Ok? && queue.tasks == old(queue.tasks) && holders == old(holders)
      ensures ran.Some? ==>
                && ran.value in old(queue.tasks) && Claimable(old(queue.tasks)[ran.value]) && ran.value in queue.tasks
                && ran.value !in old(holders)
                && Only(old(queue.tasks), queue.tasks, ran.value)
      ensures ran.Some? ==>
                r == if end.Ended? then Answers(old(queue.tasks)[ran.value], turn, handlers) else Ok(())
      ensures ran.Some? && end.Ended? ==>
                && holders == old(holders)
                && Ran(old(queue.tasks)[ran.value].(status := Running), queue.tasks[ran.value], turn, handlers)
                && CallsOf(calls, ran.value) ==
                   CallsOf(old(calls), ran.value) +
                   if CallsHandler(old(queue.tasks)[ran.value], turn, handlers) then 1 else 0
      ensures ran.Some? && !end.Ended? ==>
                queue.tasks[ran.value] == old(queue.tasks)[ran.value].(status := Running) && calls == old(calls)
      ensures ran.Some? && end.LeftStranded? ==> holders == old(holders)[ran.value := Stranded]
      ensures ran.Some? ==>
                && (end.LeftStranded? <==>
                    && !turn.doneBefore && old(queue.tasks)[ran.value].kind in handlers && ran.value in old(inFlight))
                && (end.LeftWaiting? <==>
                    && CallsHandler(old(queue.tasks)[ran.value], turn, handlers)
                    && ran.value !in old(inFlight) && old(slots) == concurrency)
    {
      var claimed := Claim();
      if claimed.Err? { return Ok(()), None, Ended; }
      var id := claimed.value.id;
      r, end := Execute(id, turn);
      HeldAndLet(old(holders), id, Claimed, Stranded);
      ran := Some(id);
    }

    /** With no run under way and nothing to claim, every task is settled or stranded. */
    lemma NothingLeft()
      requires Valid() && Quiet()
      requires forall id | id in queue.tasks :: !Claimable(queue.tasks[id])
      ensures forall id | id in queue.tasks :: Terminal(queue.tasks[id].status) || id in StrandedIn(holders)
    {
      forall id | id in queue.tasks ensures Terminal(queue.tasks[id].status) || id in StrandedIn(holders) {
        assert TaskAt(queue.tasks, queue.initial, holders, calls, id);
      }
    }

    /** Repeated `RunOnce` on a quiet worker empties the queue whatever the
        handlers do: each run takes at least one from the failures its tasks can
        still take, and strands none. */
    method Drain(turns: nat -> Turn) returns (rounds: nat)
      requires Valid() && Quiet()
      modifies this`holders, this`leaving, this`inFlight, this`slots, this`calls, queue`tasks
      ensures Valid() && Quiet() && holders == old(holders)
      ensures queue.tasks.Keys == old(queue.tasks.Keys)
      ensures forall id | id in queue.tasks :: Terminal(queue.tasks[id].status) || id in StrandedIn(old(holders))
      ensures rounds <= old(Budget(queue.tasks, queue.tasks.Keys))
      ensures rounds == 0 <==> forall id | id in old(queue.tasks) :: !Claimable(old(queue.tasks)[id])
    {
      rounds := 0;
      ghost var ids := queue.tasks.Keys;
      ghost var left := Budget(queue.tasks, ids);
      while true
        invariant Valid() && Quiet() && holders == old(holders) && queue.tasks.Keys == ids
        invariant left == Budget(queue.tasks, ids)
        invariant rounds + left <= old(Budget(queue.tasks, queue.tasks.Keys))
        invariant rounds == 0 ==> queue.tasks == old(queue.tasks)
        invariant rounds > 0 ==> exists id | id in old(queue.tasks) :: Claimable(old(queue.tasks)[id])
        decreases left
      {
        ghost var before := queue.tasks;
        QuietIsFree();
        var r, ran, end := RunOnce(turns(rounds));
        if ran.None? {
          NothingLeft();
          return;
        }
        RunShrinksBudget(before, queue.tasks, ran.value, turns(rounds), handlers);
        left := Budget(queue.tasks, ids);
        rounds := rounds + 1;
      }
    }

    lemma QuietIsFree()
      requires Valid() && Quiet()
      ensures inFlight == {} && slots == 0
    {
      assert InFlight(holders) == {} && InHandler(holders) == {} && Slotted(leaving) == {};
    }
  }

  /** A queue with one task. */
  method OneTask() returns (queue: MemoryQueue, worker: Worker)
    ensures fresh(queue) && fresh(worker) && worker.queue == queue && worker.Valid() && worker.Quiet()
    ensures worker.handlers == {"k"} && worker.concurrency == 1 && worker.holders == map[]
    ensures queue.tasks.Keys == {"t"} && queue.tasks["t"] == Task("t", "k", 1, "key", [], 0, 3, Pending, "", 0)
  {
    queue := new MemoryQueue(3);
    worker := new Worker(queue, 1, {"k"});
    var task := Task("t", "k", 1, "key", [], 0, 3, Pending, "", 0);
    var enqueued := worker.Enqueue(task, None, 0);
    assert enqueued.value in {queue.tasks["t"]};
  }

  /** A run claims the one claimable task and gets as far as the in-flight mark. */
  method ClaimAndBegin(worker: Worker, id: string) returns (r: Answer)
    requires worker.Valid() && id in worker.queue.tasks && Claimable(worker.queue.tasks[id])
    requires worker.queue.tasks[id].kind in worker.handlers
    requires forall x | x in worker.queue.tasks && x != id :: !Claimable(worker.queue.tasks[x])
    modifies worker`holders, worker`inFlight, worker.queue`tasks
    ensures worker.Valid() && Only(old(worker.queue.tasks), worker.queue.tasks, id)
    ensures worker.queue.tasks[id] == old(worker.queue.tasks)[id].(status := Running)
    ensures r == if id in old(worker.inFlight) then ReturnsNil else GoesOn
    ensures worker.holders == old(worker.holders)[id := if r.GoesOn? then Waiting(worker.queue.tasks[id]) else Stranded]
    ensures id !in old(worker.holders)
  {
    var claimed := worker.Claim();
    HeldAndLet(old(worker.holders), id, Claimed, Waiting(worker.queue.tasks[id]));
    HeldAndLet(old(worker.holders), id, Claimed, Stranded);
    r := worker.Begin(id, false);
  }

  /** It goes on into the handler when no mark and no full semaphore stops it. */
  method StartTask(worker: Worker, id: string)
    requires worker.Valid() && id in worker.queue.tasks && Claimable(worker.queue.tasks[id])
    requires worker.queue.tasks[id].kind in worker.handlers && id !in worker.inFlight
             && worker.slots < worker.concurrency
    requires forall x | x in worker.queue.tasks && x != id :: !Claimable(worker.queue.tasks[x])
    modifies worker, worker.queue
    ensures worker.Valid() && Only(old(worker.queue.tasks), worker.queue.tasks, id)
    ensures worker.queue.tasks[id] == old(worker.queue.tasks)[id].(status := Running)
    ensures worker.holders == old(worker.holders)[id := Calling] && worker.leaving == old(worker.leaving)
    ensures worker.handlers == old(worker.handlers)
  {
    var begun := ClaimAndBegin(worker, id);
    HeldAndLet(old(worker.holders), id, Waiting(worker.queue.tasks[id]), Calling);
    var entered := worker.Enter(id, worker.queue.tasks[id], false);
  }

  /** Some other run has claimed this task meanwhile, or nothing happened to it. */
  ghost predicate ClaimedAt(before: map<string, Task>, after: map<string, Task>, now: Holders, x: string) {
    && x in before && x in after
    && (after[x] == before[x]
        || (Claimable(before[x]) && after[x] == before[x].(status := Running) && x in now && now[x].Claimed?))
  }

  predicate HeldStill(held: Holders, now: Holders, x: string) {
    x in held && x in now && now[x] == held[x]
  }

  /** Other runs have claimed tasks meanwhile, and done nothing else. */
  ghost predicate ClaimedMeanwhile(before: map<string, Task>, after: map<string, Task>,
                                   held: Holders, now: Holders, id: string)
  {
    && before.Keys == after.Keys
    && (forall x {:trigger ClaimedAt(before, after, now, x)} | x in before && x != id ::
          ClaimedAt(before, after, now, x))
    && (forall x {:trigger HeldStill(held, now, x)} | x in held && x != id :: HeldStill(held, now, x))
  }

  /** One more claim. */
  lemma OneMoreClaimed(before: map<string, Task>, tasks: map<string, Task>, after: map<string, Task>,
                       held: Holders, holders: Holders, now: Holders, id: string, claimed: string)
    requires ClaimedMeanwhile(before, tasks, held, holders, id) && claimed in tasks && claimed !in holders
    requires Claimable(tasks[claimed]) && after == tasks[claimed := tasks[claimed].(status := Running)]
    requires now == holders[claimed := Claimed]
    ensures ClaimedMeanwhile(before, after, held, now, id)
  {
    forall x | x in before && x != id ensures ClaimedAt(before, after, now, x) {
      assert ClaimedAt(before, tasks, holders, x);
    }
    forall x | x in held && x != id ensures HeldStill(held, now, x) {
      assert HeldStill(held, holders, x);
    }
  }

  /** Runs claim, as many as it takes, until one has this task. */
  method ClaimUntil(worker: Worker, id: string)
    requires worker.Valid() && id in worker.queue.tasks && Claimable(worker.queue.tasks[id])
    modifies worker`holders, worker.queue`tasks
    ensures worker.Valid() && id in worker.holders && worker.holders[id].Claimed?
    ensures id in worker.queue.tasks && worker.queue.tasks[id] == old(worker.queue.tasks)[id].(status := Running)
    ensures ClaimedMeanwhile(old(worker.queue.tasks), worker.queue.tasks, old(worker.holders), worker.holders, id)
  {
    var open := worker.queue.tasks.Keys;
    var found := false;
    while !found
      invariant worker.Valid() && id in worker.queue.tasks
      invariant ClaimedMeanwhile(old(worker.queue.tasks), worker.queue.tasks, old(worker.holders), worker.holders, id)
      invariant forall x | x in worker.queue.tasks && Claimable(worker.queue.tasks[x]) :: x in open
      invariant !found ==> worker.queue.tasks[id] == old(worker.queue.tasks)[id]
      invariant found ==> id in worker.holders && worker.holders[id].Claimed?
      invariant found ==> worker.queue.tasks[id] == old(worker.queue.tasks)[id].(status := Running)
      decreases !found, open
    {
      ghost var tasks, holders := worker.queue.tasks, worker.holders;
      var claimed := worker.Claim();
      OneMoreClaimed(old(worker.queue.tasks), tasks, worker.queue.tasks, old(worker.holders), holders, worker.holders,
                     id, claimed.value.id);
      found := claimed.value.id == id;
      open := open - {claimed.value.id};
    }
  }

  /** The claim that gets the task finds the mark and strands it. */
  method StrandUnderMark(worker: Worker, id: string)
    requires worker.Valid() && id in worker.queue.tasks && Claimable(worker.queue.tasks[id])
    requires worker.queue.tasks[id].kind in worker.handlers && id in worker.inFlight
    modifies worker`holders, worker`inFlight, worker.queue`tasks
    ensures worker.Valid() && id in worker.holders && worker.holders[id].Stranded?
    ensures id in worker.queue.tasks && worker.queue.tasks[id] == old(worker.queue.tasks)[id].(status := Running)
    ensures ClaimedMeanwhile(old(worker.queue.tasks), worker.queue.tasks, old(worker.holders), worker.holders, id)
  {
    ClaimUntil(worker, id);
    ghost var holders := worker.holders;
    var stranded := worker.Begin(id, false);
    OthersClaimedStill(old(worker.queue.tasks), worker.queue.tasks, old(worker.holders), holders, id);
  }

  lemma OthersClaimedStill(before: map<string, Task>, after: map<string, Task>,
                           held: Holders, holders: Holders, id: string)
    requires ClaimedMeanwhile(before, after, held, holders, id)
    ensures ClaimedMeanwhile(before, after, held, holders[id := Stranded], id)
  {
    forall x | x in before && x != id ensures ClaimedAt(before, after, holders[id := Stranded], x) {
      assert ClaimedAt(before, after, holders, x);
    }
    forall x | x in held && x != id ensures HeldStill(held, holders[id := Stranded], x) {
      assert HeldStill(held, holders, x);
    }
  }

  /** A failure, and any claims. */
  lemma FailedThenClaimed(before: map<string, Task>, tasks: map<string, Task>, after: map<string, Task>,
                          held: Holders, holders: Holders, id: string)
    requires Only(before, tasks, id) && ClaimedMeanwhile(tasks, after, held - {id}, holders, id)
    ensures ClaimedMeanwhile(before, after, held, holders, id)
  {
    forall x | x in before && x != id ensures ClaimedAt(before, after, holders, x) {
      assert ClaimedAt(tasks, after, holders, x);
    }
    forall x | x in held && x != id ensures HeldStill(held, holders, x) {
      assert HeldStill(held - {id}, holders, x);
    }
  }

  /** A task left running for ever: its handler fails below the limit, some run
      claims it before the first has removed its mark, finds the mark and
      returns.  Every run of a task with a handler can end so. */
  method StrandTask(worker: Worker, id: string, cause: Cause)
    requires worker.Valid() && id in worker.holders && worker.holders[id].Calling?
    requires id in worker.queue.tasks && worker.queue.tasks[id].kind in worker.handlers
    requires worker.queue.tasks[id].status.Running?
             && worker.queue.tasks[id].attempts + 1 < worker.queue.tasks[id].maxAttempts
    modifies worker, worker.queue
    ensures worker.Valid() && worker.leaving == old(worker.leaving)
    ensures id in worker.holders && worker.holders[id].Stranded?
    ensures ClaimedMeanwhile(old(worker.queue.tasks), worker.queue.tasks, old(worker.holders), worker.holders, id)
    ensures id in worker.queue.tasks && worker.queue.tasks[id].status.Running?
    ensures worker.queue.tasks[id].attempts == old(worker.queue.tasks)[id].attempts + 1
  {
    FailUnderMark(worker, id, cause);
    LetOut(old(worker.leaving), id, true);
    ghost var tasks := worker.queue.tasks;
    StrandUnderMark(worker, id);
    FailedThenClaimed(old(worker.queue.tasks), tasks, worker.queue.tasks, old(worker.holders), worker.holders, id);
    worker.Exit(id);
  }

  /** The handler's failure makes the task claimable while its mark still stands. */
  method FailUnderMark(worker: Worker, id: string, cause: Cause)
    requires worker.Valid() && id in worker.holders && worker.holders[id].Calling?
    requires id in worker.queue.tasks && worker.queue.tasks[id].status.Running?
    requires worker.queue.tasks[id].attempts + 1 < worker.queue.tasks[id].maxAttempts
    modifies worker`holders, worker`leaving, worker.queue`tasks
    ensures worker.Valid() && Only(old(worker.queue.tasks), worker.queue.tasks, id)
    ensures Claimable(worker.queue.tasks[id]) && UsedUp(old(worker.queue.tasks)[id], worker.queue.tasks[id], cause)
    ensures id !in old(worker.leaving) && worker.leaving == old(worker.leaving)[id := true] && id in worker.inFlight
    ensures worker.holders == old(worker.holders) - {id}
  {
    assert id in InFlight(worker.holders);
    var failed := worker.Return(id, HandlerError(cause, false));
    assert id in worker.leaving.Keys;
  }

  /** A concrete such task. */
  method StrandedTask() returns (queue: MemoryQueue, worker: Worker)
    ensures fresh(queue) && fresh(worker) && worker.queue == queue && worker.Valid() && worker.Quiet()
    ensures queue.tasks.Keys == {"t"} && queue.tasks["t"].status.Running? && StrandedIn(worker.holders) == {"t"}
  {
    queue, worker := OneTask();
    worker.QuietIsFree();
    StartTask(worker, "t");
    StrandTask(worker, "t", OtherCause);
    assert worker.queue.tasks.Keys == {"t"};
  }

  /** How a run ended: over, having left its task stranded, or still waiting for a slot. */
  datatype End = Ended | LeftStranded | LeftWaiting

  /** One event of several workers' runs, outside calls included. */
  datatype Event =
    | Enqueued(task: Task, drawn: Option<string>, now: int)
    | CancelledOutside(id: string)
    | ClaimedBySome
    | Begun(id: string, done: bool)
    | Entered(id: string, done: bool)
    | Returned(id: string, outcome: Outcome)
    | FreedSlot(id: string)
    | Unmarked(id: string)

  /** A stored task waits for the run of the one given. */
  predicate Awaits(stored: Task, given: Task) { stored.status.Pending? && stored.kind == given.kind }

  /** A run has claimed this task. */
  predicate Claims(id: string, a: State, b: State)
    requires id in a.tasks
  {
    && Claimable(a.tasks[id]) && id !in a.holders
    && b == a.(tasks := a.tasks[id := a.tasks[id].(status := Running)], holders := a.holders[id := Claimed])
  }

  /** What each of them makes of the state; one that is not possible yet does nothing. */
  ghost predicate Moves(worker: Worker, handlers: set<string>, e: Event, a: State, b: State) {
    match e
    case Enqueued(task, drawn, _) =>
      && b == a.(tasks := b.tasks, byIdempotency := b.byIdempotency)
      && (forall id | id in a.tasks :: id in b.tasks && b.tasks[id] == a.tasks[id])
      && (drawn.None? && worker.queue.WellFormed(task) && task.idempotencyKey !in a.byIdempotency
          && Trim(task.id) != "" && task.id !in a.tasks ==>
            exists id :: id !in a.tasks && id in b.tasks && Awaits(b.tasks[id], task))
    case CancelledOutside(id) =>
      b == a.(tasks := if id in a.tasks && !Terminal(a.tasks[id].status)
                       then a.tasks[id := a.tasks[id].(status := Cancelled)] else a.tasks)
    case ClaimedBySome =>
      if forall id | id in a.tasks :: !Claimable(a.tasks[id]) then b == a
      else exists id :: id in a.tasks && Claims(id, a, b)
    case FreedSlot(id) =>
      if id in a.leaving && a.leaving[id]
      then a.slots > 0 && b == a.(leaving := a.leaving[id := false], slots := a.slots - 1)
      else b == a
    case Unmarked(id) =>
      b == a.(leaving := if id in a.leaving && !a.leaving[id] then a.leaving - {id} else a.leaving)
    case _ => if e.id in a.tasks && e.id in a.holders then RunMoves(worker, handlers, e, a, b) else b == a
  }

  /** The same for one step of a run that holds a task. */
  ghost predicate RunMoves(worker: Worker, handlers: set<string>, e: Event, a: State, b: State)
    requires (e.Begun? || e.Entered? || e.Returned?) && e.id in a.tasks && e.id in a.holders
  {
    match e
    case Begun(id, done) =>
      if !a.holders[id].Claimed? then b == a
      else if done || a.tasks[id].kind !in handlers then
        b == a.(tasks := b.tasks, holders := a.holders - {id}) && Only(a.tasks, b.tasks, id)
      else
        || b == a.(holders := a.holders[id := Stranded])
        || b == a.(holders := a.holders[id := Waiting(a.tasks[id])])
    case Entered(id, done) =>
      if !a.holders[id].Waiting? || (!done && a.slots >= worker.concurrency) then b == a
      else if done then
        b == a.(tasks := b.tasks, holders := a.holders - {id}) && Only(a.tasks, b.tasks, id)
      else if Terminal(a.holders[id].copy.status) then
        && b == a.(tasks := b.tasks, holders := a.holders - {id}, leaving := a.leaving[id := true], slots := a.slots
           + 1)
        && Only(a.tasks, b.tasks, id)
      else b == a.(holders := a.holders[id := Calling], slots := a.slots + 1)
    case Returned(id, outcome) =>
      if !a.holders[id].Calling? then b == a
      else
        && b == a.(tasks := b.tasks, holders := a.holders - {id}, leaving := a.leaving[id := true])
        && Only(a.tasks, b.tasks, id)
        && (a.tasks[id].status.Running? ==> Outcomes(a.tasks[id], b.tasks[id], outcome))
  }

  /** The states between the first `n` events. */
  ghost predicate TracedTo(worker: Worker, handlers: set<string>, events: seq<Event>, n: nat, states: seq<State>) {
    && n <= |events| && |states| == n + 1
    && forall k | 0 <= k < n :: Moves(worker, handlers, events[k], states[k], states[k + 1])
  }

  lemma TracedStep(worker: Worker, handlers: set<string>, events: seq<Event>, n: nat, states: seq<State>, next: State)
    requires n < |events| && TracedTo(worker, handlers, events, n, states)
    requires Moves(worker, handlers, events[n], states[n], next)
    ensures TracedTo(worker, handlers, events, n + 1, states + [next])
  {}

  /** A stranded task is as it was, or cancelled from outside. */
  ghost predicate StillStranded(before: map<string, Task>, after: map<string, Task>, held: Holders, id: string) {
    && id in before && id in after && id in held && held[id].Stranded?
    && (after[id] == before[id] || after[id] == before[id].(status := Cancelled))
  }

  lemma StillStrandedTwice(a: map<string, Task>, b: map<string, Task>, c: map<string, Task>, held: Holders,
                           now: Holders, id: string)
    requires StillStranded(a, b, held, id) && StillStranded(b, c, now, id)
    ensures StillStranded(a, c, now, id)
  {}

  /** A step on one task that is not stranded leaves the stranded ones alone. */
  lemma OthersStayStranded(before: map<string, Task>, after: map<string, Task>, held: Holders, now: Holders, id: string)
    requires held.Keys <= before.Keys && Only(before, after, id)
    requires id in held ==> !held[id].Stranded?
    requires forall x | x in held && x != id :: x in now && now[x] == held[x]
    ensures forall x | x in StrandedIn(held) :: StillStranded(before, after, now, x)
  {}

  /** Any interleaving of enqueues, cancellations and concurrent runs, each of
      them in its separate critical sections. An event that is not possible yet
      (a blocked slot, a run not there) does nothing. A stranded task is never
      claimed, run or settled again. */
  method Interleave(worker: Worker, events: seq<Event>) returns (ghost states: seq<State>)
    requires worker.Valid()
    modifies worker, worker.queue
    ensures worker.Valid()
    ensures forall id | id in worker.queue.tasks ::
              && id in worker.queue.initial
              && CallsOf(worker.calls, id) <= CallLimit(worker.queue.tasks[id], worker.queue.initial[id])
    ensures forall id | id in StrandedIn(old(worker.holders)) ::
              StillStranded(old(worker.queue.tasks), worker.queue.tasks, worker.holders, id)
    ensures TracedTo(worker, old(worker.handlers), events, |events|, states)
    ensures states[0] == old(worker.Now()) && states[|events|] == worker.Now()
  {
    states := [worker.Now()];
    for i := 0 to |events|
      invariant worker.Valid() && worker.handlers == old(worker.handlers)
      invariant TracedTo(worker, old(worker.handlers), events, i, states)
      invariant states[0] == old(worker.Now()) && states[i] == worker.Now()
      invariant forall id | id in StrandedIn(old(worker.holders)) ::
                  StillStranded(old(worker.queue.tasks), worker.queue.tasks, worker.holders, id)
    {
      ghost var tasks, held := worker.queue.tasks, worker.holders;
      Move(worker, events[i]);
      TracedStep(worker, old(worker.handlers), events, i, states, worker.Now());
      states := states + [worker.Now()];
      forall id | id in StrandedIn(old(worker.holders))
        ensures StillStranded(old(worker.queue.tasks), worker.queue.tasks, worker.holders, id)
      {
        StillStrandedTwice(old(worker.queue.tasks), tasks, worker.queue.tasks, held, worker.holders, id);
      }
    }
    forall id | id in worker.queue.tasks
      ensures CallsOf(worker.calls, id) <= CallLimit(worker.queue.tasks[id], worker.queue.initial[id])
    {
      worker.HandlerCallsAreBounded(id);
    }
  }

  /** One event. */
  method Move(worker: Worker, e: Event)
    requires worker.Valid()
    modifies worker, worker.queue
    ensures worker.Valid()
    ensures forall id | id in StrandedIn(old(worker.holders)) ::
              StillStranded(old(worker.queue.tasks), worker.queue.tasks, worker.holders, id)
    ensures Moves(worker, old(worker.handlers), e, old(worker.Now()), worker.Now())
    ensures worker.handlers == old(worker.handlers)
  {
    match e {
      case Enqueued(task, drawn, now) =>
        if drawn.None? || drawn.value !in worker.queue.tasks {
          var enqueued := worker.Enqueue(task, drawn, now);
        }
      case CancelledOutside(id) =>
        var cancelled := worker.Cancel(id);
      case ClaimedBySome =>
        var claimed := worker.Claim();
        if claimed.Ok? {
          assert Claims(claimed.value.id, old(worker.Now()), worker.Now());
          OthersStayStranded(
            old(worker.queue.tasks), worker.queue.tasks, old(worker.holders), worker.holders, claimed.value.id);
        }
      case FreedSlot(id) =>
        if id in worker.leaving && worker.leaving[id] { worker.FreeSlot(id); }
      case Unmarked(id) =>
        if id in worker.leaving && !worker.leaving[id] { worker.Unmark(id); }
      case _ =>
        if e.id in worker.holders && e.id in worker.queue.tasks { MoveRun(worker, e); }
    }
  }

  /** One step of a run that holds a task. */
  method MoveRun(worker: Worker, e: Event)
    requires worker.Valid() && (e.Begun? || e.Entered? || e.Returned?)
    requires e.id in worker.holders && e.id in worker.queue.tasks
    modifies worker, worker.queue
    ensures worker.Valid()
    ensures forall id | id in StrandedIn(old(worker.holders)) ::
              StillStranded(old(worker.queue.tasks), worker.queue.tasks, worker.holders, id)
    ensures RunMoves(worker, old(worker.handlers), e, old(worker.Now()), worker.Now())
    ensures worker.handlers == old(worker.handlers)
  {
    match e {
      case Begun(id, done) =>
        MoveBegun(worker, id, done);
      case Entered(id, done) =>
        MoveEntered(worker, id, done);
      case Returned(id, outcome) =>
        MoveReturned(worker, id, outcome);
    }
  }

  method MoveBegun(worker: Worker, id: string, done: bool)
    requires worker.Valid() && id in worker.holders && id in worker.queue.tasks
    modifies worker, worker.queue
    ensures worker.Valid()
    ensures forall id | id in StrandedIn(old(worker.holders)) ::
              StillStranded(old(worker.queue.tasks), worker.queue.tasks, worker.holders, id)
    ensures RunMoves(worker, old(worker.handlers), Begun(id, done), old(worker.Now()), worker.Now())
    ensures worker.handlers == old(worker.handlers)
  {
    if worker.holders[id].Claimed? {
      var begun := worker.Begin(id, done);
      OthersStayStranded(old(worker.queue.tasks), worker.queue.tasks, old(worker.holders), worker.holders, id);
    }
  }

  method MoveEntered(worker: Worker, id: string, done: bool)
    requires worker.Valid() && id in worker.holders && id in worker.queue.tasks
    modifies worker, worker.queue
    ensures worker.Valid()
    ensures forall id | id in StrandedIn(old(worker.holders)) ::
              StillStranded(old(worker.queue.tasks), worker.queue.tasks, worker.holders, id)
    ensures RunMoves(worker, old(worker.handlers), Entered(id, done), old(worker.Now()), worker.Now())
    ensures worker.handlers == old(worker.handlers)
  {
    if worker.holders[id].Waiting? && (done || worker.slots < worker.concurrency) {
      var entered := worker.Enter(id, worker.holders[id].copy, done);
      OthersStayStranded(old(worker.queue.tasks), worker.queue.tasks, old(worker.holders), worker.holders, id);
    }
  }

  method MoveReturned(worker: Worker, id: string, outcome: Outcome)
    requires worker.Valid() && id in worker.holders && id in worker.queue.tasks
    modifies worker, worker.queue
    ensures worker.Valid()
    ensures forall id | id in StrandedIn(old(worker.holders)) ::
              StillStranded(old(worker.queue.tasks), worker.queue.tasks, worker.holders, id)
    ensures RunMoves(worker, old(worker.handlers), Returned(id, outcome), old(worker.Now()), worker.Now())
    ensures worker.handlers == old(worker.handlers)
  {
    if worker.holders[id].Calling? {
      var returned := worker.Return(id, outcome);
      OthersStayStranded(old(worker.queue.tasks), worker.queue.tasks, old(worker.holders), worker.holders, id);
    }
  }
}
