/** The in-memory task queue: idempotent enqueue, retry, dead letter. */
module JobQueue {
  import opened Common

  datatype Status = Pending | Running | Succeeded | Failed | DeadLetter | Cancelled

  datatype Task = Task(
    id: string, kind: string, payloadVersion: int, idempotencyKey: string, payload: seq<bv8>,
    attempts: int, maxAttempts: int, status: Status, lastError: string, createdAt: int)

  datatype Cause = DeadlineExceeded | ContextCanceled | OtherCause

  datatype Error = InvalidTask | TaskNotFound | TaskConflict | QueueEmpty | RandomFailed
                 | HandlerNotFound | ContextDone | HandlerFailed(cause: Cause)

  datatype Result<+T> = Ok(value: T) | Err(error: Error)

  predicate Terminal(s: Status) {
    s.Succeeded? || s.DeadLetter? || s.Cancelled?
  }

  predicate Claimable(t: Task) {
    t.status.Pending? || t.status.Failed?
  }

  function Code(cause: Cause): string {
    match cause
    case DeadlineExceeded => "worker.timeout"
    case ContextCanceled => "worker.cancelled"
    case OtherCause => "worker.failed"
  }

  /** How attempts may stand, given how many the task came with. A task that
      came with fewer attempts than allowed never reaches the limit alive. */
  predicate Counted(t: Task, initial: int) {
    && t.attempts >= initial && t.maxAttempts > 0
    && (t.status.DeadLetter? ==> initial < t.attempts && (t.attempts == initial + 1 || t.attempts <= t.maxAttempts))
    && (!t.status.DeadLetter? ==> t.attempts == initial || t.attempts < t.maxAttempts)
  }

  /* ---------- the draining measure ---------- */

  /** The failures a task can still take. */
  function Left(t: Task): nat {
    if Terminal(t.status) then 0
    else if t.maxAttempts - t.attempts > 1 then t.maxAttempts - t.attempts else 1
  }

  ghost function Budget(tasks: map<string, Task>, ids: set<string>): nat
    requires ids <= tasks.Keys
    decreases |ids|
  {
    if ids == {} then 0
    else
      var id :| id in ids;
      Left(tasks[id]) + Budget(tasks, ids - {id})
  }

  /** The sum does not depend on the order the IDs are taken in. */
  lemma {:induction false} BudgetSplit(tasks: map<string, Task>, ids: set<string>, id: string)
    requires ids <= tasks.Keys && id in ids
    ensures Budget(tasks, ids) == Left(tasks[id]) + Budget(tasks, ids - {id})
    decreases |ids|
  {
    var first :| first in ids && Budget(tasks, ids) == Left(tasks[first]) + Budget(tasks, ids - {first});
    if first != id {
      BudgetSplit(tasks, ids - {first}, id);
      BudgetSplit(tasks, ids - {id}, first);
      assert ids - {first} - {id} == ids - {id} - {first};
    }
  }

  lemma {:induction false} BudgetFrame(tasks: map<string, Task>, after: map<string, Task>, ids: set<string>)
    requires ids <= tasks.Keys && ids <= after.Keys
    requires forall id | id in ids :: Left(after[id]) == Left(tasks[id])
    ensures Budget(after, ids) == Budget(tasks, ids)
    decreases |ids|
  {
    if id :| id in ids {
      BudgetSplit(tasks, ids, id);
      BudgetSplit(after, ids, id);
      BudgetFrame(tasks, after, ids - {id});
    }
  }

  /** Changing one task moves the whole budget by what that task lost. */
  lemma BudgetUpdate(tasks: map<string, Task>, id: string, t: Task)
    requires id in tasks
    ensures tasks[id := t].Keys == tasks.Keys
    ensures Budget(tasks[id := t], tasks.Keys) == Budget(tasks, tasks.Keys) - Left(tasks[id]) + Left(t)
  {
    var after := tasks[id := t];
    BudgetSplit(tasks, tasks.Keys, id);
    BudgetSplit(after, tasks.Keys, id);
    BudgetFrame(tasks, after, tasks.Keys - {id});
  }

  predicate CountedAt(tasks: map<string, Task>, initial: map<string, int>, id: string) {
    id in tasks && id in initial ==> tasks[id].id == id && Counted(tasks[id], initial[id])
  }

  ghost predicate AllCounted(tasks: map<string, Task>, initial: map<string, int>) {
    forall id {:trigger CountedAt(tasks, initial, id)} :: CountedAt(tasks, initial, id)
  }

  lemma CountKept(tasks: map<string, Task>, initial: map<string, int>, id: string, t: Task, first: int)
    requires AllCounted(tasks, initial) && t.id == id && Counted(t, first)
    ensures AllCounted(tasks[id := t], initial[id := first])
  {
    var after, started := tasks[id := t], initial[id := first];
    forall x ensures CountedAt(after, started, x) { assert CountedAt(tasks, initial, x); }
  }

  /* ---------- the idempotency index ---------- */

  predicate FoundByKey(tasks: map<string, Task>, byIdempotency: map<string, string>, id: string) {
    id in tasks ==>
      tasks[id].idempotencyKey in byIdempotency && byIdempotency[tasks[id].idempotencyKey] == id
  }

  predicate KeyHasTask(tasks: map<string, Task>, byIdempotency: map<string, string>, key: string) {
    key in byIdempotency ==>
      byIdempotency[key] in tasks && tasks[byIdempotency[key]].idempotencyKey == key
  }

  /** The index is the inverse of the tasks' keys. */
  ghost predicate Indexed(tasks: map<string, Task>, byIdempotency: map<string, string>) {
    && (forall id {:trigger FoundByKey(tasks, byIdempotency, id)} :: FoundByKey(tasks, byIdempotency, id))
    && (forall key {:trigger KeyHasTask(tasks, byIdempotency, key)} :: KeyHasTask(tasks, byIdempotency, key))
  }

  lemma IndexKept(tasks: map<string, Task>, byIdempotency: map<string, string>, id: string, t: Task)
    requires Indexed(tasks, byIdempotency) && id in tasks && t.idempotencyKey == tasks[id].idempotencyKey
    ensures Indexed(tasks[id := t], byIdempotency)
  {
    var after := tasks[id := t];
    forall x ensures FoundByKey(after, byIdempotency, x) { assert FoundByKey(tasks, byIdempotency, x); }
    forall key ensures KeyHasTask(after, byIdempotency, key) { assert KeyHasTask(tasks, byIdempotency, key); }
  }

  lemma IndexGrows(tasks: map<string, Task>, byIdempotency: map<string, string>, t: Task)
    requires Indexed(tasks, byIdempotency) && t.id !in tasks && t.idempotencyKey !in byIdempotency
    ensures Indexed(tasks[t.id := t], byIdempotency[t.idempotencyKey := t.id])
  {
    var after, index := tasks[t.id := t], byIdempotency[t.idempotencyKey := t.id];
    forall x ensures FoundByKey(after, index, x) { assert FoundByKey(tasks, byIdempotency, x); }
    forall key ensures KeyHasTask(after, index, key) { assert KeyHasTask(tasks, byIdempotency, key); }
  }

  /* ---------- the queue ---------- */

  class MemoryQueue {
    const maxAttempts: int
    var tasks: map<string, Task>
    var byIdempotency: map<string, string>
    /** The attempts each task was enqueued with. */
    ghost var initial: map<string, int>

    ghost predicate Valid()
      reads this
    {
      && maxAttempts > 0 && initial.Keys == tasks.Keys
      && AllCounted(tasks, initial) && Indexed(tasks, byIdempotency)
    }

    constructor (maxAttempts: int)
      ensures Valid() && tasks == map[] && this.maxAttempts == if maxAttempts <= 0 then 3 else maxAttempts
    {
      this.maxAttempts := if maxAttempts <= 0 then 3 else maxAttempts;
      tasks, byIdempotency, initial := map[], map[], map[];
    }

    predicate WellFormed(given: Task) {
      Trim(given.kind) != "" && given.payloadVersion > 0 && Trim(given.idempotencyKey) != ""
    }

    method Insert(task: Task)
      requires Valid() && task.id !in tasks && task.idempotencyKey !in byIdempotency
      requires task.status.Pending? && task.maxAttempts > 0
      modifies this
      ensures Valid() && tasks == old(tasks)[task.id := task]
      ensures byIdempotency == old(byIdempotency)[task.idempotencyKey := task.id]
      ensures initial == old(initial)[task.id := task.attempts]
    {
      IndexGrows(tasks, byIdempotency, task);
      CountKept(tasks, initial, task.id, task, task.attempts);
      tasks := tasks[task.id := task];
      byIdempotency := byIdempotency[task.idempotencyKey := task.id];
      initial := initial[task.id := task.attempts];
    }

    /** A key seen before returns the stored task and changes nothing; a new
        key stores exactly one pending task. `drawn` is the random ID, used
        only when the task brings none. */
    method Enqueue(given: Task, drawn: Option<string>, now: int) returns (r: Result<Task>)
      requires Valid()
      requires drawn.Some? ==> drawn.value !in tasks
      modifies this
      ensures Valid()
      ensures r == Err(InvalidTask) <==>
              Trim(given.kind) == "" || given.payloadVersion <= 0 || Trim(given.idempotencyKey) == ""
      ensures r == Err(TaskConflict) <==>
              WellFormed(given) && given.idempotencyKey !in old(byIdempotency) && Trim(given.id) != ""
              && given.id in old(tasks)
      ensures r == Err(RandomFailed) <==>
              WellFormed(given) && given.idempotencyKey !in old(byIdempotency) && Trim(given.id) == "" && drawn.None?
      ensures r.Err? ==> r.error in {InvalidTask, TaskConflict, RandomFailed}
      ensures r.Ok? ==> r.value.id in tasks && tasks[r.value.id] == r.value
      ensures r.Err? || given.idempotencyKey in old(byIdempotency) ==>
                tasks == old(tasks) && byIdempotency == old(byIdempotency) && initial == old(initial)
      ensures r.Ok? && given.idempotencyKey in old(byIdempotency) ==>
                && byIdempotency[given.idempotencyKey] in tasks
                && r.value == tasks[byIdempotency[given.idempotencyKey]]
      ensures r.Ok? && given.idempotencyKey !in old(byIdempotency) ==>
                && r.value.id !in old(tasks) && (Trim(given.id) != "" ==> r.value.id == given.id)
                && r.value == given.(id := r.value.id, status := Pending, createdAt := now,
                                     maxAttempts := if given.maxAttempts <= 0 then maxAttempts else given.maxAttempts)
                && tasks == old(tasks)[r.value.id := r.value]
                && byIdempotency == old(byIdempotency)[given.idempotencyKey := r.value.id]
                && initial == old(initial)[r.value.id := given.attempts]
    {
      if !WellFormed(given) { return Err(InvalidTask); }
      assert KeyHasTask(tasks, byIdempotency, given.idempotencyKey);
      if given.idempotencyKey in byIdempotency {
        assert CountedAt(tasks, initial, byIdempotency[given.idempotencyKey]);
        return Ok(tasks[byIdempotency[given.idempotencyKey]]);
      }
      var task := given;
      if Trim(task.id) == "" {
        if drawn.None? { return Err(RandomFailed); }
        task := task.(id := drawn.value);
      } else if task.id in tasks {
        assert FoundByKey(tasks, byIdempotency, task.id);
        var existing := tasks[task.id];
        if existing.idempotencyKey == task.idempotencyKey { return Ok(existing); }
        return Err(TaskConflict);
      }
      if task.maxAttempts <= 0 { task := task.(maxAttempts := maxAttempts); }
      task := task.(status := Pending, createdAt := now);
      Insert(task);
      return Ok(task);
    }

    /** Stores the next state of a task. */
    method Replace(id: string, task: Task)
      requires Valid() && id in tasks && task.id == id && task.idempotencyKey == tasks[id].idempotencyKey
      requires Counted(task, initial[id])
      modifies this`tasks
      ensures Valid() && tasks == old(tasks)[id := task]
    {
      IndexKept(tasks, byIdempotency, id, task);
      CountKept(tasks, initial, id, task, initial[id]);
      assert initial[id := initial[id]] == initial;
      tasks := tasks[id := task];
    }

    /** Reserves some pending or retryable task; which one is the map's choice. */
    method ClaimPending() returns (r: Result<Task>)
      requires Valid()
      modifies this`tasks
      ensures Valid()
      ensures r.Err? <==> forall id | id in old(tasks) :: !Claimable(old(tasks)[id])
      ensures r.Err? <==> forall id | id in old(tasks) :: old(tasks)[id].status !in {Pending, Failed}
      ensures r.Err? ==> r.error == QueueEmpty && tasks == old(tasks)
      ensures r.Ok? ==>
                && r.value.id in old(tasks) && Claimable(old(tasks)[r.value.id])
                && r.value == old(tasks)[r.value.id].(status := Running)
                && tasks == old(tasks)[r.value.id := r.value]
    {
      if id :| id in tasks && Claimable(tasks[id]) {
        assert CountedAt(tasks, initial, id);
        var task := tasks[id].(status := Running);
        Replace(id, task);
        return Ok(task);
      }
      return Err(QueueEmpty);
    }

    method Get(id: string) returns (r: Result<Task>)
      ensures r == if id in tasks then Ok(tasks[id]) else Err(TaskNotFound)
    {
      if id !in tasks { return Err(TaskNotFound); }
      return Ok(tasks[id]);
    }

    /** One more attempt used up; the last one ends in the dead letter. */
    method Fail(id: string, cause: Option<Cause>) returns (r: Result<()>)
      requires Valid()
      modifies this`tasks
      ensures Valid()
      ensures r == if id in old(tasks) then Ok(()) else Err(TaskNotFound)
      ensures id in old(tasks) && old(tasks)[id].status in {Succeeded, Cancelled, DeadLetter} ==> tasks == old(tasks)
      ensures id in old(tasks) && old(tasks)[id].status in {Pending, Running, Failed} ==> tasks != old(tasks)
      ensures id !in old(tasks) || Terminal(old(tasks)[id].status) ==> tasks == old(tasks)
      ensures id in old(tasks) && !Terminal(old(tasks)[id].status) ==>
                && id in tasks && tasks == old(tasks)[id := tasks[id]]
                && tasks[id] == old(tasks)[id].(
                  attempts := old(tasks)[id].attempts + 1,
                  lastError := if cause.Some? then Code(cause.value) else old(tasks)[id].lastError,
                  status := if old(tasks)[id].attempts + 1 >= old(tasks)[id].maxAttempts then DeadLetter else Failed)
                && (cause == Some(DeadlineExceeded) ==> tasks[id].lastError == "worker.timeout")
                && (cause == Some(ContextCanceled) ==> tasks[id].lastError == "worker.cancelled")
                && (cause == Some(OtherCause) ==> tasks[id].lastError == "worker.failed")
    {
      if id !in tasks { return Err(TaskNotFound); }
      var task := tasks[id];
      assert CountedAt(tasks, initial, id);
      if Terminal(task.status) { return Ok(()); }
      task := task.(attempts := task.attempts + 1);
      if cause.Some? { task := task.(lastError := Code(cause.value)); }
      task := task.(status := if task.attempts >= task.maxAttempts then DeadLetter else Failed);
      Replace(id, task);
      return Ok(());
    }

    method Transition(id: string, status: Status) returns (r: Result<()>)
      requires Valid() && !status.DeadLetter?
      modifies this`tasks
      ensures Valid()
      ensures r == Err(TaskNotFound) <==> id !in old(tasks)
      ensures r == Err(TaskConflict) <==>
              id in old(tasks) && old(tasks)[id].status in {Succeeded, Cancelled, DeadLetter}
      ensures r.Err? ==> tasks == old(tasks) && r.error in {TaskNotFound, TaskConflict}
      ensures r.Ok? ==> r == Ok(()) && id in old(tasks) && tasks == old(tasks)[id := old(tasks)[id].(status := status)]
    {
      if id !in tasks { return Err(TaskNotFound); }
      var task := tasks[id];
      assert CountedAt(tasks, initial, id);
      if Terminal(task.status) { return Err(TaskConflict); }
      task := task.(status := status);
      Replace(id, task);
      return Ok(());
    }
  }
}
