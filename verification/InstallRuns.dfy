/** Whole runs of the installer: several server processes over one
    installation, any requests, any failures, a crash anywhere. */
module InstallRuns {
  import opened Common
  import opened InstallTransaction
  import opened InstallWorld
  import opened InstallPorts
  import opened InstallApply

  datatype Operation = Apply(request: ApplyRequest, answers: Answers) | Reconcile | Rollback

  /** One public call on one process, and the failures it meets. */
  datatype Command = Command(process: nat, operation: Operation, script: seq<Outcome>)

  ghost predicate Deployed(world: World, services: seq<ApplyService>)
    reads world, services, set s, c | s in services && c in s.Cells() :: c
  {
    && world.Valid() && !world.held
    && (forall i, j | 0 <= i < j < |services| :: services[i] != services[j])
    && (forall s | s in services :: s.world == world && s.Holds())
  }

  /** A call whose environment installer, if it publishes, answers about the
      reference it was given. */
  predicate HonestCommand(c: Command) { c.operation.Apply? ==> Honest(c.operation.answers) }

  /** No process remembers a receipt about a transaction it was not given for. */
  ghost predicate AllStrict(services: seq<ApplyService>)
    reads services, set s, c | s in services && c in s.Cells() :: c
  {
    forall s | s in services :: s.Strict()
  }

  /** An environment that no journal names any more. */
  predicate Stray(d: Durable) {
    d.marker.None? && d.journal.Some? && SideEffectFree(d.journal.value) && d.environments != {}
  }

  /** What an undisturbed command makes of the installation: a fit attempt on a
      recoverable one installs, any on an installation reconciles, and nobody
      else touches a marker. */
  ghost predicate Serves(c: Command, a: Stamp, b: Stamp) {
    match c.operation
    case Apply(request, answers) =>
      c.script == [] && request.valid && request.databaseTarget.Some? ==>
        && (a.durable.marker.Some? ==> b.durable == a.durable.(journal := None))
        && (a.durable.marker.None? && answers.drawnID.Some? && answers.drawnID.value !in a.issued
            && Healthy(request.mode, request.databaseTarget.value, answers)
            && Recoverable(a.durable.journal, request.databaseTarget.value, answers.plan.selectedUI) ==>
              && b.durable.commit.Some? && b.durable.commit.value.id == answers.drawnID.value
              && b.durable.marker.Some? && b.durable.journal.None?)
    case Reconcile =>
      && b.durable in {a.durable, a.durable.(journal := None)}
      && (c.script == [] && a.durable.marker.Some? ==> b.durable == a.durable.(journal := None))
    case Rollback => b.durable.marker == a.durable.marker
  }

  /** A request to install; a drawn ID that was issued before counts as none. */
  method AttemptInstall(service: ApplyService, c: Command)
    requires service.Holds() && !service.world.held && c.operation.Apply?
    requires service.world.alive && service.world.faults == c.script
    modifies service.world, service`pending
    ensures service.world.Valid() ==>
              service.Holds() && Evolves(old(service.world.Now()), service.world.Now())
    ensures (service.world.Valid() || (service.world.Cut() && Stray(service.world.durable))) && !service.world.held
    ensures HonestCommand(c) ==> service.world.Valid() && (old(service.Strict()) ==> service.Strict())
    ensures Serves(c, old(service.world.Now()), service.world.Now())
    ensures service.world.entered == |old(service.world.run)|
  {
    var request := c.operation.request;
    var unique := if c.operation.answers.drawnID.Some? && c.operation.answers.drawnID.value in service.world.issued
                  then c.operation.answers.(drawnID := None) else c.operation.answers;
    if !request.valid || request.databaseTarget.None? {
      var _, _ := service.Apply(request, unique);
      return;
    }
    HealthyPasses(service.world.durable, request.mode, request.databaseTarget.value, unique);
    var _, _ := service.Apply(request, unique);
  }

  /** One public call on one process.  An explicit rollback needs a receipt about
      the transaction it is to undo. */
  method Dispatch(service: ApplyService, c: Command)
    requires service.Holds() && !service.world.held && (c.operation.Rollback? ==> service.Strict())
    modifies service.world, service`pending
    ensures service.world.Valid() ==>
              service.Holds() && Evolves(old(service.world.Now()), service.world.Now())
    ensures service.world.Valid() <==> !Stray(service.world.durable)
    ensures (service.world.Valid() || service.world.Cut()) && !service.world.held
    ensures HonestCommand(c) ==> service.world.Valid() && (old(service.Strict()) ==> service.Strict())
    ensures Serves(c, old(service.world.Now()), service.world.Now())
    ensures service.world.entered == |old(service.world.run)|
  {
    service.world.Boot(c.script);
    match c.operation {
      case Apply(request, answers) =>
        AttemptInstall(service, c);
      case Reconcile =>
        service.ReconcileCompleted();
      case Rollback =>
        var _ := service.Rollback();
    }
    if service.world.Valid() { SafeHasNoStray(service.world.durable); }
  }

  lemma SafeHasNoStray(d: Durable)
    requires Safe(d)
    ensures !Stray(d)
  {
    if Stray(d) { SafeRetryableHasNoEffects(d); }
  }

  /** The same beside other processes, whose remembered failures stay as valid as they were. */
  method Step(world: World, services: seq<ApplyService>, service: ApplyService, c: Command)
    requires Deployed(world, services) && service in services && (c.operation.Rollback? ==> service.Strict())
    modifies world, service`pending
    ensures !Stray(world.durable) ==> Deployed(world, services)
    ensures Stray(world.durable) ==> world.Cut()
    ensures HonestCommand(c) ==> !Stray(world.durable)
    ensures Serves(c, old(world.Now()), world.Now())
    ensures HonestCommand(c) && old(AllStrict(services)) ==> AllStrict(services)
    ensures world.entered == |old(world.run)|
  {
    ghost var before := world.Now();
    Dispatch(service, c);
    if world.Valid() {
      forall s | s in services && s != service ensures s.Holds() {
        assert old(s.Holds());
        if s.pending.Some? {
          assert PendingHolds(s.pending.value, before);
          PendingEvolves(s.pending.value, before, world.Now());
        }
      }
    }
  }

  /** Safety and finality over the first `upto` calls of a run. */
  ghost predicate SafeThrough(start: Durable, run: seq<Attempt>, upto: nat)
    requires upto <= |run|
  {
    forall i, j | 0 <= i <= j <= upto ::
      Safe(Replay(start, run[..i])) && Keeps(Replay(start, run[..i]), Replay(start, run[..j]))
  }

  lemma DisciplinedIsSafeThrough(start: Durable, run: seq<Attempt>, upto: nat)
    requires upto <= |run| && Safe(start) && DisciplinedRun(start, run[..upto])
    ensures SafeThrough(start, run, upto)
  {
    forall i, j | 0 <= i <= j <= upto
      ensures Safe(Replay(start, run[..i])) && Keeps(Replay(start, run[..i]), Replay(start, run[..j]))
    {
      DisciplinedRunIsSafe(start, run[..upto], i, j);
      assert run[..upto][..i] == run[..i] && run[..upto][..j] == run[..j];
    }
  }

  /** Whether this process remembers a failure whose receipt is about another transaction. */
  method RemembersForeign(service: ApplyService) returns (foreign: bool)
    ensures foreign <==> !service.Strict()
  {
    foreign := service.pending.Some? && service.pending.value.environment.Some?
               && service.pending.value.environment.value.reference != service.pending.value.transaction.value.id;
  }

  /** Where a run has stopped short of a command, and why. */
  ghost predicate Stops(world: World, services: seq<ApplyService>, c: Command)
    reads world, services, set s, x | s in services && x in s.Cells() :: x
  {
    || Stray(world.durable)
    || (c.operation.Rollback? && c.process < |services| && !services[c.process].Strict())
  }

  /** One command of a run: performed, unless it is an explicit rollback from a
      foreign receipt.  A process that dies is followed by one with an empty memory. */
  method Turn(world: World, services: seq<ApplyService>, c: Command)
    returns (next: seq<ApplyService>, stopped: bool)
    requires Deployed(world, services)
    modifies world, services
    ensures |next| == |services| && forall i | 0 <= i < |next| :: next[i] == services[i] || fresh(next[i])
    ensures !Stray(world.durable) ==> Deployed(world, next)
    ensures Stray(world.durable) ==> world.Cut()
    ensures stopped ==> Stops(world, next, c)
    ensures Stray(world.durable) ==> stopped
    ensures if (stopped && !Stray(world.durable)) || c.process >= |services| then world.Now() == old(world.Now())
            else Serves(c, old(world.Now()), world.Now()) && world.entered == |old(world.run)|
    ensures !stopped && c.process < |services| && !world.alive ==> next[c.process].pending.None?
    ensures HonestCommand(c) && old(AllStrict(services)) ==> !stopped && AllStrict(next)
  {
    next, stopped := services, false;
    if c.process >= |services| {
      SafeHasNoStray(world.durable);
      return;
    }
    assert services[c.process] in services;
    if c.operation.Rollback? {
      stopped := RemembersForeign(services[c.process]);
      if stopped {
        SafeHasNoStray(world.durable);
        return;
      }
    }
    Step(world, services, services[c.process], c);
    stopped := Stray(world.durable);
    if !stopped && !world.alive {
      next := Respawn(world, services, c.process);
    }
  }

  /** The successor of a process that died. */
  method Respawn(world: World, services: seq<ApplyService>, process: nat) returns (next: seq<ApplyService>)
    requires Deployed(world, services) && process < |services|
    ensures |next| == |services| && forall i | 0 <= i < |next| :: next[i] == services[i] || fresh(next[i])
    ensures next[process].pending.None? && forall i | 0 <= i < |next| && i != process :: next[i] == services[i]
    ensures Deployed(world, next) && (AllStrict(services) ==> AllStrict(next))
  {
    var successor := new ApplyService(world);
    next := services[process := successor];
    forall s | s in next ensures s == successor || s in services {}
  }

  /** An empty installation and its processes. */
  method Deploy(processes: nat) returns (world: World, services: seq<ApplyService>)
    ensures fresh(world) && |services| == processes && forall i | 0 <= i < |services| :: fresh(services[i])
    ensures Deployed(world, services) && AllStrict(services)
  {
    world := new World();
    services := [];
    while |services| < processes
      invariant |services| <= processes
      invariant fresh(world)
      invariant forall i | 0 <= i < |services| ::
                  fresh(services[i]) && services[i].world == world && services[i].pending.None?
      invariant world.Valid() && !world.held && forall i, j | 0 <= i < j < |services| :: services[i] != services[j]
    {
      var service := new ApplyService(world);
      services := services + [service];
    }
  }

  /** The states between commands: each command on an existing process has served. */
  ghost predicate Traced(commands: seq<Command>, processes: nat, states: seq<Stamp>) {
    && |states| == |commands| + 1
    && forall k | 0 <= k < |commands| ::
         if commands[k].process < processes then Serves(commands[k], states[k], states[k + 1])
         else states[k + 1] == states[k]
  }

  /** Runs any list of calls on any number of processes, whatever their
      environment installers answer.  Every state the installation passes
      through, a crash included, is safe: while no marker is visible each effect
      is named by a journal that validates; a visible marker belongs to a complete
      transaction and never changes again.  The run ends early only with the
      call that leaves an environment stray, or before an explicit rollback on a
      process that remembers a receipt about another transaction; neither
      happens while every receipt is about the reference asked for. */
  method Operate(processes: nat, commands: seq<Command>)
    returns (world: World, services: seq<ApplyService>, done: nat, ghost upto: nat, ghost states: seq<Stamp>)
    ensures fresh(world) && |services| == processes && done <= |commands|
    ensures Traced(commands[..done], processes, states) && (done == |commands| ==> states[done] == world.Now())
    ensures |world.run| - 1 <= upto <= |world.run| && SafeThrough(world.start, world.run, upto)
    ensures if Stray(world.durable) then upto == |world.run| - 1
            else upto == |world.run| && Deployed(world, services)
    ensures done < |commands| ==>
              Stops(world, services, commands[done]) && exists c | c in commands[..done + 1] :: !HonestCommand(c)
    ensures done == |commands| ==> !Stray(world.durable)
  {
    world, services := Deploy(processes);
    done, states := 0, [world.Now()];
    var stopped := false;
    SafeHasNoStray(world.durable);
    while done < |commands| && !stopped
      invariant done <= |commands| && |services| == processes
      invariant Traced(commands[..done], processes, states) && (!stopped ==> states[done] == world.Now())
      invariant fresh(world) && forall i | 0 <= i < |services| :: fresh(services[i])
      invariant if Stray(world.durable) then world.Cut() else Deployed(world, services)
      invariant if stopped then done < |commands| && Stops(world, services, commands[done])
                else !Stray(world.durable)
      invariant (forall c | c in commands[..done] :: HonestCommand(c)) ==> stopped || AllStrict(services)
      invariant stopped ==> exists c | c in commands[..done + 1] :: !HonestCommand(c)
      decreases |commands| - done, !stopped
    {
      assert commands[..done + 1] == commands[..done] + [commands[done]];
      services, stopped := Turn(world, services, commands[done]);
      if !stopped { done, states := done + 1, states + [world.Now()]; }
    }
    upto := if Stray(world.durable) then |world.run| - 1 else |world.run|;
    assert world.run[..|world.run|] == world.run;
    DisciplinedIsSafeThrough(world.start, world.run, upto);
  }

  /** A record that does not validate is not written. */
  function AfterWrite(d: Durable, t: Transaction, persist: Outcome): Durable {
    if ValidTransaction(t) then After(d, JournalUpdate(t), persist) else d
  }

  /** While no marker is visible, writing a record is safe exactly when it names
      every effect. */
  lemma WriteNeedsCover(d: Durable, t: Transaction, persist: Outcome)
    requires Safe(d) && d.marker.None? && JournalHolds(d, t.id) && Recordable(t)
    ensures Safe(AfterWrite(d, t, persist)) <==> !TakesEffect(persist) || Covers(t, d)
  {}

  lemma FailureIsRecordable(t: Transaction, rollbackFailed: bool, at: nat)
    requires Recordable(t) && at > 0
    ensures Recordable(FailureRecord(t, rollbackFailed, at))
  {}

  /** The environment's intent is journalled and the environment is to be published. */
  predicate AboutToPublish(d: Durable, t: Transaction) {
    && Safe(d) && d.marker.None? && d.journal == Some(t) && t.phase.Applying?
    && NamesIdentity(t, t.id) && t.environmentIntent == t.id && t.environment.None? && t.marker.None?
    && d.environments == {}
  }

  /** What `apply` does once a publication failed or answered about another reference. */
  function AfterFailedPublish(d: Durable, t: Transaction, receipt: EnvironmentReceipt, at: nat,
                              publish: Outcome, environment: Outcome, identity: Outcome, persist: Outcome): Durable
  {
    var d1 := After(d, EnvironmentPublish(t.id), publish);
    var none := receipt == NO_ENVIRONMENT;
    var d2 := After(d1, if none then EnvironmentRecover(t.id) else EnvironmentRollback(receipt.reference), environment);
    var d3 := After(d2, IdentityRollback(t.id), identity);
    var named := if none then t else t.(environment := Some(receipt));
    AfterWrite(d3, FailureRecord(named, !(environment.Done? && identity.Done?), at), persist)
  }

  /** Both effects were reported undone and the record forgets them: safe exactly
      when the environment undone was this transaction's, or it had none. */
  lemma RollbacksThenForget(d: Durable, t: Transaction, call: Call, reference: string, at: nat, persist: Outcome)
    requires Safe(d) && d.marker.None? && d.journal == Some(t) && at > 0
    requires call in {EnvironmentRecover(reference), EnvironmentRollback(reference)}
    ensures var e := Perform(Perform(d, call), IdentityRollback(t.id));
            Safe(AfterWrite(e, Retried(t, at), persist))
            <==> !(reference != t.id && t.id in d.environments && TakesEffect(persist))
  {
    var d1 := Perform(d, call);
    DisciplinedCallIsSafe(d, call, Done);
    var e := Perform(d1, IdentityRollback(t.id));
    DisciplinedCallIsSafe(d1, IdentityRollback(t.id), Done);
    FailureIsRecordable(t, false, at);
    WriteNeedsCover(e, Retried(t, at), persist);
    assert e.identities == {};
    assert d.environments <= {t.id};
    assert t.id in e.environments <==> t.id in d.environments && reference != t.id;
    if t.id in e.environments {
      assert !NamesEnvironment(Retried(t, at), t.id);
    } else {
      assert e.environments == {};
    }
  }

  /** A record that still names the intent and the identity is safe to write, if
      it validates, whatever became of the rollbacks. */
  lemma RollbacksThenKeep(d: Durable, t: Transaction, named: Transaction, call: Call, at: nat,
                          environment: Outcome, identity: Outcome, persist: Outcome)
    requires Safe(d) && d.marker.None? && d.journal == Some(t) && at > 0
    requires call.EnvironmentRecover? || call.EnvironmentRollback?
    requires t.phase.Applying? && NamesIdentity(t, t.id) && t.environmentIntent == t.id
    requires named == t.(environment := named.environment)
    ensures var e := After(After(d, call, environment), IdentityRollback(t.id), identity);
            Safe(AfterWrite(e, FailureRecord(named, true, at), persist))
  {
    var d1 := After(d, call, environment);
    DisciplinedCallIsSafe(d, call, environment);
    var e := After(d1, IdentityRollback(t.id), identity);
    DisciplinedCallIsSafe(d1, IdentityRollback(t.id), identity);
    var record := FailureRecord(named, true, at);
    if ValidTransaction(record) {
      WriteNeedsCover(e, record, persist);
      assert e.identities <= {t.id} && e.environments <= {t.id};
    }
  }

  /** The environment is orphaned on exactly one path: the publication took
      effect, the receipt is about another reference, both rollbacks reported
      success, and the record that forgets everything was written. */
  lemma ForeignReceiptOrphans(d: Durable, t: Transaction, receipt: EnvironmentReceipt, at: nat,
                              publish: Outcome, environment: Outcome, identity: Outcome, persist: Outcome)
    requires AboutToPublish(d, t) && at > 0
    ensures Safe(AfterFailedPublish(d, t, receipt, at, publish, environment, identity, persist))
            <==> !(!HonestReceipt(receipt, t.id) && TakesEffect(publish)
                   && environment.Done? && identity.Done? && TakesEffect(persist))
  {
    var d1 := After(d, EnvironmentPublish(t.id), publish);
    DisciplinedCallIsSafe(d, EnvironmentPublish(t.id), publish);
    var none := receipt == NO_ENVIRONMENT;
    var call := if none then EnvironmentRecover(t.id) else EnvironmentRollback(receipt.reference);
    var named := if none then t else t.(environment := Some(receipt));
    if environment.Done? && identity.Done? {
      assert Retried(named, at) == Retried(t, at);
      RollbacksThenForget(d1, t, call, if none then t.id else receipt.reference, at, persist);
    } else {
      RollbacksThenKeep(d1, t, named, call, at, environment, identity, persist);
    }
  }

  /** So an installation is safe from its environment installer exactly when the
      receipt is about the reference that was asked for. */
  lemma ReceiptDecides(d: Durable, t: Transaction, receipt: EnvironmentReceipt, at: nat)
    requires AboutToPublish(d, t) && at > 0
    ensures (forall p, e, i, w :: Safe(AfterFailedPublish(d, t, receipt, at, p, e, i, w)))
            <==> HonestReceipt(receipt, t.id)
  {
    forall p, e, i, w
      ensures HonestReceipt(receipt, t.id) ==> Safe(AfterFailedPublish(d, t, receipt, at, p, e, i, w))
    {
      ForeignReceiptOrphans(d, t, receipt, at, p, e, i, w);
    }
    ForeignReceiptOrphans(d, t, receipt, at, Done, Done, Done, Done);
  }

  /** What an explicit `Rollback` does from a remembered failure that holds an
      environment receipt. */
  function AfterRollback(d: Durable, t: Transaction, receipt: EnvironmentReceipt, marker: Option<Marker>, at: nat,
                         environment: Outcome, identity: Outcome, remove: Outcome, persist: Outcome): Durable
  {
    var d1 := After(d, EnvironmentRollback(receipt.reference), environment);
    var d2 := After(d1, IdentityRollback(t.id), identity);
    if !environment.Done? || !identity.Done? then d2
    else if marker.None? then AfterWrite(d2, Retried(t, at), persist)
    else
      var d3 := After(d2, MarkerRemove(marker.value), remove);
      if remove.Done? && Accepts(d2, MarkerRemove(marker.value)) then AfterWrite(d3, Retried(t, at), persist) else d3
  }

  /** If a rollback failed, the receipt about another reference is remembered,
      and an explicit `Rollback` may still orphan the environment, on exactly
      the same condition. */
  lemma ForeignReceiptRemembered(d: Durable, t: Transaction, receipt: EnvironmentReceipt, at: nat,
                                 environment: Outcome, identity: Outcome, persist: Outcome)
    requires Safe(d) && d.marker.None? && d.journal == Some(t) && at > 0
    ensures Safe(AfterRollback(d, t, receipt, None, at, environment, identity, Done, persist))
            <==> !(receipt.reference != t.id && t.id in d.environments
                   && environment.Done? && identity.Done? && TakesEffect(persist))
  {
    var call := EnvironmentRollback(receipt.reference);
    if environment.Done? && identity.Done? {
      RollbacksThenForget(d, t, call, receipt.reference, at, persist);
    } else {
      DisciplinedCallIsSafe(d, call, environment);
      DisciplinedCallIsSafe(After(d, call, environment), IdentityRollback(t.id), identity);
    }
  }

  const SOME_ID := "install-" + seq(32, _ => '0')

  /** A concrete installation orphaned without a single failure: the environment
      installer answers about "elsewhere". */
  lemma OrphanWitness()
    ensures ValidID(SOME_ID)
    ensures exists d: Durable, t: Transaction, receipt: EnvironmentReceipt ::
              && AboutToPublish(d, t) && receipt.reference == "elsewhere"
              && var e := AfterFailedPublish(d, t, receipt, 2, Done, Done, Done, Done);
                 !Safe(e) && e.environments == {SOME_ID} && e.journal.Some? && SideEffectFree(e.journal.value)
  {
    var hash := seq(64, _ => '0');
    var t := Transaction(
      TRANSACTION_SCHEMA, TRANSACTION_OWNER, SOME_ID, Antd, Embedded, hash, Applying, Environment,
      STEP_ORDER[..5], Some(IdentityReceipt(SOME_ID)), SOME_ID, None, None, 1);
    var d := Durable(Some(t), None, {SOME_ID}, {}, None);
    var receipt := EnvironmentReceipt(hash, "elsewhere", "", "", false);
    assert AboutToPublish(d, t);
    ForeignReceiptOrphans(d, t, receipt, 2, Done, Done, Done, Done);
    var e := AfterFailedPublish(d, t, receipt, 2, Done, Done, Done, Done);
    assert "elsewhere" != SOME_ID;
    assert !Safe(e) && e.environments == {SOME_ID};
  }

  /** The identity's reference is journalled and the identity is to be created. */
  predicate AboutToInitialize(d: Durable, t: Transaction) {
    && Safe(d) && d.marker.None? && d.journal == Some(t) && t.phase.Applying?
    && NamesIdentity(t, t.id) && t.environmentIntent == "" && t.environment.None? && t.marker.None?
    && EffectFree(d)
  }

  function Compensated(recover: Outcome): bool { recover.Done? || recover.NotOwned? }

  /** What `apply` does once the creation of the identity failed; the failure is
      remembered unless the identity was recovered. */
  function AfterFailedInitialize(d: Durable, t: Transaction, at: nat,
                                 initialize: Outcome, recover: Outcome, persist: Outcome): Durable
  {
    var d1 := After(d, IdentityInitialize(t.id), initialize);
    var d2 := After(d1, IdentityRecover(t.id), recover);
    AfterWrite(d2, FailureRecord(t, !Compensated(recover), at), persist)
  }

  /** An explicit `Rollback` from that memory.  The identity installer keeps the
      connection of each identity it saw created; asked to roll back any other
      it answers with success and does nothing. */
  function AfterIdentityRollback(e: Durable, t: Transaction, at: nat,
                                 connected: bool, rollback: Outcome, persist: Outcome): Durable
  {
    if !connected then AfterWrite(e, Retried(t, at), persist)
    else
      var f := After(e, IdentityRollback(t.id), rollback);
      if rollback.Done? then AfterWrite(f, Retried(t, at), persist) else f
  }

  /** The failed creation itself is safe whatever happens. */
  lemma FailedInitializeIsSafe(d: Durable, t: Transaction, at: nat,
                               initialize: Outcome, recover: Outcome, persist: Outcome)
    requires AboutToInitialize(d, t) && at > 0
    ensures var e := AfterFailedInitialize(d, t, at, initialize, recover, persist);
            && Safe(e) && e.marker.None? && e.environments == {} && JournalHolds(e, t.id)
            && e.identities == if TakesEffect(initialize) && !TakesEffect(recover) then {t.id} else {}
  {
    var d1 := After(d, IdentityInitialize(t.id), initialize);
    DisciplinedCallIsSafe(d, IdentityInitialize(t.id), initialize);
    var d2 := After(d1, IdentityRecover(t.id), recover);
    DisciplinedCallIsSafe(d1, IdentityRecover(t.id), recover);
    FailureIsRecordable(t, !Compensated(recover), at);
    WriteNeedsCover(d2, FailureRecord(t, !Compensated(recover), at), persist);
  }

  /** Without the assumption that a rollback reporting success leaves no
      identity, the explicit rollback orphans it on exactly one path: created
      although the creation failed, not recovered, its connection not kept, and
      the record that forgets it written. */
  lemma ForgottenIdentityOrphans(d: Durable, t: Transaction, at: nat, initialize: Outcome, recover: Outcome,
                                 persist: Outcome, later: nat, connected: bool, rollback: Outcome, write: Outcome)
    requires AboutToInitialize(d, t) && at > 0 && later > 0 && !Compensated(recover)
    ensures var e := AfterFailedInitialize(d, t, at, initialize, recover, persist);
            Safe(AfterIdentityRollback(e, t, later, connected, rollback, write))
            <==> !(TakesEffect(initialize) && !TakesEffect(recover) && !connected && TakesEffect(write))
  {
    var e := AfterFailedInitialize(d, t, at, initialize, recover, persist);
    FailedInitializeIsSafe(d, t, at, initialize, recover, persist);
    FailureIsRecordable(t, false, later);
    var f := if connected then After(e, IdentityRollback(t.id), rollback) else e;
    DisciplinedCallIsSafe(e, IdentityRollback(t.id), rollback);
    WriteNeedsCover(f, Retried(t, later), write);
    assert t.id in f.identities ==> !NamesIdentity(Retried(t, later), t.id);
  }

  /** So an explicit rollback is safe whatever it meets exactly when the identity
      is gone already or its connection was kept. */
  lemma ConnectionDecides(d: Durable, t: Transaction, at: nat, initialize: Outcome, recover: Outcome,
                          persist: Outcome, later: nat, connected: bool)
    requires AboutToInitialize(d, t) && at > 0 && later > 0 && !Compensated(recover)
    ensures var e := AfterFailedInitialize(d, t, at, initialize, recover, persist);
            (forall rollback, write :: Safe(AfterIdentityRollback(e, t, later, connected, rollback, write)))
            <==> e.identities == {} || connected
  {
    var e := AfterFailedInitialize(d, t, at, initialize, recover, persist);
    FailedInitializeIsSafe(d, t, at, initialize, recover, persist);
    forall rollback, write
      ensures Safe(AfterIdentityRollback(e, t, later, connected, rollback, write))
              <==> !(e.identities != {} && !connected && TakesEffect(write))
    {
      ForgottenIdentityOrphans(d, t, at, initialize, recover, persist, later, connected, rollback, write);
    }
    assert Safe(AfterIdentityRollback(e, t, later, connected, Done, Done)) <==> e.identities == {} || connected;
  }

  /** A concrete identity lost that way: its creation reports an error after the
      commit, the database is out of reach for the recovery, and an explicit
      rollback succeeds. */
  lemma OrphanedIdentityWitness()
    ensures exists d: Durable, t: Transaction ::
              && AboutToInitialize(d, t) && t.id == SOME_ID
              && var e := AfterFailedInitialize(d, t, 2, Torn, Refused, Done);
                 var f := AfterIdentityRollback(e, t, 3, false, Done, Done);
                 !Safe(f) && f.identities == {SOME_ID} && f.journal.Some? && SideEffectFree(f.journal.value)
  {
    var t := Transaction(
      TRANSACTION_SCHEMA, TRANSACTION_OWNER, SOME_ID, Antd, Embedded, seq(64, _ => '0'), Applying, Identity,
      STEP_ORDER[..4], Some(IdentityReceipt(SOME_ID)), "", None, None, 1);
    var d := Durable(Some(t), None, {}, {}, None);
    assert AboutToInitialize(d, t);
    FailedInitializeIsSafe(d, t, 2, Torn, Refused, Done);
    ForgottenIdentityOrphans(d, t, 2, Torn, Refused, Done, 3, false, Done, Done);
    FailureIsRecordable(t, false, 3);
    var f := AfterIdentityRollback(AfterFailedInitialize(d, t, 2, Torn, Refused, Done), t, 3, false, Done, Done);
    assert f.identities == {SOME_ID} && f.journal == Some(Retried(t, 3));
  }

  function Undone(d: Durable, id: string, environment: Outcome, identity: Outcome): Durable {
    After(After(d, EnvironmentRollback(id), environment), IdentityRollback(id), identity)
  }

  /** After the failed `Create` of a marker: the marker is removed, the
      environment and the identity are rolled back whatever became of the
      removal, and the failure is persisted. */
  function AfterFailedCreate(d: Durable, m: Marker, t: Transaction, at: nat, create: Outcome, remove: Outcome,
                             environment: Outcome, identity: Outcome, persist: Outcome): Durable
  {
    var d1 := After(d, MarkerCreate(m), create);
    var d2 := After(d1, MarkerRemove(m), remove);
    var undone := remove.Done? && Accepts(d1, MarkerRemove(m)) && environment.Done? && identity.Done?;
    AfterWrite(Undone(d2, t.id, environment, identity), FailureRecord(t, !undone, at), persist)
  }

  /** The marker is journalled and is to be created. */
  predicate AboutToCommit(d: Durable, m: Marker, t: Transaction) {
    Safe(d) && Disciplined(d, MarkerCreate(m)) && d.journal == Some(t)
  }

  lemma UncommittedUndone(d: Durable, t: Transaction, undone: bool, at: nat,
                          environment: Outcome, identity: Outcome, persist: Outcome)
    requires Safe(d) && d.marker.None? && d.journal == Some(t) && at > 0 && NamesIdentity(t, t.id)
    requires NamesEnvironment(t, t.id) && t.phase.Applying?
    requires undone ==> environment.Done? && identity.Done?
    ensures var e := Undone(d, t.id, environment, identity);
            var f := AfterWrite(e, FailureRecord(t, !undone, at), persist);
            Safe(f) && f.marker.None?
  {
    var d1 := After(d, EnvironmentRollback(t.id), environment);
    DisciplinedCallIsSafe(d, EnvironmentRollback(t.id), environment);
    var e := After(d1, IdentityRollback(t.id), identity);
    DisciplinedCallIsSafe(d1, IdentityRollback(t.id), identity);
    FailureIsRecordable(t, !undone, at);
    assert d.environments <= {t.id} && d.identities <= {t.id};
    WriteNeedsCover(e, FailureRecord(t, !undone, at), persist);
  }

  /** Under a visible marker nothing may be undone, nor the record changed. */
  lemma CommittedUndone(d: Durable, t: Transaction, at: nat, environment: Outcome, identity: Outcome, persist: Outcome)
    requires Safe(d) && d.marker.Some? && d.journal == d.commit == Some(t) && at > 0
    ensures var e := Undone(d, t.id, environment, identity);
            var f := AfterWrite(e, FailureRecord(t, true, at), persist);
            && f.marker == d.marker && (TakesEffect(persist) ==> f.journal == Some(FailureRecord(t, true, at)))
            && (Safe(f) <==> !TakesEffect(environment) && !TakesEffect(identity) && !TakesEffect(persist))
  {
    var e := Undone(d, t.id, environment, identity);
    FailureIsRecordable(t, true, at);
    if TakesEffect(environment) { assert t.id !in e.environments; }
    if TakesEffect(identity) { assert t.id !in e.identities; }
    assert d.environments - {t.id} == {} && d.identities - {t.id} == {};
  }

  lemma MarkerAfterFailedCreate(d: Durable, m: Marker, t: Transaction, create: Outcome, remove: Outcome)
    requires AboutToCommit(d, m, t)
    ensures NamesIdentity(t, t.id) && NamesEnvironment(t, t.id)
    ensures var d1 := After(d, MarkerCreate(m), create);
            && Accepts(d1, MarkerRemove(m))
            && After(d1, MarkerRemove(m), remove)
               == (if TakesEffect(create) && !TakesEffect(remove) then d.(marker := Some(m), commit := Some(t)) else d)
    ensures Safe(d.(marker := Some(m), commit := Some(t)))
  {}

  /** Without the all-or-nothing assumption on `Create` the commit point breaks
      exactly when the marker was published though `Create` reported an error,
      its removal failed too, and anything was done after that: an effect rolled
      back, or the failure persisted.  The persisted record no longer matches
      the marker, so no reconciliation clears it. */
  lemma TornMarkerBreaksCommit(d: Durable, m: Marker, t: Transaction, at: nat, create: Outcome, remove: Outcome,
                               environment: Outcome, identity: Outcome, persist: Outcome)
    requires AboutToCommit(d, m, t) && !create.Done? && at > 0
    ensures var e := AfterFailedCreate(d, m, t, at, create, remove, environment, identity, persist);
            var visible := TakesEffect(create) && !TakesEffect(remove);
            && (e.marker.Some? <==> visible)
            && (Safe(e) <==> !(visible && (TakesEffect(environment) || TakesEffect(identity) || TakesEffect(persist))))
            && (visible && TakesEffect(persist) ==>
                  && e.journal == Some(FailureRecord(t, true, at))
                  && forall marker :: !MatchesMarker(e.journal.value, marker))
  {
    var undone := remove.Done? && environment.Done? && identity.Done?;
    var e := AfterFailedCreate(d, m, t, at, create, remove, environment, identity, persist);
    MarkerAfterFailedCreate(d, m, t, create, remove);
    if TakesEffect(create) && !TakesEffect(remove) {
      var c := d.(marker := Some(m), commit := Some(t));
      CommittedUndone(c, t, at, environment, identity, persist);
      assert e == AfterWrite(Undone(c, t.id, environment, identity), FailureRecord(t, true, at), persist);
    } else {
      UncommittedUndone(d, t, undone, at, environment, identity, persist);
      assert e == AfterWrite(Undone(d, t.id, environment, identity), FailureRecord(t, !undone, at), persist);
    }
  }

  /** Two such paths, for every transaction about to commit: with the effects
      rolled back, and with nothing but the failure persisted. */
  lemma TornMarkerWitness(d: Durable, m: Marker, t: Transaction, at: nat)
    requires AboutToCommit(d, m, t) && at > 0
    ensures var e := AfterFailedCreate(d, m, t, at, Torn, Refused, Done, Done, Refused);
            !Safe(e) && e.marker == Some(m) && e.identities == {} && e.environments == {}
    ensures var e := AfterFailedCreate(d, m, t, at, Torn, Refused, Refused, Refused, Done);
            !Safe(e) && e.marker == Some(m) && e.identities == e.environments == {t.id}
            && e.journal == Some(FailureRecord(t, true, at)) && e.journal != e.commit
  {
    assert d.environments - {t.id} == {} && d.identities - {t.id} == {};
    TornMarkerBreaksCommit(d, m, t, at, Torn, Refused, Done, Done, Refused);
    TornMarkerBreaksCommit(d, m, t, at, Torn, Refused, Refused, Refused, Done);
  }

  /** The failure is remembered with its marker, so a later `Rollback` undoes an
      installation already visible.  It ends in a safe state exactly when both
      effects were undone and the marker went too, or when nothing had been and
      was undone; undisturbed, nothing of the installation is left. */
  lemma TornMarkerRolledBack(d: Durable, m: Marker, t: Transaction, at: nat,
                             create: Outcome, remove: Outcome, o1: Outcome, o2: Outcome, o3: Outcome,
                             later: nat, p1: Outcome, p2: Outcome, p3: Outcome, p4: Outcome)
    requires AboutToCommit(d, m, t) && !create.Done? && TakesEffect(create) && !TakesEffect(remove)
    requires at > 0 && later > 0
    ensures var e := AfterFailedCreate(d, m, t, at, create, remove, o1, o2, o3);
            var f := AfterRollback(e, t, t.environment.value, Some(m), later, p1, p2, p3, p4);
            && (Safe(f) <==> || (p1.Done? && p2.Done? && TakesEffect(p3))
                             || (Safe(e) && !TakesEffect(p1) && !TakesEffect(p2)))
            && (p1.Done? && p2.Done? && p3.Done? && p4.Done? ==>
                  f == Durable(Some(Retried(t, later)), None, {}, {}, None))
  {
    TornMarkerBreaksCommit(d, m, t, at, create, remove, o1, o2, o3);
    var e := AfterFailedCreate(d, m, t, at, create, remove, o1, o2, o3);
    TornMarkerLeaves(d, m, t, at, create, remove, o1, o2, o3);
    VisibleRolledBack(e, m, t, later, p1, p2, p3, p4);
  }

  /** What the failed creation leaves once the marker is visible. */
  predicate Visible(e: Durable, m: Marker, t: Transaction) {
    && e.marker == Some(m) && e.commit == Some(t) && Recordable(t)
    && JournalHolds(e, t.id) && Recordable(e.journal.value)
    && e.identities <= {t.id} && e.environments <= {t.id}
  }

  lemma TornMarkerLeaves(d: Durable, m: Marker, t: Transaction, at: nat, create: Outcome, remove: Outcome,
                         environment: Outcome, identity: Outcome, persist: Outcome)
    requires AboutToCommit(d, m, t) && TakesEffect(create) && !TakesEffect(remove) && at > 0
    ensures Visible(AfterFailedCreate(d, m, t, at, create, remove, environment, identity, persist), m, t)
  {
    FailureIsRecordable(t, true, at);
    var c := d.(marker := Some(m), commit := Some(t));
    assert c == After(After(d, MarkerCreate(m), create), MarkerRemove(m), remove);
    var e := Undone(c, t.id, environment, identity);
    assert e.identities <= {t.id} && e.environments <= {t.id};
  }

  lemma VisibleRolledBack(e: Durable, m: Marker, t: Transaction, later: nat,
                          p1: Outcome, p2: Outcome, p3: Outcome, p4: Outcome)
    requires Visible(e, m, t) && t.environment.Some? && later > 0
    ensures var f := AfterRollback(e, t, t.environment.value, Some(m), later, p1, p2, p3, p4);
            && (Safe(f) <==> || (p1.Done? && p2.Done? && TakesEffect(p3))
                             || (Safe(e) && !TakesEffect(p1) && !TakesEffect(p2)))
            && (p1.Done? && p2.Done? && p3.Done? && p4.Done? ==>
                  f == Durable(Some(Retried(t, later)), None, {}, {}, None))
  {
    assert t.environment.value.reference == t.id;
    var g := Undone(e, t.id, p1, p2);
    FailureIsRecordable(t, false, later);
    if TakesEffect(p1) { assert t.id !in g.environments; }
    if TakesEffect(p2) { assert t.id !in g.identities; }
    assert g.environments <= {t.id} && g.identities <= {t.id};
    assert p1.Done? && p2.Done? ==> g.environments == {} && g.identities == {};
  }
}
