/** `ApplyService` of installer/apply.go: the first-install transaction over a
    write-ahead journal, its recovery, its explicit rollback and its
    post-commit reconciliation, on the prepared path. */
module InstallApply {
  import opened Common
  import opened InstallTransaction
  import opened InstallWorld
  import opened InstallPorts

  /** The heap cell behind Go's `*ApplyTransaction`: a failed `apply` leaves it
      shared with `pending`. */
  class Record {
    var value: Transaction
    constructor (t: Transaction) ensures value == t { value := t; }
  }

  datatype Pending = Pending(
    transaction: Record, identity: Option<IdentityReceipt>,
    environment: Option<EnvironmentReceipt>, marker: Option<Marker>, environmentIntent: string)

  datatype ApplyRequest = ApplyRequest(valid: bool, mode: Mode, databaseTarget: Option<string>)

  datatype InstallPlan = InstallPlan(
    selectedUI: UI, mode: Mode, canCleanup: bool, canBuild: bool, canWriteEnv: bool)

  /** What the collaborators of one `apply` answer when a call gets through. */
  datatype Answers = Answers(
    plan: InstallPlan, databaseOK: bool, redisOK: bool, drawnID: Option<string>,
    createdReference: string, published: EnvironmentReceipt, receiptOnFailure: bool,
    profileHash: string, manifestHash: string)

  datatype FailureStage =
    | InRequest | InCoordination | InPlan | InDatabase | InRedis | InRecovery | InJournal
    | InSchema | InIdentity | InEnvironment | InMarker | InLock

  datatype Result =
    | Installed(selectedUI: UI, mode: Mode, installedAt: nat, steps: seq<Step>)
    | Rejected(stage: FailureStage)

  const REPORT_ORDER := STEP_ORDER + [Lock]

  /** The record an explicit or automatic compensation leaves behind. */
  function Retried(t: Transaction, at: nat): Transaction {
    t.(phase := Retryable, currentStep := Failed, identity := None, environmentIntent := "",
    environment := None, marker := None, updatedAt := at)
  }

  /** The record `persistFailure` writes. */
  function FailureRecord(t: Transaction, rollbackFailed: bool, at: nat): Transaction {
    if rollbackFailed then t.(phase := CompensationPending, currentStep := Failed, updatedAt := at)
    else Retried(t, at)
  }

  /** A stage changes neither what a record is about nor where it goes. */
  predicate SameSubject(a: Transaction, b: Transaction) {
    && a.id == b.id && a.selectedUI == b.selectedUI && a.mode == b.mode
    && a.databaseTarget == b.databaseTarget
  }

  predicate EffectFree(d: Durable) { d.identities == {} && d.environments == {} }

  /** The last call tries to journal the failure of this transaction: as
      retryable and naming nothing, or as still to be compensated. */
  ghost predicate Wrote(w: World, id: string, undone: bool)
    reads w`durable, w`run
  {
    w.run != [] &&
    var last := w.run[|w.run| - 1];
    && last.call.JournalUpdate? && last.call.record.id == id && last.call.record.currentStep.Failed?
    && (if undone then SideEffectFree(last.call.record) else last.call.record.phase.CompensationPending?)
    && (last.outcome.Done? ==> w.durable.journal == Some(last.call.record))
  }

  /** The failed publication of this call was followed by the undoing that its
      receipt calls for, and without one by that of the journalled intent. */
  ghost predicate UndoneByReceipt(w: World, id: string, published: EnvironmentReceipt, receiptOnFailure: bool)
    reads w`run, w`entered
  {
    exists k ::
      && w.entered <= k < |w.run| - 1 && w.run[k].call == EnvironmentPublish(id)
      && w.run[k + 1].call ==
         if (w.run[k].outcome.Done? || receiptOnFailure) && published != NO_ENVIRONMENT
         then EnvironmentRollback(published.reference) else EnvironmentRecover(id)
  }

  /** The fields no stage ever changes are well formed. */
  predicate Sound(t: Transaction) { Recordable(Retried(t, 1)) }

  function CallsSince(before: seq<Attempt>, run: seq<Attempt>): seq<Call>
    requires before <= run
  {
    seq(|run| - |before|, i requires 0 <= i < |run| - |before| => run[|before| + i].call)
  }

  lemma CallsCompose(a: seq<Attempt>, b: seq<Attempt>, c: seq<Attempt>)
    requires a <= b <= c
    ensures CallsSince(a, c) == CallsSince(a, b) + CallsSince(b, c)
  {}

  lemma FirstCall(before: seq<Attempt>, run: seq<Attempt>, calls: seq<Call>)
    requires before <= run && calls != [] && calls <= CallsSince(before, run)
    ensures |before| < |run| && run[|before|].call == calls[0]
  {
    assert CallsSince(before, run)[0] == calls[0];
  }

  /** Compensation undoes the environment before the identity it was built on. */
  function RollbackCalls(e: Option<EnvironmentReceipt>, i: Option<IdentityReceipt>): seq<Call> {
    (if e.Some? then [EnvironmentRollback(e.value.reference)] else []) +
    (if i.Some? then [IdentityRollback(i.value.reference)] else [])
  }

  function MarkerRecoveryCalls(t: Transaction): seq<Call> {
    if t.marker.Some? then [MarkerRemove(t.marker.value)] else []
  }

  function EnvironmentRecoveryCalls(t: Transaction): seq<Call> {
    if t.environment.Some? then [EnvironmentRollback(t.environment.value.reference)]
    else if t.environmentIntent != "" then [EnvironmentRecover(t.environmentIntent)] else []
  }

  function IdentityRecoveryCalls(t: Transaction): seq<Call> {
    if t.identity.Some? then [IdentityRecover(t.identity.value.reference)] else []
  }

  /** A restarted process compensates in the reverse of the order of `apply`. */
  function RecoveryCalls(t: Transaction): seq<Call> {
    MarkerRecoveryCalls(t) + EnvironmentRecoveryCalls(t) + IdentityRecoveryCalls(t)
  }

  /** The environment receipt it holds, if any, is about this transaction. */
  ghost predicate Genuine(p: Pending)
    reads p.transaction
  {
    p.environment.Some? ==> p.environment.value.reference == p.transaction.value.id
  }

  /** A remembered failed transaction is not the committed one, names no other
      but in its environment receipt, and holds a receipt for each of its
      effects that may still exist. */
  ghost predicate PendingHolds(p: Pending, s: Stamp)
    reads p.transaction
  {
    var t := p.transaction.value;
    && t.id in s.issued && Sound(t)
    && (s.durable.commit.Some? ==> s.durable.commit.value.id != t.id)
    && (p.identity.Some? ==> p.identity.value.reference == t.id)
    && (p.environmentIntent == "" || p.environmentIntent == t.id)
    && (p.marker.Some? ==> s.durable.marker != p.marker && p.marker.value.installedAt <= s.clock)
    && (t.id in s.durable.identities ==> p.identity.Some?)
    && (t.id in s.durable.environments ==> p.environment.Some? || p.environmentIntent != "")
  }

  ghost predicate PendingOk(p: Pending, s: Stamp)
    reads p.transaction
  {
    PendingHolds(p, s) && Genuine(p)
  }

  /** A remembered failure stays harmless whatever other services do meanwhile. */
  lemma PendingEvolves(p: Pending, a: Stamp, b: Stamp)
    requires PendingHolds(p, a) && Coherent(a) && Coherent(b) && Evolves(a, b)
    ensures PendingHolds(p, b)
  {}

  /** Between two stages the journal holds exactly the record in memory, whose
      ID is new to this era. */
  ghost predicate InFlight(w: World, t: Transaction)
    reads w
  {
    && w.Valid() && w.held && w.durable.marker.None? && w.durable.journal == Some(t)
    && Recordable(t) && t.phase.Applying? && t.marker.None?
    && t.id in w.issued && t.id !in w.era.issued
    && AllUndone(w.run, w.entered)
  }

  /** What a record holds once the identity stage is over. */
  predicate IdentityDone(t: Transaction) {
    && t.completedSteps == STEP_ORDER[..5] && NamesIdentity(t, t.id)
    && t.environmentIntent == "" && t.environment.None?
  }

  /** What a record holds while the environment is published. */
  predicate IdentityNamed(t: Transaction) {
    && t.completedSteps == STEP_ORDER[..5] && NamesIdentity(t, t.id) && t.environmentIntent == t.id
  }

  /** What a record holds once the environment stage is over. */
  predicate AllDone(t: Transaction) {
    && t.completedSteps == STEP_ORDER && t.currentStep == Lock
    && NamesIdentity(t, t.id) && t.environmentIntent == t.id
    && t.environment.Some? && t.environment.value.reference == t.id
  }

  /** The zero receipt: none at all. */
  const NO_ENVIRONMENT := EnvironmentReceipt("", "", "", "", false)

  /** The environment installer answers about the reference it was given, or
      gives no receipt. */
  predicate HonestReceipt(e: EnvironmentReceipt, id: string) { e == NO_ENVIRONMENT || e.reference == id }

  predicate Honest(a: Answers) { a.drawnID.None? || HonestReceipt(a.published, a.drawnID.value) }

  /** The stages in which `apply` can fail once this many steps are reported. */
  predicate FailsAt(stage: FailureStage, steps: nat) {
    match steps
    case 0 => stage in {InRequest, InCoordination, InLock, InJournal, InPlan}
    case 1 => stage == InDatabase
    case 2 => stage == InRedis
    case 3 => stage in {InRecovery, InSchema, InJournal}
    case 4 => stage in {InIdentity, InJournal}
    case 5 => stage in {InEnvironment, InJournal}
    case 6 => stage in {InMarker, InJournal, InLock}
    case _ => stage == InCoordination
  }

  /** Collaborators that answer as a healthy installation would, the environment
      installer's receipt apart. */
  predicate Willing(a: Answers) {
    && ValidUI(a.plan.selectedUI) && a.plan.canCleanup && a.plan.canBuild && a.plan.canWriteEnv
    && a.databaseOK && a.redisOK
    && a.drawnID.Some? && ValidID(a.drawnID.value) && a.createdReference == a.drawnID.value
    && ValidHash(a.profileHash) && ValidHash(a.manifestHash)
  }

  /** The answers the probes check. */
  predicate PlanFits(a: Answers, mode: Mode) {
    && ValidUI(a.plan.selectedUI) && a.plan.mode == mode
    && a.plan.canCleanup && a.plan.canBuild && a.plan.canWriteEnv
  }

  predicate Passes(a: Answers, mode: Mode) {
    PlanFits(a, mode) && a.databaseOK && a.redisOK
  }

  /** The answers the stages themselves check. */
  predicate Suits(a: Answers, id: string) {
    && a.createdReference == id && ValidEnvironmentReceipt(a.published, id)
    && ValidHash(a.profileHash) && ValidHash(a.manifestHash)
  }

  /** The journal names nothing, yet the environment it was opened for is there:
      no later call of the installer can find it.  Only the last call was unsafe. */
  ghost predicate Orphaned(w: World, id: string)
    reads w`durable, w`run
  {
    && w.durable.marker.None? && id in w.durable.environments
    && JournalHolds(w.durable, id) && SideEffectFree(w.durable.journal.value)
    && w.Cut()
  }

  /** When an interrupted journal lets a new `apply` through: it has no side
      effects left, or it is about the same database and the same UI. */
  predicate Recoverable(journal: Option<Transaction>, target: string, ui: UI) {
    || journal.None? || journal.value.phase.Retryable?
    || (journal.value.databaseTarget == target && journal.value.selectedUI == ui)
  }

  /** A request and answers that no stage before the environment's has a reason
      to turn down. */
  predicate Ready(mode: Mode, target: string, a: Answers) {
    ValidMode(mode) && ValidDigest(target) && Willing(a) && a.plan.mode == mode
  }

  /** A request and answers that no stage has a reason to turn down. */
  predicate Healthy(mode: Mode, target: string, a: Answers) {
    Ready(mode, target, a) && ValidEnvironmentReceipt(a.published, a.drawnID.value)
  }

  /** The check of the effect stages that turns these answers down, if any does,
      and the number of steps reported by then. */
  function StageVerdict(id: string, a: Answers): (Option<FailureStage>, nat) {
    if a.createdReference != id then (Some(InIdentity), 4)
    else if a.published.reference != id then (Some(InEnvironment), 5)
    else if !ValidEnvironmentReceipt(a.published, id) then (Some(InJournal), 5)
    else if !ValidHash(a.profileHash) || !ValidHash(a.manifestHash) then (Some(InMarker), 6)
    else (None, 7)
  }

  /** The same from the journal on. */
  function JournalVerdict(mode: Mode, target: string, a: Answers): (Option<FailureStage>, nat) {
    if !ValidMode(mode) || !ValidDigest(target) || a.drawnID.None? || !ValidID(a.drawnID.value)
       then (Some(InJournal), 3)
    else StageVerdict(a.drawnID.value, a)
  }

  /** The same before the journal of this call is opened. */
  function EarlyVerdict(journal: Option<Transaction>, mode: Mode, target: string, a: Answers)
    : (Option<FailureStage>, nat)
  {
    if journal.Some? && !journal.value.phase.Retryable? && journal.value.databaseTarget != target then
      (Some(InJournal), 0)
    else if !PlanFits(a, mode) then (Some(InPlan), 0)
    else if !a.databaseOK then (Some(InDatabase), 1)
    else if !a.redisOK then (Some(InRedis), 2)
    else if !Recoverable(journal, target, a.plan.selectedUI) then (Some(InRecovery), 3)
    else (None, 3)
  }

  /** How an undisturbed `apply` answers: the first check that fails decides. */
  function Verdict(d: Durable, mode: Mode, target: string, a: Answers): (Option<FailureStage>, nat) {
    var early := EarlyVerdict(d.journal, mode, target, a);
    if d.marker.Some? then (Some(InLock), 0)
    else if early.0.Some? then early
    else JournalVerdict(mode, target, a)
  }

  /** An undisturbed call installs exactly on an installation that is free and
      can be recovered, and with healthy answers. */
  lemma HealthyPasses(d: Durable, mode: Mode, target: string, a: Answers)
    ensures Verdict(d, mode, target, a) == (None, 7) <==>
              && d.marker.None? && Recoverable(d.journal, target, a.plan.selectedUI)
              && Healthy(mode, target, a)
    ensures Verdict(d, mode, target, a).0.None? <==> Verdict(d, mode, target, a).1 == 7
  {}

  function StageOf(r: Result): Option<FailureStage> {
    if r.Installed? then None else Some(r.stage)
  }

  /** What is left of an installation once an empty journal has been dropped. */
  function Dropped(d: Durable): Durable {
    if d.journal.Some? && d.journal.value.phase.Retryable? then d.(journal := None) else d
  }

  /** A request and answers that pass every check from the journal on. */
  predicate Fit(mode: Mode, target: string, a: Answers) {
    && ValidMode(mode) && ValidDigest(target) && ValidUI(a.plan.selectedUI)
    && a.drawnID.Some? && ValidID(a.drawnID.value) && Suits(a, a.drawnID.value)
  }

  /** What an "installed" answer reports: this call's own commit. */
  predicate InstalledBy(r: Result, a: Answers, mode: Mode, d: Durable)
    requires r.Installed?
  {
    && a.drawnID.Some? && d.marker.Some? && d.commit.Some?
    && d.commit.value.id == a.drawnID.value
    && d.identities == {a.drawnID.value} && d.environments == {a.drawnID.value}
    && r.selectedUI == d.marker.value.selectedUI == a.plan.selectedUI
    && r.mode == d.marker.value.mode == mode
    && r.installedAt == d.marker.value.installedAt
    && r.steps == REPORT_ORDER
  }

  lemma MarkedIsRecordable(t: Transaction, m: Marker, at: nat)
    requires Recordable(t) && t.phase.Applying? && ValidMarker(m) && at > 0
    requires m.selectedUI == t.selectedUI && m.mode == t.mode
    ensures Recordable(t.(marker := Some(m), updatedAt := at)) && Sound(t.(marker := Some(m), updatedAt := at))
  {}

  lemma VersionIsTrimmed()
    ensures Trim(INSTALLER_VERSION) == INSTALLER_VERSION && 0 < |INSTALLER_VERSION| <= 64
  {}

  class ApplyService {
    const world: World
    var pending: Option<Pending>

    constructor (world: World)
      requires world.Valid()
      ensures this.world == world && pending.None? && Valid()
    {
      this.world := world;
      pending := None;
    }

    ghost function Cells(): set<Record> reads this {
      if pending.Some? then {pending.value.transaction} else {}
    }

    ghost predicate Valid()
      reads this, world`durable, world`issued, world`clock, world`run, world`era, world`entered, Cells()
    {
      world.Valid() && (pending.Some? ==> PendingOk(pending.value, world.Now()))
    }

    /** Whether the receipt remembered, if any, is about the transaction remembered. */
    ghost predicate Strict() reads this, Cells() {
      pending.Some? ==> Genuine(pending.value)
    }

    /** Valid, but perhaps for a remembered receipt about another reference. */
    ghost predicate Holds()
      reads this, world`durable, world`issued, world`clock, world`run, world`era, world`entered, Cells()
    {
      world.Valid() && (pending.Some? ==> PendingHolds(pending.value, world.Now()))
    }

    /** How a call ends: sound if its environment receipt was honest, and at
        worst with that environment orphaned. */
    ghost predicate Ends(honest: bool, strict: bool, id: string)
      reads this, world`durable, world`issued, world`clock, world`run, world`era, world`entered, Cells()
    {
      && (honest || world.Valid() ==> Holds()) && (honest && strict ==> Valid())
      && (world.Valid() || Orphaned(world, id))
    }

    /** How a transaction is given up once it has been remembered.  It is
        forgotten exactly when everything to be undone was, and then no effect is
        left; its failure is journalled accordingly, unless the record would not
        validate. */
    ghost predicate GivenUp(id: string, honest: bool, recordable: bool)
      reads this, world`durable, world`run, world`entered
    {
      var undone := AllUndone(world.run, world.entered);
      && (pending.None? <==> undone)
      && (undone && honest ==> EffectFree(world.durable))
      && (undone || recordable ==> Wrote(world, id, undone))
    }

    /** How a rejected attempt leaves what is remembered: until a transaction is
        remembered nothing changes; from then on it is given up as said. */
    ghost predicate Rejects(stage: FailureStage, answers: Answers, steps: nat, before: Option<Pending>)
      reads this, world`durable, world`run, world`entered
    {
      && FailsAt(stage, steps)
      && (steps <= 3 ==> pending == before)
      && (stage.InEnvironment? ==>
            answers.drawnID.Some? &&
            UndoneByReceipt(world, answers.drawnID.value, answers.published, answers.receiptOnFailure))
      && (3 < steps <= 6 ==>
            answers.drawnID.Some? &&
            GivenUp(answers.drawnID.value, Honest(answers),
                    ValidEnvironmentReceipt(answers.published, answers.drawnID.value)))
    }

    ghost predicate CommittedBy(answers: Answers) reads this, world`durable {
      answers.drawnID.Some? && world.durable.commit.Some? && world.durable.commit.value.id == answers.drawnID.value
    }

    ghost predicate Finishes(answers: Answers, strict: bool)
      reads this, world`durable, world`issued, world`clock, world`run, world`era, world`entered, Cells()
    {
      if answers.drawnID.Some? then Ends(Honest(answers), strict, answers.drawnID.value)
      else Holds() && (strict ==> Valid())
    }

    /** `persistFailure`: the record becomes retryable when the rollback reported
        success, and keeps its receipts otherwise.  A record that does not
        validate is not written.  The write is safe unless an effect outlived a
        rollback that reported success. */
    method PersistFailure(record: Record, rollbackFailed: bool)
      requires world.held && world.Valid() && world.durable.marker.None?
      requires Sound(record.value) && JournalHolds(world.durable, record.value.id)
      requires rollbackFailed ==> Covers(record.value, world.durable)
      modifies record, world`durable, world`alive, world`faults, world`run, world`clock
      ensures AllUndone(world.run, world.entered) <==> old(AllUndone(world.run, world.entered))
      ensures old(world.run) <= world.run
      ensures if ValidTransaction(record.value)
              then |world.run| == |old(world.run)| + 1 && Wrote(world, record.value.id, !rollbackFailed)
              else world.run == old(world.run)
      ensures rollbackFailed || old(EffectFree(world.durable)) ==> world.Valid()
      ensures world.Valid() || (world.durable.journal == Some(record.value) && world.Cut())
      ensures old(world.FaultFree()) && !rollbackFailed ==> world.durable.journal == Some(record.value)
      ensures record.value == FailureRecord(old(record.value), rollbackFailed, world.clock)
      ensures world.durable.journal in {old(world.durable.journal), Some(record.value)}
      ensures world.durable == old(world.durable).(journal := world.durable.journal)
      ensures world.clock > old(world.clock)
    {
      var now := world.Time();
      if rollbackFailed {
        record.value := record.value.(phase := CompensationPending, currentStep := Failed, updatedAt := now);
      } else {
        record.value := Retried(record.value, now);
      }
      var valid := Validate(record.value);
      if valid {
        var _ := world.Write(record.value);
      }
    }

    /** Takes a changed record into memory and into the journal. */
    method JournalRecord(record: Record, next: Transaction) returns (ok: bool)
      requires world.held && world.Valid() && world.durable.marker.None? && JournalHolds(world.durable, next.id)
      requires Recordable(next) && Covers(next, world.durable)
      modifies record, world`durable, world`alive, world`faults, world`run
      ensures world.Valid() && record.value == next && JournalHolds(world.durable, next.id)
      ensures world.durable == old(world.durable).(journal := world.durable.journal)
      ensures ok ==> world.durable.journal == Some(next)
      ensures |world.run| == |old(world.run)| + 1 && old(world.run) <= world.run
      ensures ok <==> world.run[|old(world.run)|].outcome.Done?
      ensures AllUndone(world.run, world.entered) <==> old(AllUndone(world.run, world.entered))
      ensures old(world.FaultFree()) ==> ok && world.FaultFree()
    {
      record.value := next;
      var reply := world.Perform(JournalUpdate(next));
      ok := reply.Success?;
    }

    /** `advanceTransaction`. */
    method Advance(record: Record, next: Step, completed: Step) returns (ok: bool)
      requires world.held && world.Valid() && world.durable.marker.None?
      requires Covers(record.value, world.durable)
      requires record.value.phase.Applying?
      requires record.value.completedSteps + [completed] <= STEP_ORDER
      modifies record, world`durable, world`alive, world`faults, world`run, world`clock
      ensures world.Valid()
      ensures record.value == old(record.value).(
                completedSteps := old(record.value).completedSteps + [completed],
                currentStep := next, updatedAt := world.clock)
      ensures world.durable.journal in {old(world.durable.journal), Some(record.value)}
      ensures world.durable == old(world.durable).(journal := world.durable.journal)
      ensures ok ==> world.durable.journal == Some(record.value) && ValidTransaction(record.value)
      ensures AllUndone(world.run, world.entered) <==> old(AllUndone(world.run, world.entered))
      ensures old(world.run) <= world.run
      ensures if ValidTransaction(record.value)
              then |world.run| == |old(world.run)| + 1
                   && world.run[|old(world.run)|].call == JournalUpdate(record.value)
                   && (old(JournalHolds(world.durable, record.value.id)) ==>
                         (ok <==> world.run[|old(world.run)|].outcome.Done?))
              else !ok && world.run == old(world.run)
      ensures (old(world.FaultFree()) && old(JournalHolds(world.durable, record.value.id))
               && ValidTransaction(record.value))
              ==> ok && world.FaultFree()
      ensures world.clock > old(world.clock)
    {
      var now := world.Time();
      record.value := record.value.(
        completedSteps := record.value.completedSteps + [completed], currentStep := next, updatedAt := now);
      ok := Validate(record.value);
      if ok {
        var reply := world.Perform(JournalUpdate(record.value));
        ok := reply.Success?;
      }
    }

    /** The identity's half of every rollback. */
    method RollbackReceipt(identity: Option<IdentityReceipt>) returns (failed: bool)
      requires world.held && world.Valid()
      requires world.durable.commit.Some? && identity.Some? ==>
                 identity.value.reference != world.durable.commit.value.id
      modifies world`durable, world`alive, world`faults, world`run
      ensures world.Valid()
      ensures world.durable == old(world.durable).(identities := world.durable.identities)
      ensures world.durable.identities <= old(world.durable.identities)
      ensures !failed && identity.Some? ==> identity.value.reference !in world.durable.identities
      ensures old(world.FaultFree()) ==> !failed && world.FaultFree()
      ensures old(world.run) <= world.run
      ensures CallsSince(old(world.run), world.run) == RollbackCalls(None, identity)
      ensures AllUndone(world.run, world.entered) <==> old(AllUndone(world.run, world.entered)) && !failed
    {
      failed := false;
      if identity.Some? {
        var reply := world.Perform(IdentityRollback(identity.value.reference));
        failed := !reply.Success?;
      }
    }

    /** `rollback`: environment first, then identity; both are attempted. */
    method RollbackEffects(environment: Option<EnvironmentReceipt>, identity: Option<IdentityReceipt>)
      returns (failed: bool)
      requires world.held && world.Valid()
      requires world.durable.commit.Some? ==>
                 && (environment.Some? ==> environment.value.reference != world.durable.commit.value.id)
                 && (identity.Some? ==> identity.value.reference != world.durable.commit.value.id)
      modifies world`durable, world`alive, world`faults, world`run
      ensures world.Valid()
      ensures world.durable == old(world.durable).(
                identities := world.durable.identities, environments := world.durable.environments)
      ensures world.durable.identities <= old(world.durable.identities)
      ensures world.durable.environments <= old(world.durable.environments)
      ensures !failed && environment.Some? ==> environment.value.reference !in world.durable.environments
      ensures !failed && identity.Some? ==> identity.value.reference !in world.durable.identities
      ensures forall r | r in old(world.durable.environments) ::
                (environment.Some? && r == environment.value.reference) || r in world.durable.environments
      ensures old(world.FaultFree()) ==> !failed && world.FaultFree()
      ensures old(world.run) <= world.run
      ensures CallsSince(old(world.run), world.run) == RollbackCalls(environment, identity)
      ensures AllUndone(world.run, world.entered) <==> old(AllUndone(world.run, world.entered)) && !failed
    {
      failed := false;
      if environment.Some? {
        var reply := world.Perform(EnvironmentRollback(environment.value.reference));
        failed := !reply.Success?;
      }
      ghost var middle := world.run;
      var stuck := RollbackReceipt(identity);
      failed := failed || stuck;
      CallsCompose(old(world.run), middle, world.run);
    }

    /** `rollbackPreparedIdentity`: "not owned" counts as compensated. */
    method RollbackPreparedIdentity(receipt: IdentityReceipt) returns (failed: bool)
      requires world.held && world.Valid() && world.durable.marker.None?
      modifies world`durable, world`alive, world`faults, world`run
      ensures world.Valid()
      ensures world.durable == old(world.durable).(identities := world.durable.identities)
      ensures world.durable.identities <= old(world.durable.identities)
      ensures !failed ==> receipt.reference !in world.durable.identities
      ensures old(world.run) <= world.run
      ensures CallsSince(old(world.run), world.run) == [IdentityRecover(receipt.reference)]
      ensures AllUndone(world.run, world.entered) <==> old(AllUndone(world.run, world.entered)) && !failed
    {
      var reply := world.Perform(IdentityRecover(receipt.reference));
      failed := reply.Error?;
    }

    /** `rollbackPreparedEnvironment`. */
    method RollbackPreparedEnvironment(reference: string, identity: Option<IdentityReceipt>)
      returns (failed: bool)
      requires world.held && world.Valid()
      requires world.durable.commit.Some? ==>
                 && reference != world.durable.commit.value.id
                 && (identity.Some? ==> identity.value.reference != world.durable.commit.value.id)
      modifies world`durable, world`alive, world`faults, world`run
      ensures world.Valid()
      ensures world.durable == old(world.durable).(
                identities := world.durable.identities, environments := world.durable.environments)
      ensures world.durable.identities <= old(world.durable.identities)
      ensures world.durable.environments <= old(world.durable.environments)
      ensures !failed ==> reference !in world.durable.environments
      ensures !failed && identity.Some? ==> identity.value.reference !in world.durable.identities
      ensures old(world.FaultFree()) ==> !failed && world.FaultFree()
      ensures old(world.run) <= world.run
      ensures CallsSince(old(world.run), world.run) == [EnvironmentRecover(reference)] + RollbackCalls(None, identity)
      ensures AllUndone(world.run, world.entered) <==> old(AllUndone(world.run, world.entered)) && !failed
    {
      var reply := world.Perform(EnvironmentRecover(reference));
      ghost var middle := world.run;
      var stuck := RollbackReceipt(identity);
      failed := !reply.Success? || stuck;
      assert CallsSince(old(world.run), middle) == [EnvironmentRecover(reference)];
      CallsCompose(old(world.run), middle, world.run);
    }

    /** Recovery of the environment: by receipt if one was journalled, by intent
        otherwise. */
    method CompensateEnvironment(t: Transaction) returns (failed: bool)
      requires world.held && world.Valid() && world.durable.marker.None? && Covers(t, world.durable)
      requires ValidTransaction(t)
      modifies world`durable, world`alive, world`faults, world`run
      ensures world.Valid()
      ensures world.durable in {old(world.durable), old(world.durable).(environments := {})}
      ensures !failed ==> world.durable.environments == {}
      ensures old(world.FaultFree()) ==> !failed && world.FaultFree()
      ensures old(world.run) <= world.run
      ensures CallsSince(old(world.run), world.run) == EnvironmentRecoveryCalls(t)
      ensures AllUndone(world.run, world.entered) <==> old(AllUndone(world.run, world.entered)) && !failed
    {
      assert world.durable.environments - {t.id} == {};
      if t.environment.Some? {
        var reply := world.Perform(EnvironmentRollback(t.environment.value.reference));
        failed := !reply.Success?;
      } else if t.environmentIntent != "" {
        var reply := world.Perform(EnvironmentRecover(t.environmentIntent));
        failed := !reply.Success?;
      } else {
        failed := false;
      }
    }

    /** Recovery of the identity: "not owned" counts as compensated. */
    method CompensateIdentity(t: Transaction) returns (failed: bool)
      requires world.held && world.Valid() && world.durable.marker.None? && Covers(t, world.durable)
      requires ValidTransaction(t)
      modifies world`durable, world`alive, world`faults, world`run
      ensures world.Valid()
      ensures world.durable in {old(world.durable), old(world.durable).(identities := {})}
      ensures !failed ==> world.durable.identities == {}
      ensures old(world.FaultFree()) ==> !failed && world.FaultFree()
      ensures old(world.run) <= world.run
      ensures CallsSince(old(world.run), world.run) == IdentityRecoveryCalls(t)
      ensures AllUndone(world.run, world.entered) <==> old(AllUndone(world.run, world.entered)) && !failed
    {
      assert world.durable.identities - {t.id} == {};
      failed := false;
      if t.identity.Some? {
        var reply := world.Perform(IdentityRecover(t.identity.value.reference));
        failed := reply.Error?;
      }
    }

    /** Recovery of a marker the journal names, which is not visible. */
    method CompensateMarker(t: Transaction) returns (failed: bool)
      requires world.held && world.Valid() && world.durable.marker.None?
      modifies world`durable, world`alive, world`faults, world`run
      ensures world.Valid() && world.durable == old(world.durable)
      ensures old(world.FaultFree()) ==> !failed && world.FaultFree()
      ensures old(world.run) <= world.run
      ensures CallsSince(old(world.run), world.run) == MarkerRecoveryCalls(t)
      ensures AllUndone(world.run, world.entered) <==> old(AllUndone(world.run, world.entered)) && !failed
    {
      failed := false;
      if t.marker.Some? {
        var reply := world.Perform(MarkerRemove(t.marker.value));
        failed := !reply.Success?;
      }
    }

    /** The compensation half of `recoverInterrupted`: marker, environment,
        identity, each attempted whatever became of the one before. */
    method CompensateJournalled(t: Transaction) returns (failed: bool)
      requires world.held && world.Valid() && world.durable.marker.None? && world.durable.journal == Some(t)
      modifies world`durable, world`alive, world`faults, world`run
      ensures world.Valid()
      ensures world.durable == old(world.durable).(
                identities := world.durable.identities, environments := world.durable.environments)
      ensures world.durable.identities <= old(world.durable.identities)
      ensures world.durable.environments <= old(world.durable.environments)
      ensures !failed ==> world.durable.identities == {} && world.durable.environments == {}
      ensures old(world.FaultFree()) ==> !failed && world.FaultFree()
      ensures old(world.run) <= world.run
      ensures CallsSince(old(world.run), world.run) == RecoveryCalls(t)
      ensures AllUndone(world.run, world.entered) <==> old(AllUndone(world.run, world.entered)) && !failed
    {
      var first := CompensateMarker(t);
      ghost var afterMarker := world.run;
      var second := CompensateEnvironment(t);
      ghost var afterEnvironment := world.run;
      var third := CompensateIdentity(t);
      failed := first || second || third;
      CallsCompose(old(world.run), afterMarker, afterEnvironment);
      CallsCompose(old(world.run), afterEnvironment, world.run);
    }

    /** How the recovery of an interrupted transaction ends: with its journal
        removed, with the removal refused, or, if anything could not be undone,
        with the attempt to journal that. */
    ghost predicate Recovered(t: Transaction, ok: bool, undone: bool)
      reads world`durable, world`run, world`clock
    {
      world.run != [] &&
      var last := world.run[|world.run| - 1];
      && (ok <==> undone && last.outcome.Done?)
      && (undone ==> last.call == JournalRemove(t.id))
      && (!undone ==>
            && last.call == JournalUpdate(
                 t.(phase := CompensationPending, currentStep := Failed, updatedAt := world.clock))
            && (last.outcome.Done? ==> world.durable.journal == Some(last.call.record)))
    }

    /** Removes the journal of a transaction that has nothing left. */
    method DropJournal(t: Transaction) returns (ok: bool)
      requires world.held && world.Valid() && world.durable.marker.None? && world.durable.journal == Some(t)
      requires world.durable.identities == {} && world.durable.environments == {}
      modifies world`durable, world`alive, world`faults, world`run
      ensures world.Valid()
      ensures world.durable in {old(world.durable), old(world.durable).(journal := None)}
      ensures ok ==> world.durable.journal.None?
      ensures old(world.FaultFree()) ==> ok && world.FaultFree()
      ensures old(world.run) <= world.run
      ensures CallsSince(old(world.run), world.run) == [JournalRemove(t.id)]
      ensures AllUndone(world.run, world.entered) <==> old(AllUndone(world.run, world.entered))
      ensures |world.run| == |old(world.run)| + 1 && world.run[|old(world.run)|].call == JournalRemove(t.id)
      ensures ok <==> world.run[|old(world.run)|].outcome.Done?
      ensures Recovered(t, ok, true)
      ensures ok ==> forall n: nat | world.Clear(n) :: old(world.Clear(n + 1))
    {
      var reply := world.Perform(JournalRemove(t.id));
      ok := reply.Success?;
    }

    /** Journals that this transaction is still to be compensated. */
    method JournalPending(t: Transaction)
      requires world.held && world.Valid() && world.durable.marker.None? && world.durable.journal == Some(t)
               && Covers(t, world.durable)
      modifies world`durable, world`alive, world`faults, world`run, world`clock
      ensures world.Valid() && world.durable == old(world.durable).(journal := world.durable.journal)
      ensures var record := t.(phase := CompensationPending, currentStep := Failed, updatedAt := world.clock);
              world.durable.journal in {Some(t), Some(record)}
      ensures AllUndone(world.run, world.entered) <==> old(AllUndone(world.run, world.entered))
      ensures old(world.run) <= world.run && Recovered(t, false, false)
    {
      var now := world.Time();
      var _ := world.Perform(JournalUpdate(t.(phase := CompensationPending, currentStep := Failed, updatedAt := now)));
    }

    /** `recoverInterrupted`: compensates what the journal names, in reverse
        order, and removes the journal only when all of it succeeded. */
    method RecoverInterrupted(t: Transaction) returns (ok: bool)
      requires world.held && world.Valid() && world.durable.marker.None? && world.durable.journal == Some(t)
      modifies world`durable, world`alive, world`faults, world`run, world`clock
      ensures world.Valid() && world.durable.marker.None?
      ensures ok ==> world.durable.journal.None? && world.durable.identities == {} && world.durable.environments == {}
      ensures !ok ==>
                world.durable.journal in {
                  Some(t), None,
                  Some(t.(phase := CompensationPending, currentStep := Failed, updatedAt := world.clock))}
      ensures old(world.FaultFree()) ==> ok && world.FaultFree()
      ensures old(world.run) <= world.run
      ensures ok ==>
                CallsSince(old(world.run), world.run) ==
                (if SideEffectFree(t) then [] else RecoveryCalls(t)) + [JournalRemove(t.id)]
      ensures old(AllUndone(world.run, world.entered)) ==> Recovered(t, ok, AllUndone(world.run, world.entered))
    {
      if SideEffectFree(t) {
        SafeRetryableHasNoEffects(world.durable);
        ok := DropJournal(t);
      } else {
        ok := RecoverEffects(t);
      }
    }

    /** The same for a journal that may name effects. */
    method RecoverEffects(t: Transaction) returns (ok: bool)
      requires world.held && world.Valid() && world.durable.marker.None? && world.durable.journal == Some(t)
      modifies world`durable, world`alive, world`faults, world`run, world`clock
      ensures world.Valid() && world.durable.marker.None?
      ensures ok ==> world.durable.journal.None? && world.durable.identities == {} && world.durable.environments == {}
      ensures !ok ==>
                world.durable.journal in {
                  Some(t), None,
                  Some(t.(phase := CompensationPending, currentStep := Failed, updatedAt := world.clock))}
      ensures old(world.FaultFree()) ==> ok && world.FaultFree()
      ensures old(world.run) <= world.run
      ensures ok ==> CallsSince(old(world.run), world.run) == RecoveryCalls(t) + [JournalRemove(t.id)]
      ensures old(AllUndone(world.run, world.entered)) ==> Recovered(t, ok, AllUndone(world.run, world.entered))
    {
      var failed := CompensateJournalled(t);
      if failed {
        JournalPending(t);
        return false;
      }
      ghost var middle := world.run;
      ok := DropJournal(t);
      CallsCompose(old(world.run), middle, world.run);
    }

    /** The tail of every failed stage after the effects were rolled back, or
        not: `pending` is kept only when something may be left. */
    method Abandon(record: Record, rollbackFailed: bool)
      requires world.held && world.Valid() && world.durable.marker.None?
      requires Sound(record.value) && record.value.id in world.issued && JournalHolds(world.durable, record.value.id)
      requires rollbackFailed ==> Covers(record.value, world.durable)
      requires rollbackFailed <==> !AllUndone(world.run, world.entered)
      requires pending.Some? && pending.value.transaction == record
      modifies record, this`pending, world`durable, world`alive, world`faults, world`run, world`clock
      ensures pending == if rollbackFailed then old(pending) else None
      ensures record.value == FailureRecord(old(record.value), rollbackFailed, world.clock) && world.clock > 0
      ensures GivenUp(record.value.id, old(EffectFree(world.durable)), ValidTransaction(record.value))
      ensures old(world.run) <= world.run
      ensures world.durable == old(world.durable).(journal := world.durable.journal)
      ensures rollbackFailed || old(EffectFree(world.durable)) ==> world.Valid()
      ensures world.Valid() && (rollbackFailed ==> old(PendingHolds(pending.value, world.Now()))) ==> Holds()
      ensures world.Valid() && (rollbackFailed ==> old(PendingOk(pending.value, world.Now()))) ==> Valid()
      ensures world.Valid() || world.Cut()
      ensures || !world.Valid()
              || (old(world.FaultFree() && JournalHolds(world.durable, record.value.id)) && !rollbackFailed) ==>
                JournalHolds(world.durable, old(record.value.id)) && SideEffectFree(world.durable.journal.value)
    {
      if !rollbackFailed {
        pending := None;
      }
      PersistFailure(record, rollbackFailed);
    }

    /** The schema stage of `apply`. */
    method SchemaStage(record: Record) returns (failure: Option<FailureStage>)
      requires InFlight(world, record.value) && ReceiptFree(record.value)
      requires record.value.completedSteps == STEP_ORDER[..3]
      modifies record, world`durable, world`alive, world`faults, world`run, world`clock
      ensures world.Valid() && world.durable.marker.None?
      ensures failure.Some? ==> Wrote(world, old(record.value.id), true) && failure.value in {InSchema, InJournal}
      ensures failure.Some? ==> AllUndone(world.run, world.entered)
      ensures failure == Some(InSchema) <==> !old(world.Next()).Done?
      ensures failure.None? ==>
                && InFlight(world, record.value) && ReceiptFree(record.value)
                && record.value.completedSteps == STEP_ORDER[..4]
      ensures failure.None? ==> SameSubject(record.value, old(record.value))
      ensures old(world.FaultFree()) ==> failure.None? && world.FaultFree()
    {
      SafeRetryableHasNoEffects(world.durable);
      var up := world.Probe();
      if !up {
        PersistFailure(record, false);
        return Some(InSchema);
      }
      assert STEP_ORDER[..3] + [Schema] == STEP_ORDER[..4];
      var advanced := Advance(record, Identity, Schema);
      if !advanced {
        PersistFailure(record, false);
        return Some(InJournal);
      }
      return None;
    }

    /** Journals the identity reference before it is used. */
    method PrepareIdentity(record: Record) returns (failure: Option<FailureStage>)
      requires InFlight(world, record.value) && ReceiptFree(record.value)
      modifies record, this`pending, world`durable, world`alive, world`faults, world`run, world`clock
      ensures failure.Some? ==> Valid() && world.durable.marker.None?
      ensures failure.Some? ==> failure == Some(InJournal) && GivenUp(old(record.value.id), true, true)
      ensures old(world.run) < world.run
      ensures failure.None? <==> world.run[|old(world.run)|].outcome.Done?
      ensures failure.None? ==>
                && InFlight(world, record.value)
                && record.value == old(record.value).(
                  identity := Some(IdentityReceipt(record.value.id)), updatedAt := world.clock)
                && world.durable.identities == {} && world.durable.environments == {}
                && pending == Some(Pending(record, record.value.identity, None, None, ""))
      ensures failure.None? ==> SameSubject(record.value, old(record.value))
      ensures old(world.FaultFree()) ==> failure.None? && world.FaultFree()
    {
      SafeRetryableHasNoEffects(world.durable);
      pending := Some(Pending(record, None, None, None, ""));
      var now := world.Time();
      var journalled := JournalRecord(
        record, record.value.(identity := Some(IdentityReceipt(record.value.id)), updatedAt := now));
      if !journalled {
        PersistFailure(record, false);
        pending := None;
        return Some(InJournal);
      }
      pending := Some(pending.value.(identity := record.value.identity));
      return None;
    }

    /** Creates the identity under the journalled reference. */
    method CreateIdentity(record: Record, createdReference: string) returns (failure: Option<FailureStage>)
      requires InFlight(world, record.value) && NamesIdentity(record.value, record.value.id)
      requires world.durable.identities == {} && world.durable.environments == {}
      requires pending == Some(Pending(record, record.value.identity, None, None, ""))
      modifies record, this`pending, world`durable, world`alive, world`faults, world`run, world`clock
      ensures failure.Some? ==> Valid() && world.durable.marker.None?
      ensures failure.Some? ==> failure == Some(InIdentity) && GivenUp(old(record.value.id), true, true)
      ensures old(world.run) < world.run && world.run[|old(world.run)|].call == IdentityInitialize(old(record.value.id))
      ensures failure.None? <==> world.run[|old(world.run)|].outcome.Done? && createdReference == old(record.value.id)
      ensures failure.None? ==>
                && InFlight(world, record.value) && record.value == old(record.value)
                && world.durable.identities == {record.value.id} && world.durable.environments == {}
                && pending == old(pending)
      ensures failure.None? ==> SameSubject(record.value, old(record.value))
      ensures old(world.FaultFree()) && createdReference == old(record.value).id
              ==> failure.None? && world.FaultFree()
    {
      var id := record.value.id;
      var reply := world.Perform(IdentityInitialize(id));
      assert world.durable.identities <= {id};
      if !reply.Success? || createdReference != id {
        var rollbackFailed := RollbackPreparedIdentity(IdentityReceipt(id));
        Abandon(record, rollbackFailed);
        return Some(InIdentity);
      }
      return None;
    }

    /** Rolls back the identity, and gives up. */
    method RollbackIdentity(record: Record)
      requires world.held && world.Valid() && world.durable.marker.None?
      requires Sound(record.value) && record.value.id in world.issued && JournalHolds(world.durable, record.value.id)
      requires AllUndone(world.run, world.entered)
      requires NamesIdentity(record.value, record.value.id) && world.durable.environments == {}
      requires Covers(record.value, world.durable)
      requires pending.Some? && pending.value.transaction == record && PendingOk(pending.value, world.Now())
      modifies record, this`pending, world`durable, world`alive, world`faults, world`run, world`clock
      ensures Valid() && world.durable.marker.None?
      ensures world.clock > 0 &&
              record.value == FailureRecord(old(record.value), !AllUndone(world.run, world.entered), world.clock)
      ensures GivenUp(record.value.id, true, ValidTransaction(record.value))
      ensures old(world.run) <= world.run
      ensures RollbackCalls(None, old(record.value.identity)) <= CallsSince(old(world.run), world.run)
    {
      assert world.durable.identities <= {record.value.id};
      var rollbackFailed := RollbackEffects(None, record.value.identity);
      assert !rollbackFailed ==> world.durable.identities == {};
      ghost var rolledBack := world.run;
      Abandon(record, rollbackFailed);
      CallsCompose(old(world.run), rolledBack, world.run);
    }

    /** Records the identity step as completed, or undoes it. */
    method CompleteIdentity(record: Record) returns (failure: Option<FailureStage>)
      requires InFlight(world, record.value) && record.value.completedSteps == STEP_ORDER[..4]
      requires NamesIdentity(record.value, record.value.id)
      requires record.value.environmentIntent == "" && record.value.environment.None?
      requires world.durable.identities == {record.value.id} && world.durable.environments == {}
      requires pending == Some(Pending(record, record.value.identity, None, None, ""))
      modifies record, this`pending, world`durable, world`alive, world`faults, world`run, world`clock
      ensures failure.Some? ==> Valid() && world.durable.marker.None?
      ensures failure.Some? ==> failure == Some(InJournal) && GivenUp(old(record.value.id), true, true)
      ensures failure.None? ==>
                && InFlight(world, record.value) && IdentityDone(record.value)
                && world.durable.identities == {record.value.id} && world.durable.environments == {}
                && pending == old(pending) && record.value.identity == old(record.value).identity
      ensures failure.None? ==> SameSubject(record.value, old(record.value))
      ensures old(world.FaultFree()) ==> failure.None? && world.FaultFree()
    {
      assert STEP_ORDER[..4] + [Identity] == STEP_ORDER[..5];
      var advanced := Advance(record, Environment, Identity);
      if !advanced {
        RollbackIdentity(record);
        return Some(InJournal);
      }
      return None;
    }

    /** The identity stage of `apply`. */
    method IdentityStage(record: Record, createdReference: string) returns (failure: Option<FailureStage>)
      requires InFlight(world, record.value) && ReceiptFree(record.value)
      requires record.value.completedSteps == STEP_ORDER[..4]
      modifies record, this`pending, world`durable, world`alive, world`faults, world`run, world`clock
      ensures failure.Some? ==> Valid() && world.durable.marker.None?
      ensures failure.Some? ==> failure.value in {InJournal, InIdentity} && GivenUp(old(record.value.id), true, true)
      ensures failure.None? ==>
                && InFlight(world, record.value) && IdentityDone(record.value) && createdReference == record.value.id
                && world.durable.identities == {record.value.id} && world.durable.environments == {}
                && pending == Some(Pending(record, record.value.identity, None, None, ""))
      ensures failure.None? ==> SameSubject(record.value, old(record.value))
      ensures old(world.FaultFree()) ==>
                if createdReference == old(record.value.id) then failure.None? && world.FaultFree()
                else failure == Some(InIdentity)
    {
      failure := PrepareIdentity(record);
      if failure.Some? { return; }
      failure := CreateIdentity(record, createdReference);
      if failure.Some? { return; }
      failure := CompleteIdentity(record);
    }

    /** Journals the intent to publish under this transaction's ID. */
    method PrepareEnvironment(record: Record) returns (failure: Option<FailureStage>)
      requires InFlight(world, record.value) && IdentityDone(record.value)
      requires world.durable.identities == {record.value.id} && world.durable.environments == {}
      requires pending == Some(Pending(record, record.value.identity, None, None, ""))
      modifies record, this`pending, world`durable, world`alive, world`faults, world`run, world`clock
      ensures failure.Some? ==> Valid() && world.durable.marker.None?
      ensures failure.Some? ==> failure == Some(InJournal) && GivenUp(old(record.value.id), true, true)
      ensures old(world.run) < world.run
      ensures failure.None? <==> world.run[|old(world.run)|].outcome.Done?
      ensures failure.None? ==>
                && InFlight(world, record.value)
                && record.value == old(record.value).(
                  environmentIntent := record.value.id, updatedAt := world.clock)
                && world.durable.identities == {record.value.id} && world.durable.environments == {}
                && pending == Some(Pending(record, record.value.identity, None, None, record.value.id))
      ensures old(world.FaultFree()) ==> failure.None? && world.FaultFree()
    {
      var now := world.Time();
      var journalled := JournalRecord(record, record.value.(environmentIntent := record.value.id, updatedAt := now));
      if !journalled {
        RollbackIdentity(record);
        return Some(InJournal);
      }
      pending := Some(pending.value.(environmentIntent := record.value.environmentIntent));
      return None;
    }

    /** The compensation of a publication: by receipt if there is one, by the
        journalled intent otherwise. */
    method RollbackPublished(t: Transaction, receipt: EnvironmentReceipt) returns (failed: bool)
      requires world.held && world.Valid() && world.durable.marker.None? && t.identity.Some?
      modifies world`durable, world`alive, world`faults, world`run
      ensures world.Valid()
      ensures world.durable == old(world.durable).(
                identities := world.durable.identities, environments := world.durable.environments)
      ensures world.durable.identities <= old(world.durable.identities)
      ensures world.durable.environments <= old(world.durable.environments)
      ensures !failed ==> t.identity.value.reference !in world.durable.identities
      ensures !failed && HonestReceipt(receipt, t.id) ==> t.id !in world.durable.environments
      ensures receipt != NO_ENVIRONMENT && receipt.reference != t.id ==>
                (t.id in world.durable.environments <==> t.id in old(world.durable.environments))
      ensures old(world.FaultFree()) ==> !failed && world.FaultFree()
      ensures old(world.run) < world.run
      ensures world.run[|old(world.run)|].call ==
              if receipt == NO_ENVIRONMENT then EnvironmentRecover(t.id) else EnvironmentRollback(receipt.reference)
      ensures CallsSince(old(world.run), world.run) ==
              [world.run[|old(world.run)|].call] + RollbackCalls(None, t.identity)
      ensures AllUndone(world.run, world.entered) <==> old(AllUndone(world.run, world.entered)) && !failed
    {
      if receipt == NO_ENVIRONMENT {
        failed := RollbackPreparedEnvironment(t.id, t.identity);
      } else {
        failed := RollbackEffects(Some(receipt), t.identity);
      }
      FirstCall(old(world.run), world.run, CallsSince(old(world.run), world.run));
    }

    /** What follows a publication that failed or answered about another
        reference: by receipt if there is one, by intent otherwise.  A receipt
        about another reference compensates the wrong environment. */
    method UndoPublish(record: Record, receipt: EnvironmentReceipt,
                       ghost published: EnvironmentReceipt, ghost receiptOnFailure: bool)
      requires InFlight(world, record.value) && record.value.environment.None?
      requires NamesIdentity(record.value, record.value.id) && record.value.environmentIntent == record.value.id
      requires world.durable.identities == {record.value.id} && world.durable.environments <= {record.value.id}
      requires pending == Some(Pending(
                               record, record.value.identity,
                               if receipt == NO_ENVIRONMENT then None else Some(receipt), None, record.value.id))
      requires |world.run| > world.entered && world.run[|world.run| - 1].call == EnvironmentPublish(record.value.id)
      requires receipt == if world.run[|world.run| - 1].outcome.Done? || receiptOnFailure then published
                          else NO_ENVIRONMENT
      modifies record, this`pending, world`durable, world`alive, world`faults, world`run, world`clock
      ensures world.durable.marker.None?
      ensures Ends(HonestReceipt(receipt, old(record.value.id)), true, old(record.value.id))
      ensures GivenUp(old(record.value.id), HonestReceipt(receipt, old(record.value.id)),
                      receipt == NO_ENVIRONMENT || ValidEnvironmentReceipt(receipt, old(record.value.id)))
      ensures receipt != NO_ENVIRONMENT && !AllUndone(world.run, world.entered) ==>
                record.value.environment == Some(receipt)
      ensures old(world.run) <= world.run
      ensures (if receipt == NO_ENVIRONMENT then [EnvironmentRecover(old(record.value.id))]
               else [EnvironmentRollback(receipt.reference)])
              + RollbackCalls(None, old(record.value.identity))
              <= CallsSince(old(world.run), world.run)
      ensures old(world.FaultFree()) && world.Valid() && old(record.value.id) in old(world.durable.environments) ==>
                HonestReceipt(receipt, old(record.value.id))
      ensures UndoneByReceipt(world, old(record.value.id), published, receiptOnFailure)
    {
      var rollbackFailed := RollbackPublished(record.value, receipt);
      if receipt != NO_ENVIRONMENT {
        record.value := record.value.(environment := Some(receipt));
      }
      ghost var rolledBack := world.run;
      Abandon(record, rollbackFailed);
      CallsCompose(old(world.run), rolledBack, world.run);
    }

    /** Publishes the environment under the journalled reference; a failure may
        or may not come with a receipt. */
    method PublishEnvironment(record: Record, published: EnvironmentReceipt, receiptOnFailure: bool)
      returns (failure: Option<FailureStage>)
      requires InFlight(world, record.value) && record.value.environment.None?
      requires NamesIdentity(record.value, record.value.id) && record.value.environmentIntent == record.value.id
      requires world.durable.identities == {record.value.id} && world.durable.environments == {}
      requires pending == Some(Pending(record, record.value.identity, None, None, record.value.id))
      modifies record, this`pending, world`durable, world`alive, world`faults, world`run, world`clock
      ensures failure.Some? ==>
                && world.durable.marker.None?
                && failure == Some(InEnvironment)
                && Ends(HonestReceipt(published, old(record.value.id)), true, old(record.value.id))
                && GivenUp(old(record.value.id), HonestReceipt(published, old(record.value.id)),
                           ValidEnvironmentReceipt(published, old(record.value.id)))
                && UndoneByReceipt(world, old(record.value.id), published, receiptOnFailure)
      ensures failure.None? ==>
                && InFlight(world, old(record.value)) && published.reference == record.value.id
                && record.value == old(record.value).(environment := Some(published))
                && world.durable.identities == {record.value.id} && world.durable.environments == {record.value.id}
                && pending == Some(Pending(record, record.value.identity, Some(published), None, record.value.id))
      ensures old(world.run) < world.run && world.run[|old(world.run)|].call == EnvironmentPublish(old(record.value.id))
      ensures failure.None? <==>
              world.run[|old(world.run)|].outcome.Done? && published.reference == old(record.value.id)
      ensures old(world.FaultFree()) ==>
                if published.reference == old(record.value.id) then failure.None? && world.FaultFree()
                else failure == Some(InEnvironment)
                     && (published != NO_ENVIRONMENT ==> Orphaned(world, old(record.value.id)))
    {
      var id := record.value.id;
      var reply := world.Perform(EnvironmentPublish(id));
      assert world.durable.environments <= {id};
      var receipt := if reply.Success? || receiptOnFailure then published else NO_ENVIRONMENT;
      if receipt != NO_ENVIRONMENT {
        pending := Some(pending.value.(environment := Some(receipt)));
      }
      if !reply.Success? || receipt.reference != id {
        UndoPublish(record, receipt, published, receiptOnFailure);
        return Some(InEnvironment);
      }
      record.value := record.value.(environment := Some(receipt));
      return None;
    }

    /** Rolls back both effects, and gives up. */
    method RollbackBoth(record: Record, alreadyFailed: bool)
      requires world.held && world.Valid() && world.durable.marker.None?
      requires Sound(record.value) && record.value.id in world.issued && record.value.environment.Some?
      requires JournalHolds(world.durable, record.value.id)
      requires alreadyFailed <==> !AllUndone(world.run, world.entered)
      requires record.value.environment.value.reference == record.value.id
      requires NamesIdentity(record.value, record.value.id) && record.value.environmentIntent == record.value.id
      requires Covers(record.value, world.durable)
      requires pending.Some? && pending.value.transaction == record && PendingOk(pending.value, world.Now())
      modifies record, this`pending, world`durable, world`alive, world`faults, world`run, world`clock
      ensures Valid() && world.durable.marker.None?
      ensures world.clock > 0 &&
              record.value == FailureRecord(old(record.value), !AllUndone(world.run, world.entered), world.clock)
      ensures GivenUp(record.value.id, true, ValidTransaction(record.value))
      ensures old(world.run) <= world.run
      ensures RollbackCalls(old(record.value.environment), old(record.value.identity))
              <= CallsSince(old(world.run), world.run)
    {
      assert world.durable.identities <= {record.value.id} && world.durable.environments <= {record.value.id};
      var rollbackFailed := RollbackEffects(record.value.environment, record.value.identity);
      assert !rollbackFailed ==> world.durable.identities == {} && world.durable.environments == {};
      ghost var rolledBack := world.run;
      Abandon(record, alreadyFailed || rollbackFailed);
      CallsCompose(old(world.run), rolledBack, world.run);
    }

    /** The environment stage of `apply`. */
    method EnvironmentStage(record: Record, published: EnvironmentReceipt, receiptOnFailure: bool)
      returns (failure: Option<FailureStage>)
      requires InFlight(world, record.value) && IdentityDone(record.value)
      requires world.durable.identities == {record.value.id} && world.durable.environments == {}
      requires pending == Some(Pending(record, record.value.identity, None, None, ""))
      modifies record, this`pending, world`durable, world`alive, world`faults, world`run, world`clock
      ensures failure.Some? ==>
                && world.durable.marker.None?
                && failure.value in {InJournal, InEnvironment}
                && Ends(HonestReceipt(published, old(record.value.id)), true, old(record.value.id))
                && GivenUp(old(record.value.id), HonestReceipt(published, old(record.value.id)),
                           ValidEnvironmentReceipt(published, old(record.value.id)))
                && (failure.value.InEnvironment? ==>
                      UndoneByReceipt(world, old(record.value.id), published, receiptOnFailure))
      ensures failure.None? ==>
                && InFlight(world, record.value) && AllDone(record.value)
                && record.value.environment == Some(published)
                && world.durable.identities == {record.value.id} && world.durable.environments == {record.value.id}
                && pending == Some(Pending(
                                   record, record.value.identity, record.value.environment, None, record.value.id))
      ensures failure.None? ==> SameSubject(record.value, old(record.value))
      ensures old(world.FaultFree()) ==>
                if ValidEnvironmentReceipt(published, old(record.value.id)) then failure.None? && world.FaultFree()
                else failure == Some(if published.reference == old(record.value.id) then InJournal else InEnvironment)
      ensures old(world.FaultFree()) && !HonestReceipt(published, old(record.value).id) ==>
                Orphaned(world, old(record.value).id)
    {
      failure := PrepareEnvironment(record);
      if failure.Some? { return; }
      failure := PublishEnvironment(record, published, receiptOnFailure);
      if failure.Some? { return; }
      failure := CompleteEnvironment(record, published);
    }

    /** Records the environment step as completed, or undoes both effects. */
    method CompleteEnvironment(record: Record, published: EnvironmentReceipt) returns (failure: Option<FailureStage>)
      requires InFlight(world, record.value.(environment := None)) && IdentityNamed(record.value)
      requires record.value.environment == Some(published) && published.reference == record.value.id
      requires world.durable.identities == {record.value.id} && world.durable.environments == {record.value.id}
      requires pending == Some(Pending(
                               record, record.value.identity, record.value.environment, None, record.value.id))
      modifies record, this`pending, world`durable, world`alive, world`faults, world`run, world`clock
      ensures failure.Some? ==> Valid() && world.durable.marker.None?
      ensures failure.Some? ==>
                && failure == Some(InJournal)
                && GivenUp(old(record.value.id), true, ValidEnvironmentReceipt(published, old(record.value.id)))
      ensures failure.None? ==>
                && InFlight(world, record.value) && AllDone(record.value)
                && world.durable.identities == {record.value.id} && world.durable.environments == {record.value.id}
                && pending == old(pending) && record.value.identity == old(record.value).identity
                && record.value.environment == Some(published)
                && SameSubject(record.value, old(record.value))
      ensures old(world.FaultFree()) && ValidEnvironmentReceipt(published, old(record.value).id)
              ==> failure.None? && world.FaultFree()
    {
      assert STEP_ORDER[..5] + [Environment] == STEP_ORDER;
      var advanced := Advance(record, Lock, Environment);
      if !advanced {
        RollbackBoth(record, false);
        return Some(InJournal);
      }
      return None;
    }

    /** Journals the marker before it is created. */
    method PrepareMarker(record: Record, marker: Marker) returns (failure: Option<FailureStage>)
      requires InFlight(world, record.value) && AllDone(record.value)
      requires marker.selectedUI == record.value.selectedUI && marker.mode == record.value.mode
      requires marker.installedAt <= world.clock
      requires world.durable.identities == {record.value.id} && world.durable.environments == {record.value.id}
      requires pending == Some(Pending(
                               record, record.value.identity, record.value.environment, None, record.value.id))
      modifies record, this`pending, world`durable, world`alive, world`faults, world`run, world`clock
      ensures failure.Some? ==> Valid() && world.durable.marker.None?
      ensures failure.Some? ==> GivenUp(old(record.value.id), true, true)
      ensures failure.Some? ==> failure.value == if ValidMarker(marker) then InJournal else InMarker
      ensures failure == Some(InMarker) <==> !ValidMarker(marker)
      ensures failure.None? ==>
                && world.Valid() && ValidMarker(marker)
                && record.value == old(record.value).(marker := Some(marker), updatedAt := record.value.updatedAt)
                && world.durable == old(world.durable).(journal := Some(record.value))
                && Recordable(record.value) && AllUndone(world.run, world.entered)
                && pending == Some(old(pending.value).(marker := Some(marker))) && PendingOk(pending.value, world.Now())
      ensures old(world.FaultFree()) && ValidMarker(marker) ==> failure.None? && world.FaultFree()
    {
      if !ValidMarker(marker) {
        RollbackBoth(record, false);
        return Some(InMarker);
      }
      var journalled := JournalMarker(record, marker);
      if !journalled {
        RollbackBoth(record, false);
        return Some(InJournal);
      }
      return None;
    }

    /** From here on a failure also remembers the marker. */
    method JournalMarker(record: Record, marker: Marker) returns (ok: bool)
      requires InFlight(world, record.value) && AllDone(record.value) && ValidMarker(marker)
      requires marker.selectedUI == record.value.selectedUI && marker.mode == record.value.mode
      requires marker.installedAt <= world.clock
      requires world.durable.identities == {record.value.id} && world.durable.environments == {record.value.id}
      requires pending == Some(Pending(
                               record, record.value.identity, record.value.environment, None, record.value.id))
      modifies record, this`pending, world`durable, world`alive, world`faults, world`run, world`clock
      ensures world.Valid()
      ensures record.value == old(record.value).(marker := Some(marker), updatedAt := world.clock)
      ensures Recordable(record.value) && Covers(record.value, world.durable)
      ensures world.durable == old(world.durable).(journal := world.durable.journal)
      ensures ok ==> world.durable.journal == Some(record.value)
      ensures JournalHolds(world.durable, record.value.id) && AllUndone(world.run, world.entered)
      ensures old(world.run) < world.run && (ok <==> world.run[|old(world.run)|].outcome.Done?)
      ensures pending == Some(old(pending.value).(marker := Some(marker))) && PendingOk(pending.value, world.Now())
      ensures old(world.FaultFree()) ==> ok && world.FaultFree()
    {
      pending := Some(pending.value.(marker := Some(marker)));
      var now := world.Time();
      MarkedIsRecordable(record.value, marker, now);
      ok := JournalRecord(record, record.value.(marker := Some(marker), updatedAt := now));
    }

    /** Creates the marker: the commit point. */
    method CreateMarker(record: Record, marker: Marker) returns (failure: Option<FailureStage>)
      requires world.held && world.Valid() && world.durable.marker.None? && world.durable.journal == Some(record.value)
      requires Recordable(record.value) && MatchesMarker(record.value, marker)
      requires NamesIdentity(record.value, record.value.id) && record.value.environment.Some?
      requires record.value.id in world.issued && record.value.id !in world.era.issued
      requires world.era.clock < marker.installedAt <= world.clock
      requires world.durable.identities == {record.value.id} && world.durable.environments == {record.value.id}
      requires pending.Some? && pending.value.transaction == record && PendingOk(pending.value, world.Now())
      requires AllUndone(world.run, world.entered)
      modifies record, this`pending, world`durable, world`alive, world`faults, world`run, world`clock
      ensures Valid()
      ensures failure.Some? ==> world.durable.marker.None?
      ensures failure.Some? ==> failure == Some(InLock) && GivenUp(old(record.value.id), true, true)
      ensures old(world.run) < world.run && world.run[|old(world.run)|].call == MarkerCreate(marker)
      ensures failure.None? <==> world.run[|old(world.run)|].outcome.Done?
      ensures failure.Some? ==>
                [MarkerCreate(marker), MarkerRemove(marker)] <= CallsSince(old(world.run), world.run)
      ensures failure.None? ==>
                && record.value == old(record.value) && pending.None?
                && world.durable == old(world.durable).(marker := Some(marker), commit := Some(record.value))
      ensures old(world.FaultFree()) ==> failure.None? && world.FaultFree()
    {
      var reply := world.Perform(MarkerCreate(marker));
      if reply.Success? {
        pending := None;
        return None;
      }
      assert world.durable == old(world.durable);
      assert CallsSince(old(world.run), world.run) == [MarkerCreate(marker)];
      UndoMarker(record, marker, old(world.run));
      return Some(InLock);
    }

    /** The marker goes first, then both effects, whatever became of it. */
    method UndoMarker(record: Record, marker: Marker, ghost before: seq<Attempt>)
      requires before <= world.run && CallsSince(before, world.run) == [MarkerCreate(marker)]
      requires world.held && world.Valid() && world.durable.marker.None? && world.durable.journal == Some(record.value)
      requires Recordable(record.value) && record.value.phase.Applying?
      requires NamesIdentity(record.value, record.value.id) && record.value.environment.Some?
      requires record.value.environmentIntent == record.value.id && record.value.id in world.issued
      requires world.durable.identities == {record.value.id} && world.durable.environments == {record.value.id}
      requires pending.Some? && pending.value.transaction == record && PendingOk(pending.value, world.Now())
      requires AllUndone(world.run, world.entered)
      modifies record, this`pending, world`durable, world`alive, world`faults, world`run, world`clock
      ensures Valid() && world.durable.marker.None? && GivenUp(old(record.value.id), true, true)
      ensures old(world.run) <= world.run && before < world.run
      ensures [MarkerCreate(marker), MarkerRemove(marker)]
              + RollbackCalls(old(record.value.environment), old(record.value.identity))
              <= CallsSince(before, world.run)
    {
      var removed := world.Perform(MarkerRemove(marker));
      ghost var afterMarker := world.run;
      RollbackBoth(record, !removed.Success?);
      assert CallsSince(before, afterMarker) == [MarkerCreate(marker), MarkerRemove(marker)];
      CallsCompose(before, afterMarker, world.run);
    }

    /** The marker stage: on success the installation is committed, and its
        journal is the complete record. */
    method MarkerStage(record: Record, profileHash: string, manifestHash: string)
      returns (failure: Option<FailureStage>, marker: Marker)
      requires InFlight(world, record.value) && AllDone(record.value)
      requires world.durable.identities == {record.value.id} && world.durable.environments == {record.value.id}
      requires pending == Some(Pending(record, record.value.identity, record.value.environment, None, record.value.id))
      modifies record, this`pending, world`durable, world`alive, world`faults, world`run, world`clock
      ensures Valid()
      ensures failure.Some? ==> world.durable.marker.None?
      ensures failure.Some? ==>
                failure.value in {InMarker, InJournal, InLock} && GivenUp(old(record.value.id), true, true)
      ensures failure.None? ==>
                && pending.None? && world.durable.marker == Some(marker)
                && world.durable.journal == world.durable.commit == Some(record.value)
                && ValidHash(profileHash) && ValidHash(manifestHash)
                && ValidEnvironmentReceipt(old(record.value.environment).value, record.value.id)
                && marker.selectedUI == record.value.selectedUI && marker.mode == record.value.mode
                && SameSubject(record.value, old(record.value))
      ensures old(world.FaultFree()) ==>
                if ValidHash(profileHash) && ValidHash(manifestHash) then failure.None? && world.FaultFree()
                else failure == Some(InMarker)
    {
      var installedAt := world.Time();
      marker := Marker(MARKER_SCHEMA, INSTALLER_VERSION, installedAt,
                       record.value.selectedUI, record.value.mode, profileHash, manifestHash);
      VersionIsTrimmed();
      failure := PrepareMarker(record, marker);
      if failure.None? {
        failure := CreateMarker(record, marker);
      }
    }

    /** After the commit point: finalizers and housekeeping, and the journal
        goes only if all of them succeeded. */
    method FinishCommitted(id: string)
      requires world.held && world.Valid() && world.durable.marker.Some?
      modifies world`durable, world`alive, world`faults, world`run
      ensures world.Valid()
      ensures world.durable in {old(world.durable), old(world.durable).(journal := None)}
      ensures old(world.FaultFree()) && old(JournalHolds(world.durable, id)) ==>
                world.durable.journal.None? && world.FaultFree()
      ensures if old(world.Clear(3)) then |world.run| == |old(world.run)| + 1
              && world.run[|old(world.run)|].call == JournalRemove(id)
              else world.run == old(world.run)
    {
      var environment := world.Probe();
      var identity := world.Probe();
      var housekeeping := world.Probe();
      if environment && identity && housekeeping {
        var _ := world.Perform(JournalRemove(id));
      }
    }

    /** The era this call began in was sound, and so was what was remembered. */
    ghost predicate EraOk() reads this, world`era, Cells() {
      && Coherent(world.era)
      && (pending.Some? ==> PendingHolds(pending.value, world.era))
    }

    lemma StillValid()
      requires world.Valid() && EraOk()
      ensures Holds() && (Strict() ==> Valid())
    {
      if pending.Some? {
        PendingEvolves(pending.value, world.era, world.Now());
      }
    }

    /** Opens the write-ahead journal of a new transaction. */
    method OpenJournal(mode: Mode, target: string, plan: InstallPlan, drawnID: Option<string>)
      returns (begun: Option<Transaction>)
      requires world.held && world.Valid() && world.durable.marker.None? && world.durable.journal.None?
      requires drawnID.Some? ==> drawnID.value !in world.issued
      requires AllUndone(world.run, world.entered)
      modifies world`durable, world`alive, world`faults, world`run, world`clock, world`issued
      ensures world.Valid() && world.durable.marker.None?
      ensures begun.Some? ==>
                && InFlight(world, begun.value) && ReceiptFree(begun.value)
                && begun.value.completedSteps == STEP_ORDER[..3]
                && drawnID == Some(begun.value.id) && begun.value.selectedUI == plan.selectedUI
                && begun.value.mode == mode && begun.value.databaseTarget == target
      ensures begun.Some? ==>
                ValidMode(mode) && ValidDigest(target) && ValidUI(plan.selectedUI) && ValidID(begun.value.id)
      ensures (old(world.FaultFree()) && ValidMode(mode) && ValidDigest(target) && ValidUI(plan.selectedUI)
               && drawnID.Some? && ValidID(drawnID.value)) ==>
                begun.Some? && world.FaultFree()
    {
      SafeRetryableHasNoEffects(world.durable);
      if drawnID.None? { return None; }
      var id := drawnID.value;
      world.Issue(id);
      var now := world.Time();
      var t := Transaction(
        TRANSACTION_SCHEMA, TRANSACTION_OWNER, id, plan.selectedUI, mode, target, Applying, Schema,
        STEP_ORDER[..3], None, "", None, None, now);
      var valid := Validate(t);
      if !valid { return None; }
      var reply := world.Perform(JournalCreate(t));
      if !reply.Success? { return None; }
      return Some(t);
    }

    /** Identity and environment, in that order. */
    method EffectStages(record: Record, answers: Answers) returns (failure: Option<FailureStage>, steps: seq<Step>)
      requires InFlight(world, record.value) && ReceiptFree(record.value)
      requires record.value.completedSteps == STEP_ORDER[..4]
      modifies record, this`pending, world`durable, world`alive, world`faults, world`run, world`clock
      ensures failure.Some? ==>
                && world.durable.marker.None?
                && Ends(HonestReceipt(answers.published, old(record.value.id)), true, old(record.value.id))
                && REPORT_ORDER[..4] <= steps <= REPORT_ORDER[..5] && FailsAt(failure.value, |steps|)
                && GivenUp(old(record.value.id), HonestReceipt(answers.published, old(record.value.id)),
                           ValidEnvironmentReceipt(answers.published, old(record.value.id)))
                && (failure.value.InEnvironment? ==>
                      UndoneByReceipt(world, old(record.value.id), answers.published, answers.receiptOnFailure))
      ensures failure.None? ==>
                && steps == REPORT_ORDER[..6] && InFlight(world, record.value) && AllDone(record.value)
                && world.durable.identities == {record.value.id} && world.durable.environments == {record.value.id}
                && pending == Some(Pending(
                                   record, record.value.identity, record.value.environment, None, record.value.id))
                && SameSubject(record.value, old(record.value))
                && answers.createdReference == record.value.id && record.value.environment == Some(answers.published)
      ensures old(world.FaultFree()) ==>
                if StageVerdict(old(record.value.id), answers).1 < 6
                then (failure, |steps|) == StageVerdict(old(record.value.id), answers)
                else failure.None? && world.FaultFree()
      ensures old(world.FaultFree()) && answers.createdReference == old(record.value.id)
              && !HonestReceipt(answers.published, old(record.value.id)) ==>
                Orphaned(world, old(record.value.id))
    {
      steps := REPORT_ORDER[..4];
      failure := IdentityStage(record, answers.createdReference);
      if failure.Some? { return; }
      steps := REPORT_ORDER[..5];
      failure := EnvironmentStage(record, answers.published, answers.receiptOnFailure);
      if failure.Some? { return; }
      steps := REPORT_ORDER[..6];
    }

    /** The schema, those, then the marker. */
    method RunStages(record: Record, answers: Answers)
      returns (failure: Option<FailureStage>, steps: seq<Step>, marker: Marker)
      requires InFlight(world, record.value) && ReceiptFree(record.value) && EraOk()
      requires record.value.completedSteps == STEP_ORDER[..3] && record !in Cells()
      modifies record, this`pending, world`durable, world`alive, world`faults, world`run, world`clock
      ensures Ends(HonestReceipt(answers.published, old(record.value.id)), old(Strict()), old(record.value.id))
      ensures REPORT_ORDER[..3] <= steps <= REPORT_ORDER
      ensures failure.Some? ==> world.durable.marker.None? && FailsAt(failure.value, |steps|) && |steps| < 7
      ensures failure.Some? && |steps| == 3 ==> pending == old(pending) && Wrote(world, old(record.value.id), true)
      ensures failure.Some? && |steps| > 3 ==>
                GivenUp(old(record.value.id), HonestReceipt(answers.published, old(record.value.id)),
                        ValidEnvironmentReceipt(answers.published, old(record.value.id)))
      ensures failure == Some(InEnvironment) ==>
                UndoneByReceipt(world, old(record.value.id), answers.published, answers.receiptOnFailure)
      ensures failure.None? ==>
                && Valid() && pending.None? && world.durable.marker == Some(marker)
                && world.durable.journal == world.durable.commit == Some(record.value)
                && marker.selectedUI == record.value.selectedUI && marker.mode == record.value.mode
                && SameSubject(record.value, old(record.value)) && steps == REPORT_ORDER
                && Suits(answers, record.value.id)
      ensures old(world.FaultFree()) ==>
                && (failure, |steps|) == StageVerdict(old(record.value.id), answers)
                && (failure.None? ==> world.FaultFree())
      ensures old(world.FaultFree()) && answers.createdReference == old(record.value.id)
              && !HonestReceipt(answers.published, old(record.value.id)) ==>
                Orphaned(world, old(record.value.id))
    {
      marker := Marker(0, "", 0, Antd, Embedded, "", "");
      steps := REPORT_ORDER[..3];
      failure := SchemaStage(record);
      if failure.Some? {
        StillValid();
        return;
      }
      failure, steps := EffectStages(record, answers);
      if failure.Some? { return; }
      failure, marker := MarkerStage(record, answers.profileHash, answers.manifestHash);
      if failure.Some? { return; }
      steps := REPORT_ORDER;
    }

    /** What `apply` makes of an installation without marker or journal. */
    ghost predicate Ran(before: Option<Pending>, strict: bool, undisturbed: bool, mode: Mode, target: string,
                        answers: Answers, result: Result, steps: seq<Step>)
      reads this, world, Cells()
    {
      && Finishes(answers, strict) && steps <= REPORT_ORDER && (|steps| == 7 <==> result.Installed?)
      && (result.Rejected? ==> world.durable.marker.None? && Rejects(result.stage, answers, |steps|, before))
      && (result.Installed? ==>
            pending.None? && Fit(mode, target, answers) && InstalledBy(result, answers, mode, world.durable))
      && (undisturbed ==>
            && (StageOf(result), |steps|) == JournalVerdict(mode, target, answers)
            && (result.Installed? ==> world.durable.journal.None? && world.FaultFree())
            && (Ready(mode, target, answers) && !Honest(answers) ==> Orphaned(world, answers.drawnID.value)))
    }

    /** No journal, no transaction. */
    lemma NotBegun(strict: bool, undisturbed: bool, mode: Mode, target: string, answers: Answers)
      requires world.Valid() && EraOk() && world.durable.marker.None? && strict == Strict()
      requires undisturbed ==> JournalVerdict(mode, target, answers) == (Some(InJournal), 3)
      ensures Ran(pending, strict, undisturbed, mode, target, answers, Rejected(InJournal), REPORT_ORDER[..3])
    {
      StillValid();
    }

    /** A stage that fails ends the transaction. */
    lemma StageFailed(begun: Transaction, before: Option<Pending>, strict: bool, undisturbed: bool,
                      answers: Answers, stage: FailureStage, steps: seq<Step>)
      requires Recordable(begun) && answers.drawnID == Some(begun.id) && world.durable.marker.None?
      requires Ends(HonestReceipt(answers.published, begun.id), strict, begun.id)
      requires REPORT_ORDER[..3] <= steps <= REPORT_ORDER && |steps| < 7 && FailsAt(stage, |steps|)
      requires |steps| == 3 ==> pending == before
      requires |steps| > 3 ==>
                 GivenUp(begun.id, HonestReceipt(answers.published, begun.id),
                         ValidEnvironmentReceipt(answers.published, begun.id))
      requires stage.InEnvironment? ==>
                 UndoneByReceipt(world, begun.id, answers.published, answers.receiptOnFailure)
      requires undisturbed ==> (Some(stage), |steps|) == StageVerdict(begun.id, answers)
      requires undisturbed && answers.createdReference == begun.id && !HonestReceipt(answers.published, begun.id) ==>
                 Orphaned(world, begun.id)
      ensures Ran(before, strict, undisturbed, begun.mode, begun.databaseTarget, answers, Rejected(stage), steps)
    {}

    /** All stages passed: the transaction is committed. */
    lemma StagesPassed(begun: Transaction, before: Option<Pending>, strict: bool, undisturbed: bool,
                       answers: Answers, marker: Marker)
      requires Recordable(begun) && answers.drawnID == Some(begun.id) && answers.plan.selectedUI == begun.selectedUI
      requires Holds() && (strict ==> Valid()) && pending.None? && Suits(answers, begun.id)
      requires world.durable.marker == Some(marker) && world.durable.commit.Some?
      requires SameSubject(world.durable.commit.value, begun)
      requires marker.selectedUI == begun.selectedUI && marker.mode == begun.mode
      requires undisturbed ==> world.durable.journal.None? && world.FaultFree()
      ensures Ran(before, strict, undisturbed, begun.mode, begun.databaseTarget, answers,
                  Installed(marker.selectedUI, marker.mode, marker.installedAt, REPORT_ORDER), REPORT_ORDER)
    {}

    /** The stages of a transaction just opened, and what follows its commit. */
    method RunTransaction(begun: Transaction, answers: Answers) returns (result: Result, steps: seq<Step>)
      requires InFlight(world, begun) && ReceiptFree(begun) && EraOk() && begun.completedSteps == STEP_ORDER[..3]
      requires answers.drawnID == Some(begun.id) && answers.plan.selectedUI == begun.selectedUI
      modifies this`pending, world`durable, world`alive, world`faults, world`run, world`clock
      ensures Ran(old(pending), old(Strict()), old(world.FaultFree()),
                  begun.mode, begun.databaseTarget, answers, result, steps)
    {
      var record := new Record(begun);
      var failure, marker;
      failure, steps, marker := RunStages(record, answers);
      if failure.Some? {
        StageFailed(begun, old(pending), old(Strict()), old(world.FaultFree()), answers, failure.value, steps);
        return Rejected(failure.value), steps;
      }
      FinishCommitted(record.value.id);
      StagesPassed(begun, old(pending), old(Strict()), old(world.FaultFree()), answers, marker);
      result := Installed(marker.selectedUI, marker.mode, marker.installedAt, steps);
    }

    /** `apply` from the creation of its journal on. */
    method InstallFresh(mode: Mode, target: string, answers: Answers) returns (result: Result, steps: seq<Step>)
      requires world.held && world.Valid() && EraOk()
      requires world.durable.marker.None? && world.durable.journal.None? && AllUndone(world.run, world.entered)
      requires answers.drawnID.Some? ==> answers.drawnID.value !in world.issued
      requires ValidUI(answers.plan.selectedUI)
      modifies this`pending, world`durable, world`alive, world`faults, world`run, world`clock, world`issued
      ensures Ran(old(pending), old(Strict()), old(world.FaultFree()), mode, target, answers, result, steps)
    {
      var begun := OpenJournal(mode, target, answers.plan, answers.drawnID);
      if begun.None? {
        NotBegun(old(Strict()), old(world.FaultFree()), mode, target, answers);
        return Rejected(InJournal), REPORT_ORDER[..3];
      }
      result, steps := RunTransaction(begun.value, answers);
    }

    /** `reconcileCompleted`: removes exactly the journal of the committed
        installation, and nothing else. */
    method ReconcileOwned()
      requires world.held && world.Valid()
      modifies world`durable, world`alive, world`faults, world`run
      ensures world.Valid()
      ensures world.durable == old(world.durable)
              || (old(world.durable).marker.Some? && world.durable == old(world.durable).(journal := None))
      ensures world.run != old(world.run) <==>
              old(world.Clear(5)) && world.durable.marker.Some? && old(world.durable).journal.Some?
      ensures old(world.FaultFree()) && old(world.durable).marker.Some? ==>
                world.durable.journal.None? && world.FaultFree()
    {
      var loaded := world.Probe();
      if !loaded || world.durable.marker.None? || !ValidMarker(world.durable.marker.value) { return; }
      var marker := world.durable.marker.value;
      loaded := world.Probe();
      if !loaded { return; }
      if world.durable.journal.None? {
        var _ := world.Probe();
        return;
      }
      var t := world.durable.journal.value;
      var valid := Validate(t);
      if !valid || !MatchesMarker(t, marker) { return; }
      FinishCommitted(t.id);
    }

    /** `apply` under the lease, up to the recovery of an interrupted journal. */
    method Settle(target: string) returns (failure: Option<FailureStage>, interrupted: Option<Transaction>)
      requires world.held && world.Valid() && world.durable.marker.None?
      modifies world`durable, world`alive, world`faults, world`run
      ensures world.Valid() && world.durable.marker.None?
      ensures world.durable == old(world.durable)
              || (old(world.durable.journal).Some? && SideEffectFree(old(world.durable.journal).value)
                  && world.durable == old(world.durable).(journal := None))
      ensures failure == Some(InJournal) <==>
              || !old(world.Next()).Done?
              || (old(world.durable).journal.Some? && !old(world.durable).journal.value.phase.Retryable?
                  && old(world.durable).journal.value.databaseTarget != target)
      ensures failure.Some? ==> failure.value in {InJournal, InCoordination}
      ensures failure.None? ==> forall n: nat | world.Clear(n) :: old(world.Clear(n + 1))
      ensures AllUndone(world.run, world.entered) <==> old(AllUndone(world.run, world.entered))
      ensures failure.None? ==>
                && world.durable.journal == interrupted
                && (old(world.durable).journal.Some? && !old(world.durable).journal.value.phase.Retryable? ==>
                      interrupted == old(world.durable).journal)
                && (interrupted.Some? ==>
                      interrupted.value.databaseTarget == target && !interrupted.value.phase.Retryable?)
      ensures old(world.FaultFree()) ==>
                && world.FaultFree()
                && (failure.None? <==>
                    || old(world.durable.journal).None? || old(world.durable.journal).value.phase.Retryable?
                    || old(world.durable.journal).value.databaseTarget == target)
                && world.durable == Dropped(old(world.durable))
    {
      interrupted := None;
      var loaded := world.Probe();
      if !loaded { return Some(InJournal), None; }
      if world.durable.journal.None? { return None, None; }
      var t := world.durable.journal.value;
      var valid := Validate(t);
      if !valid { return Some(InJournal), None; }
      if SideEffectFree(t) {
        SafeRetryableHasNoEffects(world.durable);
        var removed := DropJournal(t);
        return if removed then None else Some(InCoordination), None;
      }
      if t.databaseTarget != target { return Some(InJournal), None; }
      return None, Some(t);
    }

    /** The plan and dependency probes of `apply`. */
    method Preflight(mode: Mode, answers: Answers) returns (failure: Option<FailureStage>, steps: seq<Step>)
      requires world.Valid()
      modifies world`alive, world`faults
      ensures world.Valid()
      ensures steps <= REPORT_ORDER[..3]
      ensures steps == [] <==> !(old(world.Clear(1)) && PlanFits(answers, mode))
      ensures |steps| <= 1 <==> !(old(world.Clear(2)) && PlanFits(answers, mode) && answers.databaseOK)
      ensures failure.None? <==> old(world.Clear(3)) && Passes(answers, mode)
      ensures |steps| >= 1 ==> old(world.Clear(|steps|))
      ensures failure.None? ==> steps == REPORT_ORDER[..3] && Passes(answers, mode)
      ensures failure.Some? ==> |steps| < 3 && failure.value == [InPlan, InDatabase, InRedis][|steps|]
      ensures old(world.FaultFree()) ==> world.FaultFree()
    {
      steps := [];
      var ok := world.Probe();
      var plan := answers.plan;
      if !ok || !ValidUI(plan.selectedUI) || plan.mode != mode
         || !plan.canCleanup || !plan.canBuild || !plan.canWriteEnv {
        return Some(InPlan), steps;
      }
      steps := REPORT_ORDER[..1];
      ok := world.Probe();
      if !ok || !answers.databaseOK { return Some(InDatabase), steps; }
      steps := REPORT_ORDER[..2];
      ok := world.Probe();
      if !ok || !answers.redisOK { return Some(InRedis), steps; }
      return None, REPORT_ORDER[..3];
    }

    /** The recovery step of `apply`: an interrupted transaction of another UI is
        left alone. */
    method RecoverFirst(interrupted: Option<Transaction>, ui: UI) returns (failure: Option<FailureStage>)
      requires world.held && world.Valid() && world.durable.marker.None? && world.durable.journal == interrupted
      modifies world`durable, world`alive, world`faults, world`run, world`clock
      ensures world.Valid() && world.durable.marker.None?
      ensures failure.None? ==>
                world.durable.journal.None? && (interrupted.Some? ==> interrupted.value.selectedUI == ui)
      ensures failure.None? && old(AllUndone(world.run, world.entered)) ==> AllUndone(world.run, world.entered)
      ensures failure.Some? ==> failure == Some(InRecovery)
      ensures old(world.FaultFree()) ==>
                if interrupted.None? || interrupted.value.selectedUI == ui
                then failure.None? && world.FaultFree()
                else failure.Some? && world.durable == old(world.durable)
    {
      if interrupted.None? { return None; }
      if interrupted.value.selectedUI != ui { return Some(InRecovery); }
      var recovered := RecoverInterrupted(interrupted.value);
      return if recovered then None else Some(InRecovery);
    }

    /** `apply` from the loaded journal up to the start of a new transaction. */
    method Prepare(mode: Mode, target: string, answers: Answers)
      returns (failure: Option<FailureStage>, steps: seq<Step>)
      requires world.held && world.Valid() && world.durable.marker.None?
      modifies world`durable, world`alive, world`faults, world`run, world`clock
      ensures world.Valid() && world.durable.marker.None?
      ensures steps <= REPORT_ORDER[..3] && (failure.Some? ==> FailsAt(failure.value, |steps|))
      ensures steps != [] ==> old(world.Clear(1 + |steps|))
      ensures failure.None? && old(AllUndone(world.run, world.entered)) ==> AllUndone(world.run, world.entered)
      ensures failure.None? ==> world.durable.journal.None? && steps == REPORT_ORDER[..3]
      ensures failure.None? ==>
                Passes(answers, mode) && Recoverable(old(world.durable).journal, target, answers.plan.selectedUI)
      ensures old(world.FaultFree()) ==>
                && (failure, |steps|) == EarlyVerdict(old(world.durable).journal, mode, target, answers)
                && (if failure.None? then world.FaultFree() else world.durable == Dropped(old(world.durable)))
    {
      var interrupted;
      failure, interrupted := Settle(target);
      steps := [];
      if failure.Some? { return; }
      failure, steps := Preflight(mode, answers);
      if failure.Some? { return; }
      failure := RecoverFirst(interrupted, answers.plan.selectedUI);
    }

    /** What one `apply` makes of the installation `d` it found.  Whatever it
        meets, it ends as said of it, installs only what was asked for and fit,
        and gives a rejected transaction up as said.  Undisturbed, it installs
        exactly when the journal it found can be recovered and every answer is
        fit, and otherwise changes nothing, but for an environment orphaned by a
        receipt about another reference; on an installation it reconciles.
        All seven steps mean that it has installed. */
    ghost predicate Answered(
      d: Durable, before: Option<Pending>, strict: bool, undisturbed: bool,
      mode: Mode, target: string, answers: Answers, result: Result, steps: seq<Step>)
      reads this, world`durable, world`issued, world`clock, world`run, world`era, world`entered, Cells()
    {
      && Finishes(answers, strict) && steps <= REPORT_ORDER
      && (result.Rejected? ==> Rejects(result.stage, answers, |steps|, before))
      && (|steps| == 7 ==> pending.None? && CommittedBy(answers))
      && (result.Installed? ==>
            && d.marker.None? && InstalledBy(result, answers, mode, world.durable) && steps == REPORT_ORDER
            && Healthy(mode, target, answers) && Recoverable(d.journal, target, answers.plan.selectedUI))
      && (undisturbed && d.marker.Some? ==>
            result == Rejected(InLock) && world.durable == d.(journal := None))
      && (undisturbed ==>
            && (result.Installed? ==> world.durable.journal.None?)
            && (d.marker.None? && EarlyVerdict(d.journal, mode, target, answers).0.Some? ==>
                  world.durable == Dropped(d))
            && (d.marker.None? && EarlyVerdict(d.journal, mode, target, answers).0.None?
                && Ready(mode, target, answers) && !Honest(answers) ==>
                  Orphaned(world, answers.drawnID.value)))
      && (undisturbed ==> (StageOf(result), |steps|) == Verdict(d, mode, target, answers))
    }

    /** A rejection before anything was remembered. */
    lemma RejectedEarly(d: Durable, before: Option<Pending>, strict: bool, undisturbed: bool,
                        mode: Mode, target: string, answers: Answers, stage: FailureStage, steps: seq<Step>)
      requires Holds() && (strict ==> Valid()) && pending == before
      requires steps <= REPORT_ORDER && |steps| <= 3 && FailsAt(stage, |steps|)
      requires undisturbed && d.marker.Some? ==> stage == InLock && world.durable == d.(journal := None)
      requires undisturbed ==> (Some(stage), |steps|) == Verdict(d, mode, target, answers)
      requires undisturbed && d.marker.None? ==>
                 world.durable == Dropped(d) && EarlyVerdict(d.journal, mode, target, answers).0.Some?
      ensures Answered(d, before, strict, undisturbed, mode, target, answers, Rejected(stage), steps)
    {}

    /** `apply` on an installation, whose marker is left to reconciliation, or
        on one whose marker did not load. */
    method RefuseInstalled(loaded: bool, ghost undisturbed: bool, mode: Mode, target: string, answers: Answers)
      returns (result: Result)
      requires world.held && world.Valid() && EraOk() && (loaded ==> world.durable.marker.Some?)
      requires undisturbed ==> loaded && world.FaultFree()
      modifies world`durable, world`alive, world`faults, world`run
      ensures result == Rejected(InLock)
      ensures Answered(old(world.durable), old(pending), old(Strict()), undisturbed, mode, target, answers, result, [])
      ensures world.durable.marker == old(world.durable).marker && (!loaded ==> world.durable == old(world.durable))
    {
      if loaded {
        ReconcileOwned();
      }
      StillValid();
      result := Rejected(InLock);
      RejectedEarly(old(world.durable), old(pending), old(Strict()), undisturbed, mode, target, answers, InLock, []);
    }

    /** `apply` once no marker was found. */
    method ApplyFree(mode: Mode, target: string, answers: Answers, ghost undisturbed: bool)
      returns (result: Result, steps: seq<Step>)
      requires world.held && world.Valid() && EraOk() && AllUndone(world.run, world.entered)
               && world.durable.marker.None?
      requires answers.drawnID.Some? ==> answers.drawnID.value !in world.issued
      requires undisturbed ==> world.FaultFree()
      modifies this`pending, world`durable, world`alive, world`faults, world`run, world`clock, world`issued
      ensures Answered(old(world.durable), old(pending), old(Strict()), undisturbed, mode, target, answers, result,
              steps)
      ensures undisturbed && result.Installed? ==> world.FaultFree()
      ensures |steps| == 7 <==> result.Installed?
      ensures steps != [] ==> old(world.Clear(1 + if |steps| < 3 then |steps| else 3))
    {
      ghost var d, before, strict := world.durable, pending, Strict();
      var failure;
      failure, steps := Prepare(mode, target, answers);
      if failure.Some? {
        StillValid();
        result := Rejected(failure.value);
        RejectedEarly(d, before, strict, undisturbed, mode, target, answers, failure.value, steps);
        return;
      }
      result, steps := InstallFresh(mode, target, answers);
    }

    /** `apply` between taking and releasing the lease. */
    method ApplyOwned(mode: Mode, target: string, answers: Answers, ghost undisturbed: bool)
      returns (result: Result, steps: seq<Step>)
      requires world.held && world.Valid() && EraOk() && AllUndone(world.run, world.entered)
      requires answers.drawnID.Some? ==> answers.drawnID.value !in world.issued
      requires undisturbed ==> world.FaultFree()
      modifies this`pending, world`durable, world`alive, world`faults, world`run, world`clock, world`issued
      ensures Answered(old(world.durable), old(pending), old(Strict()), undisturbed, mode, target, answers, result,
              steps)
      ensures undisturbed && result.Installed? ==> world.FaultFree()
      ensures |steps| == 7 <==> result.Installed?
      ensures steps != [] ==> old(world.Clear(2 + if |steps| < 3 then |steps| else 3))
      ensures !old(world.Next()).Done? ==> result == Rejected(InLock) && world.durable == old(world.durable)
    {
      var loaded := world.Probe();
      if !loaded || world.durable.marker.Some? {
        result := RefuseInstalled(loaded, undisturbed, mode, target, answers);
        return result, [];
      }
      result, steps := ApplyFree(mode, target, answers, undisturbed);
    }

    /** What an installed call answers when its lease is not released. */
    lemma Unreleased(d: Durable, before: Option<Pending>, strict: bool,
                     mode: Mode, target: string, answers: Answers, answer: Result, steps: seq<Step>)
      requires Answered(d, before, strict, false, mode, target, answers, answer, steps) && |steps| == 7
      ensures Answered(d, before, strict, false, mode, target, answers, Rejected(InCoordination), steps)
    {}

    /** What an answer says of this process does not depend on the lease. */
    method LetGo(ghost answers: Answers, ghost strict: bool) returns (released: bool)
      requires Finishes(answers, strict)
      modifies world`alive, world`faults, world`held, world`released
      ensures Finishes(answers, strict) && !world.held && released == world.released == old(world.Next()).Done?
      ensures old(world.FaultFree()) ==> released
    {
      released := world.Release();
    }

    /** The release of the lease: if it fails, an installed answer becomes a
        rejection, and a rejection keeps its stage. */
    method Release(answer: Result, ghost d: Durable, ghost before: Option<Pending>, ghost strict: bool,
                   ghost undisturbed: bool, ghost mode: Mode, ghost target: string, ghost answers: Answers,
                   ghost steps: seq<Step>)
      returns (result: Result)
      requires Answered(d, before, strict, undisturbed, mode, target, answers, answer, steps)
      requires (undisturbed && answer.Installed? ==> world.FaultFree()) && (answer.Installed? ==> |steps| == 7)
      modifies world`alive, world`faults, world`held, world`released
      ensures Answered(d, before, strict, undisturbed, mode, target, answers, result, steps)
      ensures !world.held && (world.released <==> old(world.Next()).Done?)
      ensures result == if old(world.Next()).Done? || answer.Rejected? then answer else Rejected(InCoordination)
    {
      if answer.Installed? && !undisturbed {
        Unreleased(d, before, strict, mode, target, answers, answer, steps);
      }
      var released := LetGo(answers, strict);
      result := if released || answer.Rejected? then answer else Rejected(InCoordination);
    }

    /** `apply` once it has the lease. */
    method ApplyLeased(mode: Mode, target: string, answers: Answers, ghost undisturbed: bool)
      returns (result: Result, steps: seq<Step>)
      requires world.held && world.Valid() && EraOk() && AllUndone(world.run, world.entered)
      requires answers.drawnID.Some? ==> answers.drawnID.value !in world.issued
      requires undisturbed ==> world.FaultFree()
      modifies this`pending, world
      ensures Answered(old(world.durable), old(pending), old(Strict()), undisturbed, mode, target, answers, result,
              steps)
      ensures !world.held && (|steps| == 7 ==> (result.Installed? <==> world.released))
      ensures world.era == old(world.era) && world.entered == old(world.entered)
      ensures steps != [] ==> old(world.Clear(2 + if |steps| < 3 then |steps| else 3))
    {
      ghost var d, before, strict := world.durable, pending, Strict();
      result, steps := ApplyOwned(mode, target, answers, undisturbed);
      result := Release(result, d, before, strict, undisturbed, mode, target, answers, steps);
    }

    /** `apply` with its lease: taken, used and released. */
    method ApplyAlone(mode: Mode, target: string, answers: Answers, ghost undisturbed: bool)
      returns (result: Result, steps: seq<Step>)
      requires world.Valid() && EraOk() && AllUndone(world.run, world.entered)
      requires answers.drawnID.Some? ==> answers.drawnID.value !in world.issued
      requires !world.held && (undisturbed ==> world.FaultFree())
      modifies this`pending, world
      ensures Answered(old(world.durable), old(pending), old(Strict()), undisturbed, mode, target, answers, result,
              steps)
      ensures !world.held && (|steps| == 7 ==> (result.Installed? <==> world.released))
      ensures world.era == old(world.era) && world.entered == old(world.entered)
      ensures !old(world.Next()).Done? ==> result == Rejected(InCoordination) && world.durable == old(world.durable)
      ensures steps != [] ==> old(world.Clear(3 + if |steps| < 3 then |steps| else 3))
    {
      ghost var d, before, strict := world.durable, pending, Strict();
      var acquired := world.Acquire();
      if !acquired {
        StillValid();
        result, steps := Rejected(InCoordination), [];
        RejectedEarly(d, before, strict, undisturbed, mode, target, answers, InCoordination, steps);
        return;
      }
      result, steps := ApplyLeased(mode, target, answers, undisturbed);
    }

    /** `Apply`.  Whatever the request, the answers and the failures, every state
        passed through is safe, provided the environment installer does not
        answer about another reference than the one it was given; if it does,
        nothing worse than an orphaned environment is left. */
    method Apply(request: ApplyRequest, answers: Answers) returns (result: Result, steps: seq<Step>)
      requires Holds() && !world.held
      requires answers.drawnID.Some? ==> answers.drawnID.value !in world.issued
      modifies this`pending, world
      ensures !world.held && (|steps| == 7 ==> (result.Installed? <==> world.released))
      ensures world.entered == |old(world.run)|
      ensures world.Valid() ==> Evolves(old(world.Now()), world.Now())
      ensures !request.valid || request.databaseTarget.None? ==>
                && result == Rejected(InRequest) && steps == []
                && world.durable == old(world.durable) && pending == old(pending)
                && Holds() && (old(Strict()) ==> Valid())
      ensures request.valid && request.databaseTarget.Some? ==>
                Answered(old(world.durable), old(pending), old(Strict()), old(world.FaultFree()),
                         request.mode, request.databaseTarget.value, answers, result, steps)
      ensures steps != [] ==> old(world.Clear(3 + if |steps| < 3 then |steps| else 3))
    {
      world.Enter();
      if !request.valid || request.databaseTarget.None? {
        return Rejected(InRequest), [];
      }
      result, steps := ApplyAlone(request.mode, request.databaseTarget.value, answers, old(world.FaultFree()));
    }

    /** Reconciliation with its lease. */
    method ReconcileLeased()
      requires world.Valid() && !world.held && world.durable.marker.Some?
      modifies world`durable, world`alive, world`faults, world`run, world`held, world`released
      ensures world.Valid() && !world.held
      ensures world.durable in {old(world.durable), old(world.durable).(journal := None)}
      ensures old(world.FaultFree()) ==> world.durable == old(world.durable).(journal := None)
    {
      var acquired := world.Acquire();
      if acquired {
        ReconcileOwned();
        var _ := world.Release();
      }
    }

    /** `ReconcileCompleted`: never touches an uncommitted installation, and one
        undisturbed call leaves a committed one with its journal gone. */
    method ReconcileCompleted()
      requires Holds() && !world.held
      modifies world
      ensures Holds() && Strict() == old(Strict()) && Evolves(old(world.Now()), world.Now())
      ensures !world.held
      ensures old(world.durable).marker.None? ==> world.durable == old(world.durable)
      ensures world.durable in {old(world.durable), old(world.durable).(journal := None)}
      ensures old(world.FaultFree()) && old(world.durable).marker.Some? ==>
                world.durable == old(world.durable).(journal := None)
      ensures world.entered == |old(world.run)|
      ensures old(world.durable).marker.None? || !old(world.Next()).Done? ==>
                world.run == old(world.run) && world.released == old(world.released)
    {
      world.Enter();
      var loaded := world.Probe();
      if loaded && world.durable.marker.Some? {
        ReconcileLeased();
      }
      StillValid();
    }

    /** `rollbackMarker` of a marker that is not visible. */
    method RemoveInvisible(marker: Marker) returns (failed: bool)
      requires world.held && world.Valid() && world.durable.marker != Some(marker)
      modifies world`durable, world`alive, world`faults, world`run
      ensures world.Valid() && world.durable == old(world.durable)
      ensures |world.run| == |old(world.run)| + 1 && old(world.run) <= world.run
      ensures world.run[|old(world.run)|].call == MarkerRemove(marker)
      ensures old(world.FaultFree()) && world.durable.marker.None? ==> !failed && world.FaultFree()
      ensures !failed && old(AllUndone(world.run, world.entered)) ==> AllUndone(world.run, world.entered)
      ensures failed && world.durable.marker.None? ==> !AllUndone(world.run, world.entered)
      ensures !old(AllUndone(world.run, world.entered)) ==> !AllUndone(world.run, world.entered)
    {
      var removed := world.Perform(MarkerRemove(marker));
      failed := !removed.Success?;
    }

    /** The compensations of `Rollback`. */
    method RollbackPending(p: Pending) returns (failed: bool)
      requires world.held && world.Valid() && PendingOk(p, world.Now())
      modifies world`durable, world`alive, world`faults, world`run
      ensures world.Valid()
      ensures old(world.FaultFree()) && world.durable.marker.None? ==> !failed && world.FaultFree()
      ensures world.durable == old(world.durable).(
                identities := world.durable.identities, environments := world.durable.environments)
      ensures old(world.run) <= world.run
      ensures (if p.environment.None? && p.environmentIntent != ""
               then [EnvironmentRecover(p.environmentIntent)] + RollbackCalls(None, p.identity)
               else RollbackCalls(p.environment, p.identity))
              <= CallsSince(old(world.run), world.run)
      ensures !failed && p.marker.Some? ==>
                world.run != [] && world.run[|world.run| - 1].call == MarkerRemove(p.marker.value)
      ensures !failed && old(AllUndone(world.run, world.entered)) ==> AllUndone(world.run, world.entered)
      ensures failed && (p.marker.None? || old(world.durable).marker.None?) ==> !AllUndone(world.run, world.entered)
      ensures !failed ==>
                && p.transaction.value.id !in world.durable.identities
                && p.transaction.value.id !in world.durable.environments
    {
      if p.environment.None? && p.environmentIntent != "" {
        failed := RollbackPreparedEnvironment(p.environmentIntent, p.identity);
      } else {
        failed := RollbackEffects(p.environment, p.identity);
      }
      ghost var middle := world.run;
      if !failed && p.marker.Some? {
        failed := RemoveInvisible(p.marker.value);
      }
      CallsCompose(old(world.run), middle, world.run);
    }

    /** What a rollback that forgot its transaction left of it: a retryable journal. */
    ghost predicate Retired(id: string)
      reads world
    {
      && id !in world.durable.identities && id !in world.durable.environments
      && JournalHolds(world.durable, id) && SideEffectFree(world.durable.journal.value)
    }

    /** The last step of `Rollback`: the journal, if still this transaction's,
        becomes retryable. */
    method RetireFailed(t: Transaction) returns (ok: bool)
      requires world.held && world.Valid() && EraOk() && Sound(t)
      requires world.durable.commit.Some? ==> world.durable.commit.value.id != t.id
      requires t.id !in world.durable.identities && t.id !in world.durable.environments
      modifies world`durable, world`alive, world`faults, world`run, world`clock
      ensures world.Valid()
      ensures world.durable == old(world.durable).(journal := world.durable.journal)
      ensures AllUndone(world.run, world.entered) <==> old(AllUndone(world.run, world.entered))
      ensures |world.run| == |old(world.run)| + 1
              && world.run[|world.run| - 1].call == JournalUpdate(Retried(t, world.clock))
      ensures ok <==> old(JournalHolds(world.durable, t.id)) && world.run[|world.run| - 1].outcome.Done?
      ensures ok ==> old(JournalHolds(world.durable, t.id))
      ensures ok ==> JournalHolds(world.durable, t.id) && SideEffectFree(world.durable.journal.value)
      ensures old(world.FaultFree()) && old(JournalHolds(world.durable, t.id)) ==> ok && world.FaultFree()
    {
      var now := world.Time();
      var retried := Retried(t, now);
      var valid := Validate(retried);
      if !valid { return false; }
      if JournalHolds(world.durable, t.id) && world.durable.marker.None? {
        SafeEffectsBelongToJournal(world.durable);
      }
      var reply := world.Perform(JournalUpdate(retried));
      ok := reply.Success?;
    }

    /** `RollbackOwned` on what is remembered, before it is forgotten. */
    method Undo(p: Pending) returns (ok: bool)
      requires world.held && world.Valid() && PendingOk(p, world.Now()) && EraOk()
      modifies world`durable, world`alive, world`faults, world`run, world`clock
      ensures world.Valid() && world.durable.marker == old(world.durable).marker
      ensures old(AllUndone(world.run, world.entered)) ==>
                (ok <==>
                 && AllUndone(world.run, world.entered)
                 && old(JournalHolds(world.durable, p.transaction.value.id))
                 && world.run != [] && world.run[|world.run| - 1].call.JournalUpdate?
                 && world.run[|world.run| - 1].outcome.Done?)
      ensures ok ==>
                && old(JournalHolds(world.durable, p.transaction.value.id))
                && Retired(p.transaction.value.id)
      ensures old(world.FaultFree()) && old(JournalHolds(world.durable, p.transaction.value.id)) ==>
                ok && world.FaultFree()
    {
      ok := false;
      var failed := RollbackPending(p);
      if !failed {
        ok := RetireFailed(p.transaction.value);
      }
    }

    /** `Rollback` under its lease. */
    method RollbackOwned() returns (ok: bool)
      requires world.held && Valid() && EraOk() && pending.Some?
      modifies this`pending, world`durable, world`alive, world`faults, world`run, world`clock
      ensures Valid()
      ensures world.durable.marker == old(world.durable).marker
      ensures pending == if ok then None else old(pending)
      ensures old(AllUndone(world.run, world.entered)) ==>
                (ok <==>
                 && AllUndone(world.run, world.entered)
                 && old(JournalHolds(world.durable, pending.value.transaction.value.id))
                 && world.run != [] && world.run[|world.run| - 1].call.JournalUpdate?
                 && world.run[|world.run| - 1].outcome.Done?)
      ensures ok ==>
                && old(JournalHolds(world.durable, pending.value.transaction.value.id))
                && Retired(old(pending.value.transaction.value.id))
      ensures old(world.FaultFree()) && old(JournalHolds(world.durable, pending.value.transaction.value.id)) ==>
                ok && world.FaultFree()
    {
      ok := Undo(pending.value);
      StillValid();
      if ok { pending := None; }
    }

    /** `Rollback` of a remembered transaction, with its lease. */
    method RollbackAlone() returns (ok: bool)
      requires Valid() && EraOk() && !world.held && pending.Some? && AllUndone(world.run, world.entered)
      modifies this`pending, world`durable, world`alive, world`faults, world`run, world`clock, world`held,
      world`released
      ensures Valid() && !world.held && world.durable.marker == old(world.durable).marker
      ensures pending in {old(pending), None}
      ensures pending.None? <==>
                && old(world.Next()).Done? && AllUndone(world.run, world.entered)
                && old(JournalHolds(world.durable, pending.value.transaction.value.id))
                && world.run != [] && world.run[|world.run| - 1].call.JournalUpdate?
                && world.run[|world.run| - 1].outcome.Done?
      ensures ok <==> pending.None? && world.released
      ensures pending.None? ==> Retired(old(pending.value.transaction.value.id))
      ensures old(world.FaultFree()) ==>
                (ok <==> old(JournalHolds(world.durable, pending.value.transaction.value.id)))
    {
      ok := false;
      var acquired := world.Acquire();
      if acquired {
        ok := RollbackOwned();
        var released := world.Release();
        ok := ok && released;
      }
    }

    /** `Rollback`: compensates the last failed transaction from its in-memory
        receipts.  It forgets the transaction only when nothing of it is left,
        and never touches a committed installation.  Undisturbed, it succeeds
        exactly when the journal still holds that transaction; once the journal
        does not, no call succeeds and the transaction stays remembered. */
    method Rollback() returns (ok: bool)
      requires Valid() && !world.held
      modifies this`pending, world
      ensures Valid() && Evolves(old(world.Now()), world.Now())
      ensures world.durable.marker == old(world.durable).marker
      ensures !world.held && world.entered == |old(world.run)| && pending in {old(pending), None}
      ensures old(pending).Some? ==>
                (pending.None? <==>
                 && old(world.Next()).Done? && AllUndone(world.run, world.entered)
                 && old(JournalHolds(world.durable, pending.value.transaction.value.id))
                 && world.run != [] && world.run[|world.run| - 1].call.JournalUpdate?
                 && world.run[|world.run| - 1].outcome.Done?)
      ensures ok <==> old(pending).Some? && pending.None? && world.released
      ensures old(pending).Some? && pending.None? ==> Retired(old(pending.value.transaction.value.id))
      ensures old(pending).Some? && old(world.FaultFree()) ==>
                (ok <==> old(JournalHolds(world.durable, pending.value.transaction.value.id)))
      ensures old(pending).Some? && !old(JournalHolds(world.durable, pending.value.transaction.value.id)) ==>
                !ok && pending == old(pending)
    {
      world.Enter();
      if pending.None? { return false; }
      ok := RollbackAlone();
    }
  }
}
