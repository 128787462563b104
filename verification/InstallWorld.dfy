/** The durable side of a first install: the journal, the marker and the two
    kinds of compensatable effect, with the port calls that change them.

    A call's outcome is chosen by an adversary.  Port contracts assumed here:
    the journal's `Update` and `Remove` act only on the matching ID; marker
    creation and removal are all-or-nothing; a compensation that reports success
    (or `ErrIdentityNotOwned`) leaves its effect absent, and an effect is created
    only under the reference that was asked for. */
module InstallWorld {
  import opened Common
  import opened InstallTransaction

  /** `commit` is a history variable: the record the journal held when the
      visible marker was created. */
  datatype Durable = Durable(
    journal: Option<Transaction>, marker: Option<Marker>,
    identities: set<string>, environments: set<string>,
    commit: Option<Transaction>)

  datatype Call =
    | JournalCreate(record: Transaction)
    | JournalUpdate(record: Transaction)
    | JournalRemove(id: string)
    | IdentityInitialize(reference: string)
    | IdentityRollback(reference: string)
    | IdentityRecover(reference: string)
    | EnvironmentPublish(reference: string)
    | EnvironmentRollback(reference: string)
    | EnvironmentRecover(reference: string)
    | MarkerCreate(marker: Marker)
    | MarkerRemove(marker: Marker)

  /** `Refused`: an error, nothing happened.  `Torn`: an error, yet the effect
      took place.  `NotOwned`: `ErrIdentityNotOwned`, the effect is absent.
      `Crash`: the process died before the call took effect. */
  datatype Outcome = Done | Refused | Torn | NotOwned | Crash

  predicate TakesEffect(o: Outcome) { o.Done? || o.Torn? || o.NotOwned? }

  predicate JournalHolds(d: Durable, id: string) { d.journal.Some? && d.journal.value.id == id }

  /** The durable state a call that takes effect leaves. */
  function Perform(d: Durable, c: Call): Durable {
    match c
    case JournalCreate(t) => if d.journal.None? then d.(journal := Some(t)) else d
    case JournalUpdate(t) => if JournalHolds(d, t.id) then d.(journal := Some(t)) else d
    case JournalRemove(id) => if JournalHolds(d, id) then d.(journal := None) else d
    case IdentityInitialize(r) => d.(identities := d.identities + {r})
    case IdentityRollback(r) => d.(identities := d.identities - {r})
    case IdentityRecover(r) => d.(identities := d.identities - {r})
    case EnvironmentPublish(r) => d.(environments := d.environments + {r})
    case EnvironmentRollback(r) => d.(environments := d.environments - {r})
    case EnvironmentRecover(r) => d.(environments := d.environments - {r})
    case MarkerCreate(m) => if d.marker.None? then d.(marker := Some(m), commit := d.journal) else d
    case MarkerRemove(m) => if d.marker == Some(m) then d.(marker := None, commit := None) else d
  }

  /** Whether the port itself accepts the call: a second journal or marker is
      busy, a foreign journal or marker is "changed". */
  predicate Accepts(d: Durable, c: Call) {
    match c
    case JournalCreate(_) => d.journal.None?
    case JournalUpdate(t) => JournalHolds(d, t.id)
    case JournalRemove(id) => d.journal.None? || JournalHolds(d, id)
    case MarkerCreate(_) => d.marker.None?
    case MarkerRemove(m) => d.marker.None? || d.marker == Some(m)
    case _ => true
  }

  function After(d: Durable, c: Call, o: Outcome): Durable {
    if TakesEffect(o) then Perform(d, c) else d
  }

  /** While no marker is visible, every effect is named by the journal. */
  predicate WriteAhead(d: Durable) {
    && (forall r | r in d.identities :: d.journal.Some? && NamesIdentity(d.journal.value, r))
    && (forall r | r in d.environments :: d.journal.Some? && NamesEnvironment(d.journal.value, r))
  }

  /** The visible marker was created over a complete record, whose identity and
      environment are in place and are the only ones; a journal still present is
      that record, unchanged. */
  predicate Committed(d: Durable) {
    && d.marker.Some? && d.commit.Some?
    && Recordable(d.commit.value) && MatchesMarker(d.commit.value, d.marker.value)
    && d.identities == {d.commit.value.id} && d.environments == {d.commit.value.id}
    && (d.journal.Some? ==> d.journal == d.commit)
  }

  predicate Safe(d: Durable) {
    && (d.journal.Some? ==> Recordable(d.journal.value))
    && (if d.marker.Some? then Committed(d) else WriteAhead(d) && d.commit.None?)
  }

  /** A retryable journal, or any other that names nothing, means that no
      effect exists. */
  lemma SafeRetryableHasNoEffects(d: Durable)
    requires Safe(d) && d.marker.None?
    requires d.journal.Some? ==> d.journal.value.phase.Retryable? || ReceiptFree(d.journal.value)
    ensures d.identities == {} && d.environments == {}
  {
    assert forall r :: r !in d.identities && r !in d.environments;
  }

  lemma SafeEffectsBelongToJournal(d: Durable)
    requires Safe(d) && d.marker.None? && d.journal.Some?
    ensures d.identities <= {d.journal.value.id} && d.environments <= {d.journal.value.id}
  {}

  predicate Covers(t: Transaction, d: Durable) {
    && (forall r | r in d.identities :: NamesIdentity(t, r))
    && (forall r | r in d.environments :: NamesEnvironment(t, r))
  }

  /** The discipline every port call of the installer keeps. */
  predicate Disciplined(d: Durable, c: Call) {
    match c
    case JournalCreate(t) =>
      d.marker.None? && Recordable(t) && d.identities == {} && d.environments == {}
    case JournalUpdate(t) =>
      JournalHolds(d, t.id) ==> d.marker.None? && Recordable(t) && Covers(t, d)
    case JournalRemove(id) =>
      JournalHolds(d, id) && d.marker.None? ==> d.identities == {} && d.environments == {}
    case IdentityInitialize(r) =>
      d.marker.None? && d.journal.Some? && NamesIdentity(d.journal.value, r)
    case EnvironmentPublish(r) =>
      d.marker.None? && d.journal.Some? && NamesEnvironment(d.journal.value, r)
    case MarkerCreate(m) =>
      && d.marker.None? && d.journal.Some? && MatchesMarker(d.journal.value, m)
      && d.identities == {d.journal.value.id} && d.environments == {d.journal.value.id}
    case MarkerRemove(m) => d.marker != Some(m)
    case IdentityRollback(r) => d.commit.Some? ==> r != d.commit.value.id
    case IdentityRecover(r) => d.commit.Some? ==> r != d.commit.value.id
    case EnvironmentRollback(r) => d.commit.Some? ==> r != d.commit.value.id
    case EnvironmentRecover(r) => d.commit.Some? ==> r != d.commit.value.id
  }

  /** A committed installation is final: only its journal may still go away. */
  predicate Keeps(d: Durable, e: Durable) {
    d.marker.Some? ==>
      && e.marker == d.marker && e.commit == d.commit
      && e.identities == d.identities && e.environments == d.environments
      && (e.journal == d.journal || e.journal.None?)
  }

  /** Write-ahead safety and the finality of the marker hold of every disciplined call. */
  lemma DisciplinedCallIsSafe(d: Durable, c: Call, o: Outcome)
    requires Safe(d) && (TakesEffect(o) ==> Disciplined(d, c))
    ensures Safe(After(d, c, o)) && Keeps(d, After(d, c, o))
  {
    var e := After(d, c, o);
    if d.marker.None? && e.marker.None? {
      forall r | r in e.identities ensures e.journal.Some? && NamesIdentity(e.journal.value, r) {}
      forall r | r in e.environments ensures e.journal.Some? && NamesEnvironment(e.journal.value, r) {}
    }
  }

  datatype Attempt = Attempt(call: Call, outcome: Outcome)

  /** A run: the durable state after each attempt.  A crash may cut it anywhere,
      and whatever process comes next continues from the state it left.  Only a
      call that takes effect has to be disciplined. */
  ghost predicate DisciplinedRun(d: Durable, run: seq<Attempt>)
    decreases |run|
  {
    run == [] ||
    ((TakesEffect(run[0].outcome) ==> Disciplined(d, run[0].call)) &&
     DisciplinedRun(After(d, run[0].call, run[0].outcome), run[1..]))
  }

  function Replay(d: Durable, run: seq<Attempt>): Durable
    decreases |run|
  {
    if run == [] then d else Replay(After(d, run[0].call, run[0].outcome), run[1..])
  }

  /** Every prefix of a disciplined run, hence every state a crash can expose,
      is safe, and a marker once visible stays with its effects for ever. */
  lemma {:induction false} DisciplinedRunIsSafe(d: Durable, run: seq<Attempt>, i: nat, j: nat)
    requires Safe(d) && DisciplinedRun(d, run) && i <= j <= |run|
    ensures Safe(Replay(d, run[..i])) && Safe(Replay(d, run[..j]))
    ensures Keeps(Replay(d, run[..i]), Replay(d, run[..j]))
    decreases |run|
  {
    if j == 0 {
    } else {
      var e := After(d, run[0].call, run[0].outcome);
      DisciplinedCallIsSafe(d, run[0].call, run[0].outcome);
      assert run[..j][1..] == run[1..][..j - 1];
      if i == 0 {
        DisciplinedRunIsSafe(e, run[1..], 0, j - 1);
        assert run[1..][..0] == [];
      } else {
        assert run[..i][1..] == run[1..][..i - 1];
        DisciplinedRunIsSafe(e, run[1..], i - 1, j - 1);
      }
    }
  }

  lemma {:induction false} RunsAppend(d: Durable, run: seq<Attempt>, a: Attempt)
    requires DisciplinedRun(d, run) && (TakesEffect(a.outcome) ==> Disciplined(Replay(d, run), a.call))
    ensures DisciplinedRun(d, run + [a])
    ensures Replay(d, run + [a]) == After(Replay(d, run), a.call, a.outcome)
    decreases |run|
  {
    if run == [] {
      assert (run + [a])[1..] == [];
    } else {
      assert (run + [a])[1..] == run[1..] + [a];
      RunsAppend(After(d, run[0].call, run[0].outcome), run[1..], a);
    }
  }
}
