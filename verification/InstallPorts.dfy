/** The installation as the services of several server processes see it: one
    durable state, reached by one call at a time under the apply lease. */
module InstallPorts {
  import opened Common
  import opened InstallTransaction
  import opened InstallWorld

  /** `issued` holds every transaction ID ever drawn; `clock` is the last instant read. */
  datatype Stamp = Stamp(durable: Durable, issued: set<string>, clock: nat)

  /** How the world may differ after another service has run: no effect appears
      under an ID issued before, a commit is final, and a new commit carries a
      new ID and a marker dated later than anything seen before. */
  ghost predicate Evolves(a: Stamp, b: Stamp) {
    && a.issued <= b.issued && a.clock <= b.clock
    && (forall r | r in b.durable.identities && r in a.issued :: r in a.durable.identities)
    && (forall r | r in b.durable.environments && r in a.issued :: r in a.durable.environments)
    && Keeps(a.durable, b.durable)
    && (a.durable.marker.None? && b.durable.marker.Some? ==>
          && b.durable.commit.Some? && b.durable.commit.value.id !in a.issued
          && b.durable.marker.value.installedAt > a.clock)
  }

  lemma EvolvesTransitive(a: Stamp, b: Stamp, c: Stamp)
    requires Evolves(a, b) && Evolves(b, c)
    ensures Evolves(a, c)
  {}

  /** What the ports promise, whatever the adversary asks for: the marker is
      all-or-nothing and only an identity compensation can be "not owned". */
  function Promised(c: Call, o: Outcome): Outcome {
    if o.Torn? && (c.MarkerCreate? || c.MarkerRemove?) then Refused
    else if o.NotOwned? && !(c.IdentityRollback? || c.IdentityRecover?) then Refused
    else o
  }

  /** An effect or a marker may be created only for a transaction younger than `era`. */
  predicate Youthful(c: Call, s: Stamp, era: Stamp) {
    && (c.IdentityInitialize? || c.EnvironmentPublish? ==> c.reference !in era.issued)
    && (c.JournalCreate? ==> c.record.id in s.issued)
    && (c.MarkerCreate? ==>
          && era.clock < c.marker.installedAt <= s.clock
          && (s.durable.journal.Some? ==> s.durable.journal.value.id !in era.issued))
  }

  ghost predicate Coherent(s: Stamp) {
    && Safe(s.durable)
    && (s.durable.journal.Some? ==> s.durable.journal.value.id in s.issued)
    && (s.durable.marker.Some? ==>
          s.durable.commit.value.id in s.issued && s.durable.marker.value.installedAt <= s.clock)
  }

  datatype Reply = Success | IdentityNotOwned | Error

  /** The calls that undo something. */
  predicate Compensates(c: Call) {
    || c.EnvironmentRollback? || c.EnvironmentRecover?
    || c.IdentityRollback? || c.IdentityRecover? || c.MarkerRemove?
  }

  /** What it undoes was reported gone; only the recovery of a prepared identity
      takes "not owned" for that. */
  predicate Undid(a: Attempt) {
    a.outcome.Done? || (a.call.IdentityRecover? && a.outcome.NotOwned?)
  }

  /** Since call number `from`, everything to be undone was. */
  predicate AllUndone(run: seq<Attempt>, from: nat)
    decreases |run|
  {
    |run| <= from ||
    var last := run[|run| - 1];
    AllUndone(run[..|run| - 1], from) && (Compensates(last.call) ==> Undid(last))
  }

  lemma {:induction false} AllUndoneMeans(run: seq<Attempt>, from: nat)
    ensures AllUndone(run, from) <==> forall i | from <= i < |run| && Compensates(run[i].call) :: Undid(run[i])
    decreases |run|
  {
    if |run| > from {
      var front := run[..|run| - 1];
      AllUndoneMeans(front, from);
      assert forall i | from <= i < |front| :: front[i] == run[i];
    }
  }

  lemma AllUndoneAppend(run: seq<Attempt>, a: Attempt, from: nat)
    requires from <= |run|
    ensures AllUndone(run + [a], from) <==> AllUndone(run, from) && (Compensates(a.call) ==> Undid(a))
  {
    assert (run + [a])[..|run|] == run;
  }

  lemma CallEvolves(era: Stamp, s: Stamp, c: Call, o: Outcome)
    requires Coherent(s) && Evolves(era, s) && (TakesEffect(o) ==> Disciplined(s.durable, c) && Youthful(c, s, era))
    ensures Coherent(s.(durable := After(s.durable, c, o)))
    ensures Evolves(era, s.(durable := After(s.durable, c, o)))
  {
    DisciplinedCallIsSafe(s.durable, c, o);
  }

  class World {
    var durable: Durable
    var issued: set<string>
    var clock: nat
    /** Whether the process now running is still up, and what its next calls meet. */
    var alive: bool
    var faults: seq<Outcome>
    /** The whole history: what it started from and every call since. */
    ghost const start: Durable
    ghost var run: seq<Attempt>
    /** The world when the public operation now running began, and how many
        calls had been made then. */
    ghost var era: Stamp
    ghost var entered: nat
    /** Whether this process holds the apply lease, and whether its last release
        was confirmed. */
    ghost var held: bool
    ghost var released: bool

    ghost function Now(): Stamp reads this`durable, this`issued, this`clock { Stamp(durable, issued, clock) }

    ghost predicate Valid()
      reads this`durable, this`issued, this`clock, this`run, this`era, this`entered
    {
      && Safe(start) && DisciplinedRun(start, run) && durable == Replay(start, run)
      && Coherent(Now()) && Evolves(era, Now()) && entered <= |run|
    }

    ghost predicate FaultFree() reads this`alive, this`faults { alive && faults == [] }

    /** All but the last call so far was part of a safe run. */
    ghost predicate Cut() reads this`run {
      run != [] && Safe(start) && DisciplinedRun(start, run[..|run| - 1])
    }

    constructor ()
      ensures Valid() && durable == Durable(None, None, {}, {}, None)
      ensures issued == {} && run == [] && FaultFree() && !held
    {
      durable := Durable(None, None, {}, {}, None);
      issued, clock, alive, faults := {}, 0, true, [];
      start, run := Durable(None, None, {}, {}, None), [];
      era := Stamp(Durable(None, None, {}, {}, None), {}, 0);
      entered, held, released := 0, false, false;
    }

    /** A new process, and the failures it is going to meet. */
    method Boot(script: seq<Outcome>)
      requires Valid()
      modifies this`alive, this`faults
      ensures Valid() && Now() == old(Now()) && run == old(run) && alive && faults == script && held == old(held)
    {
      alive, faults := true, script;
    }

    ghost method Enter()
      requires Valid()
      modifies this`era, this`entered
      ensures Valid() && era == Now() && entered == |run|
    {
      era, entered := Now(), |run|;
    }

    /** What the next call of this process meets. */
    ghost function Next(): Outcome
      reads this`alive, this`faults
    {
      if !alive then Crash else if faults == [] then Done else faults[0]
    }

    /** The next `n` calls all get through. */
    ghost predicate Clear(n: nat)
      reads this`alive, this`faults
    {
      alive && forall i | 0 <= i < n && i < |faults| :: faults[i].Done?
    }

    method Draw() returns (o: Outcome)
      modifies this`alive, this`faults
      ensures o == old(Next()) && (alive <==> old(alive) && !o.Crash?)
      ensures faults == if old(alive) && old(faults) != [] then old(faults)[1..] else old(faults)
    {
      if !alive { return Crash; }
      if faults == [] { return Done; }
      o, faults := faults[0], faults[1..];
      alive := !o.Crash?;
    }

    /** A port call without a durable effect of its own: plan and dependency
        probes, schema migration, loads, lease, finalizers, housekeeping. */
    method Probe() returns (ok: bool)
      modifies this`alive, this`faults
      ensures ok <==> old(Next()).Done?
      ensures alive <==> old(alive) && !old(Next()).Crash?
      ensures faults == if old(alive) && old(faults) != [] then old(faults)[1..] else old(faults)
      ensures old(FaultFree()) ==> FaultFree() && ok
    {
      var o := Draw();
      ok := o.Done?;
    }

    /** Takes the apply lease. */
    method Acquire() returns (ok: bool)
      requires !held
      modifies this`alive, this`faults, this`held
      ensures ok == held && (ok <==> old(Next()).Done?)
      ensures old(FaultFree()) ==> FaultFree() && ok
      ensures ok ==> forall n: nat | Clear(n) :: old(Clear(n + 1))
    {
      ok := Probe();
      held := ok;
    }

    /** Gives it up; the holder may not learn that it did. */
    method Release() returns (ok: bool)
      modifies this`alive, this`faults, this`held, this`released
      ensures !held && ok == released && (ok <==> old(Next()).Done?)
      ensures old(FaultFree()) ==> FaultFree() && ok
    {
      ok := Probe();
      held, released := false, ok;
    }

    method Time() returns (t: nat)
      requires Valid()
      modifies this`clock
      ensures Valid() && t == clock == old(clock) + 1
    {
      clock := clock + 1;
      t := clock;
    }

    method Issue(id: string)
      requires Valid() && id !in issued
      modifies this`issued
      ensures Valid() && issued == old(issued) + {id}
    {
      issued := issued + {id};
    }

    /** Performs one disciplined port call, under the lease, and logs it. */
    method Perform(c: Call) returns (reply: Reply)
      requires held && Valid() && Disciplined(durable, c) && Youthful(c, Now(), era)
      modifies this`durable, this`alive, this`faults, this`run
      ensures Valid()
      ensures |run| == |old(run)| + 1 && old(run) <= run && run[|old(run)|].call == c
      ensures durable == After(old(durable), c, run[|old(run)|].outcome)
      ensures reply.Success? <==> run[|old(run)|].outcome.Done? && Accepts(old(durable), c)
      ensures reply.IdentityNotOwned? <==> run[|old(run)|].outcome.NotOwned?
      ensures reply.IdentityNotOwned? ==> c.IdentityRollback? || c.IdentityRecover?
      ensures run[|old(run)|].outcome == Promised(c, old(Next()))
      ensures AllUndone(run, entered) <==>
                old(AllUndone(run, entered)) && (Compensates(c) ==> Undid(run[|old(run)|]))
      ensures old(FaultFree()) ==> FaultFree() && run[|old(run)|].outcome.Done?
      ensures run[|old(run)|].outcome.Done? ==>
                old(alive) && alive && faults == if old(faults) == [] then [] else old(faults)[1..]
    {
      var drawn := Draw();
      var outcome := Promised(c, drawn);
      AllUndoneAppend(run, Attempt(c, outcome), entered);
      CallEvolves(era, Now(), c, outcome);
      RunsAppend(start, run, Attempt(c, outcome));
      reply := if outcome.Done? && Accepts(durable, c) then Success
               else if outcome.NotOwned? then IdentityNotOwned
               else Error;
      durable := After(durable, c, outcome);
      run := run + [Attempt(c, outcome)];
    }

    /** A journal update as the code issues it, disciplined or not: it leaves the
        run safe unless it takes effect without being so. */
    method Write(t: Transaction) returns (reply: Reply)
      requires held && Valid()
      modifies this`durable, this`alive, this`faults, this`run
      ensures |run| == |old(run)| + 1 && old(run) <= run && run[|old(run)|].call == JournalUpdate(t)
      ensures durable == After(old(durable), JournalUpdate(t), run[|old(run)|].outcome)
      ensures reply.Success? <==> run[|old(run)|].outcome.Done? && Accepts(old(durable), JournalUpdate(t))
      ensures run[|old(run)|].outcome == Promised(JournalUpdate(t), old(Next()))
      ensures AllUndone(run, entered) <==> old(AllUndone(run, entered))
      ensures old(FaultFree()) ==> FaultFree() && run[|old(run)|].outcome.Done?
      ensures Disciplined(old(durable), JournalUpdate(t)) || !TakesEffect(run[|old(run)|].outcome) ==> Valid()
      ensures Cut()
    {
      var c := JournalUpdate(t);
      var drawn := Draw();
      var outcome := Promised(c, drawn);
      AllUndoneAppend(run, Attempt(c, outcome), entered);
      if TakesEffect(outcome) ==> Disciplined(durable, c) {
        CallEvolves(era, Now(), c, outcome);
        RunsAppend(start, run, Attempt(c, outcome));
      }
      reply := if outcome.Done? && Accepts(durable, c) then Success else Error;
      durable := After(durable, c, outcome);
      run := run + [Attempt(c, outcome)];
      assert run[..|run| - 1] == old(run);
    }
  }
}
