/** The generation-stamped, deny-only decision cache (iam/cache.go) under
    concurrent lookups, policy mutations, invalidations and expiry. */
module PermissionCache {
  import opened Common

  /** A subject and request, as the cache digests them. */
  type Key = string
  type Thread = nat

  /** `evaluated` is a history variable: the policy version behind a deny. */
  datatype Entry = Entry(allowed: bool, evaluated: nat)

  /** An `Authorize` in progress: after its `Get`, or after its evaluation. */
  datatype Flight =
    | Looked(key: Key, generation: nat)
    | Judged(key: Key, generation: nat, version: nat)

  /** `policies[v]` is the set of keys version `v` of the policy allows, and
      `starts[g]` the version in force when generation `g` began; the last of
      each is the current one. */
  datatype State = State(
    policies: seq<set<Key>>, starts: seq<nat>,
    entries: map<(nat, Key), Entry>, flights: map<Thread, Flight>)
  {
    function Version(): int { |policies| - 1 }
    function Generation(): int { |starts| - 1 }
  }

  datatype Event =
    | Get(thread: Thread, key: Key)
    | Evaluate(thread: Thread)
    | EvaluateFails(thread: Thread)
    | Set(thread: Thread)
    | SetFails(thread: Thread)
    | Mutate(policy: set<Key>)
    | Invalidate
    | Expire(generation: nat, key: Key)
    | InjectAllow(generation: nat, key: Key)

  predicate DenyCached(s: State, k: Key)
    requires |s.starts| > 0
  {
    (s.Generation(), k) in s.entries && !s.entries[(s.Generation(), k)].allowed
  }

  /** One atomic step of one thread, or of the environment. */
  function Step(s: State, e: Event): State
    requires |s.starts| > 0 && |s.policies| > 0
  {
    match e
    case Get(t, k) =>
      if t in s.flights || DenyCached(s, k) then s
      else s.(flights := s.flights[t := Looked(k, s.Generation())])
    case Evaluate(t) =>
      if t !in s.flights || !s.flights[t].Looked? then s
      else if s.flights[t].key in s.policies[s.Version()] then s.(flights := s.flights - {t})
      else s.(flights := s.flights[t := Judged(s.flights[t].key, s.flights[t].generation, s.Version())])
    case EvaluateFails(t) => s.(flights := s.flights - {t})
    case Set(t) =>
      if t !in s.flights || !s.flights[t].Judged? then s
      else var f := s.flights[t];
           s.(entries := s.entries[(f.generation, f.key) := Entry(false, f.version)], flights := s.flights - {t})
    case SetFails(t) => s.(flights := s.flights - {t})
    case Mutate(p) => s.(policies := s.policies + [p])
    case Invalidate => s.(starts := s.starts + [s.Version()])
    case Expire(g, k) => s.(entries := s.entries - {(g, k)})
    case InjectAllow(g, k) => s.(entries := s.entries[(g, k) := Entry(true, 0)])
  }

  /** A deny for `k` in generation `g`, evaluated against version `v`, is honest:
      `v` was in force no earlier than the start of `g`, and denied `k`. */
  predicate HonestDeny(s: State, g: nat, k: Key, v: nat) {
    g < |s.starts| && s.starts[g] <= v < |s.policies| && k !in s.policies[v]
  }

  ghost predicate Inv(s: State) {
    && |s.starts| > 0 && |s.policies| > 0
    && (forall g | 0 <= g < |s.starts| :: s.starts[g] < |s.policies|)
    && (forall g, k | (g, k) in s.entries && !s.entries[(g, k)].allowed ::
          HonestDeny(s, g, k, s.entries[(g, k)].evaluated))
    && (forall t | t in s.flights :: s.flights[t].generation < |s.starts|)
    && (forall t | t in s.flights && s.flights[t].Judged? ::
          HonestDeny(s, s.flights[t].generation, s.flights[t].key, s.flights[t].version))
  }

  /** The policy and the generations only ever gain versions. */
  predicate Grows(a: State, b: State) {
    a.policies <= b.policies && a.starts <= b.starts
  }

  lemma StepKeepsInv(s: State, e: Event)
    requires Inv(s)
    ensures Inv(Step(s, e)) && Grows(s, Step(s, e))
  {
    var r := Step(s, e);
    assert forall g, k, v | HonestDeny(s, g, k, v) :: HonestDeny(r, g, k, v);
  }

  function Run(s: State, events: seq<Event>): State
    requires |s.starts| > 0 && |s.policies| > 0
    ensures |Run(s, events).starts| > 0 && |Run(s, events).policies| > 0
    decreases |events|
  {
    if events == [] then s else Run(Step(s, events[0]), events[1..])
  }

  lemma {:induction false} RunKeepsInv(s: State, events: seq<Event>)
    requires Inv(s)
    ensures Inv(Run(s, events)) && Grows(s, Run(s, events))
    decreases |events|
  {
    if events != [] {
      StepKeepsInv(s, events[0]);
      RunKeepsInv(Step(s, events[0]), events[1..]);
    }
  }

  /** Under any interleaving: whenever the policy has not changed since the last
      invalidation, every deny the cache would serve is the deny the policy
      store would give. */
  lemma CachedDenyAgrees(s: State, events: seq<Event>, k: Key)
    requires Inv(s)
    ensures var r := Run(s, events);
            r.starts[r.Generation()] == r.Version() && DenyCached(r, k) ==> k !in r.policies[r.Version()]
  {
    RunKeepsInv(s, events);
  }

  lemma {:induction false} ForeignEventsLeaveFlight(s: State, events: seq<Event>, t: Thread)
    requires Inv(s) && NotOf(events, t)
    ensures t in Run(s, events).flights <==> t in s.flights
    ensures t in s.flights ==> Run(s, events).flights[t] == s.flights[t]
    decreases |events|
  {
    if events != [] {
      StepKeepsInv(s, events[0]);
      ForeignEventsLeaveFlight(Step(s, events[0]), events[1..], t);
    }
  }

  lemma {:induction false} QuietEventsKeepPolicy(s: State, events: seq<Event>)
    requires Inv(s) && forall e | e in events :: !e.Mutate?
    ensures Run(s, events).policies == s.policies
    decreases |events|
  {
    if events != [] {
      StepKeepsInv(s, events[0]);
      QuietEventsKeepPolicy(Step(s, events[0]), events[1..]);
    }
  }

  /** The policy in force after some events: the last one saved. */
  function PolicyAfter(policy: set<Key>, events: seq<Event>): set<Key>
    decreases |events|
  {
    if events == [] then policy
    else PolicyAfter(if events[0].Mutate? then events[0].policy else policy, events[1..])
  }

  lemma {:induction false} RunsToPolicy(s: State, events: seq<Event>)
    requires Inv(s)
    ensures var r := Run(s, events); r.policies[r.Version()] == PolicyAfter(s.policies[s.Version()], events)
    decreases |events|
  {
    RunKeepsInv(s, events);
    if events != [] {
      StepKeepsInv(s, events[0]);
      RunsToPolicy(Step(s, events[0]), events[1..]);
    }
  }

  predicate NotOf(events: seq<Event>, t: Thread) {
    forall e | e in events :: (e.Get? || e.Evaluate? || e.EvaluateFails? || e.Set? || e.SetFails?) ==> e.thread != t
  }

  datatype Answer = Allowed | Denied | Failed

  /** `cachedAuthorizer` over one shared cache and policy store. */
  class CachedAuthorizer {
    var state: State

    constructor (policy: set<Key>)
      ensures Inv(state) && state == State([policy], [0], map[], map[])
    {
      state := State([policy], [0], map[], map[]);
    }

    /** Other threads run for a while. */
    method Interfere(events: seq<Event>)
      requires Inv(state)
      modifies this
      ensures Inv(state) && Grows(old(state), state) && state == Run(old(state), events)
    {
      RunKeepsInv(state, events);
      for i := 0 to |events|
        invariant |state.starts| > 0 && |state.policies| > 0
        invariant Run(state, events[i..]) == Run(old(state), events)
      {
        assert events[i..][1..] == events[i + 1..];
        state := Step(state, events[i]);
      }
    }

    /** Other threads run for a while during a call on thread `t`. */
    method Yield(t: Thread, events: seq<Event>)
      requires Inv(state) && t in state.flights && NotOf(events, t)
      modifies this
      ensures Inv(state) && Grows(old(state), state) && state == Run(old(state), events)
      ensures t in state.flights && state.flights[t] == old(state.flights[t])
      ensures state.policies[state.Version()] == PolicyAfter(old(state.policies[state.Version()]), events)
      ensures (forall e | e in events :: !e.Mutate?) ==> state.policies == old(state.policies)
    {
      ForeignEventsLeaveFlight(state, events, t);
      RunsToPolicy(state, events);
      if forall e | e in events :: !e.Mutate? {
        QuietEventsKeepPolicy(state, events);
      }
      Interfere(events);
    }

    /** The `Get` step: `denied` when the current generation holds a deny. */
    method Lookup(t: Thread, key: Key) returns (denied: bool)
      requires Inv(state) && t !in state.flights
      modifies this
      ensures Inv(state) && state.policies == old(state).policies && state.starts == old(state).starts
      ensures denied <==> DenyCached(old(state), key)
      ensures denied ==>
                && state == old(state)
                && exists v :: state.starts[state.Generation()] <= v <= state.Version() && key !in state.policies[v]
      ensures !denied ==> t in state.flights && state.flights[t] == Looked(key, state.Generation())
      ensures !denied ==> state == Step(old(state), Get(t, key))
    {
      denied := DenyCached(state, key);
      if denied {
        ghost var v := state.entries[(state.Generation(), key)].evaluated;
        assert HonestDeny(state, state.Generation(), key, v);
      } else {
        // An allow found in the cache is ignored.
        StepKeepsInv(state, Get(t, key));
        state := Step(state, Get(t, key));
      }
    }

    /** The evaluation step, against the policy now in force. */
    method Decide(t: Thread, key: Key, generation: nat, evaluateOK: bool) returns (answer: Answer)
      requires Inv(state) && t in state.flights && state.flights[t] == Looked(key, generation)
      modifies this
      ensures Inv(state) && state.policies == old(state).policies && state.starts == old(state).starts
      ensures answer == if !evaluateOK then Failed
                        else if key in state.policies[state.Version()] then Allowed else Denied
      ensures state == Step(old(state), if evaluateOK then Evaluate(t) else EvaluateFails(t))
      ensures !answer.Denied? ==> t !in state.flights
      ensures answer.Denied? ==>
                t in state.flights && state.flights[t] == Judged(key, generation, state.Version())
    {
      var e := if evaluateOK then Evaluate(t) else EvaluateFails(t);
      answer := if !evaluateOK then Failed
                else if key in state.policies[state.Version()] then Allowed else Denied;
      StepKeepsInv(state, e);
      state := Step(state, e);
    }

    /** The `Set` step: a deny goes to the generation `Get` observed. */
    method Remember(t: Thread, setOK: bool) returns (answer: Answer)
      requires Inv(state) && t in state.flights && state.flights[t].Judged?
      modifies this
      ensures Inv(state) && state.policies == old(state).policies && state.starts == old(state).starts
      ensures t !in state.flights && answer == if setOK then Denied else Failed
      ensures state == Step(old(state), if setOK then Set(t) else SetFails(t))
      ensures var f := old(state).flights[t];
              state.entries == if setOK
                               then old(state).entries[(f.generation, f.key) := Entry(false, f.version)]
                               else old(state).entries
    {
      var e := if setOK then Set(t) else SetFails(t);
      StepKeepsInv(state, e);
      state := Step(state, e);
      answer := if setOK then Denied else Failed;
    }

    /** `Authorize` on thread `t`, with whatever other threads do between its
        `Get`, its evaluation and its `Set`.  It fails exactly when the `Get`
        failed or, without a deny to serve, the evaluation failed, or the
        evaluation denied and the `Set` failed; it allows exactly what the
        policy in force at the evaluation allows.  An allow always comes from an
        evaluation made during this call; a deny, from one made since the last
        invalidation before it, and it is then the deny cached for the generation
        observed.  With a quiet policy that was invalidated since it last
        changed, the answer is the uncached one. */
    method Authorize(t: Thread, key: Key, getOK: bool, evaluateOK: bool, setOK: bool,
                     first: seq<Event>, second: seq<Event>) returns (answer: Answer)
      requires Inv(state) && t !in state.flights && NotOf(first, t) && NotOf(second, t)
      modifies this
      ensures Inv(state) && Grows(old(state), state) && t !in state.flights
      ensures getOK && DenyCached(old(state), key) ==> answer.Denied? && state == old(state)
      ensures var p := PolicyAfter(old(state.policies[state.Version()]), first);
              var served := DenyCached(old(state), key);
              && (answer.Failed? <==> !getOK || (!served && (!evaluateOK || (key !in p && !setOK))))
              && (answer.Allowed? <==> getOK && !served && evaluateOK && key in p)
      ensures answer.Denied? ==>
                && (old(state.Generation()), key) in state.entries
                && !state.entries[(old(state.Generation()), key)].allowed
      ensures !getOK ==> state == old(state)
      ensures getOK && !DenyCached(old(state), key) ==>
                var judged := Step(Run(Step(old(state), Get(t, key)), first),
                                   if evaluateOK then Evaluate(t) else EvaluateFails(t));
                && (answer.Allowed? || !evaluateOK ==> state == judged)
                && (!answer.Allowed? && evaluateOK ==>
                      state == Step(Run(judged, second), if setOK then Set(t) else SetFails(t)))
      ensures answer.Allowed? ==>
                exists v :: old(state.Version()) <= v <= state.Version() && key in state.policies[v]
      ensures answer.Denied? ==>
                exists v :: old(state.starts[state.Generation()]) <= v <= state.Version() && key !in state.policies[v]
      ensures !answer.Failed? && old(state.starts[state.Generation()] == state.Version())
              && (forall e | e in first :: !e.Mutate?) ==>
                (answer.Allowed? <==> old(key in state.policies[state.Version()]))
    {
      if !getOK { return Failed; }
      var generation := state.Generation();
      var served := Lookup(t, key);
      if served { return Denied; }
      Yield(t, first);
      answer := Judge(t, key, generation, evaluateOK, setOK, second);
    }

    /** `Authorize` from the evaluation on. */
    method Judge(t: Thread, key: Key, generation: nat, evaluateOK: bool, setOK: bool, second: seq<Event>)
      returns (answer: Answer)
      requires Inv(state) && t in state.flights && state.flights[t] == Looked(key, generation) && NotOf(second, t)
      modifies this
      ensures Inv(state) && Grows(old(state), state) && t !in state.flights
      ensures var p := old(state.policies[state.Version()]);
              && (answer.Failed? <==> !evaluateOK || (key !in p && !setOK))
              && (answer.Allowed? <==> evaluateOK && key in p)
      ensures answer.Denied? ==>
                (generation, key) in state.entries && !state.entries[(generation, key)].allowed
      ensures var judged := Step(old(state), if evaluateOK then Evaluate(t) else EvaluateFails(t));
              state == if answer.Allowed? || !evaluateOK then judged
                       else Step(Run(judged, second), if setOK then Set(t) else SetFails(t))
    {
      answer := Decide(t, key, generation, evaluateOK);
      if answer.Denied? {
        Yield(t, second);
        answer := Remember(t, setOK);
      }
    }

    /** The mutate-then-`invalidate` pattern of the management service, with
        anything between its two halves, other mutations included.  A completed
        call leaves nothing stale to serve; one whose invalidation fails reports
        the failure, and only denies can be stale. */
    method MutatePolicy(policy: set<Key>, saveOK: bool, between: seq<Event>, invalidateOK: bool) returns (ok: bool)
      requires Inv(state)
      modifies this
      ensures Inv(state) && Grows(old(state), state)
      ensures ok == (saveOK && invalidateOK)
      ensures !saveOK ==> state == old(state)
      ensures saveOK ==>
                var saved := Run(Step(old(state), Mutate(policy)), between);
                state == if invalidateOK then Step(saved, Invalidate) else saved
      ensures ok ==> |state.starts| > |old(state).starts| && state.starts[state.Generation()] == state.Version()
      ensures ok ==> forall k | DenyCached(state, k) :: k !in state.policies[state.Version()]
      ensures saveOK ==> |state.policies| > |old(state).policies| && state.policies[|old(state).policies|] == policy
      ensures saveOK && (forall e | e in between :: !e.Mutate?) ==> state.policies[state.Version()] == policy
    {
      if !saveOK { return false; }
      StepKeepsInv(state, Mutate(policy));
      state := Step(state, Mutate(policy));
      if forall e | e in between :: !e.Mutate? {
        QuietEventsKeepPolicy(state, between);
      }
      Interfere(between);
      if !invalidateOK { return false; }
      StepKeepsInv(state, Invalidate);
      state := Step(state, Invalidate);
      return true;
    }
  }
}
