/** The in-process fixed-window rate limiter. */
module RateLimiter {
  import opened Common

  /** Instants and windows in nanoseconds. */
  type Time = int

  datatype Bucket = Bucket(started: Time, count: int)

  datatype Error = ContextDone | InvalidKey | InvalidPolicy

  /** What a call has come to. */
  datatype Progress = Refused(error: Error) | Read(now: Time) | Answered(allowed: bool)

  predicate Expired(b: Bucket, now: Time, window: Time) {
    now >= b.started + window
  }

  /** An allowed call: the instant it read from the clock, and when its bucket was started. */
  datatype Hit = Hit(time: Time, started: Time)

  /** A key's allowed calls under one fixed limit and window, in the order in
      which they took the lock, when no call is decided on an instant more than
      `skew` older than one decided on before: each lies near its bucket, and no
      `limit + 1` of them share one, since a bucket starts only when its
      predecessor has been seen to expire. */
  ghost predicate Paced(hits: seq<Hit>, limit: int, window: Time, skew: Time) {
    && (forall i | 0 <= i < |hits| :: hits[i].started - skew <= hits[i].time < hits[i].started + window)
    && (forall i, j | 0 <= i < j < |hits| :: hits[i].started <= hits[j].started)
    && (forall i, j | 0 <= i < |hits| && 0 <= j < |hits| && i + limit <= j ::
          hits[i].started + window - skew <= hits[j].started)
  }

  /** The last `count` calls fill the bucket started at `started`; those before it belong to expired buckets. */
  ghost predicate Fills(hits: seq<Hit>, b: Bucket, window: Time, skew: Time) {
    && 0 < b.count <= |hits|
    && (forall i | |hits| - b.count <= i < |hits| :: hits[i].started == b.started)
    && (forall i | 0 <= i < |hits| - b.count :: hits[i].started + window - skew <= b.started)
  }

  /** The indices of the calls in a closed interval. */
  ghost function During(hits: seq<Hit>, from: Time, to: Time): set<int> {
    set i | 0 <= i < |hits| && from <= hits[i].time <= to
  }

  /** How many calls came in the closed interval of one window length from `from`. */
  ghost function CallsWithin(hits: seq<Hit>, from: Time, window: Time): nat {
    |During(hits, from, from + window)|
  }

  /** `buckets` buckets in a row reach over every interval of one window length. */
  predicate Spans(buckets: nat, window: Time, skew: Time) {
    0 <= skew < window && buckets * (window - skew) >= 2 * window + skew
  }

  /** Calls `n` limits apart have buckets `n` spacings apart. */
  lemma {:induction false} StartsApart(hits: seq<Hit>, limit: int, window: Time, skew: Time, i: int, j: int, n: nat)
    requires Paced(hits, limit, window, skew) && limit > 0
    requires 0 <= i <= j < |hits| && i + n * limit <= j
    ensures hits[j].started >= hits[i].started + n * (window - skew)
    decreases n
  {
    if n > 0 {
      assert (n - 1) * limit + limit == n * limit;
      StartsApart(hits, limit, window, skew, i, j - limit, n - 1);
      assert hits[j - limit].started + window - skew <= hits[j].started;
      assert (n - 1) * (window - skew) + (window - skew) == n * (window - skew);
    } else if i < j {
      assert hits[i].started <= hits[j].started;
    }
  }

  /** More than `buckets * limit` calls never fit in one window length. */
  lemma SpreadOut(hits: seq<Hit>, limit: int, window: Time, skew: Time, buckets: nat, i: int, j: int, from: Time)
    requires Paced(hits, limit, window, skew) && limit > 0 && Spans(buckets, window, skew)
    requires 0 <= i <= j < |hits| && from <= hits[i].time <= from + window && from <= hits[j].time <= from + window
    ensures j < i + buckets * limit
  {
    if j >= i + buckets * limit {
      StartsApart(hits, limit, window, skew, i, j, buckets);
    }
  }

  lemma {:induction false} RangeSize(s: set<int>, low: int, size: nat)
    requires forall i | i in s :: low <= i < low + size
    ensures |s| <= size
    decreases size
  {
    if size == 0 {
      assert s == {};
    } else {
      RangeSize(s - {low}, low + 1, size - 1);
    }
  }

  /** Any closed interval of one window length holds at most `buckets * limit` allowed calls. */
  lemma WindowBound(hits: seq<Hit>, limit: int, window: Time, skew: Time, buckets: nat, from: Time)
    requires Paced(hits, limit, window, skew) && limit > 0 && Spans(buckets, window, skew)
    ensures CallsWithin(hits, from, window) <= buckets * limit
  {
    var inside := During(hits, from, from + window);
    if inside != {} {
      var first := Least(inside);
      forall j | j in inside ensures first <= j < first + buckets * limit {
        SpreadOut(hits, limit, window, skew, buckets, first, j, from);
      }
      RangeSize(inside, first, buckets * limit);
    }
  }

  lemma {:induction false} Least(s: set<int>) returns (m: int)
    requires s != {}
    ensures m in s && forall i | i in s :: m <= i
    decreases |s|
  {
    assert (forall i :: i !in s) ==> s == {};
    m :| m in s;
    if s != {m} {
      var rest := s - {m};
      assert s == rest + {m};
      var other := Least(rest);
      if other < m { m := other; }
    }
  }

  /** Every bucket's first call is the one that started it. */
  ghost predicate Opens(hits: seq<Hit>) {
    forall i | 0 <= i < |hits| ::
      hits[i].time == hits[i].started || (i > 0 && hits[i - 1].started == hits[i].started)
  }

  /** `count` calls within one window length are that far apart in the history. */
  lemma FarApart(hits: seq<Hit>, from: Time, window: Time, count: nat) returns (i: int, j: int)
    requires CallsWithin(hits, from, window) >= count > 0
    ensures 0 <= i <= j < |hits| && j >= i + count - 1
    ensures from <= hits[i].time <= from + window && from <= hits[j].time <= from + window
  {
    var inside := During(hits, from, from + window);
    i := Least(inside);
    if forall k | k in inside :: k < i + count - 1 {
      RangeSize(inside, i, count - 1);
    }
    j :| j in inside && j >= i + count - 1;
  }

  /** With little out of order, three buckets never meet one window length in full. */
  lemma ThreeBucketsBound(hits: seq<Hit>, limit: int, window: Time, skew: Time, from: Time)
    requires Paced(hits, limit, window, skew) && Opens(hits) && limit > 0 && 0 <= skew && 0 < window
    requires 4 * skew <= window
    ensures CallsWithin(hits, from, window) <= 3 * limit - 1
  {
    if CallsWithin(hits, from, window) >= 3 * limit {
      var i, j := FarApart(hits, from, window, 3 * limit);
      if hits[i].time == hits[i].started {
        StartsApart(hits, limit, window, skew, i, j, 2);
      } else {
        StartsApart(hits, limit, window, skew, i - 1, j, 3);
      }
    }
  }

  /** With a limit of one every call starts its own bucket. */
  lemma LimitOneBound(hits: seq<Hit>, window: Time, skew: Time, from: Time)
    requires Paced(hits, 1, window, skew) && Opens(hits) && 0 <= skew && 2 * skew < window
    ensures CallsWithin(hits, from, window) <= 2
  {
    if CallsWithin(hits, from, window) >= 3 {
      var i, j := FarApart(hits, from, window, 3);
      assert i == 0 || hits[i - 1].started + window - skew <= hits[i].started;
      assert hits[j - 1].started + window - skew <= hits[j].started;
      assert hits[i].time == hits[i].started && hits[j].time == hits[j].started;
      StartsApart(hits, 1, window, skew, i, j, 2);
    }
  }

  /* ---------- one key's history ---------- */

  /** The history of one key beside its bucket, when `clock` is the latest
      instant any call was decided on. */
  ghost predicate KeyPaced(hits: seq<Hit>, bucket: Option<Bucket>, limit: int, window: Time, skew: Time, clock: Time) {
    && Paced(hits, limit, window, skew) && Opens(hits)
    && (match bucket
        case Some(b) => Fills(hits, b, window, skew) && b.started <= clock && b.count <= limit
        case None => forall i | 0 <= i < |hits| :: hits[i].started + window <= clock)
  }

  lemma ExpiryKeeps(hits: seq<Hit>, b: Bucket, limit: int, window: Time, skew: Time, clock: Time, now: Time)
    requires KeyPaced(hits, Some(b), limit, window, skew, clock) && clock <= now && b.started + window <= now
    requires 0 <= skew < window
    ensures KeyPaced(hits, None, limit, window, skew, now)
  {
    forall i | 0 <= i < |hits| ensures hits[i].started + window <= now {
      assert hits[i].started <= b.started;
    }
  }

  lemma FirstCallKeeps(hits: seq<Hit>, limit: int, window: Time, skew: Time, now: Time, clock: Time)
    requires KeyPaced(hits, None, limit, window, skew, clock) && limit > 0 && 0 <= skew < window
    requires now <= clock <= now + skew
    ensures KeyPaced(hits + [Hit(now, now)], Some(Bucket(now, 1)), limit, window, skew, clock)
  {
  }

  lemma FurtherCallKeeps(hits: seq<Hit>, b: Bucket, limit: int, window: Time, skew: Time, now: Time, clock: Time)
    requires KeyPaced(hits, Some(b), limit, window, skew, clock) && !Expired(b, now, window) && b.count < limit
    requires now <= clock <= now + skew && 0 <= skew < window
    ensures KeyPaced(hits + [Hit(now, b.started)], Some(b.(count := b.count + 1)), limit, window, skew, clock)
  {
  }

  /* ---------- one decision ---------- */

  type Buckets = map<string, Bucket>

  /** The buckets; every allowed call so far, for each key; and the latest
      instant a call was decided on. */
  datatype Table = Table(buckets: Buckets, log: map<string, seq<Hit>>, clock: Option<Time>)

  const EMPTY := Table(map[], map[], None)

  function HitsOf(log: map<string, seq<Hit>>, key: string): seq<Hit> {
    if key in log then log[key] else []
  }

  function BucketOf(buckets: Buckets, key: string): Option<Bucket> {
    if key in buckets then Some(buckets[key]) else None
  }

  function Later(clock: Option<Time>, now: Time): Time {
    if clock.Some? && clock.value > now then clock.value else now
  }

  function Swept(buckets: Buckets, now: Time, window: Time): Buckets {
    map k | k in buckets && !Expired(buckets[k], now, window) :: buckets[k]
  }

  /** A call decided on the instant `now`: the expired buckets go, whoever they
      belong to, then the call is counted or refused. */
  function Decided(t: Table, key: string, limit: int, window: Time, now: Time): Table {
    var swept := Swept(t.buckets, now, window);
    if key in swept && swept[key].count >= limit then Table(swept, t.log, Some(Later(t.clock, now)))
    else
      var bucket := if key in swept then Bucket(swept[key].started, swept[key].count + 1) else Bucket(now, 1);
      Table(swept[key := bucket], t.log[key := HitsOf(t.log, key) + [Hit(now, bucket.started)]],
            Some(Later(t.clock, now)))
  }

  /** The table has only been asked with this limit and window, on instants at
      most `skew` out of order. */
  ghost predicate Fixed(t: Table, limit: int, window: Time, skew: Time) {
    && limit > 0 && 0 <= skew < window
    && (match t.clock
        case Some(now) => forall key :: KeyPaced(HitsOf(t.log, key), BucketOf(t.buckets, key), limit, window, skew, now)
        case None => t.buckets == map[] && t.log == map[])
  }

  /** No call so far was decided on an instant more than `skew` later than `now`. */
  predicate Recent(t: Table, now: Time, skew: Time) {
    t.clock.Some? ==> now >= t.clock.value - skew
  }

  lemma SweepKeeps(t: Table, limit: int, window: Time, skew: Time, now: Time)
    requires Fixed(t, limit, window, skew)
    ensures Fixed(Table(Swept(t.buckets, now, window), t.log, Some(Later(t.clock, now))), limit, window, skew)
  {
    var clock, swept := Later(t.clock, now), Swept(t.buckets, now, window);
    forall key ensures KeyPaced(HitsOf(t.log, key), BucketOf(swept, key), limit, window, skew, clock) {
      if t.clock.Some? {
        assert KeyPaced(HitsOf(t.log, key), BucketOf(t.buckets, key), limit, window, skew, t.clock.value);
        if key in t.buckets && Expired(t.buckets[key], now, window) {
          ExpiryKeeps(HitsOf(t.log, key), t.buckets[key], limit, window, skew, t.clock.value, clock);
        }
      }
    }
  }

  lemma OwnKeeps(t: Table, key: string, limit: int, window: Time, now: Time, skew: Time, clock: Time)
    requires KeyPaced(HitsOf(t.log, key), BucketOf(Swept(t.buckets, now, window), key), limit, window, skew, clock)
    requires limit > 0 && 0 <= skew < window && now <= clock <= now + skew
    ensures var e := Decided(t, key, limit, window, now);
            KeyPaced(HitsOf(e.log, key), BucketOf(e.buckets, key), limit, window, skew, clock)
  {
    var swept, hits := Swept(t.buckets, now, window), HitsOf(t.log, key);
    if key !in swept {
      FirstCallKeeps(hits, limit, window, skew, now, clock);
    } else if swept[key].count < limit {
      FurtherCallKeeps(hits, swept[key], limit, window, skew, now, clock);
    }
  }

  lemma OtherKept(t: Table, key: string, limit: int, window: Time, now: Time, other: string)
    requires other != key
    ensures var e := Decided(t, key, limit, window, now);
            && HitsOf(e.log, other) == HitsOf(t.log, other)
            && BucketOf(e.buckets, other) == BucketOf(Swept(t.buckets, now, window), other)
  {}

  /** A decision not too far out of order keeps every key's history paced. */
  lemma DecidedKeeps(t: Table, key: string, limit: int, window: Time, now: Time, skew: Time)
    requires Fixed(t, limit, window, skew) && Recent(t, now, skew)
    ensures Fixed(Decided(t, key, limit, window, now), limit, window, skew)
  {
    SweepKeeps(t, limit, window, skew, now);
    var swept, clock, e := Swept(t.buckets, now, window), Later(t.clock, now), Decided(t, key, limit, window, now);
    forall k ensures KeyPaced(HitsOf(e.log, k), BucketOf(e.buckets, k), limit, window, skew, clock) {
      assert KeyPaced(HitsOf(t.log, k), BucketOf(swept, k), limit, window, skew, clock);
      if k == key {
        OwnKeeps(t, key, limit, window, now, skew, clock);
      } else {
        OtherKept(t, key, limit, window, now, k);
      }
    }
  }

  /** A refusal is earned: the key already had `limit` calls allowed less than
      a window, and the skew, before it. */
  lemma RefusalIsEarned(t: Table, key: string, limit: int, window: Time, skew: Time, now: Time)
    requires Fixed(t, limit, window, skew)
    requires key in t.buckets && !Expired(t.buckets[key], now, window) && t.buckets[key].count >= limit
    ensures var hits := HitsOf(t.log, key);
            |hits| >= limit && forall i | |hits| - limit <= i < |hits| :: hits[i].time > now - window - skew
  {
    assert KeyPaced(HitsOf(t.log, key), BucketOf(t.buckets, key), limit, window, skew, t.clock.value);
  }

  /* ---------- the limiter ---------- */

  class MemoryRateLimiter {
    var buckets: Buckets
    ghost var log: map<string, seq<Hit>>
    ghost var clock: Option<Time>

    ghost function Now(): Table
      reads this
    {
      Table(buckets, log, clock)
    }

    constructor ()
      ensures Now() == EMPTY
    {
      buckets, log, clock := map[], map[], None;
    }

    /** Drops every expired bucket. */
    method Sweep(now: Time, window: Time)
      modifies this`buckets
      ensures buckets == Swept(old(buckets), now, window)
    {
      var keys := buckets.Keys;
      while keys != {}
        invariant keys <= old(buckets).Keys
        invariant buckets == map k | k in old(buckets) && (k in keys || !Expired(old(buckets)[k], now, window)) ::
                    old(buckets)[k]
        decreases |keys|
      {
        var key :| key in keys;
        keys := keys - {key};
        if Expired(buckets[key], now, window) { buckets := buckets - {key}; }
      }
    }

    /** Counts a call against the live bucket, or starts a new one. */
    method Count(key: string, limit: int, window: Time, now: Time) returns (allowed: bool)
      requires limit > 0 && window > 0
      modifies this`buckets, this`log
      ensures var live := key in old(buckets) && !Expired(old(buckets)[key], now, window);
              && (allowed <==> !live || old(buckets)[key].count < limit)
              && (!allowed ==> buckets == old(buckets) && log == old(log))
              && (allowed ==>
                    && key in buckets && buckets == old(buckets)[key := buckets[key]]
                    && buckets[key] == (if live then Bucket(old(buckets)[key].started, old(buckets)[key].count + 1)
                                        else Bucket(now, 1))
                    && log == old(log)[key := HitsOf(old(log), key) + [Hit(now, buckets[key].started)]])
    {
      ghost var hits := HitsOf(log, key);
      if key !in buckets || Expired(buckets[key], now, window) {
        buckets := buckets[key := Bucket(now, 1)];
        log := log[key := hits + [Hit(now, now)]];
        allowed := true;
      } else if buckets[key].count >= limit {
        allowed := false;
      } else {
        var bucket := buckets[key];
        buckets := buckets[key := bucket.(count := bucket.count + 1)];
        log := log[key := hits + [Hit(now, bucket.started)]];
        allowed := true;
      }
    }

    /** The part of `Allow` before the lock: a call that goes on has read the clock. */
    method ReadClock(done: bool, key: string, limit: int, window: Time, at: Time) returns (r: Progress)
      ensures r.Read? ==> r.now == at
      ensures r.Read? <==> !done && Trim(key) != "" && limit > 0 && window > 0
      ensures !r.Answered? && (r == Refused(ContextDone) <==> done)
      ensures r == Refused(InvalidKey) <==> !done && Trim(key) == ""
      ensures r == Refused(InvalidPolicy) <==> !done && Trim(key) != "" && (limit <= 0 || window <= 0)
    {
      if done { return Refused(ContextDone); }
      if Trim(key) == "" { return Refused(InvalidKey); }
      if limit <= 0 || window <= 0 { return Refused(InvalidPolicy); }
      return Read(at);
    }

    /** The part under the lock, on the instant read before it: allowed exactly
        when the key has no live bucket or the live bucket has room. */
    method Decide(key: string, limit: int, window: Time, now: Time) returns (allowed: bool)
      requires limit > 0 && window > 0
      modifies this
      ensures Now() == Decided(old(Now()), key, limit, window, now)
      ensures var live := key in old(buckets) && !Expired(old(buckets)[key], now, window);
              && (allowed <==> !live || old(buckets)[key].count < limit)
              && (live && !allowed ==> key in buckets && buckets[key] == old(buckets)[key])
              && (allowed ==>
                    && key in buckets
                    && buckets[key] == if live then Bucket(old(buckets)[key].started, old(buckets)[key].count + 1)
                                       else Bucket(now, 1))
      ensures log == if allowed then old(log)[key := HitsOf(old(log), key) + [Hit(now, buckets[key].started)]]
                     else old(log)
      ensures forall k | k != key ::
                && (k in buckets <==> k in old(buckets) && !Expired(old(buckets)[k], now, window))
                && (k in buckets ==> buckets[k] == old(buckets)[k])
    {
      Sweep(now, window);
      clock := Some(Later(clock, now));
      allowed := Count(key, limit, window, now);
    }

    /** A whole call, nobody else between its clock read and its lock. */
    method Allow(done: bool, key: string, limit: int, window: Time, now: Time) returns (r: Progress)
      modifies this
      ensures r.Refused? ==> Now() == old(Now())
      ensures !r.Refused? ==> Now() == Decided(old(Now()), key, limit, window, now)
      ensures r == (if done then Refused(ContextDone)
                    else if Trim(key) == "" then Refused(InvalidKey)
                    else if limit <= 0 || window <= 0 then Refused(InvalidPolicy)
                    else Answered(key !in old(buckets) || Expired(old(buckets)[key], now, window)
                                  || old(buckets)[key].count < limit))
      ensures r == Answered(true) ==>
                && key in buckets && log == old(log)[key := HitsOf(old(log), key) + [Hit(now, buckets[key].started)]]
                && buckets[key] == (if key in old(buckets) && !Expired(old(buckets)[key], now, window)
                                    then Bucket(old(buckets)[key].started, old(buckets)[key].count + 1)
                                    else Bucket(now, 1))
      ensures r == Answered(false) ==>
                log == old(log) && key in old(buckets) && key in buckets && buckets[key] == old(buckets)[key]
    {
      r := ReadClock(done, key, limit, window, now);
      if r.Read? {
        var allowed := Decide(key, limit, window, now);
        r := Answered(allowed);
      }
    }
  }

  /* ---------- runs ---------- */

  type Thread = nat

  /** A call reads the clock, and later takes the lock; in between, others do.
      `at` is the instant of the event itself. */
  datatype Event = Begin(thread: Thread, done: bool, key: string, at: Time) | Lock(thread: Thread, at: Time)

  datatype Waiting = Waiting(key: string, now: Time)

  type Waiters = map<Thread, Waiting>

  /** Who waits after an event. */
  function WaitersAfter(waiters: Waiters, e: Event): Waiters {
    match e
    case Begin(t, done, key, at) =>
      if t !in waiters && !done && Trim(key) != "" then waiters[t := Waiting(key, at)] else waiters
    case Lock(t, _) => waiters - {t}
  }

  /** The limiter and the calls between their clock read and their lock. */
  datatype State = State(table: Table, waiters: Waiters)

  const START := State(EMPTY, map[])

  function After(s: State, e: Event, limit: int, window: Time): State {
    State(if e.Lock? && e.thread in s.waiters
          then Decided(s.table, s.waiters[e.thread].key, limit, window, s.waiters[e.thread].now) else s.table,
          WaitersAfter(s.waiters, e))
  }

  function AfterAll(s: State, events: seq<Event>, limit: int, window: Time): State
    decreases |events|
  {
    if events == [] then s else AfterAll(After(s, events[0], limit, window), events[1..], limit, window)
  }

  /** The allowed calls of a key over a whole run. */
  function HitsUnder(events: seq<Event>, limit: int, window: Time, key: string): seq<Hit> {
    HitsOf(AfterAll(START, events, limit, window).table.log, key)
  }

  /** One event of a run. */
  method Step(limiter: MemoryRateLimiter, waiters: Waiters, e: Event, limit: int, window: Time)
    returns (after: Waiters)
    requires limit > 0 && window > 0
    modifies limiter
    ensures State(limiter.Now(), after) == After(State(old(limiter.Now()), waiters), e, limit, window)
  {
    after := waiters;
    match e {
      case Begin(thread, done, key, at) =>
        if thread !in waiters {
          var r := limiter.ReadClock(done, key, limit, window, at);
          if r.Read? { after := after[thread := Waiting(key, r.now)]; }
        }
      case Lock(thread, _) =>
        if thread in waiters {
          var allowed := limiter.Decide(waiters[thread].key, limit, window, waiters[thread].now);
        }
        after := after - {thread};
    }
  }

  /** Any run of concurrent calls with one limit and window on a new limiter. */
  method Serve(events: seq<Event>, limit: int, window: Time) returns (limiter: MemoryRateLimiter)
    requires limit > 0 && window > 0
    ensures fresh(limiter) && limiter.Now() == AfterAll(START, events, limit, window).table
    ensures forall key :: HitsOf(limiter.log, key) == HitsUnder(events, limit, window, key)
  {
    limiter := new MemoryRateLimiter();
    var waiters: Waiters := map[];
    for i := 0 to |events|
      invariant fresh(limiter)
      invariant AfterAll(State(limiter.Now(), waiters), events[i..], limit, window)
                == AfterAll(START, events, limit, window)
    {
      assert events[i..][0] == events[i] && events[i..][1..] == events[i + 1..];
      waiters := Step(limiter, waiters, events[i], limit, window);
    }
  }

  /** The instants of a run never go back: this is the clock the calls read. */
  ghost predicate ClockNeverGoesBack(events: seq<Event>) {
    forall i, j | 0 <= i < j < |events| :: events[i].at <= events[j].at
  }

  /** The latest instant decided on after an event. */
  function LatestAfter(waiters: Waiters, latest: Option<Time>, e: Event): Option<Time> {
    if e.Lock? && e.thread in waiters then Some(Later(latest, waiters[e.thread].now)) else latest
  }

  /** No call is decided on an instant more than `skew` older than one decided on before it. */
  ghost predicate Close(events: seq<Event>, waiters: Waiters, latest: Option<Time>, skew: Time)
    decreases |events|
  {
    events != [] ==>
      && (events[0].Lock? && events[0].thread in waiters && latest.Some? ==>
            waiters[events[0].thread].now >= latest.value - skew)
      && Close(events[1..], WaitersAfter(waiters, events[0]), LatestAfter(waiters, latest, events[0]), skew)
  }

  /** The locks are taken in the order of the clock reads. */
  ghost predicate InOrder(events: seq<Event>, waiters: Waiters)
    decreases |events|
  {
    events != [] ==>
      && (events[0].Lock? && events[0].thread in waiters ==>
            forall t | t in waiters :: waiters[events[0].thread].now <= waiters[t].now)
      && InOrder(events[1..], WaitersAfter(waiters, events[0]))
  }

  predicate Timely(waiters: Waiters, e: Event, delay: Time) {
    e.Lock? && e.thread in waiters ==> e.at <= waiters[e.thread].now + delay
  }

  /** Every lock is taken at most `delay` after its call has read the clock. */
  ghost predicate Prompt(events: seq<Event>, waiters: Waiters, delay: Time)
    decreases |events|
  {
    events != [] ==>
      && Timely(waiters, events[0], delay)
      && Prompt(events[1..], WaitersAfter(waiters, events[0]), delay)
  }

  /** Locks taken in the order of the reads leave nothing out of order. */
  lemma {:induction false} InOrderIsClose(events: seq<Event>, waiters: Waiters, latest: Option<Time>)
    requires ClockNeverGoesBack(events) && InOrder(events, waiters)
    requires forall t | t in waiters && latest.Some? :: latest.value <= waiters[t].now
    requires forall i | 0 <= i < |events| && latest.Some? :: latest.value <= events[i].at
    requires forall t, i | t in waiters && 0 <= i < |events| :: waiters[t].now <= events[i].at
    ensures Close(events, waiters, latest, 0)
    decreases |events|
  {
    if events != [] {
      InOrderIsClose(events[1..], WaitersAfter(waiters, events[0]), LatestAfter(waiters, latest, events[0]));
    }
  }

  /** Prompt locks keep what is out of order within their delay. */
  lemma {:induction false} PromptIsClose(events: seq<Event>, waiters: Waiters, latest: Option<Time>, delay: Time)
    requires ClockNeverGoesBack(events) && Prompt(events, waiters, delay)
    requires forall i | 0 <= i < |events| && latest.Some? :: latest.value <= events[i].at
    requires forall t, i | t in waiters && 0 <= i < |events| :: waiters[t].now <= events[i].at
    ensures Close(events, waiters, latest, delay)
    decreases |events|
  {
    if events != [] {
      PromptIsClose(events[1..], WaitersAfter(waiters, events[0]), LatestAfter(waiters, latest, events[0]), delay);
    }
  }

  /** A run whose decisions are at most `skew` out of order keeps every history paced. */
  lemma {:induction false} RunKeeps(s: State, events: seq<Event>, limit: int, window: Time, skew: Time)
    requires Fixed(s.table, limit, window, skew) && Close(events, s.waiters, s.table.clock, skew)
    ensures Fixed(AfterAll(s, events, limit, window).table, limit, window, skew)
    decreases |events|
  {
    if events != [] {
      var e := events[0];
      if e.Lock? && e.thread in s.waiters {
        DecidedKeeps(s.table, s.waiters[e.thread].key, limit, window, s.waiters[e.thread].now, skew);
      }
      RunKeeps(After(s, e, limit, window), events[1..], limit, window, skew);
    }
  }

  lemma RunPaced(events: seq<Event>, limit: int, window: Time, skew: Time, key: string)
    requires limit > 0 && 0 <= skew < window && Close(events, map[], None, skew)
    ensures Paced(HitsUnder(events, limit, window, key), limit, window, skew)
    ensures Opens(HitsUnder(events, limit, window, key))
  {
    RunKeeps(START, events, limit, window, skew);
    var t := AfterAll(START, events, limit, window).table;
    if t.clock.Some? {
      assert KeyPaced(HitsOf(t.log, key), BucketOf(t.buckets, key), limit, window, skew, t.clock.value);
    }
  }

  /** Any run whose decisions are at most `skew` out of order: at most
      `buckets * limit` calls of a key in any one window length. */
  lemma BoundOutOfOrder(events: seq<Event>, limit: int, window: Time, skew: Time, buckets: nat, key: string, from: Time)
    requires limit > 0 && Close(events, map[], None, skew) && Spans(buckets, window, skew)
    ensures CallsWithin(HitsUnder(events, limit, window, key), from, window) <= buckets * limit
  {
    RunPaced(events, limit, window, skew, key);
    WindowBound(HitsUnder(events, limit, window, key), limit, window, skew, buckets, from);
  }

  /** At most twice the limit when the locks are taken in the order of the clock reads. */
  lemma BoundInOrder(events: seq<Event>, limit: int, window: Time, key: string, from: Time)
    requires limit > 0 && window > 0 && ClockNeverGoesBack(events) && InOrder(events, map[])
    ensures CallsWithin(HitsUnder(events, limit, window, key), from, window) <= 2 * limit
  {
    InOrderIsClose(events, map[], None);
    BoundOutOfOrder(events, limit, window, 0, 2, key, from);
  }

  /* ---------- how good the bounds are ---------- */

  /** No run whose locks are taken within `delay` of the clock reads lets a key
      through more than `bound` times in any one window length. */
  ghost predicate KeepsWithin(limit: int, window: Time, delay: Time, bound: int) {
    forall events, key, from | ClockNeverGoesBack(events) && Prompt(events, map[], delay) ::
      CallsWithin(HitsUnder(events, limit, window, key), from, window) <= bound
  }

  lemma BoundPrompt(limit: int, window: Time, delay: Time, buckets: nat)
    requires limit > 0 && Spans(buckets, window, delay)
    ensures KeepsWithin(limit, window, delay, buckets * limit)
  {
    forall events, key, from | ClockNeverGoesBack(events) && Prompt(events, map[], delay)
      ensures CallsWithin(HitsUnder(events, limit, window, key), from, window) <= buckets * limit
    {
      PromptIsClose(events, map[], None, delay);
      BoundOutOfOrder(events, limit, window, delay, buckets, key, from);
    }
  }

  lemma BoundThreeBuckets(limit: int, window: Time, delay: Time)
    requires limit > 0 && window > 0 && 0 <= delay && 4 * delay <= window
    ensures KeepsWithin(limit, window, delay, 3 * limit - 1)
  {
    forall events, key, from | ClockNeverGoesBack(events) && Prompt(events, map[], delay)
      ensures CallsWithin(HitsUnder(events, limit, window, key), from, window) <= 3 * limit - 1
    {
      PromptIsClose(events, map[], None, delay);
      RunPaced(events, limit, window, delay, key);
      ThreeBucketsBound(HitsUnder(events, limit, window, key), limit, window, delay, from);
    }
  }

  lemma BoundLimitOne(window: Time, delay: Time)
    requires 0 <= delay && 2 * delay < window
    ensures KeepsWithin(1, window, delay, 2)
  {
    forall events, key, from | ClockNeverGoesBack(events) && Prompt(events, map[], delay)
      ensures CallsWithin(HitsUnder(events, 1, window, key), from, window) <= 2
    {
      PromptIsClose(events, map[], None, delay);
      RunPaced(events, 1, window, delay, key);
      LimitOneBound(HitsUnder(events, 1, window, key), window, delay, from);
    }
  }

  lemma {:induction false} PromptWithin(events: seq<Event>, waiters: Waiters, delay: Time, longer: Time)
    requires Prompt(events, waiters, delay) && delay <= longer
    ensures Prompt(events, waiters, longer)
    decreases |events|
  {
    if events != [] { PromptWithin(events[1..], WaitersAfter(waiters, events[0]), delay, longer); }
  }

  /* Runs that reach the bounds, put together from pieces after which nobody waits. */

  const KEY := "k"
  const OTHER := "j"

  /** A whole call, nobody in between. */
  function Call(at: Time): seq<Event> {
    [Begin(0, false, KEY, at), Lock(0, at)]
  }

  function Calls(at: Time, n: nat): seq<Event> {
    if n == 0 then [] else Call(at) + Calls(at, n - 1)
  }

  /** A call overtaken by one for another key, whose clock read is later. */
  function Overtaken(early: Time, late: Time): seq<Event> {
    [Begin(0, false, KEY, early), Begin(1, false, OTHER, late), Lock(1, late), Lock(0, late)]
  }

  /** The clock goes from `low` to `high`. */
  ghost predicate Rising(events: seq<Event>, low: Time, high: Time) {
    ClockNeverGoesBack(events) && forall i | 0 <= i < |events| :: low <= events[i].at <= high
  }

  lemma RisingCompose(a: seq<Event>, low: Time, middle: Time, b: seq<Event>, high: Time)
    requires Rising(a, low, middle) && Rising(b, middle, high) && low <= middle <= high
    ensures Rising(a + b, low, high)
  {}

  /** So it does, the locks are prompt, and nobody waits afterwards. */
  ghost predicate Piece(events: seq<Event>, low: Time, high: Time, delay: Time) {
    && Rising(events, low, high)
    && Prompt(events, map[], delay) && Left(map[], events) == map[]
  }

  /** Who waits after several events. */
  function Left(waiters: Waiters, events: seq<Event>): Waiters
    decreases |events|
  {
    if events == [] then waiters else Left(WaitersAfter(waiters, events[0]), events[1..])
  }

  lemma {:induction false} RunsCompose(s: State, a: seq<Event>, b: seq<Event>, limit: int, window: Time)
    ensures AfterAll(s, a + b, limit, window) == AfterAll(AfterAll(s, a, limit, window), b, limit, window)
    ensures AfterAll(s, a, limit, window).waiters == Left(s.waiters, a)
    decreases |a|
  {
    if a == [] {
      assert a + b == b;
    } else {
      assert (a + b)[1..] == a[1..] + b;
      RunsCompose(After(s, a[0], limit, window), a[1..], b, limit, window);
    }
  }

  lemma {:induction false} PromptCompose(waiters: Waiters, a: seq<Event>, b: seq<Event>, delay: Time)
    requires Prompt(a, waiters, delay) && Prompt(b, Left(waiters, a), delay)
    ensures Prompt(a + b, waiters, delay) && Left(waiters, a + b) == Left(Left(waiters, a), b)
    decreases |a|
  {
    if a == [] {
      assert a + b == b;
    } else {
      assert (a + b)[1..] == a[1..] + b;
      PromptCompose(WaitersAfter(waiters, a[0]), a[1..], b, delay);
    }
  }

  lemma PiecesCompose(a: seq<Event>, low: Time, middle: Time, b: seq<Event>, high: Time, delay: Time)
    requires Piece(a, low, middle, delay) && Piece(b, middle, high, delay) && low <= middle <= high
    ensures Piece(a + b, low, high, delay)
  {
    PromptCompose(map[], a, b, delay);
    RisingCompose(a, low, middle, b, high);
  }

  lemma Two(s: State, waiters: Waiters, a: Event, b: Event, limit: int, window: Time, delay: Time)
    ensures AfterAll(s, [a, b], limit, window) == After(After(s, a, limit, window), b, limit, window)
    ensures Left(waiters, [a, b]) == WaitersAfter(WaitersAfter(waiters, a), b)
    ensures Prompt([a, b], waiters, delay) <==> Timely(waiters, a, delay) && Timely(WaitersAfter(waiters, a), b, delay)
  {
    var one, two := After(s, a, limit, window), WaitersAfter(waiters, a);
    assert [a, b][1..] == [b] && [b][1..] == [];
    assert AfterAll(one, [b], limit, window) == After(one, b, limit, window);
    assert Left(two, [b]) == WaitersAfter(two, b);
    assert Prompt([b], two, delay) <==> Timely(two, b, delay);
  }

  lemma CallPiece(at: Time, delay: Time)
    requires delay >= 0
    ensures Piece(Call(at), at, at, delay)
  {
    assert Trim(KEY) == KEY;
    Two(START, map[], Begin(0, false, KEY, at), Lock(0, at), 1, 1, delay);
    assert map[0 := Waiting(KEY, at)] - {0} == map[];
  }

  lemma {:induction false} CallsPiece(at: Time, n: nat, delay: Time)
    requires delay >= 0
    ensures Piece(Calls(at, n), at, at, delay)
  {
    if n > 0 {
      CallPiece(at, delay);
      CallsPiece(at, n - 1, delay);
      PiecesCompose(Call(at), at, at, Calls(at, n - 1), at, delay);
    }
  }

  lemma OvertakenPiece(early: Time, late: Time, delay: Time)
    requires early <= late <= early + delay
    ensures Piece(Overtaken(early, late), early, late, delay)
  {
    assert Trim(KEY) == KEY && Trim(OTHER) == OTHER;
    var a, b, c, d := Begin(0, false, KEY, early), Begin(1, false, OTHER, late), Lock(1, late), Lock(0, late);
    Two(START, map[], a, b, 1, 1, delay);
    var w: Waiters := map[0 := Waiting(KEY, early), 1 := Waiting(OTHER, late)];
    assert Left(map[], [a, b]) == w && w - {1} == map[0 := Waiting(KEY, early)];
    Two(START, w, c, d, 1, 1, delay);
    PromptCompose(map[], [a, b], [c, d], delay);
    assert Overtaken(early, late) == [a, b] + [c, d];
  }

  /** What a run has come to: nobody waits, the key's bucket, and its calls in one window length. */
  ghost predicate Shows(s: State, bucket: Option<Bucket>, from: Time, window: Time, calls: nat) {
    && s.waiters == map[] && BucketOf(s.table.buckets, KEY) == bucket
    && CallsWithin(HitsOf(s.table.log, KEY), from, window) == calls
  }

  lemma OneMore(hits: seq<Hit>, hit: Hit, from: Time, window: Time)
    ensures CallsWithin(hits + [hit], from, window) ==
            CallsWithin(hits, from, window) + OneIf(from <= hit.time <= from + window)
  {
    var before, after := During(hits, from, from + window), During(hits + [hit], from, from + window);
    if from <= hit.time <= from + window {
      assert after == before + {|hits|};
    } else {
      assert after == before;
    }
  }

  function OneIf(b: bool): nat { if b then 1 else 0 }

  /** The live part of a bucket. */
  function Live(bucket: Option<Bucket>, now: Time, window: Time): Option<Bucket> {
    if bucket.Some? && !Expired(bucket.value, now, window) then bucket else None
  }

  /** The bucket after a call that is allowed. */
  function Counted(bucket: Option<Bucket>, now: Time, window: Time): Bucket {
    var live := Live(bucket, now, window);
    if live.Some? then live.value.(count := live.value.count + 1) else Bucket(now, 1)
  }

  lemma OwnDecision(t: Table, limit: int, window: Time, from: Time, at: Time)
    requires var bucket := BucketOf(t.buckets, KEY); Counted(bucket, at, window).count <= limit && limit > 0
    ensures var bucket, e := BucketOf(t.buckets, KEY), Decided(t, KEY, limit, window, at);
            && BucketOf(e.buckets, KEY) == Some(Counted(bucket, at, window))
            && CallsWithin(HitsOf(e.log, KEY), from, window) ==
               CallsWithin(HitsOf(t.log, KEY), from, window) + OneIf(from <= at <= from + window)
  {
    OneMore(HitsOf(t.log, KEY), Hit(at, Counted(BucketOf(t.buckets, KEY), at, window).started), from, window);
  }

  lemma OtherDecision(t: Table, limit: int, window: Time, at: Time)
    ensures var e := Decided(t, OTHER, limit, window, at);
            && BucketOf(e.buckets, KEY) == Live(BucketOf(t.buckets, KEY), at, window)
            && HitsOf(e.log, KEY) == HitsOf(t.log, KEY)
  {}

  lemma CallShows(s: State, bucket: Option<Bucket>, limit: int, window: Time, from: Time, calls: nat, at: Time)
    requires Shows(s, bucket, from, window, calls) && limit > 0 && window > 0
    requires Counted(bucket, at, window).count <= limit
    ensures Shows(AfterAll(s, Call(at), limit, window), Some(Counted(bucket, at, window)), from, window,
                  calls + OneIf(from <= at <= from + window))
  {
    assert Trim(KEY) == KEY;
    Two(s, map[], Begin(0, false, KEY, at), Lock(0, at), limit, window, 0);
    assert map[0 := Waiting(KEY, at)] - {0} == map[];
    OwnDecision(s.table, limit, window, from, at);
  }

  /** `n` more calls that find room in the live bucket. */
  lemma {:induction false} CallsShow(s: State, b: Bucket, limit: int, window: Time, from: Time, calls: nat,
                                     at: Time, n: nat)
    requires Shows(s, Some(b), from, window, calls) && limit > 0 && window > 0
    requires !Expired(b, at, window) && b.count + n <= limit && from <= at <= from + window
    ensures Shows(AfterAll(s, Calls(at, n), limit, window), Some(b.(count := b.count + n)), from, window, calls + n)
    decreases n
  {
    if n > 0 {
      CallShows(s, Some(b), limit, window, from, calls, at);
      RunsCompose(s, Call(at), Calls(at, n - 1), limit, window);
      var next := AfterAll(s, Call(at), limit, window);
      CallsShow(next, b.(count := b.count + 1), limit, window, from, calls + 1, at, n - 1);
    }
  }

  /** The call overtaken starts a bucket of its own. */
  lemma OvertakenShows(s: State, b: Bucket, limit: int, window: Time, from: Time, calls: nat, early: Time, late: Time)
    requires Shows(s, Some(b), from, window, calls) && limit > 0 && window > 0
    requires Expired(b, late, window) && from <= early <= from + window
    ensures Shows(AfterAll(s, Overtaken(early, late), limit, window), Some(Bucket(early, 1)), from, window, calls + 1)
  {
    assert Trim(KEY) == KEY && Trim(OTHER) == OTHER;
    var x, y, z, v := Begin(0, false, KEY, early), Begin(1, false, OTHER, late), Lock(1, late), Lock(0, late);
    Two(s, map[], x, y, limit, window, 0);
    var w: Waiters := map[0 := Waiting(KEY, early), 1 := Waiting(OTHER, late)];
    var m := AfterAll(s, [x, y], limit, window);
    assert m == State(s.table, w) && w - {1} == map[0 := Waiting(KEY, early)];
    Two(m, w, z, v, limit, window, 0);
    RunsCompose(s, [x, y], [z, v], limit, window);
    assert Overtaken(early, late) == [x, y] + [z, v];
    OtherDecision(s.table, limit, window, late);
    OwnDecision(Decided(s.table, OTHER, limit, window, late), limit, window, from, early);
  }

  /** A run of whole pieces: the instant it has come to, and what it shows. */
  ghost predicate Reached(events: seq<Event>, limit: int, window: Time, delay: Time, at: Time,
                          bucket: Option<Bucket>, from: Time, calls: nat)
  {
    Piece(events, 0, at, delay) && Shows(AfterAll(START, events, limit, window), bucket, from, window, calls)
  }

  lemma ThenCall(events: seq<Event>, limit: int, window: Time, delay: Time, before: Time,
                 bucket: Option<Bucket>, from: Time, calls: nat, at: Time)
    requires Reached(events, limit, window, delay, before, bucket, from, calls) && 0 <= before <= at && delay >= 0
    requires limit > 0 && window > 0 && Counted(bucket, at, window).count <= limit
    ensures Reached(events + Call(at), limit, window, delay, at, Some(Counted(bucket, at, window)), from,
                    calls + OneIf(from <= at <= from + window))
  {
    CallPiece(at, delay);
    PiecesCompose(events, 0, before, [], at, delay);
    assert events + [] == events;
    PiecesCompose(events, 0, at, Call(at), at, delay);
    RunsCompose(START, events, Call(at), limit, window);
    CallShows(AfterAll(START, events, limit, window), bucket, limit, window, from, calls, at);
  }

  lemma ThenCalls(events: seq<Event>, limit: int, window: Time, delay: Time, before: Time,
                  b: Bucket, from: Time, calls: nat, at: Time, n: nat)
    requires Reached(events, limit, window, delay, before, Some(b), from, calls) && 0 <= before <= at && delay >= 0
    requires limit > 0 && window > 0 && !Expired(b, at, window) && b.count + n <= limit && from <= at <= from + window
    ensures Reached(events + Calls(at, n), limit, window, delay, at, Some(b.(count := b.count + n)), from, calls + n)
  {
    CallsPiece(at, n, delay);
    PiecesCompose(events, 0, before, [], at, delay);
    assert events + [] == events;
    PiecesCompose(events, 0, at, Calls(at, n), at, delay);
    RunsCompose(START, events, Calls(at, n), limit, window);
    CallsShow(AfterAll(START, events, limit, window), b, limit, window, from, calls, at, n);
  }

  lemma ThenOvertaken(events: seq<Event>, limit: int, window: Time, delay: Time, before: Time,
                      b: Bucket, from: Time, calls: nat, early: Time, late: Time)
    requires Reached(events, limit, window, delay, before, Some(b), from, calls) && 0 <= before <= early
    requires limit > 0 && window > 0 && Expired(b, late, window) && from <= early <= from + window
    requires early <= late <= early + delay
    ensures Reached(events + Overtaken(early, late), limit, window, delay, late, Some(Bucket(early, 1)), from,
                    calls + 1)
  {
    OvertakenPiece(early, late, delay);
    PiecesCompose(events, 0, before, [], early, delay);
    assert events + [] == events;
    PiecesCompose(events, 0, early, Overtaken(early, late), late, delay);
    RunsCompose(START, events, Overtaken(early, late), limit, window);
    OvertakenShows(AfterAll(START, events, limit, window), b, limit, window, from, calls, early, late);
  }

  lemma ReachedMeans(events: seq<Event>, limit: int, window: Time, delay: Time, at: Time,
                     bucket: Option<Bucket>, from: Time, calls: nat)
    requires Reached(events, limit, window, delay, at, bucket, from, calls)
    ensures ClockNeverGoesBack(events) && Prompt(events, map[], delay)
    ensures CallsWithin(HitsUnder(events, limit, window, KEY), from, window) == calls
  {}

  /** As many calls as the limit allows, at one instant. */
  function ThenFull(events: seq<Event>, limit: int, at: Time): seq<Event>
    requires limit > 0
  {
    events + Call(at) + Calls(at, limit - 1)
  }

  lemma ThenFullReached(events: seq<Event>, limit: int, window: Time, before: Time,
                        bucket: Option<Bucket>, calls: nat, at: Time)
    requires Reached(events, limit, window, 0, before, bucket, 0, calls)
    requires limit > 0 && 0 <= before <= at <= window && window > 0 && Live(bucket, at, window).None?
    ensures Reached(ThenFull(events, limit, at), limit, window, 0, at, Some(Bucket(at, limit)), 0, calls + limit)
  {
    ThenCall(events, limit, window, 0, before, bucket, 0, calls, at);
    ThenCalls(events + Call(at), limit, window, 0, at, Bucket(at, 1), 0, calls + 1, at, limit - 1);
  }

  /** With no delay: the limit at the start of a window and again at its end. */
  function TwoBuckets(limit: int, window: Time): seq<Event>
    requires limit > 0
  {
    ThenFull(ThenFull([], limit, 0), limit, window)
  }

  lemma TwoBucketsRun(limit: int, window: Time)
    requires limit > 0 && window > 0
    ensures var events := TwoBuckets(limit, window);
            && ClockNeverGoesBack(events) && Prompt(events, map[], 0)
            && CallsWithin(HitsUnder(events, limit, window, KEY), 0, window) == 2 * limit
  {
    NothingReached(limit, window, 0, 0);
    ThenFullReached([], limit, window, 0, None, 0, 0);
    ThenFullReached(ThenFull([], limit, 0), limit, window, 0, Some(Bucket(0, limit)), limit, window);
    ReachedMeans(TwoBuckets(limit, window), limit, window, 0, window, Some(Bucket(window, limit)), 0, 2 * limit);
  }

  lemma NothingReached(limit: int, window: Time, delay: Time, from: Time)
    ensures Reached([], limit, window, delay, 0, None, from, 0)
  {}

  /** One call, and all but one of the rest at the last instant of its bucket. */
  function EndOfBucket(limit: int, window: Time): seq<Event>
    requires limit > 0
  {
    [] + Call(0) + Calls(window - 1, limit - 1)
  }

  /** The full bucket is overtaken and a new one filled. */
  function ThenBucket(events: seq<Event>, limit: int, early: Time): seq<Event>
    requires limit > 0
  {
    events + Overtaken(early, early + 1) + Calls(early + 1, limit - 1)
  }

  /** With a delay: the end of one bucket, then two more. */
  function ThreeBuckets(limit: int, window: Time): seq<Event>
    requires limit > 0
  {
    ThenBucket(ThenBucket(EndOfBucket(limit, window), limit, window - 1), limit, 2 * window - 2)
  }

  lemma EndOfBucketReached(limit: int, window: Time)
    requires limit > 0 && window > 1
    ensures Reached(EndOfBucket(limit, window), limit, window, 1, window - 1,
                    Some(Bucket(0, limit)), window - 1, limit - 1)
  {
    NothingReached(limit, window, 1, window - 1);
    ThenCall([], limit, window, 1, 0, None, window - 1, 0, 0);
    ThenCalls([] + Call(0), limit, window, 1, 0, Bucket(0, 1), window - 1, 0, window - 1, limit - 1);
  }

  lemma ThenBucketReached(events: seq<Event>, limit: int, window: Time, before: Time, started: Time,
                          calls: nat, early: Time)
    requires Reached(events, limit, window, 1, before, Some(Bucket(started, limit)), window - 1, calls)
    requires limit > 0 && window > 1 && 0 <= before <= early && window - 1 <= early <= 2 * window - 2
    requires started + window == early + 1
    ensures Reached(ThenBucket(events, limit, early), limit, window, 1, early + 1,
                    Some(Bucket(early, limit)), window - 1, calls + limit)
  {
    ThenOvertaken(events, limit, window, 1, before, Bucket(started, limit), window - 1, calls, early, early + 1);
    ThenCalls(events + Overtaken(early, early + 1), limit, window, 1, early + 1, Bucket(early, 1), window - 1,
              calls + 1, early + 1, limit - 1);
  }

  lemma TwoReached(limit: int, window: Time)
    requires limit > 0 && window > 1
    ensures Reached(ThenBucket(EndOfBucket(limit, window), limit, window - 1), limit, window, 1, window,
                    Some(Bucket(window - 1, limit)), window - 1, 2 * limit - 1)
  {
    EndOfBucketReached(limit, window);
    ThenBucketReached(EndOfBucket(limit, window), limit, window, window - 1, 0, limit - 1, window - 1);
  }

  lemma ThreeBucketsRun(limit: int, window: Time)
    requires limit > 0 && window > 1
    ensures var events := ThreeBuckets(limit, window);
            && ClockNeverGoesBack(events) && Prompt(events, map[], 1)
            && CallsWithin(HitsUnder(events, limit, window, KEY), window - 1, window) == 3 * limit - 1
  {
    var two := ThenBucket(EndOfBucket(limit, window), limit, window - 1);
    TwoReached(limit, window);
    ThenBucketReached(two, limit, window, window, window - 1, 2 * limit - 1, 2 * window - 2);
    ReachedMeans(ThreeBuckets(limit, window), limit, window, 1, 2 * window - 1,
                 Some(Bucket(2 * window - 2, limit)), window - 1, 3 * limit - 1);
  }

  /** With a limit of one and half a window of delay: three calls decided on
      instants `window - delay` apart. */
  function LateLocks(window: Time, delay: Time): seq<Event> {
    Call(0) + (LateReads(window, delay) + (FirstSweep(window) + (SecondCall(window, delay) + ThirdCall(window, delay))))
  }

  function LateReads(window: Time, delay: Time): seq<Event> {
    [Begin(1, false, KEY, window - delay), Begin(2, false, KEY, 2 * window - 2 * delay)]
  }

  function FirstSweep(window: Time): seq<Event> { [Begin(0, false, OTHER, window), Lock(0, window)] }

  function SecondCall(window: Time, delay: Time): seq<Event> {
    [Lock(1, window), Begin(0, false, OTHER, 2 * window - delay)]
  }

  function ThirdCall(window: Time, delay: Time): seq<Event> {
    [Lock(0, 2 * window - delay), Lock(2, 2 * window - delay)]
  }

  /** The calls that wait after the reads, and after the second call. */
  function Late(window: Time, delay: Time): Waiters {
    map[1 := Waiting(KEY, window - delay), 2 := Waiting(KEY, 2 * window - 2 * delay)]
  }

  function Last(window: Time, delay: Time): Waiters {
    map[0 := Waiting(OTHER, 2 * window - delay), 2 := Waiting(KEY, 2 * window - 2 * delay)]
  }

  lemma LateReadsWait(t: Table, window: Time, delay: Time)
    ensures AfterAll(State(t, map[]), LateReads(window, delay), 1, window) == State(t, Late(window, delay))
    ensures Left(map[], LateReads(window, delay)) == Late(window, delay)
    ensures Prompt(LateReads(window, delay), map[], delay)
  {
    assert Trim(KEY) == KEY;
    var e := LateReads(window, delay);
    Two(State(t, map[]), map[], e[0], e[1], 1, window, delay);
  }

  lemma FirstSweepRuns(t: Table, window: Time, delay: Time)
    requires delay >= 0
    ensures AfterAll(State(t, Late(window, delay)), FirstSweep(window), 1, window)
            == State(Decided(t, OTHER, 1, window, window), Late(window, delay))
    ensures Left(Late(window, delay), FirstSweep(window)) == Late(window, delay)
    ensures Prompt(FirstSweep(window), Late(window, delay), delay)
  {
    assert Trim(OTHER) == OTHER;
    var e, late := FirstSweep(window), Late(window, delay);
    Two(State(t, late), late, e[0], e[1], 1, window, delay);
    assert late[0 := Waiting(OTHER, window)] - {0} == late;
  }

  lemma SecondCallRuns(t: Table, window: Time, delay: Time)
    requires delay >= 0
    ensures AfterAll(State(t, Late(window, delay)), SecondCall(window, delay), 1, window)
            == State(Decided(t, KEY, 1, window, window - delay), Last(window, delay))
    ensures Left(Late(window, delay), SecondCall(window, delay)) == Last(window, delay)
    ensures Prompt(SecondCall(window, delay), Late(window, delay), delay)
  {
    assert Trim(OTHER) == OTHER;
    var e, late := SecondCall(window, delay), Late(window, delay);
    Two(State(t, late), late, e[0], e[1], 1, window, delay);
    assert (late - {1})[0 := Waiting(OTHER, 2 * window - delay)] == Last(window, delay);
  }

  lemma ThirdCallRuns(t: Table, window: Time, delay: Time)
    requires delay >= 0
    ensures AfterAll(State(t, Last(window, delay)), ThirdCall(window, delay), 1, window).table
            == Decided(Decided(t, OTHER, 1, window, 2 * window - delay), KEY, 1, window, 2 * window - 2 * delay)
    ensures Prompt(ThirdCall(window, delay), Last(window, delay), delay)
  {
    var e, last := ThirdCall(window, delay), Last(window, delay);
    Two(State(t, last), last, e[0], e[1], 1, window, delay);
    assert last - {0} == map[2 := Waiting(KEY, 2 * window - 2 * delay)];
  }

  lemma LateLocksPrompt(window: Time, delay: Time)
    requires 0 < delay <= window <= 2 * delay
    ensures ClockNeverGoesBack(LateLocks(window, delay)) && Prompt(LateLocks(window, delay), map[], delay)
  {
    var b, c, d, e := LateReads(window, delay), FirstSweep(window), SecondCall(window, delay), ThirdCall(window, delay);
    CallPiece(0, delay);
    LateReadsWait(EMPTY, window, delay);
    FirstSweepRuns(EMPTY, window, delay);
    SecondCallRuns(EMPTY, window, delay);
    ThirdCallRuns(EMPTY, window, delay);
    PromptCompose(Late(window, delay), d, e, delay);
    PromptCompose(Late(window, delay), c, d + e, delay);
    PromptCompose(map[], b, c + (d + e), delay);
    PromptCompose(map[], Call(0), b + (c + (d + e)), delay);
    LateLocksRise(window, delay);
  }

  lemma LateLocksRise(window: Time, delay: Time)
    requires 0 < delay <= window <= 2 * delay
    ensures Rising(LateLocks(window, delay), 0, 2 * window - delay)
  {
    var b, c, d, e := LateReads(window, delay), FirstSweep(window), SecondCall(window, delay), ThirdCall(window, delay);
    var end := 2 * window - delay;
    RisingCompose(d, window, end, e, end);
    RisingCompose(c, window, window, d + e, end);
    RisingCompose(b, 0, window, c + (d + e), end);
    RisingCompose(Call(0), 0, 0, b + (c + (d + e)), end);
  }

  lemma LateLocksTable(t: Table, window: Time, delay: Time)
    requires delay >= 0
    ensures var b, c := LateReads(window, delay), FirstSweep(window);
            var d, e := SecondCall(window, delay), ThirdCall(window, delay);
            AfterAll(State(t, map[]), b + (c + (d + e)), 1, window).table
            == Decided(Decided(Decided(Decided(t, OTHER, 1, window, window), KEY, 1, window, window - delay),
                               OTHER, 1, window, 2 * window - delay), KEY, 1, window, 2 * window - 2 * delay)
  {
    var b, c, d, e := LateReads(window, delay), FirstSweep(window), SecondCall(window, delay), ThirdCall(window, delay);
    var u := Decided(t, OTHER, 1, window, window);
    LateReadsWait(t, window, delay);
    FirstSweepRuns(t, window, delay);
    SecondCallRuns(u, window, delay);
    ThirdCallRuns(Decided(u, KEY, 1, window, window - delay), window, delay);
    RunsCompose(State(u, Late(window, delay)), d, e, 1, window);
    RunsCompose(State(t, Late(window, delay)), c, d + e, 1, window);
    RunsCompose(State(t, map[]), b, c + (d + e), 1, window);
  }

  /** A call of the key after one of another key that finds its bucket expired. */
  lemma SweptThenCalled(t: Table, window: Time, started: Time, calls: nat, now: Time, late: Time)
    requires BucketOf(t.buckets, KEY) == Some(Bucket(started, 1)) && started + window <= late && 0 <= now <= window
    requires CallsWithin(HitsOf(t.log, KEY), 0, window) == calls
    ensures var e := Decided(Decided(t, OTHER, 1, window, late), KEY, 1, window, now);
            && BucketOf(e.buckets, KEY) == Some(Bucket(now, 1))
            && CallsWithin(HitsOf(e.log, KEY), 0, window) == calls + 1
  {
    OtherDecision(t, 1, window, late);
    OwnDecision(Decided(t, OTHER, 1, window, late), 1, window, 0, now);
  }

  lemma FirstCallTable(window: Time) returns (t: Table)
    requires window > 0
    ensures AfterAll(START, Call(0), 1, window) == State(t, map[])
    ensures BucketOf(t.buckets, KEY) == Some(Bucket(0, 1)) && CallsWithin(HitsOf(t.log, KEY), 0, window) == 1
  {
    t := Decided(EMPTY, KEY, 1, window, 0);
    assert Trim(KEY) == KEY;
    Two(START, map[], Begin(0, false, KEY, 0), Lock(0, 0), 1, window, 0);
    assert map[0 := Waiting(KEY, 0)] - {0} == map[];
    OwnDecision(EMPTY, 1, window, 0, 0);
  }

  lemma TwoMore(t: Table, window: Time, delay: Time)
    requires 0 < delay <= window <= 2 * delay
    requires BucketOf(t.buckets, KEY) == Some(Bucket(0, 1)) && CallsWithin(HitsOf(t.log, KEY), 0, window) == 1
    ensures var v := Decided(Decided(t, OTHER, 1, window, window), KEY, 1, window, window - delay);
            var w := Decided(Decided(v, OTHER, 1, window, 2 * window - delay), KEY, 1, window, 2 * window - 2 * delay);
            CallsWithin(HitsOf(w.log, KEY), 0, window) == 3
  {
    SweptThenCalled(t, window, 0, 1, window - delay, window);
    var v := Decided(Decided(t, OTHER, 1, window, window), KEY, 1, window, window - delay);
    SweptThenCalled(v, window, window - delay, 2, 2 * window - 2 * delay, 2 * window - delay);
  }

  /** All three are allowed in one window length. */
  lemma LateLocksRun(window: Time, delay: Time)
    requires 0 < delay <= window <= 2 * delay
    ensures CallsWithin(HitsUnder(LateLocks(window, delay), 1, window, KEY), 0, window) == 3
  {
    var b, c, d, e := LateReads(window, delay), FirstSweep(window), SecondCall(window, delay), ThirdCall(window, delay);
    var t := FirstCallTable(window);
    TwoMore(t, window, delay);
    LateLocksTable(t, window, delay);
    RunsCompose(START, Call(0), b + (c + (d + e)), 1, window);
  }

  /** `n` calls read the clock at once; a window later each is overtaken before its lock. */
  function Opening(n: nat): seq<Event> {
    if n == 0 then [] else Opening(n - 1) + [Begin(n, false, KEY, 0)]
  }

  function Closing(n: nat, window: Time): seq<Event> {
    if n == 0 then []
    else [Begin(0, false, OTHER, window), Lock(0, window)] + ([Lock(n, window)] + Closing(n - 1, window))
  }

  function Lined(n: nat): (w: Waiters)
    ensures forall i | i in w :: 1 <= i <= n
  {
    if n == 0 then map[] else Lined(n - 1)[n := Waiting(KEY, 0)]
  }

  lemma {:induction false} OpeningLines(n: nat, limit: int, window: Time)
    ensures AfterAll(START, Opening(n), limit, window) == State(EMPTY, Lined(n))
    ensures Left(map[], Opening(n)) == Lined(n) && Prompt(Opening(n), map[], window)
    ensures forall i | 0 <= i < |Opening(n)| :: Opening(n)[i].at == 0
  {
    if n > 0 {
      OpeningLines(n - 1, limit, window);
      assert Trim(KEY) == KEY;
      var e := Begin(n, false, KEY, 0);
      One(State(EMPTY, Lined(n - 1)), Lined(n - 1), e, limit, window, window);
      RunsCompose(START, Opening(n - 1), [e], limit, window);
      PromptCompose(map[], Opening(n - 1), [e], window);
    }
  }

  lemma One(s: State, waiters: Waiters, e: Event, limit: int, window: Time, delay: Time)
    ensures AfterAll(s, [e], limit, window) == After(s, e, limit, window)
    ensures Left(waiters, [e]) == WaitersAfter(waiters, e)
    ensures Prompt([e], waiters, delay) <==> Timely(waiters, e, delay)
  {
    assert [e][1..] == [];
  }

  /** While the flood drains: every bucket of the key so far started at 0. */
  ghost predicate Drains(t: Table, window: Time, calls: nat) {
    && CallsWithin(HitsOf(t.log, KEY), 0, window) == calls
    && (KEY in t.buckets ==> t.buckets[KEY].started == 0)
  }

  lemma ClosingStep(t: Table, n: nat, limit: int, window: Time)
    requires n > 0 && window > 0
    ensures var s := State(t, Lined(n));
            var u := Decided(Decided(t, OTHER, limit, window, window), KEY, limit, window, 0);
            AfterAll(s, Closing(n, window), limit, window)
            == AfterAll(State(u, Lined(n - 1)), Closing(n - 1, window), limit, window)
    ensures Prompt(Closing(n - 1, window), Lined(n - 1), window) ==> Prompt(Closing(n, window), Lined(n), window)
  {
    assert Trim(OTHER) == OTHER;
    var x, y, z, s := Begin(0, false, OTHER, window), Lock(0, window), Lock(n, window), State(t, Lined(n));
    assert Lined(n)[0 := Waiting(OTHER, window)] - {0} == Lined(n) && Lined(n) - {n} == Lined(n - 1);
    Two(s, Lined(n), x, y, limit, window, window);
    var m := State(Decided(t, OTHER, limit, window, window), Lined(n));
    One(m, Lined(n), z, limit, window, window);
    RunsCompose(m, [z], Closing(n - 1, window), limit, window);
    RunsCompose(s, [x, y], [z] + Closing(n - 1, window), limit, window);
    if Prompt(Closing(n - 1, window), Lined(n - 1), window) {
      PromptCompose(Lined(n), [z], Closing(n - 1, window), window);
      PromptCompose(Lined(n), [x, y], [z] + Closing(n - 1, window), window);
    }
  }

  lemma {:induction false} ClosingPrompt(n: nat, window: Time)
    requires window > 0
    ensures Prompt(Closing(n, window), Lined(n), window) && Rising(Closing(n, window), window, window)
  {
    if n > 0 {
      ClosingStep(EMPTY, n, 1, window);
      ClosingPrompt(n - 1, window);
    }
  }

  lemma {:induction false} ClosingDrains(t: Table, n: nat, limit: int, window: Time, calls: nat)
    requires Drains(t, window, calls) && limit > 0 && window > 0
    ensures Drains(AfterAll(State(t, Lined(n)), Closing(n, window), limit, window).table, window, calls + n)
    decreases n
  {
    if n > 0 {
      ClosingStep(t, n, limit, window);
      OtherDecision(t, limit, window, window);
      var u := Decided(t, OTHER, limit, window, window);
      OwnDecision(u, limit, window, 0, 0);
      ClosingDrains(Decided(u, KEY, limit, window, 0), n - 1, limit, window, calls + 1);
    }
  }

  /** With a delay of a whole window any number of calls is allowed on one instant. */
  lemma Flood(n: nat, limit: int, window: Time)
    requires limit > 0 && window > 0
    ensures var events := Opening(n) + Closing(n, window);
            && ClockNeverGoesBack(events) && Prompt(events, map[], window)
            && CallsWithin(HitsUnder(events, limit, window, KEY), 0, window) == n
  {
    OpeningLines(n, limit, window);
    ClosingPrompt(n, window);
    ClosingDrains(EMPTY, n, limit, window, 0);
    PromptCompose(map[], Opening(n), Closing(n, window), window);
    RunsCompose(START, Opening(n), Closing(n, window), limit, window);
  }

  /* ---------- exactly when ---------- */

  /** A run that shows a bound is not kept. */
  lemma Exceeds(events: seq<Event>, limit: int, window: Time, short: Time, delay: Time, from: Time, bound: int)
    requires ClockNeverGoesBack(events) && Prompt(events, map[], short) && short <= delay
    requires CallsWithin(HitsUnder(events, limit, window, KEY), from, window) > bound
    ensures !KeepsWithin(limit, window, delay, bound)
  {
    PromptWithin(events, map[], short, delay);
  }

  /** Twice the limit per window is kept exactly when no lock is delayed, or
      the limit is one and the delay is less than half a window. */
  lemma TwiceTheLimitExactly(limit: int, window: Time, delay: Time)
    requires limit > 0 && window > 0 && delay >= 0
    ensures KeepsWithin(limit, window, delay, 2 * limit) <==> delay == 0 || (limit == 1 && 2 * delay < window)
  {
    if delay == 0 {
      BoundPrompt(limit, window, 0, 2);
    } else if limit == 1 && 2 * delay < window {
      BoundLimitOne(window, delay);
    } else if limit == 1 {
      var half := (window + 1) / 2;
      LateLocksPrompt(window, half);
      LateLocksRun(window, half);
      Exceeds(LateLocks(window, half), limit, window, half, delay, 0, 2 * limit);
    } else if window == 1 {
      Flood(2 * limit + 1, limit, window);
      Exceeds(Opening(2 * limit + 1) + Closing(2 * limit + 1, window), limit, window, window, delay, 0, 2 * limit);
    } else {
      ThreeBucketsRun(limit, window);
      Exceeds(ThreeBuckets(limit, window), limit, window, 1, delay, window - 1, 2 * limit);
    }
  }

  /** With no delay no smaller bound is kept. */
  lemma BestInOrder(limit: int, window: Time, bound: int)
    requires limit > 0 && window > 0
    ensures KeepsWithin(limit, window, 0, bound) <==> bound >= 2 * limit
  {
    TwiceTheLimitExactly(limit, window, 0);
    TwoBucketsRun(limit, window);
    if bound < 2 * limit {
      Exceeds(TwoBuckets(limit, window), limit, window, 0, 0, 0, bound);
    }
  }

  /** With a delay of up to a quarter of a window the best bound is one less
      than three times the limit. */
  lemma BestShortDelay(limit: int, window: Time, delay: Time, bound: int)
    requires limit > 0 && 0 < delay && 4 * delay <= window
    ensures KeepsWithin(limit, window, delay, bound) <==> bound >= 3 * limit - 1
  {
    BoundThreeBuckets(limit, window, delay);
    ThreeBucketsRun(limit, window);
    if bound < 3 * limit - 1 {
      Exceeds(ThreeBuckets(limit, window), limit, window, 1, delay, window - 1, bound);
    }
  }

  lemma SomeBuckets(window: Time, delay: Time) returns (buckets: nat)
    requires 0 <= delay < window
    ensures Spans(buckets, window, delay)
  {
    buckets := 2 * window + delay;
    TimesAtLeast(buckets, window - delay);
  }

  lemma {:induction false} TimesAtLeast(n: nat, factor: int)
    requires factor >= 1
    ensures n * factor >= n
  {
    if n > 0 {
      TimesAtLeast(n - 1, factor);
      assert n * factor == (n - 1) * factor + factor;
    }
  }

  /** Some bound is kept exactly when the delay is less than a window. */
  lemma BoundedExactly(limit: int, window: Time, delay: Time)
    requires limit > 0 && window > 0 && delay >= 0
    ensures (exists bound :: KeepsWithin(limit, window, delay, bound)) <==> delay < window
  {
    if delay < window {
      var buckets := SomeBuckets(window, delay);
      BoundPrompt(limit, window, delay, buckets);
    } else {
      forall bound ensures !KeepsWithin(limit, window, delay, bound) {
        var n: nat := if bound < 0 then 0 else bound + 1;
        Flood(n, limit, window);
        Exceeds(Opening(n) + Closing(n, window), limit, window, window, delay, 0, bound);
      }
    }
  }
}
