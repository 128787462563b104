/** The staging-store lifecycle of the file centre (file/service.go): `Upload`,
    `DeleteFile` and the three maintenance passes, with a failure or a crash
    possible at every port call. */
module FileService {
  import opened Common
  import opened FileStore

  /** The call by which a pass is done with a row. */
  predicate Ends(c: Call) { c.MarkStatus? || c.UpdateRow? }

  /** How many such calls got through. */
  function Finished(run: seq<Attempt>): nat {
    if run == [] then 0
    else
      var last := run[|run| - 1];
      Finished(run[..|run| - 1]) + if last.outcome.Done? && Ends(last.call) then 1 else 0
  }

  /** Call number `k` of a run got through, and was not refused. */
  ghost predicate Got(start: Durable, run: seq<Attempt>, k: nat)
    requires k < |run|
  {
    run[k].outcome.Done? && Answer(Replay(start, run[..k]), run[k].call, Done).Success?
  }

  /** Repository and provider, as one process after another reaches them. */
  class World {
    const digest: Digest
    var durable: Durable
    var alive: bool
    var faults: seq<Outcome>
    ghost const start: Durable
    ghost var run: seq<Attempt>

    ghost predicate Valid() reads this {
      && Safe(digest, start) && DisciplinedRun(digest, start, run)
      && durable == Replay(start, run) && Safe(digest, durable)
    }

    ghost predicate FaultFree() reads this { alive && faults == [] }

    constructor (digest: Digest)
      ensures Valid() && durable == Durable(map[], map[], map[]) && run == [] && this.digest == digest
    {
      this.digest := digest;
      durable, alive, faults := Durable(map[], map[], map[]), true, [];
      start, run := Durable(map[], map[], map[]), [];
    }

    /** Call number `k` got through, and was not refused. */
    ghost predicate Succeeded(k: nat)
      requires k < |run|
      reads this
    {
      Got(start, run, k)
    }

    method Boot(script: seq<Outcome>)
      requires Valid()
      modifies this`alive, this`faults
      ensures Valid() && alive && faults == script
    {
      alive, faults := true, script;
    }

    /** What the next call of this process meets. */
    ghost function Next(): Outcome
      reads this`alive, this`faults
    {
      if !alive then Crash else if faults == [] then Done else faults[0]
    }

    method Draw() returns (o: Outcome)
      modifies this`alive, this`faults
      ensures o == old(Next()) && (alive <==> old(alive) && !o.Crash?)
      ensures faults == if old(alive) && old(faults) != [] then old(faults)[1..] else old(faults)
    {
      if !alive { return Crash; }
      if faults == [] { return Done; }
      o, faults := faults[0], faults[1..];
      alive := !o.Crash?;
    }

    /** A read that may fail: a lookup, a listing, an existence probe. */
    method Probe() returns (ok: bool)
      requires Valid()
      modifies this`alive, this`faults
      ensures Valid() && (ok <==> old(Next()).Done?) && (old(FaultFree()) ==> FaultFree() && ok)
    {
      var o := Draw();
      ok := o.Done?;
    }

    method Do(c: Call) returns (reply: Reply)
      requires Valid() && Disciplined(digest, durable, c)
      modifies this`durable, this`alive, this`faults, this`run
      ensures Valid() && Keeps(old(durable), durable)
      ensures |run| == |old(run)| + 1 && old(run) <= run && run[|old(run)|].call == c
      ensures durable == After(old(durable), c, run[|old(run)|].outcome)
      ensures reply == Answer(old(durable), c, run[|old(run)|].outcome)
      ensures run[|old(run)|].outcome == old(Next())
      ensures old(FaultFree()) ==> FaultFree() && run[|old(run)|].outcome.Done?
      ensures reply.Success? <==> Succeeded(|old(run)|)
      ensures Finished(run) == Finished(old(run)) + if run[|old(run)|].outcome.Done? && Ends(c) then 1 else 0
    {
      var o := Draw();
      DisciplinedCallIsSafe(digest, durable, c, o);
      RunsAppend(digest, start, run, Attempt(c, o));
      reply := Answer(durable, c, o);
      durable := After(durable, c, o);
      run := run + [Attempt(c, o)];
      assert run[..|run| - 1] == old(run);
    }

    /** `MarkStatus` on an existing row. */
    method Mark(id: string, status: Status) returns (ok: bool)
      requires Valid() && id in durable.rows && !status.Pending? && !status.Ready?
      requires status.Deleted? ==> durable.rows[id].key !in durable.objects && id !in durable.staged
      modifies this`durable, this`alive, this`faults, this`run
      ensures Valid() && Meanwhile(old(durable), durable)
      ensures durable == old(durable).(rows := durable.rows)
      ensures durable.rows in {old(durable).rows, old(durable).rows[id := old(durable).rows[id].(status := status)]}
      ensures ok ==> durable.rows == old(durable).rows[id := old(durable).rows[id].(status := status)]
      ensures !MayMark(old(durable).rows[id].status, status) ==> !ok && durable == old(durable)
      ensures |run| == |old(run)| + 1 && old(run) <= run && run[|old(run)|].call == MarkStatus(id, status)
      ensures old(FaultFree()) ==> FaultFree() && (ok <==> MayMark(old(durable).rows[id].status, status))
      ensures Finished(run) == Finished(old(run)) + if run[|old(run)|].outcome.Done? && Ends(MarkStatus(id, status))
              then 1 else 0
      ensures ok <==> run[|old(run)|].outcome.Done? && MayMark(old(durable).rows[id].status, status)
    {
      var reply := Tidy(MarkStatus(id, status));
      ok := reply.Success?;
    }

    /** `Update` of an existing row. */
    method Update(row: Row) returns (ok: bool)
      requires Valid() && row.id in durable.rows && Disciplined(digest, durable, UpdateRow(row))
      modifies this`durable, this`alive, this`faults, this`run
      ensures Valid()
      ensures durable in {old(durable), old(durable).(rows := old(durable).rows[row.id := row])}
      ensures !MayUpdate(old(durable).rows[row.id].status, row.status) ==> durable == old(durable)
      ensures ok ==> durable.rows == old(durable).rows[row.id := row]
      ensures |run| == |old(run)| + 1 && old(run) <= run && run[|old(run)|].call == UpdateRow(row)
      ensures old(FaultFree()) ==> FaultFree() && (ok <==> !Refuses(old(durable), UpdateRow(row)))
      ensures ok <==> Succeeded(|old(run)|)
    {
      var reply := Do(UpdateRow(row));
      ok := reply.Success?;
    }

    /** A call of a pass over the rows. */
    method Tidy(c: Call) returns (reply: Reply)
      requires Valid() && Disciplined(digest, durable, c) && Housekeeping(durable, c)
      modifies this`durable, this`alive, this`faults, this`run
      ensures Valid() && Meanwhile(old(durable), durable)
      ensures durable in {old(durable), Perform(old(durable), c)}
      ensures reply.Success? ==> Present(old(durable), c) && !Refuses(old(durable), c)
      ensures reply.NotFound? ==> !Present(old(durable), c) && !Refuses(old(durable), c)
      ensures !reply.Error? ==> durable == Perform(old(durable), c)
      ensures |run| == |old(run)| + 1 && old(run) <= run && run[|old(run)|].call == c
      ensures old(FaultFree()) ==> FaultFree() && (reply.Error? <==> Refuses(old(durable), c))
      ensures Finished(run) == Finished(old(run)) + if run[|old(run)|].outcome.Done? && Ends(c) then 1 else 0
      ensures reply.Success? <==> Succeeded(|old(run)|)
      ensures reply.Error? <==> !run[|old(run)|].outcome.Done? || Refuses(old(durable), c)
    {
      ghost var d := durable;
      reply := Do(c);
      HousekeepingIsMeanwhile(digest, d, c, run[|run| - 1].outcome);
    }

    /** Deletion of a stage; a missing one is as good as deleted. */
    method DropStage(id: string) returns (ok: bool)
      requires Valid()
      modifies this`durable, this`alive, this`faults, this`run
      ensures Valid() && Meanwhile(old(durable), durable)
      ensures durable in {old(durable), old(durable).(staged := old(durable).staged - {id})}
      ensures ok ==> id !in durable.staged
      ensures |run| == |old(run)| + 1 && old(run) <= run && run[|old(run)|].call == DeleteStaging(id)
      ensures old(FaultFree()) ==> FaultFree() && ok
      ensures Finished(run) == Finished(old(run)) && (ok <==> run[|old(run)|].outcome.Done?)
    {
      var reply := Tidy(DeleteStaging(id));
      ok := !reply.Error?;
    }

    /** Deletion of an object whose row is being deleted. */
    method DropObject(key: Key) returns (ok: bool)
      requires Valid() && key.id in durable.rows && durable.rows[key.id].status.Deleting?
      modifies this`durable, this`alive, this`faults, this`run
      ensures Valid() && Meanwhile(old(durable), durable)
      ensures durable in {old(durable), old(durable).(objects := old(durable).objects - {key})}
      ensures ok ==> key !in durable.objects
      ensures |run| == |old(run)| + 1 && old(run) <= run && run[|old(run)|].call == DeleteObject(key)
      ensures old(FaultFree()) ==> FaultFree() && ok
      ensures Finished(run) == Finished(old(run)) && (ok <==> run[|old(run)|].outcome.Done?)
    {
      var reply := Tidy(DeleteObject(key));
      ok := !reply.Error?;
    }
  }

  /** What an upload request yields: the bytes its reader delivers, the key
      guessed from the request and the one derived from the sniffed content, and
      the verdict of `validateObserved`. */
  datatype UploadInput = UploadInput(
    id: string, declaredSize: int, content: Bytes, guessedKey: Key, detectedKey: Key, accepted: bool, now: nat)

  datatype UploadResult = Stored(row: Row) | Rejected

  /** A deletion request or a maintenance pass, over the rows its listing returned. */
  datatype Pass =
    | Delete(id: string, inUse: bool)
    | ProcessDeleting(listed: seq<string>)
    | CleanupPending(listed: seq<string>, cutoff: int)
    | ReconcilePending(listed: seq<string>)

  /** What the rest of the process does between the calls of an upload. */
  datatype Visits = Visits(
    created: seq<Pass>, staged: seq<Pass>, keyed: seq<Pass>, promoted: seq<Pass>, dropped: seq<Pass>)

  const QUIET := Visits([], [], [], [], [])

  /** The row an upload leaves once it is stored. */
  function Published(input: UploadInput, digest: Digest): Row {
    Row(input.id, input.detectedKey, |input.content|, digest(input.content), Ready, input.now)
  }

  /** The row it begins with. */
  function Announced(input: UploadInput): Row {
    Row(input.id, input.guessedKey, input.declaredSize, "", Pending, input.now)
  }

  /** The calls an upload makes, if nothing fails. */
  predicate Own(input: UploadInput, digest: Digest, c: Call) {
    || c == CreateRow(Announced(input)) || c == PutStaging(input.id, input.content)
    || c == UpdateRow(Published(input, digest).(status := Pending))
    || c == Promote(input.id, input.detectedKey) || c == UpdateRow(Published(input, digest))
  }

  /** A rejection is earned: the content was not accepted, or one of those calls
      did not succeed. */
  ghost predicate Earned(input: UploadInput, digest: Digest, start: Durable, run: seq<Attempt>, from: nat) {
    !input.accepted || exists k: nat | from <= k < |run| :: Own(input, digest, run[k].call) && !Got(start, run, k)
  }

  lemma EarnedStays(input: UploadInput, digest: Digest, start: Durable, run: seq<Attempt>, from: nat,
                    more: seq<Attempt>)
    requires Earned(input, digest, start, run, from) && run <= more
    ensures Earned(input, digest, start, more, from)
  {
    if input.accepted {
      var k: nat :| from <= k < |run| && Own(input, digest, run[k].call) && !Got(start, run, k);
      assert more[..k] == run[..k];
    }
  }

  /** The content was accepted and staged. */
  ghost predicate Staged(input: UploadInput, start: Durable, run: seq<Attempt>, from: nat) {
    input.accepted
    && exists k: nat | from <= k < |run| :: run[k].call == PutStaging(input.id, input.content) && Got(start, run, k)
  }

  lemma StagedStays(input: UploadInput, start: Durable, run: seq<Attempt>, from: nat, more: seq<Attempt>)
    requires Staged(input, start, run, from) && run <= more
    ensures Staged(input, start, more, from)
  {
    var k: nat :| from <= k < |run| && run[k].call == PutStaging(input.id, input.content) && Got(start, run, k);
    assert more[..k] == run[..k];
  }

  /** The row of the upload is the one it last wrote, its status apart. */
  predicate Owned(d: Durable, row: Row) {
    row.id in d.rows && d.rows[row.id] == row.(status := d.rows[row.id].status)
  }

  /** The last call was to make this row failed. */
  predicate MarkedLast(run: seq<Attempt>, id: string) {
    run != [] && run[|run| - 1].call == MarkStatus(id, Failed)
  }

  class Service {
    const world: World

    constructor (world: World)
      ensures this.world == world
    {
      this.world := world;
    }

    /** The failure path of an upload whose object was not published: the stage
        is dropped and the row marked failed, both at best effort. */
    method FailUpload(id: string, dropped: seq<Pass>)
      requires world.Valid() && id in world.durable.rows
      modifies world`durable, world`alive, world`faults, world`run
      ensures world.Valid() && Meanwhile(old(world.durable), world.durable)
      ensures MarkedLast(world.run, id)
      ensures old(world.FaultFree()) && dropped == [] && old(world.durable).rows[id].status.Pending? ==>
                && world.durable.rows[id].status.Failed? && id !in world.durable.staged
                && world.durable.objects == old(world.durable).objects
      ensures old(world.run) <= world.run
    {
      ghost var d := world.durable;
      var _ := world.DropStage(id);
      ghost var e := world.durable;
      Visit(dropped);
      MeanwhileTransitive(d, e, world.durable);
      ghost var f := world.durable;
      var _ := world.Mark(id, Failed);
      MeanwhileTransitive(d, f, world.durable);
    }

    /** How an upload whose row was created ends: rejected, with reason, or stored
        with its row ready over its content. */
    ghost predicate Concluded(input: UploadInput, from: nat, result: UploadResult) reads world {
      world.run != [] &&
      match result
      case Rejected =>
        && Earned(input, world.digest, world.start, world.run, from)
        && (MarkedLast(world.run, input.id)
            || (&& world.run[|world.run| - 1].call == UpdateRow(Published(input, world.digest))
                && !world.Succeeded(|world.run| - 1)))
      case Stored(row) =>
        && row == Published(input, world.digest)
        && input.id in world.durable.rows && world.durable.rows[input.id] == row
        && input.detectedKey in world.durable.objects && world.durable.objects[input.detectedKey] == input.content
        && Staged(input, world.start, world.run, from) && world.Succeeded(|world.run| - 1)
    }

    /** The failure path of a stage or promotion that an upload cannot go on from. */
    method Reject(input: UploadInput, visits: Visits, ghost from: nat)
      requires world.Valid() && input.id in world.durable.rows
      requires Earned(input, world.digest, world.start, world.run, from)
      modifies world`durable, world`alive, world`faults, world`run
      ensures world.Valid() && MarkedLast(world.run, input.id) && old(world.run) <= world.run
      ensures Earned(input, world.digest, world.start, world.run, from)
      ensures old(world.FaultFree()) && visits == QUIET && old(world.durable).rows[input.id].status.Pending? ==>
                && input.id in world.durable.rows && world.durable.rows[input.id].status.Failed?
                && input.id !in world.durable.staged && world.durable.objects == old(world.durable).objects
    {
      FailUpload(input.id, visits.dropped);
      EarnedStays(input, world.digest, world.start, old(world.run), from, world.run);
    }

    /** Streams the content to the stage. */
    method Stage(input: UploadInput, visits: Visits, ghost from: nat) returns (ok: bool)
      requires world.Valid() && input.id in world.durable.rows && input.id !in world.durable.staged
      requires from <= |world.run|
      modifies world`durable, world`alive, world`faults, world`run
      ensures world.Valid() && old(world.run) < world.run
      ensures ok ==>
                && Staged(input, world.start, world.run, from)
                && world.durable == old(world.durable).(staged := old(world.durable).staged[input.id := input.content])
      ensures !ok ==>
                MarkedLast(world.run, input.id) && Earned(input, world.digest, world.start, world.run, from)
      ensures old(world.FaultFree()) ==>
                && (ok ==> world.FaultFree()) && (ok <==> input.accepted)
                && (!ok && visits == QUIET && old(world.durable).rows[input.id].status.Pending? ==>
                      && input.id in world.durable.rows && world.durable.rows[input.id].status.Failed?
                      && input.id !in world.durable.staged && world.durable.objects == old(world.durable).objects)
    {
      var reply := world.Do(PutStaging(input.id, input.content));
      ok := reply.Success? && input.accepted;
      if !ok {
        Reject(input, visits, from);
      }
    }

    /** The stage, then what was observed is recorded, under the final key, in
        the row if it is still pending. */
    method StageAndKey(input: UploadInput, row: Row, visits: Visits, ghost from: nat)
      returns (keyed: Option<Row>)
      requires world.Valid() && row.id == input.id == input.detectedKey.id && row.status.Pending?
      requires row.createdAt == input.now && from <= |world.run|
      requires Owned(world.durable, row) && input.id !in world.durable.staged
      requires forall k | k in world.durable.objects :: k.id != input.id
      modifies world`durable, world`alive, world`faults, world`run
      ensures world.Valid() && old(world.run) < world.run
      ensures keyed.None? ==>
                MarkedLast(world.run, row.id) && Earned(input, world.digest, world.start, world.run, from)
      ensures keyed.Some? ==>
                && keyed.value == Published(input, world.digest).(status := Pending)
                && row.id in world.durable.rows && world.durable.rows[row.id] == keyed.value
                && (row.id in world.durable.staged ==> world.durable.staged[row.id] == input.content)
                && input.detectedKey !in world.durable.objects
                && Staged(input, world.start, world.run, from)
      ensures old(world.FaultFree() && world.durable.rows[row.id] == row) && visits == QUIET ==>
                && (keyed.Some? <==> input.accepted)
                && (if keyed.Some?
                    then world.FaultFree() && row.id in world.durable.staged
                    else && row.id in world.durable.rows && world.durable.rows[row.id].status.Failed?
                         && row.id !in world.durable.staged
                         && world.durable.objects == old(world.durable).objects)
    {
      var staged := Stage(input, visits, from);
      if !staged { return None; }
      ghost var d, run := world.durable, world.run;
      Visit(visits.staged);
      StagedStays(input, world.start, run, from, world.run);
      keyed := RecordKey(input, row, visits, from, d);
    }

    /** Records what was observed. */
    method RecordKey(input: UploadInput, row: Row, visits: Visits, ghost from: nat, ghost d: Durable)
      returns (keyed: Option<Row>)
      requires world.Valid() && row.id == input.id == input.detectedKey.id && row.status.Pending?
      requires row.createdAt == input.now && from <= |world.run|
      requires Meanwhile(d, world.durable) && Owned(d, row) && Staged(input, world.start, world.run, from)
      requires row.id in d.staged && d.staged[row.id] == input.content
      requires forall k | k in d.objects :: k.id != input.id
      modifies world`durable, world`alive, world`faults, world`run
      ensures world.Valid() && old(world.run) <= world.run
      ensures keyed.None? ==>
                MarkedLast(world.run, row.id) && Earned(input, world.digest, world.start, world.run, from)
      ensures keyed.Some? ==>
                && keyed.value == Published(input, world.digest).(status := Pending)
                && row.id in world.durable.rows && world.durable.rows[row.id] == keyed.value
                && world.durable.staged == old(world.durable).staged
                && (row.id in world.durable.staged ==> world.durable.staged[row.id] == input.content)
                && input.detectedKey !in world.durable.objects
                && Staged(input, world.start, world.run, from)
      ensures old(world.FaultFree()) && d == old(world.durable) && d.rows[row.id] == row ==>
                keyed.Some? && world.FaultFree()
    {
      var final := row.(key := input.detectedKey, size := |input.content|, sha256 := world.digest(input.content));
      assert RowMeanwhile(d, world.durable, row.id);
      var updated := world.Update(final);
      if !updated {
        Reject(input, visits, from);
        return None;
      }
      StagedStays(input, world.start, old(world.run), from, world.run);
      return Some(final);
    }

    /** `Upload`, with any deletion requests and maintenance passes between its
        calls, of its own row too.  Whatever they do, whatever fails, and
        wherever the process dies, every state passed through is safe, and a
        successful upload leaves the row ready over its content. */
    method Upload(input: UploadInput, visits: Visits) returns (result: UploadResult)
      requires world.Valid()
      requires input.guessedKey.id == input.detectedKey.id == input.id
      requires input.id !in world.durable.rows && input.id !in world.durable.staged
      modifies world`durable, world`alive, world`faults, world`run
      ensures world.Valid() && old(world.run) < world.run
      ensures result.Rejected? ==>
                && Earned(input, world.digest, world.start, world.run, |old(world.run)|)
                && (|| world.run[|world.run| - 1].call.CreateRow?
                    || MarkedLast(world.run, input.id)
                    || world.run[|world.run| - 1].call == UpdateRow(Published(input, world.digest)))
      ensures result.Stored? ==>
                && result.row == Published(input, world.digest)
                && result.row.id == input.id && result.row.key == input.detectedKey && result.row.status.Ready?
                && input.id in world.durable.rows && world.durable.rows[input.id] == result.row
                && input.detectedKey in world.durable.objects
                && world.durable.objects[input.detectedKey] == input.content
                && Staged(input, world.start, world.run, |old(world.run)|)
      ensures (result.Stored? || (result.Rejected? && !MarkedLast(world.run, input.id))) ==>
                (result.Stored? <==> world.Succeeded(|world.run| - 1))
      ensures old(world.FaultFree()) && visits == QUIET ==> (result.Stored? <==> input.accepted)
      ensures old(world.FaultFree()) && visits == QUIET && result.Rejected? ==>
                && input.id in world.durable.rows && world.durable.rows[input.id].status.Failed?
                && input.id !in world.durable.staged && world.durable.objects == old(world.durable).objects
    {
      ghost var from := |world.run|;
      var row := Row(input.id, input.guessedKey, input.declaredSize, "", Pending, input.now);
      assert forall k | k in world.durable.objects :: k.id != input.id;
      var reply := world.Do(CreateRow(row));
      if !reply.Success? { return Rejected; }
      result := Fill(input, row, visits, from);
    }

    /** `Upload` from the created row on. */
    method Fill(input: UploadInput, row: Row, visits: Visits, ghost from: nat) returns (result: UploadResult)
      requires world.Valid() && row == Announced(input) && input.guessedKey.id == input.detectedKey.id == input.id
      requires input.id in world.durable.rows && world.durable.rows[input.id] == row
      requires input.id !in world.durable.staged && from <= |world.run|
      requires forall k | k in world.durable.objects :: k.id != input.id
      modifies world`durable, world`alive, world`faults, world`run
      ensures world.Valid() && old(world.run) < world.run
      ensures Concluded(input, from, result)
      ensures old(world.FaultFree()) && visits == QUIET ==> (result.Stored? <==> input.accepted)
      ensures old(world.FaultFree()) && visits == QUIET && result.Rejected? ==>
                && input.id in world.durable.rows && world.durable.rows[input.id].status.Failed?
                && input.id !in world.durable.staged && world.durable.objects == old(world.durable).objects
    {
      ghost var d := world.durable;
      Visit(visits.created);
      assert RowMeanwhile(d, world.durable, row.id);
      var keyed := StageAndKey(input, row, visits, from);
      if keyed.None? { return Rejected; }
      result := Publish(input, keyed.value, visits, from);
    }

    /** Promotes the staged content under the row's key, then makes the row
        ready, unless it was deleted or expired meanwhile. */
    method Publish(input: UploadInput, keyed: Row, visits: Visits, ghost from: nat)
      returns (result: UploadResult)
      requires world.Valid() && keyed == Published(input, world.digest).(status := Pending)
      requires input.id == input.detectedKey.id && from <= |world.run|
      requires keyed.id in world.durable.rows && world.durable.rows[keyed.id] == keyed
      requires keyed.key !in world.durable.objects && Staged(input, world.start, world.run, from)
      requires keyed.id in world.durable.staged ==> world.durable.staged[keyed.id] == input.content
      modifies world`durable, world`alive, world`faults, world`run
      ensures world.Valid() && old(world.run) < world.run
      ensures Concluded(input, from, result)
      ensures old(world.FaultFree() && keyed.id in world.durable.staged) && visits == QUIET ==> result.Stored?
    {
      ghost var d := world.durable;
      Visit(visits.keyed);
      assert RowMeanwhile(d, world.durable, keyed.id);
      StagedStays(input, world.start, old(world.run), from, world.run);
      result := PromoteKeyed(input, keyed, visits, from);
    }

    /** The promotion, under the key recorded, and what follows it. */
    method PromoteKeyed(input: UploadInput, keyed: Row, visits: Visits, ghost from: nat)
      returns (result: UploadResult)
      requires world.Valid() && keyed == Published(input, world.digest).(status := Pending)
      requires input.id == input.detectedKey.id && from <= |world.run|
      requires Owned(world.durable, keyed) && Staged(input, world.start, world.run, from)
      requires keyed.id in world.durable.staged && keyed.key !in world.durable.objects ==>
                 world.durable.staged[keyed.id] == input.content && !world.durable.rows[keyed.id].status.Deleted?
      modifies world`durable, world`alive, world`faults, world`run
      ensures world.Valid() && old(world.run) < world.run
      ensures Concluded(input, from, result)
      ensures old(world.FaultFree() && keyed.id in world.durable.staged && world.durable.rows[keyed.id] == keyed
                  && keyed.key !in world.durable.objects) && visits == QUIET ==>
                result.Stored?
    {
      ghost var run := world.run;
      var reply := world.Do(Promote(keyed.id, keyed.key));
      if !reply.Success? {
        // A torn promotion is reported as a failure although the object is
        // published.  The key is made from a new ID, so the one failure that
        // would keep the stage, an object already there, does not arise.
        Reject(input, visits, from);
        return Rejected;
      }
      StagedStays(input, world.start, run, from, world.run);
      result := Finalize(input, keyed, visits, from);
    }

    /** What follows the promotion. */
    method Finalize(input: UploadInput, keyed: Row, visits: Visits, ghost from: nat) returns (result: UploadResult)
      requires world.Valid() && keyed == Published(input, world.digest).(status := Pending)
      requires input.id == input.detectedKey.id && from <= |world.run|
      requires Owned(world.durable, keyed) && Staged(input, world.start, world.run, from)
      requires keyed.key in world.durable.objects && world.durable.objects[keyed.key] == input.content
      modifies world`durable, world`alive, world`faults, world`run
      ensures world.Valid() && old(world.run) < world.run
      ensures Concluded(input, from, result)
      ensures old(world.FaultFree() && world.durable.rows[keyed.id] == keyed) && visits == QUIET ==> result.Stored?
    {
      var published := MakeReady(keyed, input.content, visits.promoted);
      StagedStays(input, world.start, old(world.run), from, world.run);
      // If not: the row stays as it is, for `ReconcilePending` if pending.
      result := if published then Stored(keyed.(status := Ready)) else Rejected;
      assert Own(input, world.digest, world.run[|world.run| - 1].call);
    }

    /** `persistReady`, some time after the promotion. */
    method MakeReady(keyed: Row, content: Bytes, promoted: seq<Pass>) returns (ok: bool)
      requires world.Valid() && keyed.status.Pending? && keyed.id == keyed.key.id && Owned(world.durable, keyed)
      requires Describes(world.digest, keyed, content)
      requires keyed.key in world.durable.objects && world.durable.objects[keyed.key] == content
      modifies world`durable, world`alive, world`faults, world`run
      ensures world.Valid()
      ensures old(world.run) < world.run && world.run[|world.run| - 1].call == UpdateRow(keyed.(status := Ready))
      ensures ok <==> world.Succeeded(|world.run| - 1)
      ensures ok ==>
                && keyed.id in world.durable.rows && world.durable.rows[keyed.id] == keyed.(status := Ready)
                && keyed.key in world.durable.objects && world.durable.objects[keyed.key] == content
      ensures old(world.FaultFree() && world.durable.rows[keyed.id] == keyed) && promoted == [] ==> ok
    {
      ghost var d := world.durable;
      Visit(promoted);
      assert RowMeanwhile(d, world.durable, keyed.id);
      ok := world.Update(keyed.(status := Ready));
    }

    /** Any deletion requests and passes, one after another. */
    method Visit(passes: seq<Pass>)
      requires world.Valid()
      modifies world`durable, world`alive, world`faults, world`run
      ensures world.Valid() && Meanwhile(old(world.durable), world.durable)
      ensures passes == [] ==> world.durable == old(world.durable) && (old(world.FaultFree()) ==> world.FaultFree())
      ensures old(world.run) <= world.run
    {
      for i := 0 to |passes|
        invariant world.Valid() && Meanwhile(old(world.durable), world.durable)
        invariant old(world.run) <= world.run
        invariant i == 0 ==> world.durable == old(world.durable) && (old(world.FaultFree()) ==> world.FaultFree())
      {
        ghost var e := world.durable;
        RunPass(passes[i]);
        MeanwhileTransitive(old(world.durable), e, world.durable);
      }
    }

    /** One of them. */
    method RunPass(pass: Pass)
      requires world.Valid()
      modifies world`durable, world`alive, world`faults, world`run
      ensures world.Valid() && Meanwhile(old(world.durable), world.durable)
      ensures old(world.FaultFree()) ==> Undisturbed(old(world.durable), world.durable, pass)
      ensures old(world.run) <= world.run
    {
      var d := world.durable;
      match pass {
        case Delete(id, inUse) =>
          var _ := DeleteFile(id, inUse);
        case ProcessDeleting(listed) =>
          if Lists(d, listed, Deleting) { var _ := ProcessDeleting(listed); }
        case CleanupPending(listed, cutoff) =>
          if Lists(d, listed, Pending) { var _ := CleanupPending(listed, cutoff); }
        case ReconcilePending(listed) =>
          if Lists(d, listed, Pending) { var _ := ReconcilePending(listed); }
      }
    }

    /** `DeleteFile`: requests deletion; the object is left to `ProcessDeleting`.
        Nothing but the status of that row can change.  Undisturbed, the request
        is accepted exactly when the file is being deleted already, or exists
        and is not in use, and a refusal changes nothing. */
    method DeleteFile(id: string, inUse: bool) returns (ok: bool)
      requires world.Valid()
      modifies world`durable, world`alive, world`faults, world`run
      ensures world.Valid() && Meanwhile(old(world.durable), world.durable)
      ensures ok ==> MayRequest(old(world.durable), id, inUse) && Requested(old(world.durable), world.durable, id)
      ensures world.durable == old(world.durable) || Requested(old(world.durable), world.durable, id)
      ensures !MayRequest(old(world.durable), id, inUse) ==> world.durable == old(world.durable)
      ensures old(world.FaultFree()) ==> (ok <==> MayRequest(old(world.durable), id, inUse))
      ensures old(world.run) <= world.run
      ensures !old(world.Next()).Done? ==> !ok && world.run == old(world.run)
      ensures ok <==>
                && old(world.Next()).Done? && MayRequest(old(world.durable), id, inUse)
                && (world.run == old(world.run) || world.run[|world.run| - 1].outcome.Done?)
      ensures world.run == old(world.run) <==>
                || !old(world.Next()).Done? || !MayRequest(old(world.durable), id, inUse)
                || old(world.durable).rows[id].status.Deleting?
    {
      var found := world.Probe();
      if !found || id !in world.durable.rows || world.durable.rows[id].status.Deleted? { return false; }
      if world.durable.rows[id].status.Deleting? { return true; }
      if inUse { return false; }
      ok := world.Mark(id, Deleting);
    }

    /** `ProcessDeleting`: the pass over the rows a listing returned. */
    method ProcessDeleting(listed: seq<string>) returns (removed: nat)
      requires world.Valid() && Lists(world.durable, listed, Deleting)
      modifies world`durable, world`alive, world`faults, world`run
      ensures world.Valid() && Meanwhile(old(world.durable), world.durable) && removed <= |listed|
      ensures old(world.FaultFree()) ==>
                removed == |listed| && forall id | id in listed :: IsDeleted(world.durable, id)
      ensures old(world.run) <= world.run
      ensures removed == Finished(world.run) - Finished(old(world.run))
    {
      ghost var d := world.durable;
      removed := 0;
      for i := 0 to |listed|
        invariant world.Valid() && Meanwhile(d, world.durable) && removed <= i && old(world.run) <= world.run
        invariant removed == Finished(world.run) - Finished(old(world.run))
        invariant forall j | i <= j < |listed| ::
                    listed[j] in world.durable.rows && world.durable.rows[listed[j]].status.Deleting?
        invariant old(world.FaultFree()) ==> world.FaultFree() && removed == i
        invariant old(world.FaultFree()) ==> forall j | 0 <= j < i :: IsDeleted(world.durable, listed[j])
      {
        ghost var e := world.durable;
        var done := DeleteOne(listed[i], d);
        assert forall j | 0 <= j < |listed| && j != i :: world.durable.rows[listed[j]] == e.rows[listed[j]];
        if done.None? { return; }
        if done.value { removed := removed + 1; }
      }
    }

    /** One row of the pass.  `None`: the status update failed and ends the pass. */
    method DeleteOne(id: string, ghost first: Durable) returns (done: Option<bool>)
      requires world.Valid() && id in world.durable.rows && world.durable.rows[id].status.Deleting?
      requires Meanwhile(first, world.durable)
      modifies world`durable, world`alive, world`faults, world`run
      ensures world.Valid() && Meanwhile(first, world.durable)
      ensures done == Some(false) ==> world.durable.rows == old(world.durable).rows
      ensures done == Some(true) ==> IsDeleted(world.durable, id)
      ensures OnlyRow(old(world.durable), world.durable, id)
      ensures old(world.FaultFree()) ==> done == Some(true) && world.FaultFree()
      ensures old(world.run) <= world.run
      ensures Finished(world.run) == Finished(old(world.run)) + if done == Some(true) then 1 else 0
      ensures old(world.run) < world.run
      ensures var last := world.run[|world.run| - 1];
              done == if last.call != MarkStatus(id, Deleted) then Some(false)
                      else if last.outcome.Done? then Some(true) else None
    {
      ghost var d := world.durable;
      var ok := DropContent(id);
      MeanwhileTransitive(first, d, world.durable);
      if !ok { return Some(false); }
      ghost var e := world.durable;
      ok := world.Mark(id, Deleted);
      MeanwhileTransitive(d, e, world.durable);
      MeanwhileTransitive(first, d, world.durable);
      return if ok then Some(true) else None;
    }

    /** Its object, then its stage. */
    method DropContent(id: string) returns (ok: bool)
      requires world.Valid() && id in world.durable.rows && world.durable.rows[id].status.Deleting?
      modifies world`durable, world`alive, world`faults, world`run
      ensures world.Valid() && Meanwhile(old(world.durable), world.durable)
      ensures world.durable.rows == old(world.durable).rows
      ensures ok ==> world.durable.rows[id].key !in world.durable.objects && id !in world.durable.staged
      ensures old(world.FaultFree()) ==> ok && world.FaultFree()
      ensures old(world.run) <= world.run
      ensures Finished(world.run) == Finished(old(world.run)) && old(world.run) < world.run
      ensures var last := world.run[|world.run| - 1];
              (last.call.DeleteObject? || last.call.DeleteStaging?) && (ok ==> last.call.DeleteStaging?)
    {
      ghost var d := world.durable;
      ok := world.DropObject(world.durable.rows[id].key);
      if !ok { return; }
      ghost var e := world.durable;
      ok := world.DropStage(id);
      MeanwhileTransitive(d, e, world.durable);
    }

    /** `CleanupPending`: stale pending rows fail, once their stage is gone. */
    method CleanupPending(listed: seq<string>, cutoff: int) returns (changed: nat)
      requires world.Valid() && Lists(world.durable, listed, Pending)
      modifies world`durable, world`alive, world`faults, world`run
      ensures world.Valid() && Meanwhile(old(world.durable), world.durable) && changed <= |listed|
      ensures world.durable.objects == old(world.durable).objects
      ensures old(world.FaultFree()) ==>
                && changed == Due(old(world.durable), listed, cutoff)
                && forall id | id in listed :: Expired(old(world.durable), world.durable, id, cutoff)
      ensures old(world.run) <= world.run
      ensures changed == Finished(world.run) - Finished(old(world.run))
    {
      ghost var d, quiet := world.durable, world.FaultFree();
      changed := 0;
      for i := 0 to |listed|
        invariant world.Valid() && Meanwhile(d, world.durable) && changed <= i && old(world.run) <= world.run
        invariant changed == Finished(world.run) - Finished(old(world.run))
        invariant world.durable.objects == d.objects
        invariant forall j | i <= j < |listed| ::
                    && listed[j] in world.durable.rows
                    && world.durable.rows[listed[j]] == d.rows[listed[j]]
        invariant quiet ==> world.FaultFree() && Swept(d, world.durable, listed, i, cutoff, changed)
      {
        ghost var e := world.durable;
        var ended := ExpireOne(listed[i], cutoff, d);
        assert forall j | 0 <= j < |listed| && j != i :: world.durable.rows[listed[j]] == e.rows[listed[j]];
        if quiet { SweptStep(d, e, world.durable, listed, i, cutoff, changed); }
        if ended.None? { return; }
        if ended.value { changed := changed + 1; }
      }
      assert listed[..|listed|] == listed;
    }

    /** One row of the pass; `None` ends it. */
    method ExpireOne(id: string, cutoff: int, ghost first: Durable) returns (ended: Option<bool>)
      requires world.Valid() && id in world.durable.rows && world.durable.rows[id].status.Pending?
      requires Meanwhile(first, world.durable)
      modifies world`durable, world`alive, world`faults, world`run
      ensures world.Valid() && Meanwhile(first, world.durable)
      ensures ended == Some(true) ==> world.durable.rows[id].status.Failed?
      ensures ended == Some(false) ==> world.durable.rows == old(world.durable).rows
      ensures world.durable.rows != old(world.durable).rows ==> id !in world.durable.staged
      ensures world.durable.objects == old(world.durable).objects
      ensures OnlyRow(old(world.durable), world.durable, id)
      ensures world.durable.staged.Keys <= old(world.durable).staged.Keys
      ensures old(world.FaultFree()) ==>
                ended == Some(old(world.durable).rows[id].createdAt <= cutoff) && world.FaultFree()
                && Expired(old(world.durable), world.durable, id, cutoff)
      ensures old(world.run) <= world.run
      ensures Finished(world.run) == Finished(old(world.run)) + if ended == Some(true) then 1 else 0
      ensures old(world.durable).rows[id].createdAt > cutoff <==> world.run == old(world.run)
      ensures world.run != old(world.run) ==>
                var last := world.run[|world.run| - 1];
                ended == if last.call != MarkStatus(id, Failed) then Some(false)
                         else if last.outcome.Done? then Some(true) else None
    {
      if world.durable.rows[id].createdAt > cutoff { return Some(false); }
      ended := Expire(id, first);
    }

    /** A row past the cutoff. */
    method Expire(id: string, ghost first: Durable) returns (ended: Option<bool>)
      requires world.Valid() && id in world.durable.rows && world.durable.rows[id].status.Pending?
      requires Meanwhile(first, world.durable)
      modifies world`durable, world`alive, world`faults, world`run
      ensures world.Valid() && Meanwhile(first, world.durable)
      ensures world.durable.objects == old(world.durable).objects
      ensures world.durable.staged in {old(world.durable).staged, old(world.durable).staged - {id}}
      ensures world.durable.rows in {
                old(world.durable).rows, old(world.durable).rows[id := old(world.durable).rows[id].(status := Failed)]}
      ensures ended != Some(false) || world.durable.rows != old(world.durable).rows ==> id !in world.durable.staged
      ensures old(world.run) < world.run
      ensures Finished(world.run) == Finished(old(world.run)) + if ended == Some(true) then 1 else 0
      ensures var last := world.run[|world.run| - 1];
              ended == if last.call != MarkStatus(id, Failed) then Some(false)
                       else if last.outcome.Done? then Some(true) else None
      ensures ended == Some(true) ==> world.durable.rows[id].status.Failed?
      ensures ended == Some(false) ==> world.durable.rows == old(world.durable).rows
      ensures old(world.FaultFree()) ==> ended == Some(true) && world.FaultFree()
    {
      ghost var d := world.durable;
      var ok := world.DropStage(id);
      MeanwhileTransitive(first, d, world.durable);
      if !ok { return Some(false); }
      ghost var e := world.durable;
      ok := world.Mark(id, Failed);
      MeanwhileTransitive(first, e, world.durable);
      return if ok then Some(true) else None;
    }

    /** `ReconcilePending`: a pending row whose object is there becomes ready. */
    method ReconcilePending(listed: seq<string>) returns (recovered: nat)
      requires world.Valid() && Lists(world.durable, listed, Pending)
      modifies world`durable, world`alive, world`faults, world`run
      ensures world.Valid() && Meanwhile(old(world.durable), world.durable) && recovered <= |listed|
      ensures world.durable.objects == old(world.durable).objects
      ensures old(world.FaultFree()) ==>
                && recovered == Arrived(old(world.durable), listed)
                && forall id | id in listed :: Reconciled(old(world.durable), world.durable, id)
      ensures old(world.run) <= world.run
      ensures recovered == Finished(world.run) - Finished(old(world.run))
    {
      ghost var d, quiet := world.durable, world.FaultFree();
      recovered := 0;
      for i := 0 to |listed|
        invariant world.Valid() && Meanwhile(d, world.durable) && recovered <= i && old(world.run) <= world.run
        invariant recovered == Finished(world.run) - Finished(old(world.run))
        invariant world.durable.objects == d.objects
        invariant forall j | i <= j < |listed| ::
                    && listed[j] in world.durable.rows
                    && world.durable.rows[listed[j]] == d.rows[listed[j]]
        invariant quiet ==> world.FaultFree() && Matched(d, world.durable, listed, i, recovered)
      {
        ghost var before := world.durable;
        var ended := ReconcileOne(listed[i], d);
        if quiet { MatchedStep(d, before, world.durable, listed, i, recovered); }
        if ended.None? { return; }
        if ended.value { recovered := recovered + 1; }
      }
      assert listed[..|listed|] == listed;
    }

    /** One row of the pass; `None` ends it. */
    method ReconcileOne(id: string, ghost first: Durable) returns (ended: Option<bool>)
      requires world.Valid() && id in world.durable.rows && world.durable.rows[id].status.Pending?
      requires Meanwhile(first, world.durable)
      modifies world`durable, world`alive, world`faults, world`run
      ensures world.Valid() && Meanwhile(first, world.durable)
      ensures ended == Some(true) ==> world.durable.rows[id].status.Ready?
      ensures ended == Some(false) ==> world.durable == old(world.durable)
      ensures world.durable.objects == old(world.durable).objects
      ensures OnlyRow(old(world.durable), world.durable, id)
      ensures old(world.FaultFree()) ==>
                ended == Some(old(world.durable).rows[id].key in old(world.durable).objects) && world.FaultFree()
                && Reconciled(old(world.durable), world.durable, id)
      ensures old(world.run) <= world.run
      ensures Finished(world.run) == Finished(old(world.run)) + if ended == Some(true) then 1 else 0
      ensures old(world.Next()).Done? && old(world.durable).rows[id].key in old(world.durable).objects <==>
                world.run != old(world.run)
      ensures ended == if world.run == old(world.run) then Some(false)
                       else if world.run[|world.run| - 1].outcome.Done? then Some(true) else None
    {
      var row := world.durable.rows[id];
      var probed := world.Probe();
      if !probed || row.key !in world.durable.objects { return Some(false); }
      ghost var e := world.durable;
      var reply := world.Tidy(UpdateRow(row.(status := Ready)));
      MeanwhileTransitive(first, e, world.durable);
      return if reply.Success? then Some(true) else None;
    }
  }

  /** Whether a deletion request for this file is to be accepted. */
  predicate MayRequest(d: Durable, id: string, inUse: bool) {
    && id in d.rows
    && match d.rows[id].status
       case Deleting => true
       case Deleted => false
       case _ => !inUse
  }

  /** Only the status of this row has changed, and it is being deleted. */
  predicate Requested(d: Durable, e: Durable, id: string) {
    id in d.rows && e == d.(rows := d.rows[id := d.rows[id].(status := Deleting)])
  }

  /** What a pass makes of the store when nothing fails. */
  predicate Undisturbed(d: Durable, e: Durable, pass: Pass) {
    match pass
    case Delete(id, inUse) => if MayRequest(d, id, inUse) then Requested(d, e, id) else e == d
    case ProcessDeleting(listed) =>
      Lists(d, listed, Deleting) ==> forall id | id in listed :: IsDeleted(e, id)
    case CleanupPending(listed, cutoff) =>
      Lists(d, listed, Pending) ==> forall id | id in listed :: Expired(d, e, id, cutoff)
    case ReconcilePending(listed) =>
      Lists(d, listed, Pending) ==> forall id | id in listed :: Reconciled(d, e, id)
  }

  /** How many of these pending rows have expired. */
  function Due(d: Durable, listed: seq<string>, cutoff: int): nat
    requires forall id | id in listed :: id in d.rows
  {
    if listed == [] then 0
    else
      var front, id := listed[..|listed| - 1], listed[|listed| - 1];
      Due(d, front, cutoff) + if d.rows[id].createdAt <= cutoff then 1 else 0
  }

  /** How many of these pending rows have their object. */
  function Arrived(d: Durable, listed: seq<string>): nat
    requires forall id | id in listed :: id in d.rows
  {
    if listed == [] then 0
    else
      var front, id := listed[..|listed| - 1], listed[|listed| - 1];
      Arrived(d, front) + if d.rows[id].key in d.objects then 1 else 0
  }

  /** What an undisturbed cleanup makes of a pending row. */
  predicate Expired(d: Durable, e: Durable, id: string, cutoff: int) {
    && id in d.rows && id in e.rows
    && (if d.rows[id].createdAt <= cutoff
        then e.rows[id] == d.rows[id].(status := Failed) && id !in e.staged
        else e.rows[id] == d.rows[id])
  }

  /** What an undisturbed reconciliation makes of a pending row. */
  predicate Reconciled(d: Durable, e: Durable, id: string) {
    && id in d.rows && id in e.rows
    && e.rows[id] == if d.rows[id].key in d.objects then d.rows[id].(status := Ready) else d.rows[id]
  }

  /** What `ListByStatus` may answer: distinct rows of that status, any of them. */
  predicate Lists(d: Durable, listed: seq<string>, status: Status) {
    && (forall i, j | 0 <= i < j < |listed| :: listed[i] != listed[j])
    && (forall id | id in listed :: id in d.rows && d.rows[id].status == status)
  }

  /** How far an undisturbed cleanup has come after `i` rows. */
  ghost predicate Swept(d: Durable, e: Durable, listed: seq<string>, i: nat, cutoff: int, changed: nat)
    requires i <= |listed| && forall id | id in listed :: id in d.rows
  {
    changed == Due(d, listed[..i], cutoff) && forall j | 0 <= j < i :: Expired(d, e, listed[j], cutoff)
  }

  /** Rows expired already stay so while the next one is handled. */
  lemma SweptStep(d: Durable, e: Durable, f: Durable, listed: seq<string>, i: nat, cutoff: int, changed: nat)
    requires i < |listed| && Lists(d, listed, Pending) && Swept(d, e, listed, i, cutoff, changed)
    requires OnlyRow(e, f, listed[i]) && f.staged.Keys <= e.staged.Keys && Expired(d, f, listed[i], cutoff)
    ensures Swept(d, f, listed, i + 1, cutoff, changed + if d.rows[listed[i]].createdAt <= cutoff then 1 else 0)
  {
    assert listed[..i + 1][..i] == listed[..i];
    forall j | 0 <= j < i ensures Expired(d, f, listed[j], cutoff) {
      assert Expired(d, e, listed[j], cutoff) && listed[j] != listed[i];
    }
  }

  /** How far an undisturbed reconciliation has come. */
  ghost predicate Matched(d: Durable, e: Durable, listed: seq<string>, i: nat, recovered: nat)
    requires i <= |listed| && forall id | id in listed :: id in d.rows
  {
    recovered == Arrived(d, listed[..i]) && forall j | 0 <= j < i :: Reconciled(d, e, listed[j])
  }

  /** Rows reconciled already stay so while the next one is handled. */
  lemma MatchedStep(d: Durable, e: Durable, f: Durable, listed: seq<string>, i: nat, recovered: nat)
    requires i < |listed| && Lists(d, listed, Pending) && Matched(d, e, listed, i, recovered)
    requires OnlyRow(e, f, listed[i]) && Reconciled(d, f, listed[i])
    ensures Matched(d, f, listed, i + 1, recovered + if d.rows[listed[i]].key in d.objects then 1 else 0)
  {
    assert listed[..i + 1][..i] == listed[..i];
    forall j | 0 <= j < i ensures Reconciled(d, f, listed[j]) {
      assert Reconciled(d, e, listed[j]) && listed[j] != listed[i];
    }
  }

  predicate OnlyRow(d: Durable, e: Durable, id: string) {
    && d.rows.Keys == e.rows.Keys
    && forall x | x in d.rows && x != id :: e.rows[x] == d.rows[x]
  }

  /** The deletion of one row call by call, with the promotion of an upload of
      that row before its call number `at` (or after the last). */
  function PromotedDuring(d: Durable, id: string, key: Key, at: nat): Durable {
    var promote := Promote(id, key);
    var d0 := if at == 0 then Perform(d, promote) else d;
    var d1 := Perform(d0, DeleteObject(key));
    var d2 := if at == 1 then Perform(d1, promote) else d1;
    var d3 := Perform(d2, DeleteStaging(id));
    var d4 := if at == 2 then Perform(d3, promote) else d3;
    var d5 := Perform(d4, MarkStatus(id, Deleted));
    if at == 3 then Perform(d5, promote) else d5
  }

  lemma PromotionSurvives(d: Durable, id: string, key: Key, at: nat)
    requires id in d.rows && d.rows[id].status.Deleting? && id in d.staged && key !in d.objects && at <= 3
    ensures var e := PromotedDuring(d, id, key, at);
            && e.rows == d.rows[id := d.rows[id].(status := Deleted)]
            && e.objects == if at == 1 then d.objects[key := d.staged[id]] else d.objects
  {}

  /** Passes stand between the calls of an upload as a whole.  Split further, a
      deletion is safe from a promotion exactly unless that falls between the
      removal of the object and the removal of the stage: the deleted row then
      keeps an object. */
  lemma DeletionRace(digest: Digest, d: Durable, id: string, at: nat)
    requires Safe(digest, d) && at <= 3
    requires id in d.rows && d.rows[id].status.Deleting? && id in d.staged && d.rows[id].key !in d.objects
    ensures var e := PromotedDuring(d, id, d.rows[id].key, at);
            && IsDeleted(e, id) && (Safe(digest, e) <==> at != 1)
            && (at == 1 ==> e.rows[id].key in e.objects)
  {
    var e := PromotedDuring(d, id, d.rows[id].key, at);
    PromotionSurvives(d, id, d.rows[id].key, at);
    forall x | x in d.rows && x != id ensures RowSafe(digest, x, e.rows[x], e.objects) {
      assert RowSafe(digest, x, d.rows[x], d.objects);
    }
    assert RowSafe(digest, id, d.rows[id], d.objects);
  }

  /** A reconciliation that listed a pending row before the upload recorded what
      it observed writes back the size declared then (an update without a digest
      leaves the digest alone): safe exactly when that was the size. */
  lemma StaleReconciliation(digest: Digest, d: Durable, declared: int, id: string)
    requires Safe(digest, d) && id in d.rows && d.rows[id].status.Pending? && d.rows[id].key in d.objects
    ensures var e := Perform(d, UpdateRow(d.rows[id].(size := declared, status := Ready)));
            Safe(digest, e) <==> declared == |d.objects[d.rows[id].key]|
  {
    var row := d.rows[id].(size := declared, status := Ready);
    var e := Perform(d, UpdateRow(row));
    assert RowSafe(digest, id, d.rows[id], d.objects);
    assert e == d.(rows := d.rows[id := row]);
    forall x | x in d.rows && x != id ensures RowSafe(digest, x, e.rows[x], e.objects) {
      assert RowSafe(digest, x, d.rows[x], d.objects);
    }
  }

  /** The repository's update checks the status first and writes afterwards.  A
      write made ready on an outdated check keeps the store as it should be
      exactly when the object is there as recorded, so never on a deleted row. */
  lemma OutdatedUpdate(digest: Digest, d: Durable, id: string)
    requires Safe(digest, d) && id in d.rows
    ensures var row := d.rows[id].(status := Ready);
            var e := d.(rows := d.rows[id := row]);
            Safe(digest, e) && Keeps(d, e)
            <==> row.key in d.objects && Describes(digest, row, d.objects[row.key])
  {
    var row := d.rows[id].(status := Ready);
    var e := d.(rows := d.rows[id := row]);
    assert RowSafe(digest, id, d.rows[id], d.objects);
    forall x | x in d.rows && x != id ensures RowSafe(digest, x, e.rows[x], e.objects) {
      assert RowSafe(digest, x, d.rows[x], d.objects);
    }
    assert id in e.rows && e.rows[id] == row;
  }

  /** A run of the service: uploads with what happens meanwhile, deletions and
      maintenance passes. */
  datatype Operation = Upload(input: UploadInput, visits: Visits) | Other(pass: Pass)

  datatype Command = Command(operation: Operation, script: seq<Outcome>)

  /** The upload is one the service is ever asked for: its ID is new. */
  predicate Fresh(input: UploadInput, d: Durable) {
    input.guessedKey.id == input.detectedKey.id == input.id && input.id !in d.rows && input.id !in d.staged
  }

  /** What an operation makes of the store: a pass never undoes what uploads
      rely on; undisturbed, it does its work, and an upload stores exactly what
      is accepted. */
  predicate Serves(digest: Digest, operation: Operation, calm: bool, d: Durable, e: Durable) {
    match operation
    case Upload(input, visits) =>
      if !Fresh(input, d) then e == d
      else
        calm && visits == QUIET ==>
          && input.id in e.rows
          && (if input.accepted
              then && e.rows[input.id] == Published(input, digest)
                   && input.detectedKey in e.objects && e.objects[input.detectedKey] == input.content
              else e.rows[input.id].status.Failed? && e.objects == d.objects)
    case Other(pass) => Meanwhile(d, e) && (calm ==> Undisturbed(d, e, pass))
  }

  /** The states between the operations: each has served. */
  predicate Traced(digest: Digest, commands: seq<Command>, states: seq<Durable>) {
    && |states| == |commands| + 1
    && forall k | 0 <= k < |commands| ::
         Serves(digest, commands[k].operation, commands[k].script == [], states[k], states[k + 1])
  }

  /** Runs any list of operations, each with any failures or a crash.  At every
      instant a ready row has its object as recorded, no object leaves except
      under a row being deleted, and a deleted row stays deleted. */
  method Operate(digest: Digest, commands: seq<Command>) returns (world: World, ghost states: seq<Durable>)
    ensures fresh(world) && world.Valid()
    ensures Traced(digest, commands, states) && states[|commands|] == world.durable
    ensures forall i | 0 <= i <= |world.run| :: Safe(digest, Replay(world.start, world.run[..i]))
    ensures forall i | 0 <= i < |world.run| ::
              Keeps(Replay(world.start, world.run[..i]), Replay(world.start, world.run[..i + 1]))
    ensures forall i, j, id | 0 <= i <= j <= |world.run| && IsDeleted(Replay(world.start, world.run[..i]), id) ::
              IsDeleted(Replay(world.start, world.run[..j]), id)
  {
    world := new World(digest);
    var service := new Service(world);
    states := [world.durable];
    for k := 0 to |commands|
      invariant Traced(digest, commands[..k], states) && states[k] == world.durable
      invariant fresh(world) && world.Valid() && service.world == world && world.digest == digest
    {
      world.Boot(commands[k].script);
      Dispatch(service, commands[k].operation);
      states := states + [world.durable];
      assert commands[..k + 1][..k] == commands[..k];
    }
    assert commands[..|commands|] == commands;
    forall i | 0 <= i <= |world.run|
      ensures Safe(digest, Replay(world.start, world.run[..i]))
      ensures i < |world.run| ==> Keeps(Replay(world.start, world.run[..i]), Replay(world.start, world.run[..i + 1]))
    {
      DisciplinedRunIsSafe(digest, world.start, world.run, i);
    }
    forall i, j, id | 0 <= i <= j <= |world.run| && IsDeleted(Replay(world.start, world.run[..i]), id)
      ensures IsDeleted(Replay(world.start, world.run[..j]), id)
    {
      DeletedIsAbsorbing(digest, world.start, world.run, i, j, id);
    }
  }

  /** One operation; an upload draws an ID never used before. */
  method Dispatch(service: Service, operation: Operation)
    requires service.world.Valid()
    modifies service.world`durable, service.world`alive, service.world`faults, service.world`run
    ensures service.world.Valid()
    ensures Serves(service.world.digest, operation, old(service.world.FaultFree()),
                   old(service.world.durable), service.world.durable)
  {
    match operation {
      case Upload(input, visits) =>
        if Fresh(input, service.world.durable) {
          var _ := service.Upload(input, visits);
        }
      case Other(pass) =>
        service.RunPass(pass);
    }
  }
}
