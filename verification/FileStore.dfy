/** The durable side of the file centre: metadata rows, staged uploads and
    provider objects, and the port calls that change them. */
module FileStore {
  import opened Common

  type Bytes = seq<bv8>
  type Digest = Bytes -> string

  datatype Status = Pending | Ready | Failed | Deleting | Deleted | Damaged

  /** An object key: dated, made from the file's opaque ID and an extension.
      Staged uploads live in a name space of their own. */
  datatype Key = Key(day: string, id: string, extension: string)

  datatype Row = Row(id: string, key: Key, size: int, sha256: string, status: Status, createdAt: nat)

  datatype Durable = Durable(rows: map<string, Row>, staged: map<string, Bytes>, objects: map<Key, Bytes>)

  datatype Call =
    | CreateRow(row: Row)
    | UpdateRow(row: Row)
    | MarkStatus(id: string, status: Status)
    | PutStaging(id: string, content: Bytes)
    | Promote(id: string, key: Key)
    | DeleteObject(key: Key)
    | DeleteStaging(id: string)

  /** `Torn`: an error was reported although the effect took place. */
  datatype Outcome = Done | Refused | Torn | Crash
  datatype Reply = Success | NotFound | Error

  predicate TakesEffect(o: Outcome) { o.Done? || o.Torn? }

  predicate Present(d: Durable, c: Call) {
    match c
    case CreateRow(_) => true
    case UpdateRow(r) => r.id in d.rows
    case MarkStatus(id, _) => id in d.rows
    case PutStaging(_, _) => true
    case Promote(id, _) => id in d.staged
    case DeleteObject(k) => k in d.objects
    case DeleteStaging(id) => id in d.staged
  }

  /** `repositoryUpdateTransition`. */
  predicate MayUpdate(from: Status, to: Status) { from == to || (from.Pending? && to.Ready?) }

  /** `repositoryStatusTransition`. */
  predicate MayMark(from: Status, to: Status) {
    from == to ||
    match from
    case Pending => to.Ready? || to.Failed? || to.Deleting?
    case Ready => to.Damaged? || to.Deleting?
    case Failed => to.Pending? || to.Deleting?
    case Damaged => to.Pending? || to.Deleting?
    case Deleting => to.Deleted?
    case Deleted => false
  }

  /** A row, a staged upload or an object is never overwritten by a creation; the
      repository lets a row change its status only along its transitions, and
      its key only while pending. */
  predicate Refuses(d: Durable, c: Call) {
    match c
    case CreateRow(r) => r.id in d.rows
    case UpdateRow(r) =>
      r.id in d.rows &&
      var current := d.rows[r.id];
      !MayUpdate(current.status, r.status) || (!current.status.Pending? && r.key != current.key)
    case MarkStatus(id, s) => id in d.rows && !MayMark(d.rows[id].status, s)
    case PutStaging(id, _) => id in d.staged
    case Promote(_, k) => k in d.objects
    case _ => false
  }

  function Perform(d: Durable, c: Call): Durable {
    if !Present(d, c) || Refuses(d, c) then d
    else match c
      case CreateRow(r) => d.(rows := d.rows[r.id := r])
      case UpdateRow(r) => d.(rows := d.rows[r.id := r])
      case MarkStatus(id, s) => d.(rows := d.rows[id := d.rows[id].(status := s)])
      case PutStaging(id, content) => d.(staged := d.staged[id := content])
      case Promote(id, k) => d.(staged := d.staged - {id}, objects := d.objects[k := d.staged[id]])
      case DeleteObject(k) => d.(objects := d.objects - {k})
      case DeleteStaging(id) => d.(staged := d.staged - {id})
  }

  function After(d: Durable, c: Call, o: Outcome): Durable {
    if TakesEffect(o) then Perform(d, c) else d
  }

  function Answer(d: Durable, c: Call, o: Outcome): Reply {
    if !o.Done? || Refuses(d, c) then Error
    else if !Present(d, c) then NotFound
    else Success
  }

  /** The recorded size and digest are those of `content`. */
  predicate Describes(digest: Digest, r: Row, content: Bytes) {
    r.size == |content| && r.sha256 == digest(content)
  }

  /** A ready row has its object as recorded; a pending row whose object is
      already there describes it, so making the row ready later is sound; a
      deleted row has no object left. */
  predicate RowSafe(digest: Digest, id: string, r: Row, objects: map<Key, Bytes>) {
    && r.id == id && r.key.id == id
    && (r.status.Ready? ==> r.key in objects)
    && ((r.status.Ready? || r.status.Pending?) && r.key in objects ==> Describes(digest, r, objects[r.key]))
    && (r.status.Deleted? ==> r.key !in objects)
  }

  /** Besides, every object belongs to the row of its ID, under its stored key. */
  predicate Safe(digest: Digest, d: Durable) {
    && (forall k | k in d.objects :: k.id in d.rows && d.rows[k.id].key == k)
    && (forall id | id in d.rows :: RowSafe(digest, id, d.rows[id], d.objects))
  }

  /** An object is removed only while its row is being deleted and is never
      altered; a deleted row never changes; no row disappears. */
  predicate Keeps(d: Durable, e: Durable) {
    && (forall k | k in d.objects && !(k.id in d.rows && d.rows[k.id].status.Deleting?) ::
          k in e.objects && e.objects[k] == d.objects[k])
    && (forall k | k in d.objects && k in e.objects :: e.objects[k] == d.objects[k])
    && (forall id | id in d.rows :: id in e.rows)
    && (forall id | id in d.rows && d.rows[id].status.Deleted? :: e.rows[id] == d.rows[id])
  }

  /** The discipline every port call of the lifecycle keeps, as far as the ports
      themselves do not refuse what breaks it. */
  predicate Disciplined(digest: Digest, d: Durable, c: Call) {
    match c
    case CreateRow(r) =>
      r.status.Pending? && r.key.id == r.id && forall k | k in d.objects :: k.id != r.id
    case UpdateRow(r) =>
      r.id in d.rows && !Refuses(d, c) ==>
        && (r.status.Pending? || r.status.Ready?) && r.key.id == r.id
        && (r.key != d.rows[r.id].key ==> d.rows[r.id].key !in d.objects)
        && (r.status.Ready? ==> r.key in d.objects)
        && (r.key in d.objects ==> Describes(digest, r, d.objects[r.key]))
    case MarkStatus(id, s) =>
      id in d.rows && !Refuses(d, c) ==>
        !s.Pending? && !s.Ready? && (s.Deleted? ==> d.rows[id].key !in d.objects)
    case Promote(id, k) =>
      && id in d.rows && d.rows[id].key == k
      && (id in d.staged && k !in d.objects ==>
            !d.rows[id].status.Deleted? && Describes(digest, d.rows[id], d.staged[id]))
    case DeleteObject(k) => k in d.objects ==> k.id in d.rows && d.rows[k.id].status.Deleting?
    case PutStaging(_, _) => true
    case DeleteStaging(_) => true
  }

  predicate MovesObject(c: Call) { c.Promote? || c.DeleteObject? }

  lemma RowCallIsSafe(digest: Digest, d: Durable, c: Call)
    requires Safe(digest, d) && Disciplined(digest, d, c) && !MovesObject(c)
    ensures Safe(digest, Perform(d, c)) && Keeps(d, Perform(d, c))
  {}

  /** Only the row the object belongs to sees it come or go. */
  lemma ObjectCallIsSafe(digest: Digest, d: Durable, c: Call)
    requires Safe(digest, d) && Disciplined(digest, d, c) && MovesObject(c)
    ensures Safe(digest, Perform(d, c)) && Keeps(d, Perform(d, c))
  {
    var e, moved := Perform(d, c), c.key;
    forall x | x in e.rows && x != moved.id ensures RowSafe(digest, x, e.rows[x], e.objects) {
      assert RowSafe(digest, x, d.rows[x], d.objects);
    }
  }

  lemma DisciplinedCallIsSafe(digest: Digest, d: Durable, c: Call, o: Outcome)
    requires Safe(digest, d) && Disciplined(digest, d, c)
    ensures Safe(digest, After(d, c, o)) && Keeps(d, After(d, c, o))
  {
    if TakesEffect(o) {
      if MovesObject(c) { ObjectCallIsSafe(digest, d, c); } else { RowCallIsSafe(digest, d, c); }
    }
  }

  /** What passes of deletion, cleanup and reconciliation may do between two
      calls of an upload: rows keep all but their status and no deletion is
      undone, nothing new is staged or published, an object goes only under a
      row being deleted, and a row is deleted only once its stage is gone. */
  predicate Meanwhile(d: Durable, e: Durable) {
    && e.rows.Keys == d.rows.Keys
    && (forall id {:trigger RowMeanwhile(d, e, id)} | id in d.rows :: RowMeanwhile(d, e, id))
    && (forall k | k in e.objects :: k in d.objects && e.objects[k] == d.objects[k])
    && (forall id | id in e.staged :: id in d.staged && e.staged[id] == d.staged[id])
  }

  predicate RowMeanwhile(d: Durable, e: Durable, id: string)
    requires id in d.rows && id in e.rows
  {
    var r, t := d.rows[id], e.rows[id];
    && t == r.(status := t.status)
    && (r.status.Deleting? ==> t.status.Deleting? || t.status.Deleted?)
    && (r.status.Deleted? ==> t.status.Deleted?)
    && (t.status.Deleted? ==> r.status.Deleted? || id !in e.staged)
    && (r.key in d.objects && !t.status.Deleting? && !t.status.Deleted? ==> r.key in e.objects)
  }

  lemma MeanwhileTransitive(d: Durable, e: Durable, f: Durable)
    requires Meanwhile(d, e) && Meanwhile(e, f)
    ensures Meanwhile(d, f)
  {
    forall id | id in d.rows ensures RowMeanwhile(d, f, id) {
      assert RowMeanwhile(d, e, id) && RowMeanwhile(e, f, id);
    }
  }

  /** The calls of those passes. */
  predicate Housekeeping(d: Durable, c: Call) {
    match c
    case UpdateRow(r) => r.id in d.rows && r == d.rows[r.id].(status := Ready)
    case MarkStatus(id, s) => s.Deleted? ==> id !in d.staged
    case DeleteObject(_) => true
    case DeleteStaging(_) => true
    case _ => false
  }

  lemma HousekeepingIsMeanwhile(digest: Digest, d: Durable, c: Call, o: Outcome)
    requires Safe(digest, d) && Disciplined(digest, d, c) && Housekeeping(d, c)
    ensures Meanwhile(d, After(d, c, o))
  {
    var e := After(d, c, o);
    forall id | id in d.rows ensures id in e.rows && RowMeanwhile(d, e, id) {
      assert RowSafe(digest, id, d.rows[id], d.objects);
    }
  }

  datatype Attempt = Attempt(call: Call, outcome: Outcome)

  predicate DisciplinedRun(digest: Digest, d: Durable, run: seq<Attempt>)
    decreases |run|
  {
    run == [] ||
    (Disciplined(digest, d, run[0].call)
     && DisciplinedRun(digest, After(d, run[0].call, run[0].outcome), run[1..]))
  }

  function Replay(d: Durable, run: seq<Attempt>): Durable
    decreases |run|
  {
    if run == [] then d else Replay(After(d, run[0].call, run[0].outcome), run[1..])
  }

  /** Every state of a disciplined run is safe, and each step of it keeps what a
      step must keep. */
  lemma {:induction false} DisciplinedRunIsSafe(digest: Digest, d: Durable, run: seq<Attempt>, i: nat)
    requires Safe(digest, d) && DisciplinedRun(digest, d, run) && i <= |run|
    ensures Safe(digest, Replay(d, run[..i]))
    ensures i < |run| ==> Keeps(Replay(d, run[..i]), Replay(d, run[..i + 1]))
    decreases |run|
  {
    if run == [] {
      assert run[..i] == [];
    } else {
      var e := After(d, run[0].call, run[0].outcome);
      DisciplinedCallIsSafe(digest, d, run[0].call, run[0].outcome);
      assert run[..1][1..] == [];
      if i == 0 {
        assert run[..i] == [];
        assert Replay(d, run[..1]) == e;
      } else {
        assert run[..i][1..] == run[1..][..i - 1];
        DisciplinedRunIsSafe(digest, e, run[1..], i - 1);
        if i < |run| { assert run[..i + 1][1..] == run[1..][..i]; }
      }
    }
  }

  predicate IsDeleted(d: Durable, id: string) { id in d.rows && d.rows[id].status.Deleted? }

  /** Once deleted, always deleted. */
  lemma {:induction false} DeletedIsAbsorbing(digest: Digest, d: Durable, run: seq<Attempt>, i: nat, j: nat, id: string)
    requires Safe(digest, d) && DisciplinedRun(digest, d, run) && i <= j <= |run|
    requires IsDeleted(Replay(d, run[..i]), id)
    ensures IsDeleted(Replay(d, run[..j]), id)
    decreases j - i
  {
    if i < j {
      DisciplinedRunIsSafe(digest, d, run, i);
      DeletedIsAbsorbing(digest, d, run, i + 1, j, id);
    }
  }

  lemma {:induction false} RunsAppend(digest: Digest, d: Durable, run: seq<Attempt>, a: Attempt)
    requires DisciplinedRun(digest, d, run) && Disciplined(digest, Replay(d, run), a.call)
    ensures DisciplinedRun(digest, d, run + [a])
    ensures Replay(d, run + [a]) == After(Replay(d, run), a.call, a.outcome)
    decreases |run|
  {
    if run == [] {
      assert (run + [a])[1..] == [];
    } else {
      assert (run + [a])[1..] == run[1..] + [a];
      RunsAppend(digest, After(d, run[0].call, run[0].outcome), run[1..], a);
    }
  }
}
