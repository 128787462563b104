/** The in-memory usage index of the media catalogue: which entity fields use which resource. */
module UsageIndex {
  import opened Common
  import opened JoinedKeys

  const NUL: char := '\0'

  /** The resolved tenant context; a request without one is refused. */
  datatype Scope = PlatformAdmin | Member(tenantID: string, organization: string)

  datatype UsageRef = UsageRef(
    id: string, resourceID: string, moduleName: string, entityType: string, entityID: string, field: string)

  datatype UsageInput = UsageInput(
    resourceID: string, moduleName: string, entityType: string, entityID: string, field: string, idempotencyKey: string)

  datatype Error =
    | InvalidUsage | ContextMissing | ResourceRefused | MediaConflict | UsageNotFound | AccessDenied | RandomFailed

  datatype Result<+T> = Ok(value: T) | Err(error: Error)

  /** An idempotency record: an attachment's key and answer, or a detached ID and no answer. */
  datatype Record = Record(payload: string, ref: UsageRef)

  const NO_REF := UsageRef("", "", "", "", "", "")

  function ScopeKey(scope: Scope): (key: string)
    ensures key != ""
    ensures scope.Member? ==> key != "*"
  {
    match scope
    case PlatformAdmin => "*"
    case Member(tenantID, organization) =>
      var key := Trim(tenantID) + ":" + Trim(organization);
      assert |key| == 1 ==> key[0] == ':';
      key
  }

  function UsageKey(resourceID: string, moduleName: string, entityType: string, entityID: string,
                    field: string): string {
    Join([resourceID, Trim(moduleName), Trim(entityType), Trim(entityID), Trim(field)], NUL)
  }

  function FullKey(scopeKey: string, ref: UsageRef): string {
    scopeKey + [NUL] + UsageKey(ref.resourceID, ref.moduleName, ref.entityType, ref.entityID, ref.field)
  }

  /** The usage an input describes, under a given ID. */
  function Described(input: UsageInput, id: string): UsageRef {
    UsageRef(
      id, input.resourceID,
      Trim(input.moduleName), Trim(input.entityType), Trim(input.entityID), Trim(input.field))
  }

  /** The key an input attaches under. */
  function InputKey(scope: Scope, input: UsageInput): string {
    ScopeKey(scope) + [NUL] +
    UsageKey(input.resourceID, input.moduleName, input.entityType, input.entityID, input.field)
  }

  /** Where a keyed attachment is recorded. */
  function ReplayKey(scope: Scope, input: UsageInput): Option<string> {
    if Trim(input.idempotencyKey) == "" then None
    else Some(ScopeKey(scope) + [NUL] + Trim(input.idempotencyKey))
  }

  /** Where a keyed detachment is recorded: an attachment keyed `detach:K` shares
      the record of a detachment keyed `K`. */
  function DetachKey(scopeKey: string, idempotencyKey: string): Option<string> {
    if Trim(idempotencyKey) == "" then None
    else Some(scopeKey + [NUL] + "detach:" + Trim(idempotencyKey))
  }

  predicate Replayed(scope: Scope, input: UsageInput, idem: map<string, Record>) {
    var replay := ReplayKey(scope, input);
    replay.Some? && replay.value in idem
  }

  /** What a keyed retry is answered. */
  function Replay(idem: map<string, Record>, replay: string, key: string): Result<UsageRef>
    requires replay in idem
  {
    if idem[replay].payload == key then Ok(idem[replay].ref) else Err(MediaConflict)
  }

  function Remembered(idem: map<string, Record>, replay: Option<string>, key: string,
                      ref: UsageRef): map<string, Record> {
    if replay.None? then idem else idem[replay.value := Record(key, ref)]
  }

  predicate Complete(input: UsageInput) {
    && Trim(input.resourceID) != "" && Trim(input.moduleName) != "" && Trim(input.entityType) != ""
    && Trim(input.entityID) != "" && Trim(input.field) != ""
  }

  /* ---------- keys ---------- */

  /** Storing trimmed fields does not change the key. */
  lemma DescribedKey(scopeKey: string, input: UsageInput, id: string)
    ensures FullKey(scopeKey, Described(input, id)) ==
            scopeKey + [NUL] +
            UsageKey(input.resourceID, input.moduleName, input.entityType, input.entityID, input.field)
    ensures Trimmed(Described(input, id))
  {
    TrimTwice(input.moduleName);
    TrimTwice(input.entityType);
    TrimTwice(input.entityID);
    TrimTwice(input.field);
  }

  predicate NulFree(ref: UsageRef) {
    && NUL !in ref.resourceID && NUL !in ref.moduleName && NUL !in ref.entityType
    && NUL !in ref.entityID && NUL !in ref.field
  }

  predicate Trimmed(ref: UsageRef) {
    && Trim(ref.moduleName) == ref.moduleName && Trim(ref.entityType) == ref.entityType
    && Trim(ref.entityID) == ref.entityID && Trim(ref.field) == ref.field
  }

  /** Two stored usages share a key only when they are the same usage of the same scope. */
  lemma SameKeySameUsage(a: string, p: UsageRef, b: string, q: UsageRef)
    requires NUL !in a && NUL !in b && NulFree(p) && NulFree(q) && Trimmed(p) && Trimmed(q)
    requires FullKey(a, p) == FullKey(b, q)
    ensures a == b && p == q.(id := p.id)
  {
    var x := [p.resourceID, p.moduleName, p.entityType, p.entityID, p.field];
    var y := [q.resourceID, q.moduleName, q.entityType, q.entityID, q.field];
    FirstSplit(a, Join(x, NUL), b, Join(y, NUL), NUL);
    JoinInjective(x, y, NUL);
    assert x[0] == y[0] && x[1] == y[1] && x[2] == y[2] && x[3] == y[3] && x[4] == y[4];
  }

  /** The fields of a usage, as its key joins them. */
  function Fields(ref: UsageRef): (parts: seq<string>)
    ensures |parts| == 5
  {
    [ref.resourceID, ref.moduleName, ref.entityType, ref.entityID, ref.field]
  }

  /** Fields as module authors write them: present and without white space. */
  predicate Plain(ref: UsageRef) {
    NonEmptyParts(Fields(ref)) && forall i, c | 0 <= i < 5 && c in Fields(ref)[i] :: !IsSpace(c)
  }

  lemma PlainKey(scopeKey: string, ref: UsageRef)
    requires Plain(ref)
    ensures Trimmed(ref) && FullKey(scopeKey, ref) == scopeKey + [NUL] + Join(Fields(ref), NUL)
  {
    var parts := Fields(ref);
    assert parts[1] == ref.moduleName && parts[2] == ref.entityType && parts[3] == ref.entityID
           && parts[4] == ref.field;
    forall i | 0 <= i < 5 ensures IsTrimmed(parts[i]) {
      assert parts[i][0] in parts[i] && parts[i][|parts[i]| - 1] in parts[i];
    }
  }

  /** A usage shares its key with a different one exactly when a NUL stands
      inside one of its fields where a field boundary can be put instead. */
  lemma UsageTwinExactly(scopeKey: string, p: UsageRef)
    requires Plain(p)
    ensures (exists q: UsageRef :: Plain(q) && q != p.(id := q.id) && FullKey(scopeKey, q) == FullKey(scopeKey, p))
            <==> Shiftable(Fields(p), NUL)
  {
    PlainKey(scopeKey, p);
    if q: UsageRef :| Plain(q) && q != p.(id := q.id) && FullKey(scopeKey, q) == FullKey(scopeKey, p) {
      PlainKey(scopeKey, q);
      var x, y := Join(Fields(p), NUL), Join(Fields(q), NUL);
      assert x == (scopeKey + [NUL] + x)[|scopeKey| + 1..] && y == (scopeKey + [NUL] + y)[|scopeKey| + 1..];
      assert q == UsageRef(q.id, Fields(q)[0], Fields(q)[1], Fields(q)[2], Fields(q)[3], Fields(q)[4]);
      TwinShifts(Fields(p), Fields(q), NUL);
    }
    if Shiftable(Fields(p), NUL) {
      var parts := ShiftGivesTwin(Fields(p), NUL);
      var q := UsageRef(p.id, parts[0], parts[1], parts[2], parts[3], parts[4]);
      assert Fields(q) == parts;
      PlainKey(scopeKey, q);
    }
  }

  /** Two usages that differ in where a NUL stands. */
  const INNER_NUL := UsageInput("r", "m", "e", "a\0b", "c", "")
  const LATER_NUL := UsageInput("r", "m", "e", "a", "b\0c", "")

  lemma InnerNulFields(id: string)
    ensures Complete(INNER_NUL) && Complete(LATER_NUL)
    ensures Plain(Described(INNER_NUL, id)) && Fields(Described(INNER_NUL, id)) == ["r", "m", "e", "a\0b", "c"]
    ensures Plain(Described(LATER_NUL, id)) && Fields(Described(LATER_NUL, id)) == ["r", "m", "e", "a", "b\0c"]
  {
    assert Trim("a\0b") == "a\0b" && Trim("b\0c") == "b\0c";
    assert Trim("r") == "r" && Trim("m") == "m" && Trim("e") == "e" && Trim("a") == "a" && Trim("c") == "c";
  }

  lemma InnerNulJoin()
    ensures Join(["r", "m", "e", "a\0b", "c"], NUL) == Join(["r", "m", "e", "a", "b\0c"], NUL)
  {
    var x, y := ["r", "m", "e", "a\0b", "c"], ["r", "m", "e", "a", "b\0c"];
    assert "a\0b" + [NUL] + "c" == "a" + [NUL] + "b\0c";
    JoinSplitsAt(x, 3, NUL);
    JoinSplitsAt(y, 3, NUL);
    assert x[..3] == y[..3] && x[5..] == y[5..] == [];
  }

  lemma InnerNulKey(scope: Scope)
    ensures Complete(INNER_NUL) && Complete(LATER_NUL) && InputKey(scope, INNER_NUL) == InputKey(scope, LATER_NUL)
  {
    InnerNulFields("");
    InnerNulJoin();
    PlainKey(ScopeKey(scope), Described(INNER_NUL, ""));
    PlainKey(ScopeKey(scope), Described(LATER_NUL, ""));
    DescribedKey(ScopeKey(scope), INNER_NUL, "");
    DescribedKey(ScopeKey(scope), LATER_NUL, "");
  }

  /* ---------- scopes ---------- */

  predicate IsControl(c: char) {
    c < ' ' || '\U{007F}' <= c <= '\U{009F}'
  }

  const ID_LIMIT := 128

  /** What a string takes in UTF-8, Go's `len`. */
  function ByteLength(s: string): nat {
    if s == "" then 0
    else (if s[0] < '\U{0080}' then 1 else if s[0] < '\U{0800}' then 2 else if s[0] < '\U{10000}' then 3 else 4)
         + ByteLength(s[1..])
  }

  lemma {:induction false} ByteLengthAdds(a: string, b: string)
    ensures ByteLength(a + b) == ByteLength(a) + ByteLength(b)
    decreases |a|
  {
    if a == "" {
      assert a + b == b;
    } else {
      assert (a + b)[1..] == a[1..] + b;
      ByteLengthAdds(a[1..], b);
    }
  }

  /** What the tenant rules accept as an ID; a colon is accepted. */
  predicate ValidID(id: string) {
    ByteLength(id) <= ID_LIMIT && forall c | c in id :: !IsSpace(c) && !IsControl(c)
  }

  /** A scope the tenant rules admit: the tenant is mandatory, the organization optional. */
  predicate Admissible(scope: Scope) {
    scope.Member? ==> scope.tenantID != "" && ValidID(scope.tenantID) && ValidID(scope.organization)
  }

  /** The same scope, up to surrounding white space. */
  predicate SameScope(a: Scope, b: Scope) {
    if a.Member? && b.Member?
    then Trim(a.tenantID) == Trim(b.tenantID) && Trim(a.organization) == Trim(b.organization)
    else a == b
  }

  /** Different scopes that share a key. */
  predicate Colliding(a: Scope, b: Scope) {
    !SameScope(a, b) && ScopeKey(a) == ScopeKey(b)
  }

  lemma SameScopeSameKey(a: Scope, b: Scope)
    ensures SameScope(a, b) ==> ScopeKey(a) == ScopeKey(b)
    ensures ScopeKey(a) == "*" <==> a.PlatformAdmin?
  {}

  lemma ValidIsTrimmed(id: string)
    requires ValidID(id)
    ensures Trim(id) == id && NUL !in id
  {
    if id != "" { assert id[0] in id && id[|id| - 1] in id; }
  }

  /** The two IDs of a member scope, joined. */
  function Joined(scope: Scope): string
    requires scope.Member?
  {
    scope.tenantID + [':'] + scope.organization
  }

  lemma MemberKey(scope: Scope)
    requires scope.Member? && Admissible(scope)
    ensures ScopeKey(scope) == Joined(scope) && NUL !in ScopeKey(scope)
  {
    ValidIsTrimmed(scope.tenantID);
    ValidIsTrimmed(scope.organization);
    assert [':'] == ":";
  }

  /** Another colon of the key at which both halves are admissible. */
  predicate SplitsAt(key: string, k: int) {
    0 < k < |key| && key[k] == ':' && ByteLength(key[..k]) <= ID_LIMIT && ByteLength(key[k + 1..]) <= ID_LIMIT
  }

  /** Admissible member scopes collide when they differ and their joined IDs do not. */
  lemma MembersCollide(a: Scope, b: Scope)
    requires a.Member? && b.Member? && Admissible(a) && Admissible(b)
    ensures Colliding(a, b) <==> a != b && Joined(a) == Joined(b)
  {
    MemberKey(a);
    MemberKey(b);
    ValidIsTrimmed(a.tenantID);
    ValidIsTrimmed(a.organization);
    ValidIsTrimmed(b.tenantID);
    ValidIsTrimmed(b.organization);
  }

  lemma TwinSplits(a: Scope, b: Scope)
    requires a.Member? && b.Member? && Admissible(a) && Admissible(b) && a != b && Joined(a) == Joined(b)
    ensures SplitsAt(Joined(a), |b.tenantID|) && |b.tenantID| != |a.tenantID|
  {
    var key, k := Joined(a), |b.tenantID|;
    assert key[..k] == b.tenantID && key[k + 1..] == b.organization;
    assert key[..|a.tenantID|] == a.tenantID && key[|a.tenantID| + 1..] == a.organization;
  }

  lemma SplitGivesTwin(a: Scope, k: int) returns (b: Scope)
    requires a.Member? && Admissible(a) && SplitsAt(Joined(a), k) && k != |a.tenantID|
    ensures b.Member? && Admissible(b) && a != b && Joined(a) == Joined(b)
  {
    var key := Joined(a);
    b := Member(key[..k], key[k + 1..]);
    forall c | c in key ensures c == ':' || (!IsSpace(c) && !IsControl(c)) {
      assert c in a.tenantID || c == ':' || c in a.organization;
    }
    assert forall c | c in b.tenantID || c in b.organization :: c in key;
    assert key == key[..k] + [key[k]] + key[k + 1..];
  }

  /** An admissible member scope has a colliding scope exactly when its joined
      IDs split at a second colon. */
  lemma ScopeTwinExactly(a: Scope)
    requires a.Member? && Admissible(a)
    ensures (exists b: Scope :: b.Member? && Admissible(b) && Colliding(a, b))
            <==> exists k :: SplitsAt(Joined(a), k) && k != |a.tenantID|
  {
    if b: Scope :| b.Member? && Admissible(b) && Colliding(a, b) {
      MembersCollide(a, b);
      TwinSplits(a, b);
    }
    if k :| SplitsAt(Joined(a), k) && k != |a.tenantID| {
      var b := SplitGivesTwin(a, k);
      MembersCollide(a, b);
    }
  }

  /** For IDs short enough to be joined either way that is: when the
      organization holds a colon, or the tenant does after its first character. */
  lemma ShortScopeTwin(a: Scope)
    requires a.Member? && Admissible(a) && ByteLength(a.tenantID) + ByteLength(a.organization) <= ID_LIMIT
    ensures (exists b: Scope :: b.Member? && Admissible(b) && Colliding(a, b))
            <==> ':' in a.tenantID[1..] || ':' in a.organization
  {
    ScopeTwinExactly(a);
    SecondColon(a);
  }

  lemma ColonSplits(a: Scope, k: int)
    requires a.Member? && ByteLength(a.tenantID) + ByteLength(a.organization) <= ID_LIMIT
    requires 0 < k < |Joined(a)| && Joined(a)[k] == ':'
    ensures SplitsAt(Joined(a), k)
  {
    var key := Joined(a);
    assert key == key[..k] + [':'] + key[k + 1..];
    JoinedBytes(key[..k], key[k + 1..]);
    JoinedBytes(a.tenantID, a.organization);
  }

  lemma JoinedBytes(a: string, b: string)
    ensures ByteLength(a + [':'] + b) == ByteLength(a) + 1 + ByteLength(b)
  {
    assert a + [':'] + b == a + ([':'] + b);
    ByteLengthAdds(a, [':'] + b);
    assert ([':'] + b)[1..] == b;
  }

  lemma SecondColon(a: Scope)
    requires a.Member? && a.tenantID != "" && ByteLength(a.tenantID) + ByteLength(a.organization) <= ID_LIMIT
    ensures (exists k :: SplitsAt(Joined(a), k) && k != |a.tenantID|)
            <==> ':' in a.tenantID[1..] || ':' in a.organization
  {
    var key := Joined(a);
    if k :| SplitsAt(key, k) && k != |a.tenantID| {
      if k < |a.tenantID| {
        assert a.tenantID[1..][k - 1] == ':';
      } else {
        assert a.organization[k - |a.tenantID| - 1] == ':';
      }
    }
    if ':' in a.tenantID[1..] {
      var i :| 0 <= i < |a.tenantID[1..]| && a.tenantID[1..][i] == ':';
      assert key[i + 1] == ':';
      ColonSplits(a, i + 1);
    }
    if ':' in a.organization {
      var i :| 0 <= i < |a.organization| && a.organization[i] == ':';
      assert key[|a.tenantID| + 1 + i] == ':';
      ColonSplits(a, |a.tenantID| + 1 + i);
    }
  }

  /** Two admissible scopes that collide. */
  lemma CollidingExample()
    ensures Admissible(Member("a:b", "c")) && Admissible(Member("a", "b:c"))
            && Colliding(Member("a:b", "c"), Member("a", "b:c"))
  {
    var a, b := Member("a:b", "c"), Member("a", "b:c");
    assert Joined(a) == "a:b:c" == Joined(b);
    MembersCollide(a, b);
  }

  /* ---------- the index ---------- */

  predicate FoundByKey(items: map<string, UsageRef>, byKey: map<string, string>, scopes: map<string, string>,
                       id: string) {
    id in items ==>
      && id in scopes && items[id].id == id
      && FullKey(scopes[id], items[id]) in byKey && byKey[FullKey(scopes[id], items[id])] == id
  }

  predicate KeyHasItem(items: map<string, UsageRef>, byKey: map<string, string>, scopes: map<string, string>,
                       key: string) {
    key in byKey ==>
      byKey[key] in items && byKey[key] in scopes && FullKey(scopes[byKey[key]], items[byKey[key]]) == key
  }

  /** `byKey` is exactly the inverse of `items` under stored scope and usage key. */
  ghost predicate Inverse(items: map<string, UsageRef>, byKey: map<string, string>, scopes: map<string, string>) {
    && (forall id {:trigger FoundByKey(items, byKey, scopes, id)} :: FoundByKey(items, byKey, scopes, id))
    && (forall key {:trigger KeyHasItem(items, byKey, scopes, key)} :: KeyHasItem(items, byKey, scopes, key))
  }

  lemma AddKeepsInverse(items: map<string, UsageRef>, byKey: map<string, string>, scopes: map<string, string>,
                        ref: UsageRef, scopeKey: string, key: string)
    requires Inverse(items, byKey, scopes) && ref.id !in scopes && key == FullKey(scopeKey, ref) && key !in byKey
    ensures Inverse(items[ref.id := ref], byKey[key := ref.id], scopes[ref.id := scopeKey])
  {
    var items', byKey', scopes' := items[ref.id := ref], byKey[key := ref.id], scopes[ref.id := scopeKey];
    forall x ensures FoundByKey(items', byKey', scopes', x) { assert FoundByKey(items, byKey, scopes, x); }
    forall k ensures KeyHasItem(items', byKey', scopes', k) { assert KeyHasItem(items, byKey, scopes, k); }
  }

  /** Removing a usage in both directions leaves no other entry dangling. */
  lemma RemoveKeepsInverse(items: map<string, UsageRef>, byKey: map<string, string>, scopes: map<string, string>,
                           id: string)
    requires Inverse(items, byKey, scopes) && id in items && id in scopes
    ensures var key := FullKey(scopes[id], items[id]);
            key in byKey && byKey[key] == id && Inverse(items - {id}, byKey - {key}, scopes)
  {
    var key := FullKey(scopes[id], items[id]);
    assert FoundByKey(items, byKey, scopes, id);
    var items', byKey' := items - {id}, byKey - {key};
    forall x ensures FoundByKey(items', byKey', scopes, x) { assert FoundByKey(items, byKey, scopes, x); }
    forall k ensures KeyHasItem(items', byKey', scopes, k) { assert KeyHasItem(items, byKey, scopes, k); }
  }

  /** A usage is stored under the key of the scope that attached it. */
  ghost predicate OwnerKey(scopes: map<string, string>, owners: map<string, Scope>, id: string) {
    id in scopes && id in owners ==> scopes[id] == ScopeKey(owners[id])
  }

  ghost predicate Owned(scopes: map<string, string>, owners: map<string, Scope>) {
    && owners.Keys == scopes.Keys
    && (forall id {:trigger OwnerKey(scopes, owners, id)} :: OwnerKey(scopes, owners, id))
  }

  lemma AddKeepsOwned(scopes: map<string, string>, owners: map<string, Scope>, added: string, owner: Scope)
    requires Owned(scopes, owners)
    ensures Owned(scopes[added := ScopeKey(owner)], owners[added := owner])
  {
    var after, held := scopes[added := ScopeKey(owner)], owners[added := owner];
    forall id ensures OwnerKey(after, held, id) {
      assert OwnerKey(scopes, owners, id);
    }
  }

  lemma AddedThenRemoved<V>(m: map<string, V>, key: string, value: V)
    requires key !in m
    ensures m[key := value] - {key} == m
  {}

  datatype Request =
    | AttachRequest(context: Option<Scope>, input: UsageInput, resourceKnown: bool, drawn: Option<string>)
    | DetachRequest(context: Option<Scope>, usageID: string, idempotencyKey: string)

  /** The index: what it holds, and under which keys and scopes. */
  datatype Index = Index(
    items: map<string, UsageRef>, byKey: map<string, string>, idem: map<string, Record>, scopes: map<string, string>)

  /** What a request makes of the index: an attachment stores a complete, known
      and new usage and nothing else, and the owner or the platform administrator
      detaches what it names. */
  predicate Serves(q: Request, a: Index, b: Index) {
    match q
    case AttachRequest(context, input, resourceKnown, drawn) =>
      if Complete(input) && context.Some? && resourceKnown && drawn.Some? && drawn.value != ""
         && drawn.value !in a.scopes && InputKey(context.value, input) !in a.byKey
         && !Replayed(context.value, input, a.idem)
      then
        && b.items == a.items[drawn.value := Described(input, drawn.value)]
        && b.byKey == a.byKey[InputKey(context.value, input) := drawn.value]
        && b.scopes == a.scopes[drawn.value := ScopeKey(context.value)]
      else b == a
    case DetachRequest(context, usageID, key) =>
      var id := Trim(usageID);
      && b.items in {a.items, a.items - {id}} && b.scopes == a.scopes
      && (context.Some? && Trim(key) == "" && id in a.items && id in a.scopes
          && (context.value.PlatformAdmin? || a.scopes[id] == ScopeKey(context.value)) ==>
            b.items == a.items - {id})
  }

  /** The states of the index between the first `n` requests. */
  predicate TracedTo(requests: seq<Request>, n: nat, states: seq<Index>) {
    n <= |requests| && |states| == n + 1 && forall k | 0 <= k < n :: Serves(requests[k], states[k], states[k + 1])
  }

  class MemoryUsageService {
    var items: map<string, UsageRef>
    var byKey: map<string, string>
    var idem: map<string, Record>
    /** The scope key every usage was stored under, kept after it is detached. */
    var scopes: map<string, string>
    /** The scope that attached it. */
    ghost var owners: map<string, Scope>

    ghost predicate Valid()
      reads this
    {
      && Inverse(items, byKey, scopes) && items.Keys <= scopes.Keys
      && (forall id | id in scopes :: id != "") && Owned(scopes, owners)
    }

    ghost function Now(): Index
      reads this
    {
      Index(items, byKey, idem, scopes)
    }

    constructor ()
      ensures Valid() && items == map[] && byKey == map[] && idem == map[] && scopes == map[]
    {
      items, byKey, idem, scopes, owners := map[], map[], map[], map[], map[];
    }

    /** Stores a new usage in both directions. */
    method Store(ref: UsageRef, scopeKey: string, key: string, ghost owner: Scope)
      requires Valid() && ref.id != "" && ref.id !in scopes && scopeKey == ScopeKey(owner)
      requires key == FullKey(scopeKey, ref) && key !in byKey
      modifies this`items, this`byKey, this`scopes, this`owners
      ensures Valid()
      ensures items == old(items)[ref.id := ref] && byKey == old(byKey)[key := ref.id]
      ensures scopes == old(scopes)[ref.id := scopeKey] && owners == old(owners)[ref.id := owner]
    {
      AddKeepsInverse(items, byKey, scopes, ref, scopeKey, key);
      items, byKey := items[ref.id := ref], byKey[key := ref.id];
      AddKeepsOwned(scopes, owners, ref.id, owner);
      scopes := scopes[ref.id := scopeKey];
      owners := owners[ref.id := owner];
    }

    /** Attaching under computed keys; `ref` is the new usage, if an ID could be drawn.
        A live usage is found again and nothing changes; a keyed retry after a
        detach answers from the record and revives nothing. */
    method AttachKeyed(scopeKey: string, key: string, replay: Option<string>, ref: Option<UsageRef>, ghost owner: Scope)
      returns (r: Result<UsageRef>)
      requires Valid() && scopeKey == ScopeKey(owner)
      requires ref.Some? ==> ref.value.id != "" && ref.value.id !in scopes && FullKey(scopeKey, ref.value) == key
      modifies this
      ensures Valid()
      ensures key in old(byKey) ==>
                && r.Ok? && key in byKey && byKey[key] == r.value.id
                && r.value.id in items && items[r.value.id] == r.value
                && idem == old(idem)
      ensures key !in old(byKey) && replay.Some? && replay.value in old(idem) ==>
                && r == Replay(old(idem), replay.value, key) && idem == old(idem)
      ensures key in old(byKey) || (replay.Some? && replay.value in old(idem)) || ref.None? ==>
                items == old(items) && byKey == old(byKey) && scopes == old(scopes) && idem == old(idem)
                && owners == old(owners)
      ensures key !in old(byKey) && !(replay.Some? && replay.value in old(idem)) && ref.None? ==> r == Err(RandomFailed)
      ensures key !in old(byKey) && !(replay.Some? && replay.value in old(idem)) && ref.Some? ==>
                && r == Ok(ref.value)
                && items == old(items)[ref.value.id := ref.value] && byKey == old(byKey)[key := ref.value.id]
                && scopes == old(scopes)[ref.value.id := scopeKey] && owners == old(owners)[ref.value.id := owner]
                && idem == Remembered(old(idem), replay, key, ref.value)
    {
      assert KeyHasItem(items, byKey, scopes, key);
      if key in byKey {
        assert FoundByKey(items, byKey, scopes, byKey[key]);
        return Ok(items[byKey[key]]);
      }
      if replay.Some? && replay.value in idem {
        var previous := idem[replay.value];
        if previous.payload != key { return Err(MediaConflict); }
        return Ok(previous.ref);
      }
      if ref.None? { return Err(RandomFailed); }
      Store(ref.value, scopeKey, key, owner);
      if replay.Some? { idem := idem[replay.value := Record(key, ref.value)]; }
      return Ok(ref.value);
    }

    /** `resourceKnown` is the resource port's answer, `drawn` the random ID. */
    method Attach(context: Option<Scope>, input: UsageInput, resourceKnown: bool, drawn: Option<string>)
      returns (r: Result<UsageRef>)
      requires Valid()
      requires drawn.Some? ==> drawn.value != "" && drawn.value !in scopes
      modifies this
      ensures Valid()
      ensures r == Err(InvalidUsage) <==>
                || Trim(input.resourceID) == "" || Trim(input.moduleName) == "" || Trim(input.entityType) == ""
                || Trim(input.entityID) == "" || Trim(input.field) == ""
      ensures Complete(input) && context.None? ==> r == Err(ContextMissing)
      ensures Complete(input) && context.Some? && !resourceKnown ==> r == Err(ResourceRefused)
      ensures r.Err? ==>
                items == old(items) && byKey == old(byKey) && idem == old(idem)
                && scopes == old(scopes) && owners == old(owners)
      ensures Complete(input) && context.Some? && resourceKnown ==>
                var key := InputKey(context.value, input);
                var keyed := Trim(input.idempotencyKey) != "";
                var record := ScopeKey(context.value) + "\0" + Trim(input.idempotencyKey);
                if key in old(byKey) then
                  && items == old(items) && byKey == old(byKey) && idem == old(idem)
                  && scopes == old(scopes) && owners == old(owners)
                  && byKey[key] in items && r == Ok(items[byKey[key]]) && r.value.id == byKey[key]
                else if keyed && record in old(idem) then
                  && items == old(items) && byKey == old(byKey) && idem == old(idem)
                  && scopes == old(scopes) && owners == old(owners)
                  && r == (if old(idem)[record].payload == key then Ok(old(idem)[record].ref) else Err(MediaConflict))
                else if drawn.None? then r == Err(RandomFailed)
                else
                  && r == Ok(UsageRef(drawn.value, input.resourceID, Trim(input.moduleName), Trim(input.entityType),
                                      Trim(input.entityID), Trim(input.field)))
                  && items == old(items)[drawn.value := r.value] && byKey == old(byKey)[key := drawn.value]
                  && scopes == old(scopes)[drawn.value := ScopeKey(context.value)]
                  && owners == old(owners)[drawn.value := context.value]
                  && idem == (if keyed then old(idem)[record := Record(key, r.value)] else old(idem))
    {
      if !Complete(input) { return Err(InvalidUsage); }
      if context.None? { return Err(ContextMissing); }
      if !resourceKnown { return Err(ResourceRefused); }
      var scopeKey, key := ScopeKey(context.value), InputKey(context.value, input);
      var ref: Option<UsageRef> := None;
      if drawn.Some? {
        ref := Some(Described(input, drawn.value));
        DescribedKey(scopeKey, input, drawn.value);
      }
      r := AttachKeyed(scopeKey, key, ReplayKey(context.value, input), ref, context.value);
    }

    /** Whether a caller with this scope key may detach a usage. */
    predicate MayDetach(scopeKey: string, id: string)
      reads this`scopes
    {
      id in scopes && (scopes[id] == "" || scopes[id] == scopeKey || scopeKey == "*")
    }

    /** A detachment removes its usage in both directions and nothing else;
        the stored scope stays behind as a tombstone. */
    method DetachKeyed(scopeKey: string, id: string, replay: Option<string>) returns (r: Result<()>)
      requires Valid()
      modifies this`items, this`byKey, this`idem
      ensures Valid()
      ensures replay.Some? && replay.value in old(idem) ==>
                && r == (if old(idem)[replay.value].payload == id then Ok(()) else Err(MediaConflict))
                && items == old(items) && byKey == old(byKey) && idem == old(idem)
      ensures !(replay.Some? && replay.value in old(idem)) ==>
                (r.Ok? <==> if id in old(items) then MayDetach(scopeKey, id)
                            else replay.Some? && id in scopes && scopes[id] == scopeKey)
      ensures !(replay.Some? && replay.value in old(idem)) && r.Ok? ==>
                && items == old(items) - {id}
                && byKey == (if id in old(items)
                             then old(byKey) - {FullKey(scopes[id], old(items)[id])} else old(byKey))
                && idem == if replay.Some? then old(idem)[replay.value := Record(id, NO_REF)] else old(idem)
      ensures r.Err? ==> items == old(items) && byKey == old(byKey) && idem == old(idem)
      ensures r.Err? && !(replay.Some? && replay.value in old(idem)) ==>
                r.error == if id in old(items) then AccessDenied else UsageNotFound
    {
      if replay.Some? && replay.value in idem {
        if idem[replay.value].payload != id { return Err(MediaConflict); }
        return Ok(());
      }
      if id !in items {
        if replay.Some? && id in scopes && scopes[id] == scopeKey {
          idem := idem[replay.value := Record(id, NO_REF)];
          return Ok(());
        }
        return Err(UsageNotFound);
      }
      if scopes[id] != "" && scopes[id] != scopeKey && scopeKey != "*" { return Err(AccessDenied); }
      assert OwnerKey(scopes, owners, id);
      RemoveKeepsInverse(items, byKey, scopes, id);
      byKey := byKey - {FullKey(scopes[id], items[id])};
      items := items - {id};
      if replay.Some? { idem := idem[replay.value := Record(id, NO_REF)]; }
      return Ok(());
    }

    /** Whether a scope may detach a usage: the platform administrator, the scope
        that attached it, or a scope whose key collides with that one. */
    ghost predicate MayRemove(caller: Scope, id: string)
      reads this`owners
    {
      id in owners && (caller.PlatformAdmin? || SameScope(caller, owners[id]) || Colliding(caller, owners[id]))
    }

    /** The key comparison of the code decides exactly that. */
    lemma RemovalRight(caller: Scope, id: string)
      requires Valid()
      ensures MayDetach(ScopeKey(caller), id) <==> MayRemove(caller, id)
    {
      if id in scopes {
        assert OwnerKey(scopes, owners, id);
        SameScopeSameKey(caller, owners[id]);
      }
    }

    /** A usage is removed only by the platform administrator, by the scope that
        attached it, or by a scope colliding with that one. */
    method Detach(context: Option<Scope>, usageID: string, idempotencyKey: string) returns (r: Result<()>)
      requires Valid()
      modifies this`items, this`byKey, this`idem
      ensures Valid()
      ensures context.None? ==> r == Err(ContextMissing)
      ensures r.Err? ==> items == old(items) && byKey == old(byKey) && idem == old(idem)
      ensures items != old(items) ==>
                && context.Some? && Trim(usageID) in old(items) && items == old(items) - {Trim(usageID)}
                && MayRemove(context.value, Trim(usageID))
                && byKey == old(byKey) - {FullKey(scopes[Trim(usageID)], old(items)[Trim(usageID)])}
      ensures items == old(items) ==> byKey == old(byKey)
      ensures context.Some? && Trim(idempotencyKey) != "" ==>
                var record := ScopeKey(context.value) + "\0detach:" + Trim(idempotencyKey);
                if record in old(idem) then
                  && r == (if old(idem)[record].payload == Trim(usageID) then Ok(()) else Err(MediaConflict))
                  && items == old(items) && idem == old(idem)
                else
                  && (r.Ok? <==> if Trim(usageID) in old(items) then MayRemove(context.value, Trim(usageID))
                                 else Trim(usageID) in scopes && scopes[Trim(usageID)] == ScopeKey(context.value))
                  && (r.Ok? ==>
                        && Trim(usageID) !in items
                        && idem == old(idem)[record := Record(Trim(usageID), NO_REF)])
      ensures r.Err? ==> r.error in {ContextMissing, MediaConflict, UsageNotFound, AccessDenied}
      ensures r == Err(ContextMissing) ==> context.None?
      ensures r == Err(MediaConflict) ==>
                && context.Some? && Trim(idempotencyKey) != ""
                && ScopeKey(context.value) + "\0detach:" + Trim(idempotencyKey) in old(idem)
      ensures r == Err(AccessDenied) ==>
                context.Some? && Trim(usageID) in items && !MayRemove(context.value, Trim(usageID))
      ensures r == Err(UsageNotFound) ==> context.Some? && Trim(usageID) !in items
      ensures context.Some? && Trim(idempotencyKey) == "" ==>
                && idem == old(idem)
                && (r.Ok? <==> Trim(usageID) in old(items) && MayRemove(context.value, Trim(usageID)))
                && (r.Ok? ==> Trim(usageID) !in items)
    {
      if context.None? { return Err(ContextMissing); }
      var scopeKey := ScopeKey(context.value);
      RemovalRight(context.value, Trim(usageID));
      assert scopeKey + [NUL] + "detach:" + Trim(idempotencyKey) == scopeKey + "\0detach:" + Trim(idempotencyKey);
      r := DetachKeyed(scopeKey, Trim(usageID), DetachKey(scopeKey, idempotencyKey));
    }

    /** A keyed detachment repeated by the same scope is answered as before and changes nothing. */
    method DetachTwice(scope: Scope, usageID: string, idempotencyKey: string)
      returns (first: Result<()>, ghost between: map<string, UsageRef>, second: Result<()>)
      requires Valid() && Trim(idempotencyKey) != ""
      modifies this`items, this`byKey, this`idem
      ensures Valid() && items == between && (first.Ok? <==> second.Ok?)
      ensures first.Err? ==> first.error == second.error != ContextMissing
    {
      first := Detach(Some(scope), usageID, idempotencyKey);
      between := items;
      second := Detach(Some(scope), usageID, idempotencyKey);
    }

    /** A complete usage that is not live and whose key records nothing yet. */
    predicate Unseen(scope: Scope, input: UsageInput)
      reads this
    {
      Complete(input) && InputKey(scope, input) !in byKey && !Replayed(scope, input, idem)
    }

    /** Attaching a new usage and detaching it again restores both directions. */
    method AttachThenDetach(scope: Scope, input: UsageInput, drawn: string) returns (attached: Result<UsageRef>)
      requires Valid() && drawn != "" && IsTrimmed(drawn) && drawn !in scopes
      modifies this
      ensures Valid()
      ensures old(Unseen(scope, input)) ==>
                && items == old(items) && byKey == old(byKey)
                && attached == Ok(Described(input, drawn)) && scopes == old(scopes)[drawn := ScopeKey(scope)]
                && idem == Remembered(old(idem), ReplayKey(scope, input),
                                      InputKey(scope, input), Described(input, drawn))
    {
      ghost var unseen := Unseen(scope, input);
      attached := Attach(Some(scope), input, true, Some(drawn));
      DescribedKey(ScopeKey(scope), input, drawn);
      var detached := Detach(Some(scope), drawn, "");
      if unseen {
        AddedThenRemoved(old(items), drawn, attached.value);
        AddedThenRemoved(old(byKey), InputKey(scope, input), drawn);
      }
    }

    /** A keyed attachment repeated after its usage was detached succeeds with
        the old reference, which names nothing any more. */
    method RetryAfterDetach(scope: Scope, input: UsageInput, drawn: string) returns (r: Result<UsageRef>)
      requires Valid() && drawn != "" && IsTrimmed(drawn) && drawn !in scopes
      modifies this
      ensures Valid()
      ensures old(Unseen(scope, input)) && Trim(input.idempotencyKey) != "" ==>
                && items == old(items) && byKey == old(byKey)
                && r == Ok(Described(input, drawn)) && drawn !in items
    {
      var attached := AttachThenDetach(scope, input, drawn);
      r := Attach(Some(scope), input, true, None);
    }

    /** Attaching the second of two usages whose keys agree answers with the
        first and attaches nothing. */
    method SharedUsageKey(scope: Scope, one: UsageInput, other: UsageInput, drawn: string, next: string)
      returns (first: Result<UsageRef>, second: Result<UsageRef>)
      requires Valid() && drawn != "" && drawn !in scopes && next != "" && next !in scopes && next != drawn
      requires Unseen(scope, one) && Complete(other) && InputKey(scope, one) == InputKey(scope, other)
      modifies this
      ensures Valid() && items == old(items)[drawn := Described(one, drawn)]
      ensures byKey == old(byKey)[InputKey(scope, one) := drawn] && byKey[InputKey(scope, other)] == drawn
      ensures first == Ok(Described(one, drawn)) && second == first
    {
      first := Attach(Some(scope), one, true, Some(drawn));
      second := Attach(Some(scope), other, true, Some(next));
    }

    /** Two different usages with that fate, on a new service. */
    static method InnerNulShared(scope: Scope) returns (service: MemoryUsageService)
      ensures INNER_NUL != LATER_NUL && Described(INNER_NUL, "u1") != Described(LATER_NUL, "u1")
      ensures fresh(service) && service.Valid() && service.items == map["u1" := Described(INNER_NUL, "u1")]
      ensures InputKey(scope, LATER_NUL) in service.byKey && service.byKey[InputKey(scope, LATER_NUL)] == "u1"
    {
      service := new MemoryUsageService();
      InnerNulKey(scope);
      var first, second := service.SharedUsageKey(scope, INNER_NUL, LATER_NUL, "u1", "u2");
      InnerNulFields("u1");
    }

    /** A scope that collides with another detaches the other's usage. */
    method ForeignDetach(owner: Scope, foreigner: Scope, input: UsageInput, drawn: string) returns (r: Result<()>)
      requires Valid() && drawn != "" && IsTrimmed(drawn) && drawn !in scopes
      modifies this
      ensures Valid()
      ensures old(Unseen(owner, input)) && Colliding(owner, foreigner) ==>
                r.Ok? && items == old(items) && byKey == old(byKey) && owners == old(owners)[drawn := owner]
    {
      ghost var unseen := Unseen(owner, input);
      var attached := Attach(Some(owner), input, true, Some(drawn));
      DescribedKey(ScopeKey(owner), input, drawn);
      r := Detach(Some(foreigner), drawn, "");
      if unseen && Colliding(owner, foreigner) {
        AddedThenRemoved(old(items), drawn, attached.value);
        AddedThenRemoved(old(byKey), InputKey(owner, input), drawn);
      }
    }

    /** Any sequence of calls, across scopes, keeps the two directions inverse,
        and each does what is said of it. */
    method Serve(requests: seq<Request>) returns (ghost states: seq<Index>)
      requires Valid()
      modifies this
      ensures Valid() && TracedTo(requests, |requests|, states)
      ensures states[0] == old(Now()) && states[|requests|] == Now()
    {
      states := [Now()];
      for i := 0 to |requests|
        invariant Valid() && TracedTo(requests, i, states)
        invariant states[0] == old(Now()) && states[i] == Now()
      {
        Handle(requests[i]);
        states := states + [Now()];
      }
    }

    method Handle(q: Request)
      requires Valid()
      modifies this
      ensures Valid() && Serves(q, old(Now()), Now())
    {
      match q {
        case AttachRequest(context, input, resourceKnown, drawn) =>
          if drawn.None? || (drawn.value != "" && drawn.value !in scopes) {
            var attached := Attach(context, input, resourceKnown, drawn);
          }
        case DetachRequest(context, usageID, idempotencyKey) =>
          ghost var id := Trim(usageID);
          assert OwnerKey(scopes, owners, id);
          if context.Some? { RemovalRight(context.value, id); }
          var detached := Detach(context, usageID, idempotencyKey);
      }
    }
  }
}
