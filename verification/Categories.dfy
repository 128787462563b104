/** The in-memory category tree of the file centre: create, move and delete keep it a forest. */
module Categories {
  import opened Common

  datatype Category = Category(
    id: string, name: string, parentID: string, tenantID: string, orgID: string,
    enabled: bool, createdAt: int, updatedAt: int)

  datatype Input = Input(name: string, parentID: string, enabled: Option<bool>)

  datatype Error = InvalidCategory | CategoryNotFound | CategoryAccessDenied | CategoryNotEmpty | Unavailable

  datatype Result<+T> = Ok(value: T) | Err(error: Error)

  type Table = map<string, Category>

  /** `path` climbs parent links from its first node up to a root. */
  predicate RootPath(t: Table, path: seq<string>)
    decreases |path|
  {
    && path != [] && path[0] in t
    && (if |path| == 1 then t[path[0]].parentID == ""
        else t[path[0]].parentID == path[1] && RootPath(t, path[1..]))
  }

  /** `a` is `b` itself or one of its ancestors. */
  ghost predicate Above(t: Table, a: string, b: string) {
    exists path :: RootPath(t, path) && path[0] == b && a in path
  }

  predicate SameScope(a: Category, b: Category) {
    a.tenantID == b.tenantID && a.orgID == b.orgID
  }

  predicate InScope(c: Category, tenantID: string, orgID: string) {
    c.tenantID == tenantID && c.orgID == orgID
  }

  /** A row stored under its own trimmed ID, with trimmed scope fields. */
  predicate WellStored(id: string, c: Category) {
    c.id == id && id != "" && IsTrimmed(id) && IsTrimmed(c.tenantID) && IsTrimmed(c.orgID)
  }

  /** Every row is well stored, and every parent exists in its child's scope. */
  predicate Linked(t: Table) {
    && "" !in t
    && (forall id | id in t :: WellStored(id, t[id]))
    && (forall id | id in t && t[id].parentID != "" :: t[id].parentID in t && SameScope(t[t[id].parentID], t[id]))
  }

  /** Besides, every climb ends at a root. */
  ghost predicate Forest(t: Table) {
    Linked(t) && forall id | id in t :: Above(t, id, id)
  }

  ghost function PathOf(t: Table, id: string): (path: seq<string>)
    requires Above(t, id, id)
    ensures RootPath(t, path) && path[0] == id
  {
    var path :| RootPath(t, path) && path[0] == id; path
  }

  /* ---------- root paths ---------- */

  lemma {:induction false} PathUnique(t: Table, p: seq<string>, q: seq<string>)
    requires "" !in t && RootPath(t, p) && RootPath(t, q) && p[0] == q[0]
    ensures p == q
    decreases |p|
  {
    if |p| > 1 && |q| > 1 { PathUnique(t, p[1..], q[1..]); }
  }

  lemma {:induction false} PathSuffix(t: Table, path: seq<string>, k: nat)
    requires RootPath(t, path) && k < |path|
    ensures RootPath(t, path[k..])
    decreases k
  {
    if k > 0 {
      PathSuffix(t, path[1..], k - 1);
      assert path[1..][k - 1..] == path[k..];
    }
  }

  /** A root path visits no node twice: this is what bounds every ancestor walk. */
  lemma PathHasNoRepeats(t: Table, path: seq<string>, i: nat, j: nat)
    requires "" !in t && RootPath(t, path) && i < j < |path|
    ensures path[i] != path[j]
  {
    if path[i] == path[j] {
      PathSuffix(t, path, i);
      PathSuffix(t, path, j);
      PathUnique(t, path[i..], path[j..]);
    }
  }

  lemma {:induction false} PathFrame(t: Table, u: Table, path: seq<string>)
    requires RootPath(t, path)
    requires forall id | id in path && id in t :: id in u && u[id].parentID == t[id].parentID
    ensures RootPath(u, path)
    decreases |path|
  {
    if |path| > 1 { PathFrame(t, u, path[1..]); }
  }

  /** Redirecting `c` to a new root path reroutes every path through `c`. */
  lemma {:induction false} PathReroute(t: Table, u: Table, path: seq<string>, c: string, tail: seq<string>)
    returns (q: seq<string>)
    requires RootPath(t, path) && c in path && RootPath(u, tail) && tail[0] == c
    requires forall id | id in t && id != c :: id in u && u[id].parentID == t[id].parentID
    ensures RootPath(u, q) && q[0] == path[0]
    decreases |path|
  {
    if path[0] == c {
      q := tail;
    } else {
      var rest := PathReroute(t, u, path[1..], c, tail);
      q := [path[0]] + rest;
      assert q[1..] == rest;
    }
  }

  /** Nodes below `c` still reach `c` when only `c`'s own link changes. */
  lemma {:induction false} PathStillMeets(t: Table, u: Table, path: seq<string>, c: string, q: seq<string>)
    requires "" !in t && RootPath(t, path) && c in path && RootPath(u, q) && q[0] == path[0]
    requires forall id | id in t && id != c :: id in u && u[id].parentID == t[id].parentID
    ensures c in q
    decreases |path|
  {
    if path[0] != c {
      assert path[1] in t;
      PathStillMeets(t, u, path[1..], c, q[1..]);
    }
  }

  lemma {:induction false} LeafOnlyStarts(t: Table, path: seq<string>, leaf: string)
    requires RootPath(t, path) && path[0] != leaf
    requires forall id | id in t :: t[id].parentID != leaf
    ensures leaf !in path
    decreases |path|
  {
    if |path| > 1 { LeafOnlyStarts(t, path[1..], leaf); }
  }

  /** On a forest, the ancestors of `b` are exactly the nodes of its one root path. */
  lemma AboveOnPath(t: Table, a: string, b: string)
    requires Forest(t) && b in t
    ensures Above(t, a, b) <==> a in PathOf(t, b)
  {
    if Above(t, a, b) {
      var path :| RootPath(t, path) && path[0] == b && a in path;
      PathUnique(t, path, PathOf(t, b));
    }
  }

  /* ---------- the three table changes ---------- */

  /** Storing a well-formed row under an existing parent keeps the table linked,
      as long as a row it replaces keeps its scope. */
  lemma StoreKeepsLinked(t: Table, c: Category)
    requires Linked(t) && WellStored(c.id, c) && (c.id in t ==> SameScope(c, t[c.id]))
    requires c.parentID != "" ==> c.parentID in t && SameScope(t[c.parentID], c)
    ensures Linked(t[c.id := c])
  {}

  lemma PathsKept(t: Table, u: Table)
    requires Forest(t) && forall id | id in t :: id in u && u[id].parentID == t[id].parentID
    ensures forall id | id in t :: Above(u, id, id)
  {
    forall id | id in t ensures Above(u, id, id) {
      PathFrame(t, u, PathOf(t, id));
    }
  }

  lemma InsertKeepsForest(t: Table, c: Category)
    requires Forest(t) && c.id !in t && WellStored(c.id, c)
    requires c.parentID != "" ==> c.parentID in t && SameScope(t[c.parentID], c)
    ensures Forest(t[c.id := c])
  {
    var u := t[c.id := c];
    StoreKeepsLinked(t, c);
    PathsKept(t, u);
    if c.parentID == "" {
      assert RootPath(u, [c.id]);
    } else {
      var up := PathOf(u, c.parentID);
      assert ([c.id] + up)[1..] == up;
      assert RootPath(u, [c.id] + up);
    }
  }

  lemma RemoveKeepsForest(t: Table, gone: string)
    requires Forest(t)
    requires forall id | id in t :: t[id].parentID != gone
    ensures Forest(t - {gone})
  {
    var u := t - {gone};
    forall id | id in u ensures Above(u, id, id) {
      LeafOnlyStarts(t, PathOf(t, id), gone);
      PathFrame(t, u, PathOf(t, id));
    }
  }

  /** Editing a row without moving it keeps every path. */
  lemma EditKeepsForest(t: Table, c: Category)
    requires Forest(t) && c.id in t && WellStored(c.id, c)
    requires c.parentID == t[c.id].parentID && SameScope(c, t[c.id])
    ensures Forest(t[c.id := c])
  {
    StoreKeepsLinked(t, c);
    PathsKept(t, t[c.id := c]);
  }

  lemma MovedPath(t: Table, u: Table, id: string, c: string, tail: seq<string>)
    requires Forest(t) && id in t && RootPath(u, tail) && tail[0] == c
    requires forall x | x in t && x != c :: x in u && u[x].parentID == t[x].parentID
    ensures Above(u, id, id)
  {
    var path := PathOf(t, id);
    if c in path {
      var q := PathReroute(t, u, path, c, tail);
    } else {
      PathFrame(t, u, path);
    }
  }

  lemma MoveApart(t: Table, c: Category, p: string)
    requires Forest(t) && c.id in t && WellStored(c.id, c) && SameScope(c, t[c.id])
    requires p in t && SameScope(t[p], c) && c.parentID == p && !Above(t, c.id, p)
    ensures Forest(t[c.id := c])
  {
    var u := t[c.id := c];
    StoreKeepsLinked(t, c);
    var up := PathOf(t, p);
    PathFrame(t, u, up);
    var tail := [c.id] + up;
    assert tail[1..] == up;
    forall id | id in u ensures Above(u, id, id) { MovedPath(t, u, id, c.id, tail); }
  }

  lemma MoveUnderItself(t: Table, c: Category, p: string)
    requires Forest(t) && c.id in t && c.parentID == p && p in t && Above(t, c.id, p)
    ensures !Forest(t[c.id := c])
  {
    var u := t[c.id := c];
    if Forest(u) {
      AboveOnPath(t, c.id, p);
      var q := PathOf(u, p);
      PathStillMeets(t, u, PathOf(t, p), c.id, q);
      var k :| 0 <= k < |q| && q[k] == c.id;
      PathSuffix(u, q, k);
      assert q[k..][1] == q[k + 1] == p;
      PathHasNoRepeats(u, q, 0, k + 1);
    }
  }

  /** The ancestor check is exact: moving `c` under `p` leaves a forest if and
      only if `c` is neither `p` nor one of `p`'s ancestors. */
  lemma MoveKeepsForest(t: Table, c: Category, p: string)
    requires Forest(t) && c.id in t && WellStored(c.id, c) && SameScope(c, t[c.id])
    requires p in t && SameScope(t[p], c) && c.parentID == p
    ensures Forest(t[c.id := c]) <==> !Above(t, c.id, p)
  {
    if Above(t, c.id, p) { MoveUnderItself(t, c, p); } else { MoveApart(t, c, p); }
  }

  /* ---------- the service ---------- */

  /** What the file repository answers when asked how many files a category holds. */
  datatype Listing = NoRepository | Failed | Total(count: nat)

  datatype Request =
    | CreateRequest(input: Input, tenantID: string, orgID: string, id: Option<string>, now: int)
    | UpdateRequest(target: string, input: Input, tenantID: string, orgID: string, now: int)
    | DeleteRequest(target: string, tenantID: string, orgID: string, listing: Listing)

  /** IDs come from the random source: trimmed, non-empty and never drawn before. */
  ghost predicate Drawable(t: Table, id: Option<string>) {
    id.Some? ==> id.value != "" && IsTrimmed(id.value) && id.value !in t
  }

  ghost predicate DrawsOnce(t: Table, requests: seq<Request>) {
    && (forall i | 0 <= i < |requests| && requests[i].CreateRequest? :: Drawable(t, requests[i].id))
    && (forall i, j | 0 <= i < j < |requests| && requests[i].CreateRequest? && requests[j].CreateRequest? ::
          requests[i].id.Some? ==> requests[i].id != requests[j].id)
  }

  class CategoryService {
    var categories: Table
    /** The category of every file held in memory. */
    var files: map<string, string>

    ghost predicate Valid()
      reads this
    {
      Forest(categories)
    }

    constructor ()
      ensures Valid() && categories == map[] && files == map[]
    {
      categories, files := map[], map[];
    }

    method CreateCategory(input: Input, tenantID: string, orgID: string, id: Option<string>, now: int)
      returns (r: Result<Category>)
      requires Valid() && Drawable(categories, id)
      modifies this`categories
      ensures Valid()
      ensures r.Err? ==> categories == old(categories)
      ensures r.Ok? ==>
                && id.Some? && categories == old(categories)[id.value := r.value]
                && r.value == Category(id.value, Trim(input.name), Trim(input.parentID), Trim(tenantID), Trim(orgID),
                                       input.enabled.None? || input.enabled.value, now, now)
      ensures r == Err(InvalidCategory) <==> Trim(input.name) == ""
      ensures r == Err(CategoryNotFound) <==>
              Trim(input.name) != "" && Trim(input.parentID) != "" && Trim(input.parentID) !in old(categories)
      ensures r == Err(CategoryAccessDenied) <==>
              && Trim(input.name) != "" && Trim(input.parentID) in old(categories)
              && !InScope(old(categories)[Trim(input.parentID)], tenantID, orgID)
      ensures r.Err? && r.error !in {InvalidCategory, CategoryNotFound, CategoryAccessDenied} ==> id.None?
    {
      TrimTwice(tenantID);
      TrimTwice(orgID);
      var name := Trim(input.name);
      if name == "" { return Err(InvalidCategory); }
      var parentID := Trim(input.parentID);
      if parentID != "" {
        if parentID !in categories { return Err(CategoryNotFound); }
        var p := categories[parentID];
        if p.tenantID != tenantID || p.orgID != orgID { return Err(CategoryAccessDenied); }
      }
      if id.None? { return Err(Unavailable); }
      var enabled := true;
      if input.enabled.Some? { enabled := input.enabled.value; }
      var c := Category(id.value, name, parentID, Trim(tenantID), Trim(orgID), enabled, now, now);
      InsertKeepsForest(categories, c);
      categories := categories[id.value := c];
      return Ok(c);
    }

    /** Climbs from `p` looking for `c` among its proper ancestors. */
    method MeetsAncestor(p: Category, c: string) returns (found: bool)
      requires Valid() && p.id in categories && categories[p.id] == p && p.id != c
      ensures found <==> Above(categories, c, p.id)
    {
      AboveOnPath(categories, c, p.id);
      var ancestor := p;
      ghost var rest := PathOf(categories, p.id);
      while ancestor.parentID != ""
        invariant RootPath(categories, rest) && rest[0] == ancestor.id != c
        invariant ancestor.id in categories && categories[ancestor.id] == ancestor
        invariant c in PathOf(categories, p.id) <==> c in rest
        decreases |rest|
      {
        if ancestor.parentID == c { return true; }
        if ancestor.parentID !in categories { break; }
        ancestor := categories[ancestor.parentID];
        rest := rest[1..];
      }
      return false;
    }

    method UpdateCategory(id: string, input: Input, tenantID: string, orgID: string, now: int)
      returns (r: Result<Category>)
      requires Valid()
      modifies this`categories
      ensures Valid()
      ensures r.Err? ==> categories == old(categories)
      ensures r.Ok? ==>
                && Trim(id) in old(categories) && categories == old(categories)[Trim(id) := r.value]
                && var was := old(categories)[Trim(id)];
                && r.value == was.(
                     name := if Trim(input.name) != "" then Trim(input.name) else was.name,
                     parentID := if input.parentID != "" then Trim(input.parentID) else was.parentID,
                     enabled := if input.enabled.Some? then input.enabled.value else was.enabled,
                     updatedAt := now)
      ensures r == Err(CategoryNotFound) <==>
              || Trim(id) !in old(categories)
              || (&& InScope(old(categories)[Trim(id)], tenantID, orgID)
                  && input.parentID != "" && Trim(input.parentID) !in old(categories))
      ensures r == Err(CategoryAccessDenied) <==>
              && Trim(id) in old(categories)
              && (|| !InScope(old(categories)[Trim(id)], tenantID, orgID)
                  || (&& input.parentID != "" && Trim(input.parentID) in old(categories)
                      && (|| !InScope(old(categories)[Trim(input.parentID)], tenantID, orgID)
                          || Trim(input.parentID) == Trim(id))))
      ensures r == Err(InvalidCategory) <==>
              && Trim(id) in old(categories) && InScope(old(categories)[Trim(id)], tenantID, orgID)
              && input.parentID != "" && Trim(input.parentID) in old(categories)
              && InScope(old(categories)[Trim(input.parentID)], tenantID, orgID)
              && Trim(input.parentID) != Trim(id)
              && Above(old(categories), Trim(id), Trim(input.parentID))
      ensures r.Err? ==> r.error in {CategoryNotFound, CategoryAccessDenied, InvalidCategory}
    {
      if Trim(id) !in categories { return Err(CategoryNotFound); }
      var c := categories[Trim(id)];
      if c.tenantID != tenantID || c.orgID != orgID { return Err(CategoryAccessDenied); }
      if Trim(input.name) != "" { c := c.(name := Trim(input.name)); }
      if input.parentID != "" {
        if Trim(input.parentID) !in categories { return Err(CategoryNotFound); }
        var p := categories[Trim(input.parentID)];
        if p.tenantID != tenantID || p.orgID != orgID || p.id == c.id { return Err(CategoryAccessDenied); }
        var cyclic := MeetsAncestor(p, c.id);
        if cyclic { return Err(InvalidCategory); }
        c := c.(parentID := p.id);
      }
      if input.enabled.Some? { c := c.(enabled := input.enabled.value); }
      c := c.(updatedAt := now);
      if input.parentID == "" {
        EditKeepsForest(categories, c);
      } else {
        MoveKeepsForest(categories, c, c.parentID);
      }
      categories := categories[c.id := c];
      return Ok(c);
    }

    method DeleteCategory(rawID: string, tenantID: string, orgID: string, listing: Listing)
      returns (r: Result<()>)
      requires Valid()
      modifies this`categories
      ensures Valid()
      ensures categories == if r.Ok? then old(categories) - {Trim(rawID)} else old(categories)
      ensures r == Err(CategoryNotFound) <==> Trim(rawID) !in old(categories)
      ensures r == Err(CategoryAccessDenied) <==>
              Trim(rawID) in old(categories) && !InScope(old(categories)[Trim(rawID)], tenantID, orgID)
      ensures r.Ok? <==>
              && Trim(rawID) in old(categories) && InScope(old(categories)[Trim(rawID)], tenantID, orgID)
              && (forall child | child in old(categories) :: old(categories)[child].parentID != Trim(rawID))
              && (listing == NoRepository || listing == Total(0))
              && (forall f | f in files :: files[f] != Trim(rawID))
      ensures r == Err(Unavailable) ==> listing == Failed
    {
      var id := Trim(rawID);
      if id !in categories { return Err(CategoryNotFound); }
      var c := categories[id];
      if c.tenantID != tenantID || c.orgID != orgID { return Err(CategoryAccessDenied); }
      if exists child | child in categories :: categories[child].parentID == id { return Err(CategoryNotEmpty); }
      match listing {
        case NoRepository =>
        case Failed => return Err(Unavailable);
        case Total(count) => if count > 0 { return Err(CategoryNotEmpty); }
      }
      if exists f | f in files :: files[f] == id { return Err(CategoryNotEmpty); }
      RemoveKeepsForest(categories, id);
      categories := categories - {id};
      return Ok(());
    }

    /** Any sequence of calls leaves a forest. */
    method Serve(requests: seq<Request>)
      requires Valid() && DrawsOnce(categories, requests)
      modifies this`categories
      ensures Valid()
    {
      for i := 0 to |requests|
        invariant Valid()
        invariant forall j | i <= j < |requests| && requests[j].CreateRequest? :: Drawable(categories, requests[j].id)
      {
        match requests[i] {
          case CreateRequest(input, tenantID, orgID, id, now) =>
            var created := CreateCategory(input, tenantID, orgID, id, now);
          case UpdateRequest(target, input, tenantID, orgID, now) =>
            var updated := UpdateCategory(target, input, tenantID, orgID, now);
          case DeleteRequest(target, tenantID, orgID, listing) =>
            var deleted := DeleteCategory(target, tenantID, orgID, listing);
        }
      }
    }
  }
}
