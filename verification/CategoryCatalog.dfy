/** What the catalogue derives from a list of categories: descendant sets and display paths. */
module CategoryCatalog {
  import opened Common
  import opened Categories
  import opened JoinedKeys

  /* ---------- descendants ---------- */

  /** `id` is `n` listed parent links below a member of `seed`. */
  ghost predicate Reaches(items: seq<Category>, seed: set<string>, id: string, n: nat)
    decreases n
  {
    if n == 0 then id in seed
    else exists item :: item in items && item.id == id && Reaches(items, seed, item.parentID, n - 1)
  }

  ghost predicate Descends(items: seq<Category>, seed: set<string>, id: string) {
    exists n: nat :: Reaches(items, seed, id, n)
  }

  /** `id` lies at least one listed parent link below `root`. */
  ghost predicate ProperlyUnder(items: seq<Category>, root: string, id: string) {
    exists n: nat :: n > 0 && Reaches(items, {root}, id, n)
  }

  ghost predicate Closed(items: seq<Category>, allowed: set<string>) {
    forall item | item in items :: item.parentID in allowed ==> item.id in allowed
  }

  lemma OneStepDown(items: seq<Category>, seed: set<string>, item: Category)
    requires item in items && Descends(items, seed, item.parentID)
    ensures Descends(items, seed, item.id)
  {
    var n: nat :| Reaches(items, seed, item.parentID, n);
    assert Reaches(items, seed, item.id, n + 1);
  }

  /** Every closed set holding the seed holds everything reachable from it. */
  lemma {:induction false} ClosedHoldsReachable(items: seq<Category>, seed: set<string>, allowed: set<string>,
                                                id: string, n: nat)
    requires seed <= allowed && Closed(items, allowed) && Reaches(items, seed, id, n)
    ensures id in allowed
    decreases n
  {
    if n > 0 {
      var item :| item in items && item.id == id && Reaches(items, seed, item.parentID, n - 1);
      ClosedHoldsReachable(items, seed, allowed, item.parentID, n - 1);
    }
  }

  /** The `changed` loop: the least closed set that holds the seed, whatever
      the list's order and even when its parent links form cycles. */
  method Expand(items: seq<Category>, seed: set<string>) returns (allowed: set<string>)
    ensures seed <= allowed && Closed(items, allowed)
    ensures forall id :: id in allowed <==> Descends(items, seed, id)
  {
    ghost var universe := seed + set item | item in items :: item.id;
    allowed := seed;
    assert forall id | id in seed :: Reaches(items, seed, id, 0);
    var changed := true;
    while changed
      invariant seed <= allowed <= universe
      invariant forall id | id in allowed :: Descends(items, seed, id)
      invariant !changed ==> Closed(items, allowed)
      decreases |universe - allowed|, changed
    {
      changed := false;
      ghost var before := allowed;
      for i := 0 to |items|
        invariant before <= allowed <= universe
        invariant changed <==> before != allowed
        invariant forall id | id in allowed :: Descends(items, seed, id)
        invariant !changed ==> forall j | 0 <= j < i :: items[j].parentID in allowed ==> items[j].id in allowed
      {
        if items[i].id in allowed { continue; }
        if items[i].parentID in allowed {
          OneStepDown(items, seed, items[i]);
          allowed := allowed + {items[i].id};
          changed := true;
        }
      }
      if changed {
        Shrinks(universe, before, allowed);
      }
    }
    forall id | Descends(items, seed, id) ensures id in allowed {
      var n: nat :| Reaches(items, seed, id, n);
      ClosedHoldsReachable(items, seed, allowed, id, n);
    }
  }

  lemma Shrinks(universe: set<string>, before: set<string>, after: set<string>)
    requires before < after <= universe
    ensures |universe - after| < |universe - before|
  {
    var x :| x in after && x !in before;
    assert universe - after <= universe - before - {x};
    SubsetSize(universe - after, universe - before - {x});
  }

  lemma {:induction false} SubsetSize(a: set<string>, b: set<string>)
    requires a <= b
    ensures |a| <= |b|
  {
    if x :| x in a {
      SubsetSize(a - {x}, b - {x});
    }
  }

  predicate Listed(items: seq<Category>, id: string) {
    exists item :: item in items && item.id == id
  }

  /** The categories a media listing accepts when descendants are included:
      the root and everything below it, or nothing when the root is not visible. */
  method AllowedForMedia(items: seq<Category>, root: string) returns (allowed: set<string>)
    ensures forall id :: id in allowed <==> Listed(items, root) && (id == root || ProperlyUnder(items, root, id))
  {
    allowed := {};
    for i := 0 to |items|
      invariant allowed == if exists j | 0 <= j < i :: items[j].id == root then {root} else {}
    {
      if items[i].id == root { allowed := allowed + {items[i].id}; }
    }
    var seed := allowed;
    assert seed == if Listed(items, root) then {root} else {};
    allowed := Expand(items, seed);
    forall id ensures id in allowed <==> Listed(items, root) && (id == root || ProperlyUnder(items, root, id)) {
      if Listed(items, root) {
        if id in allowed {
          var n: nat :| Reaches(items, seed, id, n);
        } else {
          assert !Descends(items, seed, id) && !Reaches(items, seed, id, 0);
        }
      } else {
        if id in allowed {
          var n: nat :| Reaches(items, seed, id, n);
          NothingFromNothing(items, id, n);
        }
      }
    }
  }

  lemma {:induction false} NothingFromNothing(items: seq<Category>, id: string, n: nat)
    ensures !Reaches(items, {}, id, n)
    decreases n
  {
    if n > 0 {
      forall item | item in items ensures !Reaches(items, {}, item.parentID, n - 1) {
        NothingFromNothing(items, item.parentID, n - 1);
      }
    }
  }

  ghost predicate ChildrenOf(items: seq<Category>, root: string, seed: set<string>) {
    forall id :: id in seed <==> exists item :: item in items && item.id == id && item.parentID == root
  }

  /** Starting from the children is starting one link below the root. */
  lemma {:induction false} FromChildren(items: seq<Category>, root: string, seed: set<string>, id: string, n: nat)
    requires ChildrenOf(items, root, seed)
    ensures Reaches(items, seed, id, n) <==> Reaches(items, {root}, id, n + 1)
    decreases n
  {
    if n == 0 {
      forall item | item in items ensures Reaches(items, {root}, item.parentID, 0) <==> item.parentID == root { }
    } else {
      forall item | item in items
        ensures Reaches(items, seed, item.parentID, n - 1) <==> Reaches(items, {root}, item.parentID, n)
      {
        FromChildren(items, root, seed, item.parentID, n - 1);
      }
    }
  }

  /** The categories a picker lists under a parent: its children, or with
      descendants everything below it, whether or not the parent is visible. */
  method AllowedForPicker(items: seq<Category>, root: string, includeDescendants: bool) returns (allowed: set<string>)
    ensures forall id :: id in allowed <==>
              if includeDescendants then ProperlyUnder(items, root, id) else Reaches(items, {root}, id, 1)
  {
    allowed := {};
    for i := 0 to |items|
      invariant forall id :: id in allowed <==>
                  exists j | 0 <= j < i :: items[j].id == id && items[j].parentID == root
    {
      if items[i].parentID == root { allowed := allowed + {items[i].id}; }
    }
    var seed := allowed;
    assert ChildrenOf(items, root, seed) by {
      forall id ensures id in seed <==> exists item :: item in items && item.id == id && item.parentID == root {
        if item :| item in items && item.id == id && item.parentID == root {
          var j :| 0 <= j < |items| && items[j] == item;
        }
      }
    }
    if includeDescendants { allowed := Expand(items, seed); }
    forall id ensures id in allowed <==>
        if includeDescendants then ProperlyUnder(items, root, id) else Reaches(items, {root}, id, 1)
    {
      FromChildren(items, root, seed, id, 0);
      if includeDescendants {
        if id in allowed {
          var n: nat :| Reaches(items, seed, id, n);
          FromChildren(items, root, seed, id, n);
        } else if ProperlyUnder(items, root, id) {
          var n: nat :| n > 0 && Reaches(items, {root}, id, n);
          FromChildren(items, root, seed, id, n - 1);
        }
      }
    }
  }

  /* ---------- what a scope sees of a forest ---------- */

  datatype Scope = Platform | Member(tenantID: string, organization: string)

  /** The three scopes a member's view inherits from, and everything for the platform administrator. */
  predicate Sees(scope: Scope, c: Category) {
    scope.Member? ==>
      || InScope(c, scope.tenantID, scope.organization)
      || InScope(c, scope.tenantID, "")
      || InScope(c, "", "")
  }

  /** `items` lists exactly the visible rows of `t`. */
  ghost predicate Enumerates(items: seq<Category>, t: Table, scope: Scope) {
    forall c: Category :: c in items <==> c.id in t && t[c.id] == c && Sees(scope, c)
  }

  /** On a forest a visible category sees its whole tree: along the visible
      list, `id` is below `root` exactly when `root` is an ancestor of `id`. */
  lemma {:induction false} ReachesOnPath(t: Table, items: seq<Category>, scope: Scope, root: string, path: seq<string>,
                                         n: nat)
    requires Forest(t) && Enumerates(items, t, scope)
    requires RootPath(t, path) && Sees(scope, t[path[0]]) && root in t
    ensures Reaches(items, {root}, path[0], n) <==> n < |path| && path[n] == root
    decreases n
  {
    var c := t[path[0]];
    if n > 0 {
      assert c in items;
      assert forall item | item in items && item.id == path[0] :: item == c;
      if |path| > 1 {
        ReachesOnPath(t, items, scope, root, path[1..], n - 1);
      } else {
        RootReachesNothing(t, items, scope, {root}, n - 1);
      }
    }
  }

  lemma RootReachesNothing(t: Table, items: seq<Category>, scope: Scope, seed: set<string>, n: nat)
    requires Forest(t) && Enumerates(items, t, scope)
    ensures Reaches(items, seed, "", n) ==> n == 0 && "" in seed
  {
    assert forall item | item in items :: item.id != "";
  }

  lemma DescendantsOnForest(t: Table, items: seq<Category>, scope: Scope, root: string, id: string)
    requires Forest(t) && Enumerates(items, t, scope) && root in t && id in t && Sees(scope, t[id])
    ensures ProperlyUnder(items, root, id) <==> Above(t, root, id) && id != root
  {
    var path := PathOf(t, id);
    AboveOnPath(t, root, id);
    if ProperlyUnder(items, root, id) {
      var n: nat :| n > 0 && Reaches(items, {root}, id, n);
      ReachesOnPath(t, items, scope, root, path, n);
      PathHasNoRepeats(t, path, 0, n);
    } else if root in path && id != root {
      var n: nat :| n < |path| && path[n] == root;
      ReachesOnPath(t, items, scope, root, path, n);
    }
  }

  /* ---------- display paths ---------- */

  /** Every entry of `byID` is stored under its own ID. */
  predicate Keyed(byID: Table) {
    forall id | id in byID :: byID[id].id == id
  }

  /** Whether the climb goes on above `c`. */
  predicate Climbable(byID: Table, c: Category) {
    Trim(c.parentID) != "" && c.parentID in byID
  }

  /** The climb from `current`, cut where it would revisit a node of `seen`. */
  ghost function Walk(byID: Table, current: Category, seen: set<string>): (nodes: seq<Category>)
    requires Keyed(byID) && current.id in byID && seen <= byID.Keys
    decreases |byID.Keys - seen|
  {
    if current.id in seen then []
    else if !Climbable(byID, current) then [current]
    else
      assert byID.Keys - seen == (byID.Keys - (seen + {current.id})) + {current.id};
      [current] + Walk(byID, byID[current.parentID], seen + {current.id})
  }

  /** Names from the root down to the first node of a climb. */
  function RootFirst(nodes: seq<Category>): seq<string> {
    seq(|nodes|, i requires 0 <= i < |nodes| => nodes[|nodes| - 1 - i].name)
  }

  lemma WalkStep(byID: Table, current: Category, seen: set<string>)
    requires Keyed(byID) && current.id in byID && seen <= byID.Keys && current.id !in seen
    ensures |byID.Keys - (seen + {current.id})| < |byID.Keys - seen|
    ensures !Climbable(byID, current) ==> Walk(byID, current, seen) == [current]
    ensures Climbable(byID, current) ==>
              Walk(byID, current, seen) == [current] + Walk(byID, byID[current.parentID], seen + {current.id})
  {
    assert byID.Keys - seen == (byID.Keys - (seen + {current.id})) + {current.id};
  }

  /** Collects the names of a climb, node by node. */
  method ClimbNames(item: Category, byID: Table) returns (parts: seq<string>)
    requires Keyed(byID) && item.id in byID
    ensures var nodes := Walk(byID, item, {});
            |parts| == |nodes| && forall i | 0 <= i < |parts| :: parts[i] == nodes[i].name
  {
    parts := [];
    var current := item;
    var seen: set<string> := {};
    ghost var nodes := Walk(byID, item, {});
    while true
      invariant current.id in byID && seen <= byID.Keys
      invariant |parts| <= |nodes| && nodes[|parts|..] == Walk(byID, current, seen)
      invariant forall i | 0 <= i < |parts| :: parts[i] == nodes[i].name
      decreases |byID.Keys - seen|
    {
      if current.id in seen { break; }
      WalkStep(byID, current, seen);
      assert nodes[|parts|..][0] == current && nodes[|parts|..][1..] == nodes[|parts| + 1..];
      seen := seen + {current.id};
      parts := parts + [current.name];
      if Trim(current.parentID) == "" { break; }
      if current.parentID !in byID { break; }
      current := byID[current.parentID];
    }
  }

  /** The display path: the names of the climb, root first, joined by slashes. */
  method CategoryPath(item: Category, byID: Table) returns (path: string)
    requires Keyed(byID) && item.id in byID
    ensures path == Join(RootFirst(Walk(byID, item, {})), '/')
  {
    var parts := ClimbNames(item, byID);
    parts := ReverseParts(parts);
    assert parts == RootFirst(Walk(byID, item, {}));
    path := Join(parts, '/');
  }

  /** The in-place reversal, two indices moving towards each other. */
  method ReverseParts(given: seq<string>) returns (parts: seq<string>)
    ensures |parts| == |given| && forall i | 0 <= i < |parts| :: parts[i] == given[|given| - 1 - i]
  {
    parts := given;
    var left, right := 0, |parts| - 1;
    while left < right
      invariant |parts| == |given| && 0 <= left && left + right == |parts| - 1 && left <= right + 1
      invariant forall i | 0 <= i < left :: parts[i] == given[|given| - 1 - i]
      invariant forall i | left <= i <= right :: parts[i] == given[i]
      invariant forall i | right < i < |parts| :: parts[i] == given[|given| - 1 - i]
    {
      parts := parts[left := parts[right]][right := parts[left]];
      left, right := left + 1, right - 1;
    }
  }

  /** On any map, cyclic or dangling, the climb starts at the category and
      each next node is its predecessor's parent. */
  lemma {:induction false} WalkFollowsLinks(byID: Table, current: Category, seen: set<string>)
    requires Keyed(byID) && current.id in byID && seen <= byID.Keys
    ensures var nodes := Walk(byID, current, seen);
            && (if current.id in seen then nodes == [] else nodes != [] && nodes[0] == current)
            && (forall i | 0 <= i < |nodes| - 1 ::
                  Climbable(byID, nodes[i]) && nodes[i + 1] == byID[nodes[i].parentID])
    decreases |byID.Keys - seen|
  {
    if current.id !in seen {
      WalkStep(byID, current, seen);
      if Climbable(byID, current) {
        WalkFollowsLinks(byID, byID[current.parentID], seen + {current.id});
      }
    }
  }

  /** It visits no node twice. */
  lemma {:induction false} WalkVisitsOnce(byID: Table, current: Category, seen: set<string>)
    requires Keyed(byID) && current.id in byID && seen <= byID.Keys
    ensures var nodes := Walk(byID, current, seen);
            && (forall i | 0 <= i < |nodes| :: nodes[i].id !in seen && nodes[i].id in byID)
            && (forall i, j | 0 <= i < j < |nodes| :: nodes[i].id != nodes[j].id)
    decreases |byID.Keys - seen|
  {
    if current.id !in seen {
      WalkStep(byID, current, seen);
      if Climbable(byID, current) {
        WalkVisitsOnce(byID, byID[current.parentID], seen + {current.id});
      }
    }
  }

  /** It stops only at a root, below a missing parent, or where the next node
      was already visited. */
  lemma {:induction false} WalkStopsLate(byID: Table, current: Category, seen: set<string>)
    requires Keyed(byID) && current.id in byID && seen <= byID.Keys && current.id !in seen
    ensures var nodes := Walk(byID, current, seen);
            nodes != []
            && var last := nodes[|nodes| - 1];
            Climbable(byID, last) ==> last.parentID in seen || exists node :: node in nodes && node.id == last.parentID
    decreases |byID.Keys - seen|
  {
    WalkStep(byID, current, seen);
    if Climbable(byID, current) {
      var up, held := byID[current.parentID], seen + {current.id};
      var rest := Walk(byID, up, held);
      assert current in [current] + rest;
      if up.id !in held {
        WalkStopsLate(byID, up, held);
        assert forall node | node in rest :: node in [current] + rest;
      }
    }
  }

  /** The rows along a path. */
  ghost function Rows(byID: Table, path: seq<string>): (rows: seq<Category>)
    requires forall id | id in path :: id in byID
    ensures |rows| == |path| && forall i | 0 <= i < |path| :: rows[i] == byID[path[i]]
  {
    if path == [] then [] else [byID[path[0]]] + Rows(byID, path[1..])
  }

  /** On a forest the climb is the root path, so the display path spells it out. */
  lemma {:induction false} WalkIsRootPath(t: Table, byID: Table, path: seq<string>, seen: set<string>)
    requires Forest(t) && RootPath(t, path) && seen <= byID.Keys && Keyed(byID)
    requires forall id | id in byID :: id in t && byID[id] == t[id]
    requires forall id | id in path :: id in byID && id !in seen
    ensures Walk(byID, byID[path[0]], seen) == Rows(byID, path)
    decreases |path|
  {
    var c := byID[path[0]];
    WalkStep(byID, c, seen);
    if |path| > 1 {
      assert c.parentID == path[1] && path[1] in path && Climbable(byID, c);
      forall id | id in path[1..] ensures id != c.id {
        var k :| 0 <= k < |path| - 1 && path[1..][k] == id;
        PathHasNoRepeats(t, path, 0, k + 1);
      }
      WalkIsRootPath(t, byID, path[1..], seen + {c.id});
    }
  }

  /** A visible category's whole root path is visible, so the path shown is complete. */
  lemma {:induction false} PathVisible(t: Table, scope: Scope, path: seq<string>)
    requires Forest(t) && RootPath(t, path) && Sees(scope, t[path[0]])
    ensures forall id | id in path :: id in t && Sees(scope, t[id])
    decreases |path|
  {
    if |path| > 1 { PathVisible(t, scope, path[1..]); }
  }

  lemma VisiblePathIsComplete(t: Table, byID: Table, scope: Scope, id: string)
    requires Forest(t) && id in t && Sees(scope, t[id])
    requires forall x :: x in byID <==> x in t && Sees(scope, t[x])
    requires forall x | x in byID :: byID[x] == t[x]
    ensures var path := PathOf(t, id);
            && (forall x | x in path :: x in byID)
            && Walk(byID, byID[id], {}) == Rows(byID, path)
  {
    var path := PathOf(t, id);
    PathVisible(t, scope, path);
    WalkIsRootPath(t, byID, path, {});
  }
}
