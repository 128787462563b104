/** `filterMenusByAccessCodes` (iam/service.go): two memoised, cycle-guarded
    depth-first searches over a menu list that may hold dangling parents and
    parent cycles. */
module MenuFilter {
  import opened Common
  import opened MenuTree

  /** A node and all its existing ancestors can be shown, and the climb ends. */
  predicate VisibleWithin(byID: Index, id: string, n: nat)
    decreases n
  {
    n > 0 && id in byID && Displayed(byID[id]) &&
    (HasParent(byID, id) ==> VisibleWithin(byID, byID[id].parentID, n - 1))
  }

  ghost predicate StructurallyVisible(byID: Index, id: string) {
    exists n: nat :: VisibleWithin(byID, id, n)
  }

  predicate Allows(allowed: set<string>, m: Menu) {
    || Trim(m.permission) in allowed
    || (Trim(m.permission) == "" && !m.menuType.Directory?)
  }

  predicate IsChild(byID: Index, child: string, id: string) {
    child in byID && byID[child].parentID == id && id != ""
  }

  /** The simple recursive definition: a visible node is kept if its own
      permission allows it, or if it is a directory with a kept child. */
  ghost predicate KeptWithin(byID: Index, allowed: set<string>, id: string, n: nat)
    decreases n
  {
    n > 0 && StructurallyVisible(byID, id) &&
    (Allows(allowed, byID[id]) ||
     (byID[id].menuType.Directory? &&
      exists child :: IsChild(byID, child, id) && KeptWithin(byID, allowed, child, n - 1)))
  }

  ghost predicate Kept(byID: Index, allowed: set<string>, id: string) {
    exists n: nat :: KeptWithin(byID, allowed, id, n)
  }

  /** The codes that can match a permission. */
  function AllowedCodes(codes: seq<string>): set<string> {
    set c | c in codes && Trim(c) != "" :: Trim(c)
  }

  /** The kept menus, in their original order. */
  ghost function KeptMenus(byID: Index, allowed: set<string>, menus: seq<Menu>): seq<Menu> {
    if menus == [] then []
    else (if Kept(byID, allowed, menus[0].id) then [menus[0]] else [])
         + KeptMenus(byID, allowed, menus[1..])
  }

  lemma VisibleUnfolds(byID: Index, id: string)
    ensures StructurallyVisible(byID, id) <==>
            && id in byID && Displayed(byID[id])
            && (HasParent(byID, id) ==> StructurallyVisible(byID, byID[id].parentID))
  {
    if StructurallyVisible(byID, id) {
      var n: nat :| VisibleWithin(byID, id, n);
      if HasParent(byID, id) { assert VisibleWithin(byID, byID[id].parentID, n - 1); }
    }
    if id in byID && Displayed(byID[id]) {
      if !HasParent(byID, id) {
        assert VisibleWithin(byID, id, 1);
      } else if StructurallyVisible(byID, byID[id].parentID) {
        var n: nat :| VisibleWithin(byID, byID[id].parentID, n);
        assert VisibleWithin(byID, id, n + 1);
      }
    }
  }

  lemma {:induction false} VisibleEnds(byID: Index, id: string, n: nat)
    requires VisibleWithin(byID, id, n)
    ensures EndsWithin(byID, id, n)
    decreases n
  {
    if HasParent(byID, id) { VisibleEnds(byID, byID[id].parentID, n - 1); }
  }

  /** Nodes on or below a parent cycle are not visible, hence not kept. */
  lemma BelowCycleDropped(byID: Index, allowed: set<string>, id: string, node: string)
    requires (id == node || Below(byID, id, node)) && Below(byID, node, node)
    ensures !StructurallyVisible(byID, id) && !Kept(byID, allowed, id)
  {
    var n: nat :| n > 0 && Climbs(byID, node, node, n);
    var k: nat :| Climbs(byID, id, node, k) by { assert id == node ==> Climbs(byID, id, node, 0); }
    if StructurallyVisible(byID, id) {
      var m: nat :| VisibleWithin(byID, id, m);
      VisibleEnds(byID, id, m);
      EndsAbove(byID, id, node, m, k);
      CycleNeverEnds(byID, node, m - k, n);
    }
  }

  lemma {:induction false} KeptMonotone(byID: Index, allowed: set<string>, id: string, n: nat, m: nat)
    requires KeptWithin(byID, allowed, id, n) && n <= m
    ensures KeptWithin(byID, allowed, id, m)
    decreases n
  {
    if !Allows(allowed, byID[id]) {
      var child :| IsChild(byID, child, id) && KeptWithin(byID, allowed, child, n - 1);
      KeptMonotone(byID, allowed, child, n - 1, m - 1);
    }
  }

  /** `Kept` is the fixpoint the recursion describes: in particular a directory
      without an allowed code is kept only if it has a kept child. */
  lemma KeptUnfolds(byID: Index, allowed: set<string>, id: string)
    ensures Kept(byID, allowed, id) <==>
            && StructurallyVisible(byID, id)
            && (Allows(allowed, byID[id])
                || (byID[id].menuType.Directory?
                    && exists child :: IsChild(byID, child, id) && Kept(byID, allowed, child)))
  {
    if Kept(byID, allowed, id) {
      var n: nat :| KeptWithin(byID, allowed, id, n);
      if !Allows(allowed, byID[id]) {
        var child :| IsChild(byID, child, id) && KeptWithin(byID, allowed, child, n - 1);
        assert Kept(byID, allowed, child);
      }
    }
    if StructurallyVisible(byID, id) {
      if Allows(allowed, byID[id]) {
        assert KeptWithin(byID, allowed, id, 1);
      } else if byID[id].menuType.Directory? &&
                exists child :: IsChild(byID, child, id) && Kept(byID, allowed, child) {
        var child :| IsChild(byID, child, id) && Kept(byID, allowed, child);
        var n: nat :| KeptWithin(byID, allowed, child, n);
        assert KeptWithin(byID, allowed, id, n + 1);
      }
    }
  }

  /** A kept node's directory parent is kept: no kept node is cut off from the
      directory that holds it. */
  lemma KeptParentKept(byID: Index, allowed: set<string>, id: string)
    requires Kept(byID, allowed, id) && HasParent(byID, id) && byID[byID[id].parentID].menuType.Directory?
    ensures Kept(byID, allowed, byID[id].parentID)
  {
    KeptUnfolds(byID, allowed, id);
    VisibleUnfolds(byID, id);
    assert IsChild(byID, id, byID[id].parentID);
    KeptUnfolds(byID, allowed, byID[id].parentID);
  }

  /** Nothing below a hidden, inactive or button node is kept. */
  lemma HiddenBranchDropped(byID: Index, allowed: set<string>, id: string, ancestor: string)
    requires Kept(byID, allowed, id) && Below(byID, id, ancestor)
    ensures ancestor in byID && Displayed(byID[ancestor])
  {
    KeptUnfolds(byID, allowed, id);
    var n: nat :| n > 0 && Climbs(byID, id, ancestor, n);
    VisibleAbove(byID, id, ancestor, n);
    VisibleUnfolds(byID, ancestor);
  }

  lemma {:induction false} VisibleAbove(byID: Index, a: string, b: string, n: nat)
    requires StructurallyVisible(byID, a) && Climbs(byID, a, b, n)
    ensures StructurallyVisible(byID, b)
    decreases n
  {
    if n > 0 {
      VisibleUnfolds(byID, a);
      VisibleAbove(byID, byID[a].parentID, b, n - 1);
    }
  }

  /** The two searches share the index; `Visiting` holds the nodes of the
      recursion now open, `Memo` the answers so far. */
  class Search {
    const byID: Index
    const children: map<string, seq<string>>
    const allowed: set<string>
    var structuralMemo: map<string, bool>
    var structuralVisiting: set<string>
    var permissionMemo: map<string, bool>
    var permissionVisiting: set<string>

    constructor (byID: Index, children: map<string, seq<string>>, allowed: set<string>)
      requires ChildLists(byID, children)
      ensures Valid() && structuralVisiting == {} && permissionVisiting == {}
      ensures this.byID == byID && this.allowed == allowed
    {
      this.byID, this.children, this.allowed := byID, children, allowed;
      structuralMemo, structuralVisiting := map[], {};
      permissionMemo, permissionVisiting := map[], {};
    }

    ghost predicate Valid() reads this {
      && ChildLists(byID, children)
      && structuralVisiting <= byID.Keys && permissionVisiting <= byID.Keys
      && (forall id | id in structuralMemo :: structuralMemo[id] == StructurallyVisible(byID, id))
      && (forall id | id in permissionMemo :: permissionMemo[id] == Kept(byID, allowed, id))
    }

    method IsStructurallyVisible(id: string) returns (visible: bool)
      requires Valid() && AllBelow(byID, structuralVisiting, id)
      modifies this`structuralMemo, this`structuralVisiting
      ensures Valid() && structuralVisiting == old(structuralVisiting)
      ensures visible == StructurallyVisible(byID, id)
      decreases byID.Keys - structuralVisiting
    {
      if id in structuralMemo { return structuralMemo[id]; }
      VisibleUnfolds(byID, id);
      if id !in byID || !Displayed(byID[id]) || id in structuralVisiting {
        if id in structuralVisiting {
          BelowCycleDropped(byID, allowed, id, id);
        }
        structuralMemo := structuralMemo[id := false];
        return false;
      }
      structuralVisiting := structuralVisiting + {id};
      visible := true;
      if HasParent(byID, id) {
        OpenClimbs(byID, structuralVisiting, id);
        visible := IsStructurallyVisible(byID[id].parentID);
      }
      structuralVisiting := structuralVisiting - {id};
      structuralMemo := structuralMemo[id := visible];
    }

    method IsPermitted(id: string) returns (keep: bool)
      requires Valid() && structuralVisiting == {} && AllAbove(byID, permissionVisiting, id)
      modifies this
      ensures Valid() && structuralVisiting == {} && permissionVisiting == old(permissionVisiting)
      ensures keep == Kept(byID, allowed, id)
      decreases byID.Keys - permissionVisiting, 0
    {
      if id in permissionMemo { return permissionMemo[id]; }
      var shown := false;
      if id in byID {
        shown := IsStructurallyVisible(id);
      }
      VisibleUnfolds(byID, id);
      KeptUnfolds(byID, allowed, id);
      if id in permissionVisiting {
        BelowCycleDropped(byID, allowed, id, id);
      }
      if id !in byID || !shown || id in permissionVisiting {
        permissionMemo := permissionMemo[id := false];
        return false;
      }
      permissionVisiting := permissionVisiting + {id};
      keep := Allows(allowed, byID[id]);
      if byID[id].menuType.Directory? && !keep {
        keep := AnyChildPermitted(id);
      }
      permissionVisiting := permissionVisiting - {id};
      permissionMemo := permissionMemo[id := keep];
    }

    /** The loop over the children of an open directory. */
    method AnyChildPermitted(id: string) returns (keep: bool)
      requires Valid() && structuralVisiting == {} && id in byID && id in permissionVisiting
      requires AllAbove(byID, permissionVisiting - {id}, id)
      modifies this
      ensures Valid() && structuralVisiting == {} && permissionVisiting == old(permissionVisiting)
      ensures keep <==> exists child :: IsChild(byID, child, id) && Kept(byID, allowed, child)
      decreases byID.Keys - permissionVisiting, 1
    {
      var list := if id in children then children[id] else [];
      for i := 0 to |list|
        invariant Valid() && structuralVisiting == {} && permissionVisiting == old(permissionVisiting)
        invariant forall child | child in list[..i] :: !Kept(byID, allowed, child)
      {
        var child := list[i];
        assert IsChild(byID, child, id);
        OpenDescends(byID, permissionVisiting, id, child);
        keep := IsPermitted(child);
        if keep { return; }
      }
      keep := false;
    }
  }

  /** Every open node of the structural search climbs to `id`. */
  ghost predicate AllBelow(byID: Index, nodes: set<string>, id: string) {
    forall v | v in nodes :: Below(byID, v, id)
  }

  /** Every open node of the permission search is a proper ancestor of `id`. */
  ghost predicate AllAbove(byID: Index, nodes: set<string>, id: string) {
    forall v | v in nodes :: Below(byID, id, v)
  }

  lemma OpenClimbs(byID: Index, nodes: set<string>, id: string)
    requires HasParent(byID, id) && AllBelow(byID, nodes - {id}, id)
    ensures AllBelow(byID, nodes, byID[id].parentID)
  {
    BelowParent(byID, id);
    forall v | v in nodes && v != id ensures Below(byID, v, byID[id].parentID) {
      BelowTransitive(byID, v, id, byID[id].parentID);
    }
  }

  lemma OpenDescends(byID: Index, nodes: set<string>, id: string, child: string)
    requires id in byID && IsChild(byID, child, id) && AllAbove(byID, nodes - {id}, id)
    ensures AllAbove(byID, nodes, child)
  {
    BelowParent(byID, child);
    forall v | v in nodes && v != id ensures Below(byID, child, v) {
      BelowTransitive(byID, child, id, v);
    }
  }

  /** `children` lists exactly the children of each node. */
  ghost predicate ChildLists(byID: Index, children: map<string, seq<string>>) {
    && (forall id, child | id in children && child in children[id] :: IsChild(byID, child, id))
    && (forall id, child | IsChild(byID, child, id) :: id in children && child in children[id])
  }

  /** The set of trimmed, non-empty codes. */
  method CollectCodes(codes: seq<string>) returns (allowed: set<string>)
    ensures allowed == AllowedCodes(codes)
  {
    allowed := {};
    for i := 0 to |codes|
      invariant allowed == AllowedCodes(codes[..i])
    {
      assert codes[..i + 1] == codes[..i] + [codes[i]];
      var code := Trim(codes[i]);
      if code != "" { allowed := allowed + {code}; }
    }
    assert codes[..|codes|] == codes;
  }

  /** A new menu goes to the end of its parent's list. */
  lemma ChildListsStep(byID: Index, children: map<string, seq<string>>, menu: Menu, after: map<string, seq<string>>)
    requires ChildLists(byID, children) && menu.id !in byID
    requires after == if menu.parentID == "" then children
                      else children[menu.parentID :=
                                      (if menu.parentID in children then children[menu.parentID] else []) + [menu.id]]
    ensures ChildLists(byID[menu.id := menu], after)
  {
    var now := byID[menu.id := menu];
    forall id, child | IsChild(now, child, id) ensures id in after && child in after[id] {
      if child == menu.id {
        assert after[id][|after[id]| - 1] == child;
      } else {
        assert IsChild(byID, child, id);
      }
    }
    forall id, child | id in after && child in after[id] ensures IsChild(now, child, id) {
      if id in children && child in children[id] {
        assert IsChild(byID, child, id);
      }
    }
  }

  /** The ID index and the child lists of a menu list. */
  method BuildIndex(menus: seq<Menu>) returns (byID: Index, children: map<string, seq<string>>)
    requires UniqueIDs(menus)
    ensures Indexes(byID, menus) && ChildLists(byID, children)
  {
    byID, children := map[], map[];
    for i := 0 to |menus|
      invariant Indexes(byID, menus[..i]) && ChildLists(byID, children)
    {
      var menu := menus[i];
      assert menus[..i + 1] == menus[..i] + [menu];
      assert menu.id !in byID;
      ghost var before, lists := byID, children;
      byID := byID[menu.id := menu];
      if menu.parentID != "" {
        var list := if menu.parentID in children then children[menu.parentID] else [];
        children := children[menu.parentID := list + [menu.id]];
      }
      ChildListsStep(before, lists, menu, children);
    }
    assert menus[..|menus|] == menus;
  }

  lemma KeptStep(byID: Index, allowed: set<string>, menus: seq<Menu>, i: nat, before: seq<Menu>, after: seq<Menu>)
    requires i < |menus| && after == before + if Kept(byID, allowed, menus[i].id) then [menus[i]] else []
    ensures after + KeptMenus(byID, allowed, menus[i + 1..]) == before + KeptMenus(byID, allowed, menus[i..])
  {
    assert menus[i..][0] == menus[i] && menus[i..][1..] == menus[i + 1..];
  }

  /** The final loop: each menu's search, in list order. */
  method KeepPermitted(search: Search, menus: seq<Menu>) returns (filtered: seq<Menu>)
    requires search.Valid() && search.structuralVisiting == {} && search.permissionVisiting == {}
    modifies search
    ensures filtered == KeptMenus(search.byID, search.allowed, menus)
  {
    filtered := [];
    for i := 0 to |menus|
      invariant search.Valid() && search.structuralVisiting == {} && search.permissionVisiting == {}
      invariant filtered + KeptMenus(search.byID, search.allowed, menus[i..])
                == KeptMenus(search.byID, search.allowed, menus)
    {
      ghost var before := filtered;
      var keep := search.IsPermitted(menus[i].id);
      if keep { filtered := filtered + [menus[i]]; }
      KeptStep(search.byID, search.allowed, menus, i, before, filtered);
    }
  }

  /* ---------- what is kept, in the menus' own fields ---------- */

  /** A code is given for this permission; white space around either is ignored. */
  predicate Given(codes: seq<string>, permission: string) {
    exists c | c in codes :: Trim(c) != "" && Trim(c) == Trim(permission)
  }

  /** The climb from a menu ends, and every menu on it is active, visible and no button. */
  ghost predicate Open(menus: seq<Menu>, m: Menu) {
    && (exists n :: EndsWithin(IndexOf(menus), m.id, n))
    && forall a | a in menus && (a == m || Below(IndexOf(menus), m.id, a.id)) ::
         a.active && a.visible && !a.menuType.Button?
  }

  /** A page is kept if it stands open and its permission is empty or given; a
      directory if it stands open and its permission is given or one of its
      children is kept. */
  ghost predicate Keeps(menus: seq<Menu>, codes: seq<string>, filtered: seq<Menu>) {
    && (forall m | m in filtered :: m in menus)
    && (forall m | m in menus && !m.menuType.Directory? ::
          m in filtered <==> Open(menus, m) && (Trim(m.permission) == "" || Given(codes, m.permission)))
    && (forall m | m in menus && m.menuType.Directory? ::
          m in filtered <==>
          && Open(menus, m)
          && (Given(codes, m.permission) || exists c | c in filtered :: m.id != "" && c.parentID == m.id))
  }

  lemma {:induction false} OpenAbove(byID: Index, id: string, n: nat)
    requires id in byID && EndsWithin(byID, id, n)
    requires forall a | a in byID && (a == id || Below(byID, id, a)) :: Displayed(byID[a])
    ensures StructurallyVisible(byID, id)
    decreases n
  {
    if HasParent(byID, id) {
      var parent := byID[id].parentID;
      BelowParent(byID, id);
      forall a | a in byID && Below(byID, parent, a) ensures Displayed(byID[a]) {
        BelowTransitive(byID, id, parent, a);
      }
      OpenAbove(byID, parent, n - 1);
    }
    VisibleUnfolds(byID, id);
  }

  /** The recursive definition of visibility says just that. */
  lemma VisibleMeans(menus: seq<Menu>, m: Menu)
    requires UniqueIDs(menus) && m in menus
    ensures StructurallyVisible(IndexOf(menus), m.id) <==> Open(menus, m)
  {
    var byID := IndexOf(menus);
    IndexOfIndexes(menus);
    if StructurallyVisible(byID, m.id) {
      var n: nat :| VisibleWithin(byID, m.id, n);
      VisibleEnds(byID, m.id, n);
      forall a | a in menus && (a == m || Below(byID, m.id, a.id)) ensures Displayed(a) {
        if a == m {
          VisibleUnfolds(byID, m.id);
        } else {
          var k: nat :| k > 0 && Climbs(byID, m.id, a.id, k);
          VisibleAbove(byID, m.id, a.id, k);
          VisibleUnfolds(byID, a.id);
        }
      }
    }
    if Open(menus, m) {
      var n: nat :| EndsWithin(byID, m.id, n);
      forall a | a in byID && (a == m.id || Below(byID, m.id, a)) ensures Displayed(byID[a]) {
        assert byID[a] in menus && byID[a].id == a;
      }
      OpenAbove(byID, m.id, n);
    }
  }

  lemma {:induction false} KeptMembers(byID: Index, allowed: set<string>, menus: seq<Menu>)
    ensures forall m :: m in KeptMenus(byID, allowed, menus) <==> m in menus && Kept(byID, allowed, m.id)
    ensures UniqueIDs(menus) ==> UniqueIDs(KeptMenus(byID, allowed, menus))
    decreases |menus|
  {
    if menus != [] {
      KeptMembers(byID, allowed, menus[1..]);
      assert menus == [menus[0]] + menus[1..];
      if UniqueIDs(menus) {
        forall m | m in menus[1..] ensures m.id != menus[0].id {
          var i :| 0 <= i < |menus| - 1 && menus[1..][i] == m;
          assert menus[i + 1] == m;
        }
      }
    }
  }

  lemma GivenMeans(codes: seq<string>, permission: string)
    ensures Given(codes, permission) <==> Trim(permission) in AllowedCodes(codes)
  {}

  /** What is kept has that meaning. */
  lemma KeptMeans(menus: seq<Menu>, codes: seq<string>)
    requires UniqueIDs(menus)
    ensures Keeps(menus, codes, KeptMenus(IndexOf(menus), AllowedCodes(codes), menus))
  {
    var byID, allowed := IndexOf(menus), AllowedCodes(codes);
    var filtered := KeptMenus(byID, allowed, menus);
    IndexOfIndexes(menus);
    KeptMembers(byID, allowed, menus);
    forall m | m in menus
      ensures m in filtered <==>
              && Open(menus, m)
              && (|| Given(codes, m.permission)
                  || (!m.menuType.Directory? && Trim(m.permission) == "")
                  || (m.menuType.Directory? && exists c | c in filtered :: m.id != "" && c.parentID == m.id))
    {
      KeptUnfolds(byID, allowed, m.id);
      VisibleMeans(menus, m);
      GivenMeans(codes, m.permission);
      if m.menuType.Directory? {
        ChildrenKept(menus, allowed, m);
      }
    }
  }

  lemma ChildrenKept(menus: seq<Menu>, allowed: set<string>, m: Menu)
    requires UniqueIDs(menus)
    ensures var byID := IndexOf(menus);
            (exists child :: IsChild(byID, child, m.id) && Kept(byID, allowed, child)) <==>
            exists c | c in KeptMenus(byID, allowed, menus) :: m.id != "" && c.parentID == m.id
  {
    var byID := IndexOf(menus);
    IndexOfIndexes(menus);
    KeptMembers(byID, allowed, menus);
    if child :| IsChild(byID, child, m.id) && Kept(byID, allowed, child) {
      assert byID[child] in KeptMenus(byID, allowed, menus);
    }
    if c :| c in KeptMenus(byID, allowed, menus) && m.id != "" && c.parentID == m.id {
      assert IsChild(byID, c.id, m.id);
    }
  }

  /** `filterMenusByAccessCodes` keeps exactly the menus the simple recursive
      definition keeps, in order, on every list with unique IDs. */
  method FilterMenusByAccessCodes(menus: seq<Menu>, codes: seq<string>) returns (filtered: seq<Menu>)
    requires UniqueIDs(menus)
    ensures filtered == KeptMenus(IndexOf(menus), AllowedCodes(codes), menus)
    ensures Keeps(menus, codes, filtered)
  {
    KeptMeans(menus, codes);
    var allowed := CollectCodes(codes);
    var byID, children := BuildIndex(menus);
    IndexUnique(menus, byID);
    var search := new Search(byID, children, allowed);
    filtered := KeepPermitted(search, menus);
  }
}
