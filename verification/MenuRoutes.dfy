/** `BuildMenuRoutes` (iam/menu_routes.go): a flat, normalised menu list becomes
    a route forest, unless an ID is duplicated or the parent relation is cyclic. */
module MenuRoutes {
  import opened Common
  import opened MenuTree
  import MenuFilter

  datatype Meta = Meta(
    title: string, icon: string, order: int, keepAlive: bool, link: string,
    openInNewWindow: bool, authority: seq<string>)

  datatype Route = Route(
    name: string, path: string, component: string, redirect: string, meta: Meta, children: seq<Route>)

  /** The menu a displayed menu is nested under; a child of a hidden, missing or
      button parent is promoted to a root. */
  function RouteParent(byID: Index, m: Menu): Option<string> {
    if m.parentID != "" && m.parentID in byID && Displayed(byID[m.parentID]) then Some(m.parentID) else None
  }

  // -- Sibling order ---------------------------------------------------------

  predicate LexLess(a: string, b: string)
    decreases |a|
  {
    b != "" && (a == "" || a[0] < b[0] || (a[0] == b[0] && LexLess(a[1..], b[1..])))
  }

  predicate Before(a: Menu, b: Menu) {
    a.sort < b.sort || (a.sort == b.sort && LexLess(a.id, b.id))
  }

  /** A stable insertion: `m` goes behind everything not after it. */
  function Insert(m: Menu, s: seq<Menu>): (r: seq<Menu>)
    ensures multiset(r) == multiset(s) + multiset{m}
    ensures |r| == |s| + 1
    decreases |s|
  {
    if s == [] || Before(m, s[0]) then [m] + s
    else
      assert s == [s[0]] + s[1..];
      [s[0]] + Insert(m, s[1..])
  }

  /** `orderMenus`: the stable sort by (Sort, ID). */
  function OrderMenus(s: seq<Menu>): (r: seq<Menu>)
    ensures multiset(r) == multiset(s)
    ensures |r| == |s|
    decreases |s|
  {
    if s == [] then []
    else
      assert s == s[..|s| - 1] + [s[|s| - 1]];
      Insert(s[|s| - 1], OrderMenus(s[..|s| - 1]))
  }

  predicate Ordered(s: seq<Menu>) {
    forall i, j | 0 <= i < j < |s| :: !Before(s[j], s[i])
  }

  /** What comparing two IDs byte by byte decides: the first difference, or the length. */
  predicate Precedes(a: string, b: string) {
    || (|a| < |b| && a == b[..|a|])
    || exists k | 0 <= k < |a| && k < |b| :: a[..k] == b[..k] && a[k] < b[k]
  }

  lemma {:induction false} LexMeans(a: string, b: string)
    ensures LexLess(a, b) <==> Precedes(a, b)
    decreases |a|
  {
    if a != "" && b != "" && a[0] == b[0] {
      var c, d := a[1..], b[1..];
      LexMeans(c, d);
      assert a == [a[0]] + c && b == [b[0]] + d;
      if |c| < |d| && c == d[..|c|] {
        assert b[..|a|] == [b[0]] + d[..|c|];
      }
      if k :| 0 <= k < |c| && k < |d| && c[..k] == d[..k] && c[k] < d[k] {
        assert a[..k + 1] == [a[0]] + c[..k] && b[..k + 1] == [b[0]] + d[..k];
        assert a[k + 1] < b[k + 1];
      }
      if |a| < |b| && a == b[..|a|] {
        assert c == a[1..] == b[..|a|][1..] == d[..|c|];
      }
      if k :| 0 <= k < |a| && k < |b| && a[..k] == b[..k] && a[k] < b[k] {
        assert k > 0;
        assert c[..k - 1] == a[..k][1..] == b[..k][1..] == d[..k - 1] && c[k - 1] < d[k - 1];
      }
    }
  }

  lemma {:induction false} LexTotal(a: string, b: string)
    ensures a == b || LexLess(a, b) || LexLess(b, a)
    ensures !(LexLess(a, b) && LexLess(b, a))
    decreases |a|
  {
    if a != "" && b != "" && a[0] == b[0] {
      LexTotal(a[1..], b[1..]);
      assert a == [a[0]] + a[1..] && b == [b[0]] + b[1..];
    }
  }

  lemma {:induction false} LexTransitive(a: string, b: string, c: string)
    requires LexLess(a, b) && LexLess(b, c)
    ensures LexLess(a, c)
    decreases |a|
  {
    if a != "" && a[0] == b[0] && b[0] == c[0] {
      LexTransitive(a[1..], b[1..], c[1..]);
    }
  }

  /** "Not before" is transitive, as the order is total on (Sort, ID). */
  lemma NotBeforeTransitive(a: Menu, b: Menu, c: Menu)
    requires !Before(b, a) && !Before(c, b)
    ensures !Before(c, a)
  {
    LexTotal(a.id, b.id);
    LexTotal(b.id, c.id);
    LexTotal(a.id, c.id);
    if LexLess(a.id, b.id) && LexLess(b.id, c.id) { LexTransitive(a.id, b.id, c.id); }
  }

  lemma NotBothBefore(a: Menu, b: Menu)
    requires Before(a, b)
    ensures !Before(b, a)
  {
    LexTotal(a.id, b.id);
  }

  lemma {:induction false} InsertOrdered(m: Menu, s: seq<Menu>)
    requires Ordered(s)
    ensures Ordered(Insert(m, s))
    decreases |s|
  {
    if s == [] {
    } else if Before(m, s[0]) {
      NotBothBefore(m, s[0]);
      forall j | 0 <= j < |s| ensures !Before(s[j], m) {
        if j > 0 { NotBeforeTransitive(m, s[0], s[j]); }
      }
    } else {
      var rest := Insert(m, s[1..]);
      InsertOrdered(m, s[1..]);
      forall x | x in rest ensures !Before(x, s[0]) {
        assert x in multiset(rest);
        assert x in s[1..] || x == m;
      }
    }
  }

  lemma {:induction false} OrderMenusOrdered(s: seq<Menu>)
    ensures Ordered(OrderMenus(s))
    decreases |s|
  {
    if s != [] {
      OrderMenusOrdered(s[..|s| - 1]);
      InsertOrdered(s[|s| - 1], OrderMenus(s[..|s| - 1]));
    }
  }

  // -- The recursion ---------------------------------------------------------

  type Groups = map<string, seq<Menu>>

  function ChildrenOf(groups: Groups, id: string): seq<Menu> {
    if id in groups then groups[id] else []
  }

  /** The route tree below `id` is at most `h` nodes deep. */
  ghost predicate HeightWithin(groups: Groups, id: string, h: nat)
    decreases h
  {
    h > 0 && forall m | m in ChildrenOf(groups, id) :: HeightWithin(groups, m.id, h - 1)
  }

  function TrimSuffixSlash(s: string): string {
    if s != "" && s[|s| - 1] == '/' then s[..|s| - 1] else s
  }

  function TrimPrefix(s: string, prefix: string): string {
    if prefix <= s then s[|prefix|..] else s
  }

  /** A child's path is made relative only below its parent's own path. */
  function RoutePath(path: string, parentPath: string): string {
    if parentPath != "" && TrimSuffixSlash(parentPath) + "/" <= path then
      var relative := TrimPrefix(TrimPrefix(path, parentPath), "/");
      if relative == "" then path else relative
    else path
  }

  /** The inner `build`; `h` only bounds its depth. */
  function Build(groups: Groups, m: Menu, parentPath: string, ghost h: nat): Route
    requires HeightWithin(groups, m.id, h)
    decreases h, 1
  {
    Route(
      m.id, RoutePath(m.path, parentPath),
      if m.menuType.Directory? && m.component == "" then "BasicLayout" else m.component,
      m.redirect,
      Meta(m.name, m.icon, m.sort, m.keepAlive, if m.external then m.redirect else "", m.external,
           if m.permission == "" then [] else [m.permission]),
      BuildAll(groups, ChildrenOf(groups, m.id), m.path, h - 1))
  }

  function BuildAll(groups: Groups, list: seq<Menu>, parentPath: string, ghost h: nat): (routes: seq<Route>)
    requires forall m | m in list :: HeightWithin(groups, m.id, h)
    ensures |routes| == |list|
    decreases h, 2, |list|
  {
    if list == [] then []
    else [Build(groups, list[0], parentPath, h)] + BuildAll(groups, list[1..], parentPath, h)
  }

  /** How often a name occurs in a forest. */
  function Occurrences(routes: seq<Route>, name: string): nat {
    if routes == [] then 0
    else (if routes[0].name == name then 1 else 0)
         + Occurrences(routes[0].children, name) + Occurrences(routes[1..], name)
  }

  function CountID(list: seq<Menu>, id: string): nat {
    if list == [] then 0 else (if list[0].id == id then 1 else 0) + CountID(list[1..], id)
  }

  lemma CountZero(list: seq<Menu>, id: string)
    requires forall m | m in list :: m.id != id
    ensures CountID(list, id) == 0
  {}

  /** Every sibling list is ordered by (Order, Name). */
  predicate OrderedForest(routes: seq<Route>) {
    && (forall i, j | 0 <= i < j < |routes| ::
          !(routes[j].meta.order < routes[i].meta.order
            || (routes[j].meta.order == routes[i].meta.order && Precedes(routes[j].name, routes[i].name))))
    && forall r | r in routes :: OrderedForest(r.children)
  }

  /** The children lists hold `id` once under its route parent and nowhere else. */
  ghost predicate NestedOnce(byID: Index, groups: Groups, id: string)
    requires id in byID
  {
    forall p :: CountID(ChildrenOf(groups, p), id) == if RouteParent(byID, byID[id]) == Some(p) then 1 else 0
  }

  lemma {:induction false} BuildAllUnfolds(groups: Groups, list: seq<Menu>, path: string, h: nat, name: string)
    requires list != [] && forall m | m in list :: HeightWithin(groups, m.id, h)
    ensures Occurrences(BuildAll(groups, list, path, h), name) ==
            (if list[0].id == name then 1 else 0)
            + Occurrences(BuildAll(groups, ChildrenOf(groups, list[0].id), list[0].path, h - 1), name)
            + Occurrences(BuildAll(groups, list[1..], path, h), name)
  {
    var routes := BuildAll(groups, list, path, h);
    assert routes[0] == Build(groups, list[0], path, h);
    assert routes[1..] == BuildAll(groups, list[1..], path, h);
  }

  /** Wherever its route parent occurs in a forest, a menu occurs once beneath
      it, and nowhere else but in the top list. */
  lemma {:induction false} NestedOccurrences(
    byID: Index, groups: Groups, list: seq<Menu>, path: string, h: nat, id: string)
    requires forall m | m in list :: HeightWithin(groups, m.id, h)
    requires id in byID && NestedOnce(byID, groups, id)
    ensures Occurrences(BuildAll(groups, list, path, h), id) == CountID(list, id) +
            match RouteParent(byID, byID[id])
            case None => 0
            case Some(p) => Occurrences(BuildAll(groups, list, path, h), p)
    decreases h, |list|
  {
    if list != [] {
      var m := list[0];
      NestedOccurrences(byID, groups, list[1..], path, h, id);
      NestedOccurrences(byID, groups, ChildrenOf(groups, m.id), m.path, h - 1, id);
      BuildAllUnfolds(groups, list, path, h, id);
      if RouteParent(byID, byID[id]).Some? {
        BuildAllUnfolds(groups, list, path, h, byID[id].parentID);
      }
    }
  }

  /** The grouping of a list: displayed menus by route parent, the rest as roots. */
  ghost predicate Grouped(byID: Index, groups: Groups, roots: seq<Menu>) {
    && (forall id | id in byID && Displayed(byID[id]) ::
          NestedOnce(byID, groups, id)
          && CountID(roots, id) == if RouteParent(byID, byID[id]).None? then 1 else 0)
    && (forall p, m | m in ChildrenOf(groups, p) ::
          m.id in byID && byID[m.id] == m && Displayed(m) && RouteParent(byID, m) == Some(p))
    && (forall m | m in roots :: m.id in byID && byID[m.id] == m && Displayed(m) && RouteParent(byID, m).None?)
  }

  /** Every displayed menu occurs exactly once in the forest. */
  lemma {:induction false} DisplayedOnce(
    byID: Index, groups: Groups, roots: seq<Menu>, h: nat, id: string, n: nat)
    requires Grouped(byID, groups, roots) && forall m | m in roots :: HeightWithin(groups, m.id, h)
    requires id in byID && Displayed(byID[id]) && EndsWithin(byID, id, n)
    ensures Occurrences(BuildAll(groups, roots, "", h), id) == 1
    decreases n
  {
    NestedOccurrences(byID, groups, roots, "", h, id);
    if RouteParent(byID, byID[id]).Some? {
      DisplayedOnce(byID, groups, roots, h, byID[id].parentID, n - 1);
    }
  }

  lemma {:induction false} AbsentNever(groups: Groups, list: seq<Menu>, path: string, h: nat, id: string)
    requires forall m | m in list :: HeightWithin(groups, m.id, h)
    requires CountID(list, id) == 0 && forall p :: CountID(ChildrenOf(groups, p), id) == 0
    ensures Occurrences(BuildAll(groups, list, path, h), id) == 0
    decreases h, |list|
  {
    if list != [] {
      AbsentNever(groups, list[1..], path, h, id);
      AbsentNever(groups, ChildrenOf(groups, list[0].id), list[0].path, h - 1, id);
      BuildAllUnfolds(groups, list, path, h, id);
    }
  }

  lemma HiddenNotGrouped(byID: Index, groups: Groups, roots: seq<Menu>, id: string)
    requires Grouped(byID, groups, roots) && !(id in byID && Displayed(byID[id]))
    ensures CountID(roots, id) == 0 && forall p :: CountID(ChildrenOf(groups, p), id) == 0
  {
    CountZero(roots, id);
    forall p ensures CountID(ChildrenOf(groups, p), id) == 0 {
      CountZero(ChildrenOf(groups, p), id);
    }
  }

  /** A hidden menu, a button or an unknown name does not occur at all. */
  lemma HiddenNever(byID: Index, groups: Groups, roots: seq<Menu>, h: nat, id: string)
    requires Grouped(byID, groups, roots) && forall m | m in roots :: HeightWithin(groups, m.id, h)
    requires !(id in byID && Displayed(byID[id]))
    ensures Occurrences(BuildAll(groups, roots, "", h), id) == 0
  {
    HiddenNotGrouped(byID, groups, roots, id);
    AbsentNever(groups, roots, "", h, id);
  }

  lemma {:induction false} ForestOrdered(groups: Groups, list: seq<Menu>, path: string, h: nat)
    requires Ordered(list) && forall p :: Ordered(ChildrenOf(groups, p))
    requires forall m | m in list :: HeightWithin(groups, m.id, h)
    ensures OrderedForest(BuildAll(groups, list, path, h))
    decreases h
  {
    BuildAllAt(groups, list, path, h);
    forall i, j | 0 <= i < j < |list| ensures LexLess(list[j].id, list[i].id) <==> Precedes(list[j].id, list[i].id) {
      LexMeans(list[j].id, list[i].id);
    }
    forall i | 0 <= i < |list| ensures OrderedForest(BuildAll(groups, list, path, h)[i].children) {
      ForestOrdered(groups, ChildrenOf(groups, list[i].id), list[i].path, h - 1);
    }
  }

  lemma {:induction false} BuildAllAt(groups: Groups, list: seq<Menu>, path: string, h: nat)
    requires forall m | m in list :: HeightWithin(groups, m.id, h)
    ensures forall i | 0 <= i < |list| ::
              var r := BuildAll(groups, list, path, h)[i];
              && r == Build(groups, list[i], path, h) && r.name == list[i].id && r.meta.order == list[i].sort
                 && r.path == RoutePath(list[i].path, path)
              && h > 0 && r.children == BuildAll(groups, ChildrenOf(groups, list[i].id), list[i].path, h - 1)
    decreases |list|
  {
    if list != [] {
      BuildAllAt(groups, list[1..], path, h);
      var routes := BuildAll(groups, list, path, h);
      forall i | 0 < i < |list| ensures routes[i] == BuildAll(groups, list[1..], path, h)[i - 1] {}
    }
  }

  // -- The index, the cycle check and the grouping ---------------------------

  /** The displayed menus of a list that belong under `p`, in list order. */
  function Group(byID: Index, menus: seq<Menu>, p: Option<string>): seq<Menu> {
    if menus == [] then []
    else
      var m := menus[|menus| - 1];
      Group(byID, menus[..|menus| - 1], p)
      + if Displayed(m) && RouteParent(byID, m) == p then [m] else []
  }

  lemma {:induction false} CountAppend(list: seq<Menu>, m: Menu, id: string)
    ensures CountID(list + [m], id) == CountID(list, id) + if m.id == id then 1 else 0
  {
    if list != [] {
      assert (list + [m])[1..] == list[1..] + [m];
      CountAppend(list[1..], m, id);
    }
  }

  lemma {:induction false} GroupMembers(byID: Index, menus: seq<Menu>, p: Option<string>)
    ensures forall m :: m in Group(byID, menus, p) <==> m in menus && Displayed(m) && RouteParent(byID, m) == p
  {
    if menus != [] {
      assert menus == menus[..|menus| - 1] + [menus[|menus| - 1]];
      GroupMembers(byID, menus[..|menus| - 1], p);
    }
  }

  lemma {:induction false} GroupCount(byID: Index, menus: seq<Menu>, p: Option<string>, m: Menu)
    requires UniqueIDs(menus) && m in menus
    ensures CountID(Group(byID, menus, p), m.id) == if Displayed(m) && RouteParent(byID, m) == p then 1 else 0
  {
    var front, last := menus[..|menus| - 1], menus[|menus| - 1];
    assert menus == front + [last];
    GroupMembers(byID, front, p);
    if m == last {
      CountZero(Group(byID, front, p), m.id);
    } else {
      GroupCount(byID, front, p, m);
    }
    CountAppend(Group(byID, front, p), last, m.id);
    assert Group(byID, front, p) + [] == Group(byID, front, p);
  }

  lemma {:induction false} InsertCount(m: Menu, s: seq<Menu>, id: string)
    ensures CountID(Insert(m, s), id) == CountID(s, id) + if m.id == id then 1 else 0
    decreases |s|
  {
    if s != [] && !Before(m, s[0]) { InsertCount(m, s[1..], id); }
  }

  lemma {:induction false} OrderCount(s: seq<Menu>, id: string)
    ensures CountID(OrderMenus(s), id) == CountID(s, id)
    decreases |s|
  {
    if s != [] {
      var front, last := s[..|s| - 1], s[|s| - 1];
      assert s == front + [last];
      OrderCount(front, id);
      InsertCount(last, OrderMenus(front), id);
      CountAppend(front, last, id);
    }
  }

  /** The groups and roots `BuildMenuRoutes` builds from, sorted. */
  ghost predicate SortedGroups(byID: Index, menus: seq<Menu>, groups: Groups, roots: seq<Menu>) {
    && roots == OrderMenus(Group(byID, menus, None))
    && forall p :: ChildrenOf(groups, p) == OrderMenus(Group(byID, menus, Some(p)))
  }

  lemma OrderMembers(s: seq<Menu>)
    ensures forall m :: m in OrderMenus(s) <==> m in s
  {
    forall m ensures m in OrderMenus(s) <==> m in s {
      assert m in multiset(OrderMenus(s)) <==> m in multiset(s);
    }
  }

  lemma SortedGroupsAreGrouped(byID: Index, menus: seq<Menu>, groups: Groups, roots: seq<Menu>)
    requires UniqueIDs(menus) && Indexes(byID, menus) && SortedGroups(byID, menus, groups, roots)
    ensures Grouped(byID, groups, roots)
    ensures Ordered(roots) && forall p :: Ordered(ChildrenOf(groups, p))
  {
    OrderMenusOrdered(Group(byID, menus, None));
    OrderMembers(Group(byID, menus, None));
    GroupMembers(byID, menus, None);
    forall p ensures Ordered(ChildrenOf(groups, p))
      ensures forall m | m in ChildrenOf(groups, p) :: m in menus && Displayed(m) && RouteParent(byID, m) == Some(p)
    {
      OrderMenusOrdered(Group(byID, menus, Some(p)));
      OrderMembers(Group(byID, menus, Some(p)));
      GroupMembers(byID, menus, Some(p));
    }
    forall id | id in byID && Displayed(byID[id])
      ensures NestedOnce(byID, groups, id)
      ensures CountID(roots, id) == if RouteParent(byID, byID[id]).None? then 1 else 0
    {
      OrderCount(Group(byID, menus, None), id);
      GroupCount(byID, menus, None, byID[id]);
      forall p ensures CountID(ChildrenOf(groups, p), id) == if RouteParent(byID, byID[id]) == Some(p) then 1 else 0 {
        OrderCount(Group(byID, menus, Some(p)), id);
        GroupCount(byID, menus, Some(p), byID[id]);
      }
    }
  }

  /** The groups hold menus under their route parents only. */
  ghost predicate Nested(byID: Index, groups: Groups) {
    forall q, m | m in ChildrenOf(groups, q) ::
      m.id in byID && byID[m.id] == m && RouteParent(byID, m) == Some(q)
  }

  /** An acyclic parent relation bounds the depth of the recursion. */
  lemma {:induction false} HeightBound(byID: Index, groups: Groups, id: string, top: string, k: nat, n: nat)
    requires Nested(byID, groups)
    requires forall x | x in byID :: EndsWithin(byID, x, n)
    requires id in byID && Climbs(byID, id, top, k)
    ensures k < n && HeightWithin(groups, id, n - k)
    decreases n - k
  {
    EndsAbove(byID, id, top, n, k);
    forall m | m in ChildrenOf(groups, id) ensures HeightWithin(groups, m.id, n - k - 1) {
      assert HasParent(byID, m.id) && byID[m.id].parentID == id;
      assert Climbs(byID, m.id, top, k + 1);
      EndsAbove(byID, m.id, top, n, k + 1);
      HeightBound(byID, groups, m.id, top, k + 1, n);
    }
  }

  /** The path of a route: the menu's own, unless that lies below the parent's;
      then what follows the parent's path and a slash, if there is anything. */
  predicate Relative(path: string, full: string, parentPath: string) {
    var slashed := parentPath != "" && parentPath[|parentPath| - 1] == '/';
    var base := if slashed then parentPath else parentPath + "/";
    if parentPath == "" || !(base <= full) || full == base || (slashed && full == base + "/") then path == full
    else if slashed && base + "/" <= full then full == base + "/" + path
    else full == base + path
  }

  /** A route shows its menu's fields. */
  predicate Mirrors(r: Route, m: Menu, parentPath: string) {
    && r.name == m.id && Relative(r.path, m.path, parentPath) && r.redirect == m.redirect
    && (m.menuType.Directory? && m.component == "" ==> r.component == "BasicLayout")
    && (!m.menuType.Directory? || m.component != "" ==> r.component == m.component)
    && r.meta.title == m.name && r.meta.icon == m.icon && r.meta.order == m.sort
    && r.meta.keepAlive == m.keepAlive && r.meta.openInNewWindow == m.external
    && (m.external ==> r.meta.link == m.redirect) && (!m.external ==> r.meta.link == "")
    && (m.permission == "" ==> r.meta.authority == [])
    && (m.permission != "" ==> r.meta.authority == [m.permission])
  }

  /** The menu stands below `p` if that is its parent and shown, and on top if
      it has no parent that is shown. */
  predicate Under(byID: Index, m: Menu, p: Option<string>) {
    match p
    case Some(q) =>
      && q == m.parentID != "" && q in byID
      && byID[q].active && byID[q].visible && !byID[q].menuType.Button?
    case None =>
      m.parentID != "" && m.parentID in byID ==>
        var parent := byID[m.parentID];
        !parent.active || !parent.visible || parent.menuType.Button?
  }

  /** Every route shows its menu, under the route of its parent, with a path
      relative to that parent's path alone. */
  predicate Placed(routes: seq<Route>, byID: Index, p: Option<string>, parentPath: string) {
    forall r | r in routes ::
      && r.name in byID && Under(byID, byID[r.name], p) && Mirrors(r, byID[r.name], parentPath)
      && Placed(r.children, byID, Some(r.name), byID[r.name].path)
  }

  lemma PathIsRelative(full: string, parentPath: string)
    ensures Relative(RoutePath(full, parentPath), full, parentPath)
  {
    if parentPath != "" && TrimSuffixSlash(parentPath) + "/" <= full {
      var slashed := parentPath[|parentPath| - 1] == '/';
      var base := if slashed then parentPath else parentPath + "/";
      assert TrimSuffixSlash(parentPath) + "/" == base;
      assert full == base + full[|base|..];
      if !slashed {
        assert full[|parentPath|..] == "/" + full[|base|..];
      } else if base + "/" <= full {
        assert full == base + "/" + full[|base| + 1..];
        assert full[|base|..] == "/" + full[|base| + 1..];
      }
    }
  }

  lemma BuildMirrors(groups: Groups, m: Menu, parentPath: string, h: nat)
    requires HeightWithin(groups, m.id, h)
    ensures Mirrors(Build(groups, m, parentPath, h), m, parentPath)
  {
    PathIsRelative(m.path, parentPath);
  }

  lemma {:induction false} ForestPlaced(
    byID: Index, groups: Groups, list: seq<Menu>, p: Option<string>, path: string, h: nat)
    requires forall m | m in list :: HeightWithin(groups, m.id, h)
    requires forall m | m in list :: m.id in byID && byID[m.id] == m && RouteParent(byID, m) == p
    requires Nested(byID, groups)
    ensures Placed(BuildAll(groups, list, path, h), byID, p, path)
    decreases h
  {
    BuildAllAt(groups, list, path, h);
    forall i | 0 <= i < |list|
      ensures Mirrors(BuildAll(groups, list, path, h)[i], list[i], path) && Under(byID, list[i], p)
      ensures Placed(BuildAll(groups, list, path, h)[i].children, byID, Some(list[i].id), list[i].path)
    {
      BuildMirrors(groups, list[i], path, h);
      ForestPlaced(byID, groups, ChildrenOf(groups, list[i].id), Some(list[i].id), list[i].path, h - 1);
    }
  }

  predicate Shown(m: Menu) { m.active && m.visible && m.menuType in {Directory, Page} }

  /** The forest `routes` projects `menus`: each displayed menu once and in its
      place, nothing else, siblings in order. */
  ghost predicate Projects(routes: seq<Route>, byID: Index) {
    && (forall name :: Occurrences(routes, name) == if name in byID && Shown(byID[name]) then 1 else 0)
    && OrderedForest(routes) && Placed(routes, byID, None, "")
  }

  lemma ForestCounts(byID: Index, groups: Groups, roots: seq<Menu>, bound: nat)
    requires Grouped(byID, groups, roots) && forall m | m in roots :: HeightWithin(groups, m.id, bound)
    requires forall id | id in byID :: EndsWithin(byID, id, bound)
    ensures forall name :: Occurrences(BuildAll(groups, roots, "", bound), name)
                           == if name in byID && Displayed(byID[name]) then 1 else 0
  {
    forall name
      ensures Occurrences(BuildAll(groups, roots, "", bound), name)
              == if name in byID && Displayed(byID[name]) then 1 else 0
    {
      if name in byID && Displayed(byID[name]) {
        DisplayedOnce(byID, groups, roots, bound, name, bound);
      } else {
        HiddenNever(byID, groups, roots, bound, name);
      }
    }
  }

  lemma RootHeights(byID: Index, groups: Groups, roots: seq<Menu>, bound: nat)
    requires Grouped(byID, groups, roots) && forall id | id in byID :: EndsWithin(byID, id, bound)
    ensures Nested(byID, groups) && forall m | m in roots :: HeightWithin(groups, m.id, bound)
  {
    assert Nested(byID, groups);
    forall m | m in roots ensures HeightWithin(groups, m.id, bound) {
      HeightBound(byID, groups, m.id, m.id, 0, bound);
    }
  }

  /** Everything the grouping and an acyclic index imply about the forest. */
  lemma ForestProjects(byID: Index, menus: seq<Menu>, groups: Groups, roots: seq<Menu>, bound: nat)
    requires UniqueIDs(menus) && Indexes(byID, menus) && SortedGroups(byID, menus, groups, roots)
    requires forall id | id in byID :: EndsWithin(byID, id, bound)
    ensures forall m | m in roots :: HeightWithin(groups, m.id, bound)
    ensures Projects(BuildAll(groups, roots, "", bound), byID)
  {
    SortedGroupsAreGrouped(byID, menus, groups, roots);
    RootHeights(byID, groups, roots, bound);
    ForestCounts(byID, groups, roots, bound);
    ForestOrdered(groups, roots, "", bound);
    ForestPlaced(byID, groups, roots, None, "", bound);
  }

  /** One walk of the cycle check, up from `id`. */
  method ClimbDetectsCycle(byID: Index, id: string) returns (cycle: bool, ghost length: nat)
    requires id in byID
    ensures cycle ==> Cyclic(byID)
    ensures !cycle ==> EndsWithin(byID, id, length)
  {
    var seen := {id};
    var parent := byID[id].parentID;
    ghost var current := id;
    length := 0;
    while parent != ""
      invariant current in byID && parent == byID[current].parentID
      invariant Climbs(byID, id, current, length)
      invariant current in seen && seen <= byID.Keys
      invariant forall x | x in seen :: x == current || Below(byID, x, current)
      decreases byID.Keys - seen
    {
      if parent in seen {
        BelowParent(byID, current);
        if parent != current { BelowTransitive(byID, parent, current, parent); }
        return true, length;
      }
      if parent !in byID { break; }
      seen := seen + {parent};
      BelowParent(byID, current);
      forall x | x in seen && x != parent && x != current ensures Below(byID, x, parent) {
        BelowTransitive(byID, x, current, parent);
      }
      assert Climbs(byID, current, parent, 1);
      ClimbsCompose(byID, id, current, parent, length, 1);
      current, length := parent, length + 1;
      parent := byID[parent].parentID;
    }
    EndsBelow(byID, id, current, length);
    return false, length + 1;
  }

  lemma {:induction false} EndsBelow(byID: Index, a: string, b: string, n: nat)
    requires Climbs(byID, a, b, n) && !HasParent(byID, b)
    ensures EndsWithin(byID, a, n + 1)
    decreases n
  {
    if n > 0 { EndsBelow(byID, byID[a].parentID, b, n - 1); }
  }

  lemma {:induction false} IndexKeys(menus: seq<Menu>, n: nat, id: string)
    requires n <= |menus|
    ensures id in IndexOf(menus[..n]) <==> exists j | 0 <= j < n :: menus[j].id == id
    decreases n
  {
    if n > 0 {
      assert menus[..n][..n - 1] == menus[..n - 1];
      IndexKeys(menus, n - 1, id);
    }
  }

  /** The first loop: the index, or the discovery of a duplicate. */
  method IndexMenus(menus: seq<Menu>) returns (byID: Index, duplicate: bool)
    ensures duplicate <==> !UniqueIDs(menus)
    ensures !duplicate ==> byID == IndexOf(menus)
  {
    byID := map[];
    for i := 0 to |menus|
      invariant byID == IndexOf(menus[..i])
      invariant forall j, k | 0 <= j < k < i :: menus[j].id != menus[k].id
    {
      IndexKeys(menus, i, menus[i].id);
      if menus[i].id in byID { return byID, true; }
      assert menus[..i + 1][..i] == menus[..i];
      byID := byID[menus[i].id := menus[i]];
    }
    assert menus[..|menus|] == menus;
    duplicate := false;
  }

  /** The second loop: does any climb run into a cycle? */
  method AnyCycle(menus: seq<Menu>, byID: Index) returns (cycle: bool, ghost bound: nat)
    requires Indexes(byID, menus)
    ensures cycle <==> Cyclic(byID)
    ensures !cycle ==> forall id | id in byID :: EndsWithin(byID, id, bound)
  {
    bound := 1;
    for i := 0 to |menus|
      invariant forall j | 0 <= j < i :: EndsWithin(byID, menus[j].id, bound)
    {
      ghost var length;
      cycle, length := ClimbDetectsCycle(byID, menus[i].id);
      if cycle { return; }
      ghost var larger := if length > bound then length else bound;
      forall j | 0 <= j <= i ensures EndsWithin(byID, menus[j].id, larger) {
        EndsMonotone(byID, menus[j].id, if j < i then bound else length, larger);
      }
      bound := larger;
    }
    cycle := false;
    if Cyclic(byID) {
      var id :| Below(byID, id, id);
      var k: nat :| k > 0 && Climbs(byID, id, id, k);
      CycleNeverEnds(byID, id, bound, k);
    }
  }

  lemma GroupStep(byID: Index, menus: seq<Menu>, i: nat, p: Option<string>)
    requires i < |menus|
    ensures Group(byID, menus[..i + 1], p) == Group(byID, menus[..i], p)
            + if Displayed(menus[i]) && RouteParent(byID, menus[i]) == p then [menus[i]] else []
  {
    assert menus[..i + 1][..i] == menus[..i];
  }

  /** The third loop: roots and child groups. */
  method GroupMenus(menus: seq<Menu>, byID: Index) returns (groups: Groups, roots: seq<Menu>)
    ensures roots == Group(byID, menus, None)
    ensures forall p :: ChildrenOf(groups, p) == Group(byID, menus, Some(p))
  {
    groups, roots := map[], [];
    for i := 0 to |menus|
      invariant roots == Group(byID, menus[..i], None)
      invariant forall p :: ChildrenOf(groups, p) == Group(byID, menus[..i], Some(p))
    {
      var menu := menus[i];
      GroupStep(byID, menus, i, None);
      ghost var before := groups;
      if Displayed(menu) {
        var parent := RouteParent(byID, menu);
        if parent.Some? {
          groups := groups[parent.value := ChildrenOf(groups, parent.value) + [menu]];
        } else {
          roots := roots + [menu];
        }
      }
      forall p ensures ChildrenOf(groups, p) == Group(byID, menus[..i + 1], Some(p)) {
        GroupStep(byID, menus, i, Some(p));
        assert ChildrenOf(before, p) == Group(byID, menus[..i], Some(p));
      }
    }
    assert menus[..|menus|] == menus;
  }

  /** `BuildMenuRoutes` fails exactly on a duplicate ID or a parent cycle;
      otherwise its recursion ends and the forest projects the list. */
  method BuildMenuRoutes(menus: seq<Menu>) returns (routes: Option<seq<Route>>)
    ensures routes.None? <==> !UniqueIDs(menus) || Cyclic(IndexOf(menus))
    ensures routes.Some? ==> Projects(routes.value, IndexOf(menus))
  {
    var byID, duplicate := IndexMenus(menus);
    if duplicate { return None; }
    IndexOfIndexes(menus);
    var cycle, bound := AnyCycle(menus, byID);
    if cycle { return None; }
    var groups, roots := GroupMenus(menus, byID);
    roots := OrderMenus(roots);
    groups := map p | p in groups :: OrderMenus(groups[p]);
    assert forall p :: ChildrenOf(groups, p) == OrderMenus(Group(byID, menus, Some(p)));
    ForestProjects(byID, menus, groups, roots, bound);
    return Some(BuildAll(groups, roots, "", bound));
  }

  /** No shown menu has a hidden ancestor, as the comment above `BuildMenuRoutes` has it. */
  ghost predicate HiddenBranchesGone(routes: seq<Route>, byID: Index) {
    forall name, a | Occurrences(routes, name) > 0 && Below(byID, name, a) :: a in byID && Displayed(byID[a])
  }

  /** That holds exactly when every displayed menu's existing parent is displayed. */
  lemma HiddenBranchesGoneExactly(routes: seq<Route>, byID: Index)
    requires Projects(routes, byID)
    ensures HiddenBranchesGone(routes, byID) <==>
            forall id | HasParent(byID, id) && Displayed(byID[id]) :: Displayed(byID[byID[id].parentID])
  {
    if HiddenBranchesGone(routes, byID) {
      forall id | HasParent(byID, id) && Displayed(byID[id]) ensures Displayed(byID[byID[id].parentID]) {
        BelowParent(byID, id);
        assert Occurrences(routes, id) > 0;
      }
    }
    if forall id | HasParent(byID, id) && Displayed(byID[id]) :: Displayed(byID[byID[id].parentID]) {
      forall name, a | Occurrences(routes, name) > 0 && Below(byID, name, a) ensures a in byID && Displayed(byID[a]) {
        var n: nat :| n > 0 && Climbs(byID, name, a, n);
        DisplayedAbove(byID, name, a, n);
      }
    }
  }

  lemma {:induction false} DisplayedAbove(byID: Index, id: string, a: string, n: nat)
    requires forall x | HasParent(byID, x) && Displayed(byID[x]) :: Displayed(byID[byID[x].parentID])
    requires id in byID && Displayed(byID[id]) && Climbs(byID, id, a, n)
    ensures a in byID && Displayed(byID[a])
    decreases n
  {
    if n > 0 { DisplayedAbove(byID, byID[id].parentID, a, n - 1); }
  }

  const HIDDEN := Menu("hidden", "", "Hidden", "/h", Directory, "", "", "", "", 0, false, true, false, false)
  const CHILD := Menu("child", "hidden", "Child", "/h/c", Page, "c", "", "", "", 0, true, true, false, false)

  /** A list on which it fails: its routes, which exist, show the visible child
      of a hidden directory, as a root. */
  lemma PromotedChild()
    ensures UniqueIDs([HIDDEN, CHILD]) && !Cyclic(IndexOf([HIDDEN, CHILD]))
    ensures var byID := IndexOf([HIDDEN, CHILD]);
            && Below(byID, CHILD.id, HIDDEN.id) && !Displayed(byID[HIDDEN.id]) && RouteParent(byID, CHILD).None?
            && forall routes | Projects(routes, byID) ::
                 && Occurrences(routes, CHILD.id) == 1 && Occurrences(routes, HIDDEN.id) == 0
                 && !HiddenBranchesGone(routes, byID)
  {
    var menus := [HIDDEN, CHILD];
    IndexOfIndexes(menus);
    var byID := IndexOf(menus);
    assert menus[0] in menus && menus[1] in menus;
    BelowParent(byID, CHILD.id);
    assert EndsWithin(byID, HIDDEN.id, 1) && EndsWithin(byID, CHILD.id, 2);
    if Cyclic(byID) {
      var id :| Below(byID, id, id);
      var n: nat :| n > 0 && Climbs(byID, id, id, n);
      CycleNeverEnds(byID, id, if id == HIDDEN.id then 1 else 2, n);
    }
  }

  /** The composition `ListMenuRoutesForSubject` runs: what the filter keeps is
      never rejected, whatever cycles the stored list contains. */
  method FilteredRoutes(menus: seq<Menu>, codes: seq<string>) returns (routes: seq<Route>)
    requires UniqueIDs(menus)
    ensures Projects(routes, IndexOf(MenuFilter.KeptMenus(IndexOf(menus), MenuFilter.AllowedCodes(codes), menus)))
  {
    var filtered := MenuFilter.FilterMenusByAccessCodes(menus, codes);
    IndexOfIndexes(menus);
    KeptAcyclic(IndexOf(menus), MenuFilter.AllowedCodes(codes), menus);
    var built := BuildMenuRoutes(filtered);
    routes := built.value;
  }

  /** Kept menus have unique IDs and no parent cycle among them. */
  lemma KeptAcyclic(byID: Index, allowed: set<string>, menus: seq<Menu>)
    requires UniqueIDs(menus) && Indexes(byID, menus)
    ensures UniqueIDs(MenuFilter.KeptMenus(byID, allowed, menus))
    ensures !Cyclic(IndexOf(MenuFilter.KeptMenus(byID, allowed, menus)))
  {
    var kept := MenuFilter.KeptMenus(byID, allowed, menus);
    MenuFilter.KeptMembers(byID, allowed, menus);
    IndexOfIndexes(kept);
    var index := IndexOf(kept);
    if Cyclic(index) {
      var id :| Below(index, id, id);
      var n: nat :| n > 0 && Climbs(index, id, id, n);
      SubIndexClimbs(index, byID, id, id, n);
      assert Below(byID, id, id);
      MenuFilter.BelowCycleDropped(byID, allowed, id, id);
    }
  }

  lemma {:induction false} SubIndexClimbs(small: Index, large: Index, a: string, b: string, n: nat)
    requires forall id | id in small :: id in large && large[id] == small[id]
    requires Climbs(small, a, b, n)
    ensures Climbs(large, a, b, n)
    decreases n
  {
    if n > 0 { SubIndexClimbs(small, large, small[a].parentID, b, n - 1); }
  }
}
