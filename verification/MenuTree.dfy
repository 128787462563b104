/** Menus and their parent relation, which may dangle and may be cyclic. */
module MenuTree {
  import opened Common

  datatype MenuType = Directory | Page | Button

  datatype Menu = Menu(
    id: string, parentID: string, name: string, path: string, menuType: MenuType,
    component: string, redirect: string, icon: string, permission: string, sort: int,
    visible: bool, active: bool, keepAlive: bool, external: bool)

  type Index = map<string, Menu>

  /** Shown to a user: an active, visible menu that is no button. */
  predicate Displayed(m: Menu) { m.active && m.visible && !m.menuType.Button? }

  predicate UniqueIDs(menus: seq<Menu>) {
    forall i, j | 0 <= i < j < |menus| :: menus[i].id != menus[j].id
  }

  /** `byID` is the index of `menus`. */
  ghost predicate Indexes(byID: Index, menus: seq<Menu>) {
    && (forall m | m in menus :: m.id in byID && byID[m.id] == m)
    && (forall id | id in byID :: byID[id] in menus && byID[id].id == id)
  }

  /** The index a loop over a list builds. */
  function IndexOf(menus: seq<Menu>): Index {
    if menus == [] then map[]
    else IndexOf(menus[..|menus| - 1])[menus[|menus| - 1].id := menus[|menus| - 1]]
  }

  lemma {:induction false} IndexOfIndexes(menus: seq<Menu>)
    requires UniqueIDs(menus)
    ensures Indexes(IndexOf(menus), menus)
  {
    if menus != [] {
      var front, last := menus[..|menus| - 1], menus[|menus| - 1];
      assert menus == front + [last];
      IndexOfIndexes(front);
    }
  }

  /** A list with unique IDs has only one index. */
  lemma IndexUnique(menus: seq<Menu>, byID: Index)
    requires UniqueIDs(menus) && Indexes(byID, menus)
    ensures byID == IndexOf(menus)
  {
    IndexOfIndexes(menus);
    forall id ensures id in byID <==> id in IndexOf(menus) {}
    assert forall id | id in byID :: byID[id] == IndexOf(menus)[byID[id].id];
  }

  predicate HasParent(byID: Index, id: string) {
    id in byID && byID[id].parentID != "" && byID[id].parentID in byID
  }

  /** `a` reaches `b` by climbing exactly `n` parent links. */
  predicate Climbs(byID: Index, a: string, b: string, n: nat)
    decreases n
  {
    if n == 0 then a == b
    else HasParent(byID, a) && Climbs(byID, byID[a].parentID, b, n - 1)
  }

  /** The climb from `id` ends, at a root or at a missing parent, within `n` nodes. */
  predicate EndsWithin(byID: Index, id: string, n: nat)
    decreases n
  {
    n > 0 && (HasParent(byID, id) ==> EndsWithin(byID, byID[id].parentID, n - 1))
  }

  /** `b` is a proper ancestor of `a`. */
  ghost predicate Below(byID: Index, a: string, b: string) {
    exists n: nat :: n > 0 && Climbs(byID, a, b, n)
  }

  /** Some node is its own proper ancestor. */
  ghost predicate Cyclic(byID: Index) {
    exists id :: Below(byID, id, id)
  }

  lemma BelowParent(byID: Index, id: string)
    requires HasParent(byID, id)
    ensures Below(byID, id, byID[id].parentID)
  {
    assert Climbs(byID, id, byID[id].parentID, 1);
  }

  lemma BelowTransitive(byID: Index, a: string, b: string, c: string)
    requires Below(byID, a, b) && Below(byID, b, c)
    ensures Below(byID, a, c)
  {
    var m: nat :| m > 0 && Climbs(byID, a, b, m);
    var n: nat :| n > 0 && Climbs(byID, b, c, n);
    ClimbsCompose(byID, a, b, c, m, n);
  }

  lemma {:induction false} ClimbsCompose(byID: Index, a: string, b: string, c: string, m: nat, n: nat)
    requires Climbs(byID, a, b, m) && Climbs(byID, b, c, n)
    ensures Climbs(byID, a, c, m + n)
    decreases m
  {
    if m > 0 { ClimbsCompose(byID, byID[a].parentID, b, c, m - 1, n); }
  }

  lemma {:induction false} EndsAbove(byID: Index, a: string, b: string, n: nat, k: nat)
    requires EndsWithin(byID, a, n) && Climbs(byID, a, b, k)
    ensures k < n && EndsWithin(byID, b, n - k)
    decreases k
  {
    if k > 0 { EndsAbove(byID, byID[a].parentID, b, n - 1, k - 1); }
  }

  lemma {:induction false} EndsMonotone(byID: Index, id: string, n: nat, m: nat)
    requires EndsWithin(byID, id, n) && n <= m
    ensures EndsWithin(byID, id, m)
    decreases n
  {
    if HasParent(byID, id) { EndsMonotone(byID, byID[id].parentID, n - 1, m - 1); }
  }

  /** On or below a cycle, no climb ends. */
  lemma {:induction false} CycleNeverEnds(byID: Index, id: string, n: nat, k: nat)
    requires k > 0 && Climbs(byID, id, id, k)
    ensures !EndsWithin(byID, id, n)
    decreases n
  {
    if EndsWithin(byID, id, n) {
      EndsAbove(byID, id, id, n, k);
      CycleNeverEnds(byID, id, n - k, k);
    }
  }
}
