/** The parent check of menu creation and update (`validateMenuParent`), and
    exactly which cycles it lets in. */
module MenuParents {
  import opened Common
  import opened MenuTree

  datatype Verdict = Accepted | InvalidMenu | NotFound

  /** What the repository finds under an ID has that ID. */
  predicate Keyed(byID: Index) { forall id | id in byID :: byID[id].id == id }

  /** The menus once the change is stored. */
  function Changed(byID: Index, menu: Menu): Index { byID[menu.id := menu] }

  /** Following parent IDs `n` times from `a` leads to `b`, stored or not. */
  predicate Leads(byID: Index, a: string, b: string, n: nat)
    decreases n
  {
    if n == 0 then a == b
    else a in byID && byID[a].parentID != "" && Leads(byID, byID[a].parentID, b, n - 1)
  }

  /** `a` is `b` or stands somewhere below it. */
  ghost predicate AtOrBelow(byID: Index, a: string, b: string) { exists n: nat :: Leads(byID, a, b, n) }

  /** The climb from `a` meets `b` and finds that it has a parent. */
  ghost predicate Meets(byID: Index, a: string, b: string) {
    b in byID && byID[b].parentID != "" && exists n: nat :: Climbs(byID, a, b, n)
  }

  lemma MeetsAbove(byID: Index, a: string, b: string)
    requires HasParent(byID, a) && a != b
    ensures Meets(byID, a, b) <==> Meets(byID, byID[a].parentID, b)
  {
    if Meets(byID, a, b) {
      var n: nat :| Climbs(byID, a, b, n);
      assert Climbs(byID, byID[a].parentID, b, n - 1);
    }
    if Meets(byID, byID[a].parentID, b) {
      var n: nat :| Climbs(byID, byID[a].parentID, b, n);
      assert Climbs(byID, a, b, n + 1);
    }
  }

  /** What the check lets through. */
  ghost predicate Accepts(byID: Index, menu: Menu) {
    || menu.parentID == ""
    || (menu.parentID != menu.id && menu.parentID in byID && !byID[menu.parentID].menuType.Button?
        && !Meets(byID, menu.parentID, menu.id))
  }

  /** `validateMenuParent`.  The loop looks for the changed menu among the nodes
      it leaves, so it never sees it at the end of the climb. */
  method ValidateMenuParent(byID: Index, menu: Menu) returns (r: Verdict)
    requires Keyed(byID) && !Cyclic(byID)
    ensures r == Accepted <==> Accepts(byID, menu)
    ensures r == NotFound <==> menu.parentID != "" && menu.parentID != menu.id && menu.parentID !in byID
  {
    if menu.parentID == "" { return Accepted; }
    if menu.parentID == menu.id { return InvalidMenu; }
    if menu.parentID !in byID { return NotFound; }
    if byID[menu.parentID].menuType.Button? { return InvalidMenu; }
    var seen, current := {menu.id}, menu.parentID;
    while byID[current].parentID != ""
      invariant current in byID && menu.id in seen
      invariant forall v | v in seen && v != menu.id :: Below(byID, v, current)
      invariant Meets(byID, menu.parentID, menu.id) <==> Meets(byID, current, menu.id)
      decreases byID.Keys - seen
    {
      if current in seen {
        assert Climbs(byID, current, current, 0);
        return InvalidMenu;
      }
      seen := seen + {current};
      if byID[current].parentID !in byID {
        Unmet(byID, current, menu.id);
        return Accepted;
      }
      MeetsAbove(byID, current, menu.id);
      BelowParent(byID, current);
      forall v | v in seen && v != menu.id ensures Below(byID, v, byID[current].parentID) {
        if v != current { BelowTransitive(byID, v, current, byID[current].parentID); }
      }
      current := byID[current].parentID;
    }
    Unmet(byID, current, menu.id);
    return Accepted;
  }

  /** At the end of a climb only the last node can still be met. */
  lemma Unmet(byID: Index, a: string, b: string)
    requires a in byID && !HasParent(byID, a)
    ensures Meets(byID, a, b) <==> a == b && byID[a].parentID != ""
  {
    if a == b { assert Climbs(byID, a, b, 0); }
  }

  /** A change of parent closes a cycle exactly when it puts the menu at or below itself. */
  lemma ClosesCycleExactly(byID: Index, menu: Menu)
    requires Keyed(byID) && !Cyclic(byID)
    ensures Cyclic(Changed(byID, menu)) <==>
            && menu.parentID != "" && menu.parentID in Changed(byID, menu)
            && AtOrBelow(byID, menu.parentID, menu.id)
  {
    var after, parent, id := Changed(byID, menu), menu.parentID, menu.id;
    if parent != "" && parent in after && AtOrBelow(byID, parent, id) {
      var n: nat :| Leads(byID, parent, id, n);
      var m := LeadsClimbs(byID, menu, parent, n);
      assert Climbs(after, id, id, m + 1);
      assert Below(after, id, id);
    }
    if Cyclic(after) {
      var x :| Below(after, x, x);
      var k: nat :| k > 0 && Climbs(after, x, x, k);
      var j := MeetsChanged(byID, menu, x, x, k);
      if j >= 0 {
        ClimbsCompose(after, id, x, id, k - j, j);
        assert (k - j) + j == k && Climbs(after, parent, id, k - 1);
        var n := ClimbsLeads(byID, menu, parent, k - 1);
      } else {
        assert Below(byID, x, x);
      }
    }
  }

  lemma {:induction false} LeadsClimbs(byID: Index, menu: Menu, a: string, n: nat) returns (m: nat)
    requires Leads(byID, a, menu.id, n)
    ensures Climbs(Changed(byID, menu), a, menu.id, m)
    decreases n
  {
    if a == menu.id { return 0; }
    m := LeadsClimbs(byID, menu, byID[a].parentID, n - 1);
    m := m + 1;
  }

  lemma {:induction false} ClimbsLeads(byID: Index, menu: Menu, a: string, k: nat) returns (n: nat)
    requires Climbs(Changed(byID, menu), a, menu.id, k)
    ensures Leads(byID, a, menu.id, n)
    decreases k
  {
    if a == menu.id { return 0; }
    n := ClimbsLeads(byID, menu, byID[a].parentID, k - 1);
    n := n + 1;
  }

  /** A climb in the changed menus passes the changed one, after `j` links, or
      was there before. */
  lemma {:induction false} MeetsChanged(byID: Index, menu: Menu, a: string, b: string, k: nat) returns (j: int)
    requires Climbs(Changed(byID, menu), a, b, k)
    ensures -1 <= j <= k
    ensures j < 0 ==> Climbs(byID, a, b, k)
    ensures j >= 0 ==>
              Climbs(Changed(byID, menu), a, menu.id, j) && Climbs(Changed(byID, menu), menu.id, b, k - j)
    decreases k
  {
    if a == menu.id { return 0; }
    if k == 0 { return -1; }
    j := MeetsChanged(byID, menu, byID[a].parentID, b, k - 1);
    if j >= 0 {
      j := j + 1;
    } else if byID[a].parentID !in byID {
      j := 1;
    }
  }

  /** What the check admits although it closes a cycle: exactly the moves of a
      menu below itself that find it stored as a root, or not stored yet. */
  lemma MissedCyclesExactly(byID: Index, menu: Menu)
    requires Keyed(byID) && !Cyclic(byID)
    requires menu.parentID != "" && menu.parentID != menu.id && menu.parentID in byID
    requires !byID[menu.parentID].menuType.Button?
    ensures Accepts(byID, menu) && Cyclic(Changed(byID, menu))
            <==> && AtOrBelow(byID, menu.parentID, menu.id)
                 && (menu.id in byID ==> byID[menu.id].parentID == "")
  {
    ClosesCycleExactly(byID, menu);
    if AtOrBelow(byID, menu.parentID, menu.id) && menu.id in byID {
      var n: nat :| Leads(byID, menu.parentID, menu.id, n);
      LeadsInside(byID, menu.parentID, menu.id, n);
    }
  }

  lemma {:induction false} LeadsInside(byID: Index, a: string, b: string, n: nat)
    requires Leads(byID, a, b, n) && b in byID
    ensures Climbs(byID, a, b, n)
    decreases n
  {
    if n > 0 { LeadsInside(byID, byID[a].parentID, b, n - 1); }
  }

  const ROOT := Menu("a", "", "A", "/a", Directory, "", "", "", "", 0, true, true, false, false)
  const CHILD := ROOT.(id := "b", parentID := "a")

  /** A stored root moved below its own child is accepted, and from then on the
      two are each other's parent. */
  lemma RootUnderItsChild()
    ensures var byID, moved := map["a" := ROOT, "b" := CHILD], ROOT.(parentID := "b");
            && Keyed(byID) && !Cyclic(byID) && Accepts(byID, moved)
            && Cyclic(Changed(byID, moved))
            && Below(Changed(byID, moved), "a", "b") && Below(Changed(byID, moved), "b", "a")
  {
    var byID, moved := map["a" := ROOT, "b" := CHILD], ROOT.(parentID := "b");
    forall id ensures !Below(byID, id, id) {
      assert EndsWithin(byID, id, 2);
      if Below(byID, id, id) {
        var k: nat :| k > 0 && Climbs(byID, id, id, k);
        CycleNeverEnds(byID, id, 2, k);
      }
    }
    BelowParent(Changed(byID, moved), "a");
    BelowParent(Changed(byID, moved), "b");
    BelowTransitive(Changed(byID, moved), "a", "b", "a");
  }
}
