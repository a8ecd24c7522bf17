/** What areas allow, and when a translation allows more. */
module Protection {
  import opened PageTypes
  import opened AreaList
  import opened Translations
  import opened Resizing

  /** Wherever a process has a page mapped, it can do through its translation only what the area allows. */
  ghost predicate PermittedIn(spaces: seq<seq<Area>>, tables: seq<Table>) {
    |tables| == |spaces| && forall i :: 0 <= i < |spaces| ==> Permits(spaces[i], tables[i])
  }

  ghost predicate Permits(areas: seq<Area>, table: Table) {
    forall v :: v in table && PageAt(areas, v).Some? ==> Allows(PageAt(areas, v).value.prot, table[v])
  }

  predicate Allows(prot: Prot, e: Pte) { prot.read && (e.writable ==> prot.write) }

  /** On the fields of the area: an entry may be there only for reading, and writable only for writing. */
  lemma PermitsExactly(areas: seq<Area>, table: Table)
    requires WellFormed(areas)
    ensures Permits(areas, table) <==>
            forall a, v :: a in areas && v in table && Covers(a, v) ==>
                             a.prot.read && (table[v].writable ==> a.prot.write)
  {
    hide WellFormed;
    forall a, v | a in areas && v in table && Covers(a, v) ensures PageAt(areas, v) == Some(MappingOf(a, v)) {
      var x :| 0 <= x < |areas| && areas[x] == a;
      PageAtIndex(areas, x, v);
    }
    forall v | v in table && PageAt(areas, v).Some?
      ensures exists a :: a in areas && Covers(a, v) && PageAt(areas, v) == Some(MappingOf(a, v))
    {
      var x := PageAtWitness(areas, v);
      assert areas[x] in areas;
    }
  }

  // One process's map and table change.
  lemma PermittedSet(spaces: seq<seq<Area>>, tables: seq<Table>, i: nat, areas: seq<Area>, table: Table)
    requires PermittedIn(spaces, tables) && i < |spaces|
    ensures PermittedIn(spaces[i := areas], tables[i := table]) <==> Permits(areas, table)
  {
    hide Permits;
    if PermittedIn(spaces[i := areas], tables[i := table]) {
      assert Permits(spaces[i := areas][i], tables[i := table][i]);
    }
  }

  lemma PermittedAdded(spaces: seq<seq<Area>>, tables: seq<Table>, areas: seq<Area>, table: Table)
    requires PermittedIn(spaces, tables) && Permits(areas, table)
    ensures PermittedIn(spaces + [areas], tables + [table])
  {
    hide Permits;
  }

  lemma RemovePermits(areas: seq<Area>, table: Table, lo: nat, hi: nat)
    requires Permits(areas, table) && lo <= hi
    ensures Permits(Carve(areas, lo, hi), Flush(table, areas, lo, hi))
  {
    hide Carve, Flushed;
    forall v: nat ensures PageAt(Carve(areas, lo, hi), v) == if lo <= v < hi then None else PageAt(areas, v) {
      CarvePageAt(areas, lo, hi, v);
    }
  }

  /**
   A new mapping keeps this if and only if each translation that vmmap_remove leaves in its range is allowed by the
   new protection: one that was made for writing is not, if the new area is read-only.
   */
  lemma MapPermits(areas: seq<Area>, table: Table, a: Area)
    requires Permits(areas, table) && WellFormed(areas) && AreaOk(a)
    ensures Permits(Inserted(Carve(areas, a.start, a.end), a), Flush(table, areas, a.start, a.end)) <==>
            forall v :: v in table && Covers(a, v) && !Flushed(areas, a.start, a.end, v) ==>
                          a.prot.read && (table[v].writable ==> a.prot.write)
  {
    hide WellFormed, Carve, Inserted, Flushed;
    var cut := Carve(areas, a.start, a.end);
    var areas' := Inserted(cut, a);
    var table' := Flush(table, areas, a.start, a.end);
    CarveWellFormed(areas, a.start, a.end);
    CarvedIsFree(areas, a.start, a.end);
    forall v: nat ensures PageAt(areas', v) == if Covers(a, v) then Some(MappingOf(a, v)) else PageAt(areas, v) {
      CarvePageAt(areas, a.start, a.end, v);
      InsertedPageAt(cut, a, v);
    }
    forall v | v in table' ensures v in table && table'[v] == table[v] && !Flushed(areas, a.start, a.end, v) {}
  }

  lemma InstallPermits(areas: seq<Area>, table: Table, v: nat, e: Pte)
    requires Permits(areas, table)
    ensures Permits(areas, Install(table, v, e)) <==> PageAt(areas, v).Some? ==> Allows(PageAt(areas, v).value.prot, e)
  {
    if Permits(areas, Install(table, v, e)) {
      assert v in Install(table, v, e);
    }
  }

  // Dropping translations.
  lemma FewerPermitted(spaces: seq<seq<Area>>, tables: seq<Table>, tables': seq<Table>)
    requires PermittedIn(spaces, tables) && |tables'| == |tables|
    requires forall i: nat, v :: i < |tables'| && v in tables'[i] ==> v in tables[i] && tables'[i][v] == tables[i][v]
    ensures PermittedIn(spaces, tables')
  {
    forall i | 0 <= i < |spaces| ensures Permits(spaces[i], tables'[i]) {
      assert Permits(spaces[i], tables[i]);
    }
  }

  /** An area that grows keeps it if and only if it allows what translations were left on its new pages. */
  lemma ResizePermits(areas: seq<Area>, table: Table, a: Area, end: nat)
    requires Permits(areas, table) && WellFormed(areas) && a in areas && AreaOk(a.(end := end))
             && (a.end < end ==> Unmapped(areas, a.end, end))
    ensures Permits(Resized(areas, a, end), table) <==>
            forall v :: v in table && a.end <= v < end ==> a.prot.read && (table[v].writable ==> a.prot.write)
  {
    hide WellFormed, Resized, Unmapped;
    AreaIn(areas, a);
    if a.end < end {
      ResizedGains(areas, a, end);
    } else {
      ResizedLoses(areas, a, end);
    }
    var areas' := Resized(areas, a, end);
    assert forall v: nat :: PageAt(areas', v) == if a.end <= v < end then Some(MappingOf(a, v))
                                                 else if end <= v < a.end then None else PageAt(areas, v);
  }

  /**
   A file's page mapped for reading and writing and written to, then mapped again for reading only by a range that
   overlaps the end of the area: the translation that is left leads to the right page, and still allows stores.
   */
  lemma ReadOnlyExample(f: ObjId)
    ensures var areas := [Area(USER_LOW, USER_LOW + 2, 0, Prot(true, true, false), Shared, f)];
            var a := Area(USER_LOW + 1, USER_LOW + 3, 1, Prot(true, false, false), Shared, f);
            var table := map[USER_LOW + 1 := Pte(Key(f, 1), true)];
            && WellFormed(areas) && Permits(areas, table) && ObjPage(a, USER_LOW + 1) == 1
            && !Permits(Inserted(Carve(areas, a.start, a.end), a), Flush(table, areas, a.start, a.end))
  {
    var areas := [Area(USER_LOW, USER_LOW + 2, 0, Prot(true, true, false), Shared, f)];
    var a := Area(USER_LOW + 1, USER_LOW + 3, 1, Prot(true, false, false), Shared, f);
    var table := map[USER_LOW + 1 := Pte(Key(f, 1), true)];
    assert !FlushedBy(areas[0], USER_LOW + 1, USER_LOW + 3, USER_LOW + 1);
    assert USER_LOW + 1 in table && Covers(a, USER_LOW + 1);
    MapPermits(areas, table, a);
  }
}
