/** Page tables, and when a translation may be trusted. */
module Translations {
  import opened PageTypes
  import opened AreaList
  import opened MemObjects
  import opened EagerCopy
  import opened Spaces
  import opened Forking
  import opened Accesses

  // A page-table entry: the resident page whose frame it leads to, and whether stores are allowed.
  datatype Pte = Pte(frame: Key, writable: bool)

  type Table = map<nat, Pte>

  /** The entry leads to the frame a walk down the chain finds; a writable one, to the mapped object's own frame. */
  ghost predicate PteOk(m: Mem, mp: Mapping, e: Pte) {
    && e.frame == Key(FirstAt(m, mp.obj, mp.page), mp.page) && e.frame in m.frames
    && (e.writable ==> e.frame.obj == mp.obj)
  }

  ghost predicate TableOk(areas: seq<Area>, table: Table, m: Mem) {
    forall v :: v in table ==> PageAt(areas, v).Some? && PteOk(m, PageAt(areas, v).value, table[v])
  }

  ghost predicate Coherent(spaces: seq<seq<Area>>, tables: seq<Table>, m: Mem) {
    |tables| == |spaces| && forall i :: 0 <= i < |spaces| ==> TableOk(spaces[i], tables[i], m)
  }

  // No translation of an unmapped page.
  ghost predicate NoneStale(areas: seq<Area>, table: Table) {
    forall v :: v in table ==> PageAt(areas, v).Some?
  }

  /** Through a trusted entry a process reads what the page holds. */
  lemma TrustedReads(m: Mem, mp: Mapping, e: Pte)
    requires PteOk(m, mp, e)
    ensures m.frames[e.frame].data == View(m, mp.obj, mp.page)
  {
  }

  // ----- vmmap_remove and vmmap_map -----

  // The translations that vmmap_remove leaves.
  function Flush(table: Table, areas: seq<Area>, lo: nat, hi: nat): Table {
    map v | v in table && !Flushed(areas, lo, hi, v) :: table[v]
  }

  /**
   On the areas: a translation is dropped exactly if it lies in the range and some area contains the range, or if it
   lies in an area strictly inside the range.
   */
  lemma FlushExactly(table: Table, areas: seq<Area>, lo: nat, hi: nat, v: nat)
    ensures v in Flush(table, areas, lo, hi) <==>
            v in table && forall a :: a in areas ==> !(a.start <= lo && hi <= a.end && lo <= v < hi)
                                                     && !(lo < a.start && a.end < hi && a.start <= v < a.end)
    ensures v in Flush(table, areas, lo, hi) ==> Flush(table, areas, lo, hi)[v] == table[v]
  {
    if Flushed(areas, lo, hi, v) {
      var x :| 0 <= x < |areas| && FlushedBy(areas[x], lo, hi, v);
      assert areas[x] in areas;
    }
    forall a | a in areas ensures FlushedBy(a, lo, hi, v) ==> Flushed(areas, lo, hi, v) {
      var x :| 0 <= x < |areas| && areas[x] == a;
    }
  }

  // pt_unmap_range
  function WithoutRange(table: Table, lo: nat, hi: nat): Table {
    map v | v in table && !(lo <= v < hi) :: table[v]
  }

  function FlushArea(table: Table, a: Area, lo: nat, hi: nat): Table {
    map v | v in table && !FlushedBy(a, lo, hi, v) :: table[v]
  }

  lemma FlushAreaByCase(table: Table, a: Area, lo: nat, hi: nat)
    ensures FlushArea(table, a, lo, hi) ==
            if a.start <= lo && hi <= a.end then WithoutRange(table, lo, hi)
            else if lo < a.start && a.end < hi then WithoutRange(table, a.start, a.end) else table
  {
  }

  lemma FlushStep(table: Table, areas: seq<Area>, j: nat, lo: nat, hi: nat)
    requires j < |areas|
    ensures Flush(table, areas[..j + 1], lo, hi) == FlushArea(Flush(table, areas[..j], lo, hi), areas[j], lo, hi)
  {
    hide Flushed;
    forall v: nat ensures Flushed(areas[..j + 1], lo, hi, v) <==> Flushed(areas[..j], lo, hi, v)
                                                                  || FlushedBy(areas[j], lo, hi, v) {
      FlushedSnoc(areas, j, lo, hi, v);
    }
  }

  lemma FlushDone(table: Table, areas: seq<Area>, j: nat, lo: nat, hi: nat)
    requires j <= |areas| && lo <= hi
    requires forall x :: j <= x < |areas| ==> hi <= areas[x].start < areas[x].end
    ensures Flush(table, areas[..j], lo, hi) == Flush(table, areas, lo, hi)
  {
    hide Flushed;
    forall v: nat ensures Flushed(areas, lo, hi, v) <==> Flushed(areas[..j], lo, hi, v) {
      FlushedRest(areas, j, lo, hi, v);
    }
  }

  lemma NothingFlushed(table: Table, areas: seq<Area>, lo: nat, hi: nat)
    requires lo < hi && forall i :: 0 <= i < |areas| ==> AreaOk(areas[i])
                                                         && (areas[i].end <= lo || hi <= areas[i].start)
    ensures Flush(table, areas, lo, hi) == table
  {
    forall v: nat ensures !Flushed(areas, lo, hi, v) {}
  }

  lemma PtePart(m: Mem, n: Mem, mp: Mapping, e: Pte)
    requires PteOk(m, mp, e) && Part(n, m) && ChainsOk(n.objs) && mp.obj in n.objs
    ensures PteOk(n, mp, e)
  {
    PartView(n, m, mp.obj, mp.page);
    FirstAtLive(n, mp.obj, mp.page);
  }

  /** When objects and mappings go away, what remains is coherent if and only if no translation is stale. */
  lemma TablePart(areas: seq<Area>, areas': seq<Area>, table: Table, table': Table, m: Mem, n: Mem)
    requires TableOk(areas, table, m) && Part(n, m) && ChainsOk(n.objs)
    requires forall v :: v in table' ==> v in table && table'[v] == table[v]
    requires forall v: nat :: PageAt(areas', v).Some? ==> PageAt(areas', v) == PageAt(areas, v)
                                                          && PageAt(areas', v).value.obj in n.objs
    ensures TableOk(areas', table', n) <==> NoneStale(areas', table')
  {
    hide Part, ChainsOk, PteOk;
    if NoneStale(areas', table') {
      forall v | v in table' ensures PteOk(n, PageAt(areas', v).value, table'[v]) {
        PtePart(m, n, PageAt(areas, v).value, table[v]);
      }
    }
  }

  lemma CoherentPart(spaces: seq<seq<Area>>, spaces': seq<seq<Area>>, tables: seq<Table>, tables': seq<Table>, m: Mem,
                     n: Mem, i: nat)
    requires Coherent(spaces, tables, m) && Part(n, m) && ChainsOk(n.objs) && Within(spaces', spaces)
             && KindsOk(spaces', n)
    requires i < |spaces| == |tables'| && (forall j :: 0 <= j < |spaces| && j != i ==> spaces'[j] == spaces[j]
                                                                                       && tables'[j] == tables[j])
    requires forall v :: v in tables'[i] ==> v in tables[i] && tables'[i][v] == tables[i][v]
    ensures Coherent(spaces', tables', n) <==> NoneStale(spaces'[i], tables'[i])
  {
    hide Part, ChainsOk, TableOk, WellFormed;
    forall j | 0 <= j < |spaces| ensures TableOk(spaces'[j], tables'[j], n) <==> NoneStale(spaces'[j], tables'[j]) {
      TablePart(spaces[j], spaces'[j], tables[j], tables'[j], m, n);
    }
    forall j | 0 <= j < |spaces| && j != i ensures NoneStale(spaces'[j], tables'[j]) {
      NotStale(spaces[j], tables[j], m);
    }
  }

  lemma NotStale(areas: seq<Area>, table: Table, m: Mem)
    requires TableOk(areas, table, m)
    ensures NoneStale(areas, table)
  {
  }

  lemma RemoveStale(areas: seq<Area>, table: Table, lo: nat, hi: nat)
    requires NoneStale(areas, table) && lo <= hi
    ensures NoneStale(Carve(areas, lo, hi), Flush(table, areas, lo, hi)) <==>
            forall v :: v in table && lo <= v < hi ==> Flushed(areas, lo, hi, v)
  {
    hide Flushed, Carve;
    StaleFreeIff(areas, table, lo, hi);
    var t := Flush(table, areas, lo, hi);
    assert forall v :: v in t <==> v in table && !Flushed(areas, lo, hi, v);
  }

  /**
   vmmap_remove keeps the translations trustworthy if and only if every translation in the range lay in
   an area that contains the whole range, or in one strictly inside it.
   */
  lemma RemoveCoherent(spaces: seq<seq<Area>>, tables: seq<Table>, m: Mem, n: Mem, i: nat, lo: nat, hi: nat)
    requires SpacesOk(spaces, m) && Coherent(spaces, tables, m) && Part(n, m) && ChainsOk(n.objs) && i < |spaces|
             && lo <= hi
    requires KindsOk(spaces[i := Carve(spaces[i], lo, hi)], n)
    ensures Coherent(spaces[i := Carve(spaces[i], lo, hi)], tables[i := Flush(tables[i], spaces[i], lo, hi)], n) <==>
            forall v :: v in tables[i] && lo <= v < hi ==> Flushed(spaces[i], lo, hi, v)
  {
    hide Part, ChainsOk, TableOk, KindsOk, TopsFree, Exclusive, Within, Carve, Flushed, NoneStale;
    var spaces' := spaces[i := Carve(spaces[i], lo, hi)];
    var tables' := tables[i := Flush(tables[i], spaces[i], lo, hi)];
    CarveWithinSpaces(spaces, m, i, lo, hi);
    CoherentPart(spaces, spaces', tables, tables', m, n, i);
    NotStale(spaces[i], tables[i], m);
    RemoveStale(spaces[i], tables[i], lo, hi);
  }

  // Whatever is removed, only translations of pages in the range can be stale.
  lemma RemoveOutside(spaces: seq<seq<Area>>, tables: seq<Table>, m: Mem, n: Mem, i: nat, lo: nat, hi: nat)
    requires SpacesOk(spaces, m) && Coherent(spaces, tables, m) && Part(n, m) && ChainsOk(n.objs) && i < |spaces|
             && lo <= hi
    requires KindsOk(spaces[i := Carve(spaces[i], lo, hi)], n)
    ensures Coherent(spaces[i := Carve(spaces[i], lo, hi)],
                     tables[i := WithoutRange(Flush(tables[i], spaces[i], lo, hi), lo, hi)], n)
  {
    hide Part, ChainsOk, TableOk, KindsOk, TopsFree, Exclusive, Within, Carve, Flushed;
    var spaces' := spaces[i := Carve(spaces[i], lo, hi)];
    var tables' := tables[i := WithoutRange(Flush(tables[i], spaces[i], lo, hi), lo, hi)];
    CarveWithinSpaces(spaces, m, i, lo, hi);
    CoherentPart(spaces, spaces', tables, tables', m, n, i);
    NotStale(spaces[i], tables[i], m);
    forall v | v in tables'[i] ensures PageAt(spaces'[i], v).Some? {
      CarvePageAt(spaces[i], lo, hi, v);
    }
  }

  // Dropping translations of one process does no harm.
  lemma CoherentWithout(spaces: seq<seq<Area>>, tables: seq<Table>, m: Mem, i: nat, lo: nat, hi: nat)
    requires Coherent(spaces, tables, m) && i < |spaces|
    ensures Coherent(spaces, tables[i := WithoutRange(tables[i], lo, hi)], m)
  {
    hide PteOk;
  }

  /** Given that the others are good, translations are good if and only if those of one range of pages are. */
  lemma RangeCoherent(spaces: seq<seq<Area>>, tables: seq<Table>, m: Mem, i: nat, lo: nat, hi: nat)
    requires i < |spaces| == |tables| && Coherent(spaces, tables[i := WithoutRange(tables[i], lo, hi)], m)
    requires forall v: nat :: lo <= v < hi ==> PageAt(spaces[i], v).Some?
    ensures Coherent(spaces, tables, m) <==>
            forall v :: v in tables[i] && lo <= v < hi ==> PteOk(m, PageAt(spaces[i], v).value, tables[i][v])
  {
    hide PteOk;
    var t := tables[i := WithoutRange(tables[i], lo, hi)];
    assert forall j :: 0 <= j < |spaces| && j != i ==> TableOk(spaces[j], tables[j], m) by {
      assert forall j :: 0 <= j < |spaces| && j != i ==> t[j] == tables[j];
    }
    assert TableOk(spaces[i], t[i], m);
    forall v | v in tables[i] && !(lo <= v < hi)
      ensures PageAt(spaces[i], v).Some? && PteOk(m, PageAt(spaces[i], v).value, tables[i][v])
    {
      assert v in t[i];
    }
  }

  /** A range that reaches past the end of the area it meets: the pages lose their mapping, not their translations. */
  lemma StaleExample(o: ObjId, e: Pte)
    ensures var areas := [Area(USER_LOW, USER_LOW + 2, 0, Prot(true, true, false), Private, o)];
            var lo, hi, v := USER_LOW + 1, USER_LOW + 3, USER_LOW + 1;
            && WellFormed(areas) && PageAt(areas, v).Some? && PageAt(Carve(areas, lo, hi), v) == None
            && v in Flush(map[v := e], areas, lo, hi)
  {
    var areas := [Area(USER_LOW, USER_LOW + 2, 0, Prot(true, true, false), Private, o)];
    CarvePageAt(areas, USER_LOW + 1, USER_LOW + 3, USER_LOW + 1);
    assert !FlushedBy(areas[0], USER_LOW + 1, USER_LOW + 3, USER_LOW + 1);
  }

  // ----- New objects: vmmap_map and do_fork -----

  lemma PteGrown(m: Mem, n: Mem, mp: Mapping, e: Pte)
    requires PteOk(m, mp, e) && Part(m, n) && ChainsOk(m.objs) && mp.obj in m.objs
    ensures PteOk(n, mp, e)
  {
    PartView(m, n, mp.obj, mp.page);
  }

  lemma TableGrown(areas: seq<Area>, areas': seq<Area>, table: Table, m: Mem, n: Mem)
    requires TableOk(areas, table, m) && Part(m, n) && ChainsOk(m.objs)
    requires forall v: nat :: PageAt(areas, v).Some? ==> PageAt(areas, v).value.obj in m.objs
                                                         && PageAt(areas', v) == PageAt(areas, v)
    ensures TableOk(areas', table, n)
  {
    hide Part, ChainsOk, PteOk;
    forall v | v in table ensures PageAt(areas', v).Some? && PteOk(n, PageAt(areas', v).value, table[v]) {
      PteGrown(m, n, PageAt(areas, v).value, table[v]);
    }
  }

  /** A new mapping over pages that have no translation. */
  lemma MapCoherent(spaces: seq<seq<Area>>, tables: seq<Table>, m: Mem, n: Mem, i: nat, ar: Area)
    requires KindsOk(spaces, m) && Coherent(spaces, tables, m) && Part(m, n) && ChainsOk(m.objs) && i < |spaces|
    requires AreaOk(ar) && Unmapped(spaces[i], ar.start, ar.end)
    ensures Coherent(spaces[i := Inserted(spaces[i], ar)], tables, n)
  {
    hide Part, ChainsOk, TableOk, WellFormed, Unmapped, Inserted;
    forall j | 0 <= j < |spaces| ensures TableOk(spaces[i := Inserted(spaces[i], ar)][j], tables[j], n) {
      forall v: nat | PageAt(spaces[j], v).Some?
        ensures PageAt(spaces[j], v).value.obj in m.objs
                && PageAt(spaces[i := Inserted(spaces[i], ar)][j], v) == PageAt(spaces[j], v)
      {
        assert KindOk(m, PageAt(spaces[j], v).value);
        if j == i {
          InsertedPageAt(spaces[i], ar, v);
          CoveredIsUnmapped(spaces[i], ar, v);
        }
      }
      TableGrown(spaces[j], spaces[i := Inserted(spaces[i], ar)][j], tables[j], m, n);
    }
  }

  lemma CoveredIsUnmapped(areas: seq<Area>, ar: Area, v: nat)
    requires Unmapped(areas, ar.start, ar.end)
    ensures Covers(ar, v) ==> PageAt(areas, v) == None
  {
  }

  /** After a fork neither process has a translation, so the first store of each to any page faults. */
  lemma ForkCoherent(spaces: seq<seq<Area>>, tables: seq<Table>, m: Mem, n: Mem, i: nat, parent: seq<Area>,
                     child: seq<Area>)
    requires KindsOk(spaces, m) && Coherent(spaces, tables, m) && Part(m, n) && ChainsOk(m.objs) && i < |spaces|
    ensures Coherent(Forked(spaces, i, parent, child), tables[i := map[]] + [map[]], n)
  {
    hide Part, ChainsOk, WellFormed, PteOk;
    var tables' := tables[i := map[]] + [map[]];
    forall j | 0 <= j < |spaces| && j != i ensures TableOk(spaces[j], tables'[j], n) {
      forall v: nat | PageAt(spaces[j], v).Some? ensures PageAt(spaces[j], v).value.obj in m.objs {
        assert KindOk(m, PageAt(spaces[j], v).value);
      }
      TableGrown(spaces[j], spaces[j], tables[j], m, n);
    }
  }

  // ----- Lookups and stores -----

  lemma PteFilled(m: Mem, n: Mem, o: ObjId, p: nat, mp: Mapping, e: Pte)
    requires PteOk(m, mp, e) && ChainsOk(m.objs) && Unobserved(m, o)
             && Fills(m, n, {Key(o, p), Key(m.objs[o].bottom, p)}) && KindOk(m, mp)
    requires mp.obj != o || mp.page != p || mp.flags == Shared
    ensures PteOk(n, mp, e)
  {
    if mp.flags == Shared && mp.obj == o {
      assert SameLink(m.objs[o], n.objs[o]);
    } else {
      FirstAtFilled(m, n, o, p, mp.obj, mp.page);
    }
  }

  // Tables of pages other than (o, p) do not notice that it was looked up.
  lemma TableFilled(areas: seq<Area>, table: Table, m: Mem, n: Mem, o: ObjId, p: nat)
    requires TableOk(areas, table, m) && ChainsOk(m.objs) && Unobserved(m, o)
             && Fills(m, n, {Key(o, p), Key(m.objs[o].bottom, p)})
    requires forall w: nat :: PageAt(areas, w).Some? ==> KindOk(m, PageAt(areas, w).value)
    requires forall w: nat :: w in table && PageAt(areas, w).Some? ==>
                                PageAt(areas, w).value.obj != o || PageAt(areas, w).value.page != p
                                || PageAt(areas, w).value.flags == Shared
    ensures TableOk(areas, table, n)
  {
    hide ChainsOk, Unobserved, Fills, PteOk, KindOk;
    forall w | w in table ensures PageAt(areas, w).Some? && PteOk(n, PageAt(areas, w).value, table[w]) {
      PteFilled(m, n, o, p, PageAt(areas, w).value, table[w]);
    }
  }

  /** A lookup for reading keeps every translation. */
  lemma ReadCoherent(spaces: seq<seq<Area>>, tables: seq<Table>, m: Mem, n: Mem, b: ObjId, p: nat)
    requires SpacesOk(spaces, m) && Coherent(spaces, tables, m) && ChainsOk(m.objs)
    requires b in m.objs && m.objs[b].kind != Shadow && Fills(m, n, {Key(b, p)})
    ensures Coherent(spaces, tables, n)
  {
    hide Filled, WellFormed, TableOk, TopsFree, Exclusive;
    assert {Key(b, p), Key(m.objs[b].bottom, p)} == {Key(b, p)};
    forall j | 0 <= j < |spaces| ensures TableOk(spaces[j], tables[j], n) {
      TableFilled(spaces[j], tables[j], m, n, b, p);
    }
  }

  lemma TouchedPte(m: Mem, n: Mem, mp: Mapping, e: Pte)
    requires ChainsOk(m.objs) && KindOk(m, mp) && Key(mp.obj, mp.page) in n.frames
    requires Fills(m, n, {Key(mp.obj, mp.page), Key(m.objs[mp.obj].bottom, mp.page)})
    ensures PteOk(n, mp, e) <==> e.frame == Key(mp.obj, mp.page)
  {
    assert SameLink(m.objs[mp.obj], n.objs[mp.obj]);
  }

  /**
   After page v of process i was looked up for writing, every translation other than v's is still good,
   and v's is if and only if it leads to the mapped object's own frame.
   */
  lemma TouchCoherent(spaces: seq<seq<Area>>, tables: seq<Table>, m: Mem, n: Mem, i: nat, v: nat)
    requires SpacesOk(spaces, m) && Coherent(spaces, tables, m) && ChainsOk(m.objs) && i < |spaces|
             && PageAt(spaces[i], v).Some?
    requires var mp := PageAt(spaces[i], v).value;
             mp.obj in m.objs && Fills(m, n, {Key(mp.obj, mp.page), Key(m.objs[mp.obj].bottom, mp.page)})
             && Key(mp.obj, mp.page) in n.frames
    ensures var mp := PageAt(spaces[i], v).value;
            && Coherent(spaces, tables[i := tables[i] - {v}], n)
            && (Coherent(spaces, tables, n) <==> (v in tables[i] ==> tables[i][v].frame == Key(mp.obj, mp.page)))
  {
    hide Fills, WellFormed, TopsFree, ChainsOk, Unobserved, PteOk;
    var mp := PageAt(spaces[i], v).value;
    TopUnobserved(spaces, m, i, v);
    var tables' := tables[i := tables[i] - {v}];
    forall j | 0 <= j < |spaces| ensures TableOk(spaces[j], tables'[j], n) {
      forall w: nat | w in tables'[j] && PageAt(spaces[j], w).Some?
        ensures PageAt(spaces[j], w).value.obj != mp.obj || PageAt(spaces[j], w).value.page != mp.page
                || PageAt(spaces[j], w).value.flags == Shared
      {
        assert Apart(j, w, PageAt(spaces[j], w).value, i, v, mp);
      }
      TableFilled(spaces[j], tables'[j], m, n, mp.obj, mp.page);
    }
    if v in tables[i] {
      TouchedPte(m, n, mp, tables[i][v]);
    }
    assert TableOk(spaces[i], tables[i], n) <==> (v in tables[i] ==> PteOk(n, mp, tables[i][v])) by {
      assert forall w :: w in tables'[i] <==> w in tables[i] && w != v;
    }
    assert forall j :: 0 <= j < |spaces| && j != i ==> tables'[j] == tables[j];
  }

  // One process with one private page, which it has read: the page is resident in the anonymous object alone.
  function ReadOnce(): Mem {
    Mem(map[1 := MmObj(Anon, 2, 1, [0], NULL, 1), 2 := MmObj(Shadow, 1, 0, [], 1, 1)],
        map[Key(1, 0) := Frame(ZeroPage(), 1, false, false)], map[])
  }

  // The same after the kernel has looked the page up for writing.
  function CopiedUp(): Mem {
    Mem(map[1 := MmObj(Anon, 2, 1, [0], NULL, 1), 2 := MmObj(Shadow, 2, 1, [0], 1, 1)],
        map[Key(1, 0) := Frame(ZeroPage(), 1, false, false), Key(2, 0) := Frame(ZeroPage(), 1, false, false)], map[])
  }

  function OnePage(): seq<seq<Area>> {
    [[Area(USER_LOW, USER_LOW + 1, 0, Prot(true, true, false), Private, 2)]]
  }

  lemma OnePageAt(v: nat)
    ensures PageAt(OnePage()[0], v) ==
            if v == USER_LOW then Some(Mapping(2, 0, Prot(true, true, false), Private)) else None
  {
  }

  lemma OnePageOk()
    ensures SpacesOk(OnePage(), ReadOnce()) && ChainsOk(ReadOnce().objs)
  {
    forall v: nat
      ensures PageAt(OnePage()[0], v) ==
              if v == USER_LOW then Some(Mapping(2, 0, Prot(true, true, false), Private)) else None
    {
      OnePageAt(v);
    }
    assert Shadowers(ReadOnce().objs, 2) == {};
  }

  /** A private page is read and then written by the kernel: its old translation still leads to the frame below. */
  lemma TouchExample()
    ensures var m, n, spaces := ReadOnce(), CopiedUp(), OnePage();
            var tables := [map[USER_LOW := Pte(Key(1, 0), false)]];
            && SpacesOk(spaces, m) && ChainsOk(m.objs) && Coherent(spaces, tables, m)
            && Fills(m, n, {Key(2, 0), Key(1, 0)}) && !Coherent(spaces, tables, n)
  {
    var m, n, spaces := ReadOnce(), CopiedUp(), OnePage();
    var tables: seq<Table> := [map[USER_LOW := Pte(Key(1, 0), false)]];
    OnePageOk();
    OnePageAt(USER_LOW);
    assert FirstAt(m, 2, 0) == 1;
    assert FirstAt(n, 2, 0) == 2;
    assert !TableOk(spaces[0], tables[0], n);
  }

  lemma TableWithout(spaces: seq<seq<Area>>, tables: seq<Table>, m: Mem, i: nat, v: nat)
    requires Coherent(spaces, tables, m) && i < |spaces|
    ensures Coherent(spaces, tables[i := tables[i] - {v}], m)
  {
    hide PteOk;
  }

  // pt_map
  function Install(table: Table, v: nat, e: Pte): Table { table[v := e] }

  lemma PteInstalled(spaces: seq<seq<Area>>, tables: seq<Table>, n: Mem, i: nat, v: nat, e: Pte)
    requires i < |spaces| == |tables| && Coherent(spaces, tables[i := tables[i] - {v}], n)
    requires PageAt(spaces[i], v).Some? && PteOk(n, PageAt(spaces[i], v).value, e)
    ensures Coherent(spaces, tables[i := Install(tables[i], v, e)], n)
  {
    hide PteOk;
    var t := tables[i := tables[i] - {v}];
    forall j | 0 <= j < |spaces| ensures TableOk(spaces[j], tables[i := Install(tables[i], v, e)][j], n) {
      assert TableOk(spaces[j], t[j], n);
    }
  }

  lemma WriteCoherent(spaces: seq<seq<Area>>, tables: seq<Table>, m: Mem, n: Mem, k: Key, data: Page)
    requires Coherent(spaces, tables, m) && Wrote(m, n, k, data)
    ensures Coherent(spaces, tables, n)
  {
    forall i, v | 0 <= i < |spaces| && v in tables[i] ensures PageAt(spaces[i], v).Some?
                                                              && PteOk(n, PageAt(spaces[i], v).value, tables[i][v]) {
      var mp := PageAt(spaces[i], v).value;
      WroteFirstAt(m, n, k, data, mp.obj, mp.page);
    }
  }
}
