/** The lists of areas that bottom objects keep, and the translations that can be found through them. */
module AreaLinks {
  import opened PageTypes
  import opened AreaList
  import opened MemObjects
  import opened Spaces
  import opened Forking
  import opened Translations
  import opened Eviction

  /**
   The areas of a process that are on the list of their bottom object are given by their pages: those of an
   area are all in the set, or none is. The order of the lists does not matter to anything.
   */
  ghost predicate Uniform(areas: seq<Area>, linked: set<nat>) {
    forall a :: a in areas ==> Whole(a, linked)
  }

  ghost predicate Whole(a: Area, linked: set<nat>) {
    forall v :: Covers(a, v) ==> (v in linked <==> a.start in linked)
  }

  ghost predicate LinksOk(spaces: seq<seq<Area>>, links: seq<set<nat>>) {
    |links| == |spaces| && forall i :: 0 <= i < |spaces| ==> Uniform(spaces[i], links[i])
  }

  lemma LinksAt(spaces: seq<seq<Area>>, links: seq<set<nat>>, i: nat)
    requires LinksOk(spaces, links) && i < |spaces|
    ensures Uniform(spaces[i], links[i])
  {
  }

  lemma LinksSet(spaces: seq<seq<Area>>, links: seq<set<nat>>, i: nat, areas: seq<Area>, linked: set<nat>)
    requires LinksOk(spaces, links) && i < |spaces| && Uniform(areas, linked)
    ensures LinksOk(spaces[i := areas], links[i := linked])
  {
  }

  lemma LinksAdded(spaces: seq<seq<Area>>, links: seq<set<nat>>, areas: seq<Area>, linked: set<nat>)
    requires LinksOk(spaces, links) && Uniform(areas, linked)
    ensures LinksOk(spaces + [areas], links + [linked])
  {
  }

  // ----- vmmap_remove -----

  // A range inside an area: the part below the range becomes an area of its own, which is put on no list.
  predicate SplitOff(areas: seq<Area>, lo: nat, hi: nat, v: nat) {
    v < lo && exists x :: 0 <= x < |areas| && Covers(areas[x], v) && areas[x].start <= lo && hi <= areas[x].end
  }

  function Cut(areas: seq<Area>, linked: set<nat>, lo: nat, hi: nat): set<nat> {
    set v | v in linked && !(lo <= v < hi) && !SplitOff(areas, lo, hi, v)
  }

  /**
   On the area that has the page: its part below a range that it contains leaves the list, and what the range takes
   away is gone; an area that is only shortened at one end stays, and so does every page above the range.
   */
  lemma CutExactly(areas: seq<Area>, linked: set<nat>, lo: nat, hi: nat, a: Area, v: nat)
    requires WellFormed(areas) && a in areas && a.start <= v < a.end
    ensures v in Cut(areas, linked, lo, hi) <==>
            v in linked && !(lo <= v < hi) && !(v < lo && a.start <= lo && hi <= a.end)
  {
    var x :| 0 <= x < |areas| && areas[x] == a;
    if SplitOff(areas, lo, hi, v) {
      var y :| 0 <= y < |areas| && Covers(areas[y], v) && areas[y].start <= lo && hi <= areas[y].end;
      assert y == x;
    }
  }

  lemma PieceWhole(areas: seq<Area>, linked: set<nat>, lo: nat, hi: nat, x: nat)
    requires WellFormed(areas) && lo <= hi && x < |areas| && Whole(areas[x], linked)
    ensures Uniform(Pieces(areas[x], lo, hi), Cut(areas, linked, lo, hi))
  {
    var a := areas[x];
    forall v: nat | Covers(a, v) {
      CutExactly(areas, linked, lo, hi, a, v);
    }
  }

  lemma {:induction false} PiecesUniform(areas: seq<Area>, lo: nat, hi: nat, linked: set<nat>)
    requires lo <= hi && forall x :: 0 <= x < |areas| ==> Uniform(Pieces(areas[x], lo, hi), linked)
    ensures Uniform(Carve(areas, lo, hi), linked)
  {
    hide Pieces, Whole;
    if areas != [] {
      var rest := areas[1..];
      forall x | 0 <= x < |rest| ensures Uniform(Pieces(rest[x], lo, hi), linked) {
        assert rest[x] == areas[x + 1];
      }
      PiecesUniform(rest, lo, hi, linked);
    }
  }

  lemma CutUniform(areas: seq<Area>, linked: set<nat>, lo: nat, hi: nat)
    requires WellFormed(areas) && lo <= hi && Uniform(areas, linked)
    ensures Uniform(Carve(areas, lo, hi), Cut(areas, linked, lo, hi))
  {
    hide WellFormed, Pieces, Carve, Cut, Whole;
    forall x | 0 <= x < |areas| ensures Uniform(Pieces(areas[x], lo, hi), Cut(areas, linked, lo, hi)) {
      PieceWhole(areas, linked, lo, hi, x);
    }
    PiecesUniform(areas, lo, hi, Cut(areas, linked, lo, hi));
  }

  ghost predicate SameOutside(s: set<nat>, t: set<nat>, lo: nat, hi: nat) {
    forall v: nat :: v < lo || hi <= v ==> (v in s <==> v in t)
  }

  lemma CutNothing(areas: seq<Area>, linked: set<nat>, lo: nat, hi: nat)
    requires WellFormed(areas) && lo < hi && Unmapped(areas, lo, hi)
    ensures SameOutside(linked, Cut(areas, linked, lo, hi), lo, hi)
  {
    UnmappedIffDisjoint(areas, lo, hi);
  }

  lemma CutThenMapped(cut: set<nat>, linked: set<nat>, a: Area)
    requires SameOutside(linked, cut, a.start, a.end)
    ensures linked + AreaPages(a) == cut + AreaPages(a)
  {
  }

  // ----- vmmap_map and do_fork -----

  function AreaPages(a: Area): set<nat> { set v: nat | v < a.end && Covers(a, v) }

  lemma AreaPagesAre(a: Area)
    ensures forall v: nat :: v in AreaPages(a) <==> a.start <= v < a.end
  {
  }

  // The new area is put on the list of its bottom object.
  lemma MapUniform(areas: seq<Area>, linked: set<nat>, a: Area)
    requires WellFormed(areas) && Uniform(areas, linked) && a.start < a.end && Unmapped(areas, a.start, a.end)
    ensures Uniform(Inserted(areas, a), linked + AreaPages(a))
  {
    UnmappedIffDisjoint(areas, a.start, a.end);
    var k := InsertPosition(areas, a);
    assert areas == areas[..k] + areas[k..];
    forall b | b in Inserted(areas, a) ensures Whole(b, linked + AreaPages(a)) {
      assert b == a || b in areas;
    }
  }

  // The pages of private areas, which do_fork puts on the lists of their bottom objects.
  function PrivatePages(areas: seq<Area>): set<nat> {
    set v: nat | v < USER_HIGH && PageAt(areas, v).Some? && PageAt(areas, v).value.flags == Private
  }

  /** do_fork puts on the lists exactly the areas that are private. */
  lemma PrivateExactly(areas: seq<Area>, a: Area, v: nat)
    requires WellFormed(areas) && a in areas && a.start <= v < a.end
    ensures v in PrivatePages(areas) <==> a.flags == Private
  {
    hide WellFormed;
    AreaIn(areas, a);
    var x :| 0 <= x < |areas| && areas[x] == a;
    PageAtIndex(areas, x, v);
  }

  lemma ForkUniform(orig: seq<Area>, areas: seq<Area>, linked: set<nat>)
    requires WellFormed(orig) && Relabelled(orig, areas) && Uniform(orig, linked)
    ensures Uniform(areas, linked + PrivatePages(areas))
  {
    hide WellFormed, PrivatePages;
    RelabelledOk(orig, areas);
    forall b | b in areas ensures Whole(b, linked + PrivatePages(areas)) {
      var x :| 0 <= x < |areas| && areas[x] == b;
      assert orig[x] in orig && Whole(orig[x], linked);
      AreaIn(areas, b);
      forall v: nat | Covers(b, v) {
        PrivateExactly(areas, b, v);
      }
    }
  }

  // ----- The lists -----

  function ListIn(areas: seq<Area>, linked: set<nat>, objs: map<ObjId, MmObj>, o: ObjId, i: nat): seq<Listing> {
    if areas == [] then []
    else
      (if areas[0].start in linked && areas[0].obj in objs && objs[areas[0].obj].bottom == o
       then [Listing(i, areas[0])] else []) + ListIn(areas[1..], linked, objs, o, i)
  }

  /**
   What pframe_remove_from_pts goes through for the pages of o: the areas on the list of o in maps that name
   their process. Those are the maps in `owned`: a map made by fork does not.
   */
  function ListOf(spaces: seq<seq<Area>>, links: seq<set<nat>>, owned: set<nat>, objs: map<ObjId, MmObj>,
                  o: ObjId): seq<Listing>
    requires |links| == |spaces|
  {
    if spaces == [] then []
    else
      var i := |spaces| - 1;
      ListOf(spaces[..i], links[..i], owned, objs, o) +
      (if i in owned then ListIn(spaces[i], links[i], objs, o, i) else [])
  }

  predicate OnList(areas: seq<Area>, linked: set<nat>, objs: map<ObjId, MmObj>, o: ObjId, a: Area) {
    a in areas && a.start in linked && a.obj in objs && objs[a.obj].bottom == o
  }

  lemma {:induction false} ListInExact(areas: seq<Area>, linked: set<nat>, objs: map<ObjId, MmObj>, o: ObjId, i: nat,
                                       l: Listing)
    ensures l in ListIn(areas, linked, objs, o, i) <==> l.proc == i && OnList(areas, linked, objs, o, l.area)
  {
    if areas != [] {
      ListInExact(areas[1..], linked, objs, o, i, l);
      assert areas == [areas[0]] + areas[1..];
    }
  }

  lemma {:induction false} ListOfExact(spaces: seq<seq<Area>>, links: seq<set<nat>>, owned: set<nat>,
                                       objs: map<ObjId, MmObj>, o: ObjId, l: Listing)
    requires |links| == |spaces|
    ensures l in ListOf(spaces, links, owned, objs, o) <==>
            l.proc < |spaces| && l.proc in owned && OnList(spaces[l.proc], links[l.proc], objs, o, l.area)
    decreases |spaces|
  {
    hide OnList, ListIn;
    if spaces != [] {
      var i := |spaces| - 1;
      ListOfExact(spaces[..i], links[..i], owned, objs, o, l);
      ListInExact(spaces[i], links[i], objs, o, i, l);
    }
  }

  lemma ListedProcs(spaces: seq<seq<Area>>, links: seq<set<nat>>, owned: set<nat>, objs: map<ObjId, MmObj>, o: ObjId)
    requires |links| == |spaces|
    ensures var l := ListOf(spaces, links, owned, objs, o); forall x :: 0 <= x < |l| ==> l[x].proc < |spaces|
  {
    hide ListOf, OnList;
    var l := ListOf(spaces, links, owned, objs, o);
    forall x | 0 <= x < |l| ensures l[x].proc < |spaces| {
      ListOfExact(spaces, links, owned, objs, o, l[x]);
    }
  }

  // ----- What can be found through them -----

  // The translation is one of an area on a list, in a map that names its process.
  predicate Reached(links: seq<set<nat>>, owned: set<nat>, i: nat, v: nat) {
    i in owned && i < |links| && v in links[i]
  }

  lemma ShownCovers(a: Area, p: nat, v: nat)
    ensures ShownAt(a, p) == Some(v) <==> Covers(a, v) && p == ObjPage(a, v)
  {
  }

  /** Nothing else is ever dropped. */
  lemma ListedIsReached(spaces: seq<seq<Area>>, links: seq<set<nat>>, owned: set<nat>, objs: map<ObjId, MmObj>,
                        o: ObjId, p: nat, i: nat, v: nat)
    requires LinksOk(spaces, links) && Listed(ListOf(spaces, links, owned, objs, o), p, i, v)
    ensures Reached(links, owned, i, v)
  {
    hide ListOf, ShownAt, Whole;
    var l := ListOf(spaces, links, owned, objs, o);
    var x :| 0 <= x < |l| && l[x].proc == i && ShownAt(l[x].area, p) == Some(v);
    ListOfExact(spaces, links, owned, objs, o, l[x]);
    ShownCovers(l[x].area, p, v);
    LinksAt(spaces, links, i);
    WholeAt(l[x].area, links[i], v);
  }

  lemma WholeAt(a: Area, linked: set<nat>, v: nat)
    requires Whole(a, linked) && Covers(a, v)
    ensures v in linked <==> a.start in linked
  {
  }

  // An object that is no shadow object and is found from o lies at the bottom of its chain.
  lemma {:induction false} FoundIsBottom(m: Mem, o: ObjId, p: nat)
    requires ChainsOk(m.objs) && o in m.objs
    ensures FirstAt(m, o, p) in m.objs
    ensures m.objs[FirstAt(m, o, p)].kind != Shadow ==> FirstAt(m, o, p) == m.objs[o].bottom
    decreases o
  {
    if m.objs[o].kind == Shadow && Key(o, p) !in m.frames {
      FoundIsBottom(m, m.objs[o].shadowed, p);
    }
  }

  /** A good translation of a file's page is found if its area is on a list and its map names its process. */
  lemma ReachedIsListed(spaces: seq<seq<Area>>, links: seq<set<nat>>, owned: set<nat>, tables: seq<Table>, m: Mem,
                        k: Key, i: nat, v: nat)
    requires LinksOk(spaces, links) && KindsOk(spaces, m) && ChainsOk(m.objs) && Coherent(spaces, tables, m)
    requires k.obj in m.objs && m.objs[k.obj].kind == File
    requires i < |tables| && v in tables[i] && tables[i][v].frame == k && Reached(links, owned, i, v)
    ensures Listed(ListOf(spaces, links, owned, m.objs, k.obj), k.page, i, v)
  {
    hide ListOf, ShownAt, Whole, ChainsOk;
    var l := ListOf(spaces, links, owned, m.objs, k.obj);
    assert TableOk(spaces[i], tables[i], m);
    var x := PageAtWitness(spaces[i], v);
    var a := spaces[i][x];
    assert KindOk(m, PageAt(spaces[i], v).value);
    FoundIsBottom(m, a.obj, ObjPage(a, v));
    LinksAt(spaces, links, i);
    WholeAt(a, links[i], v);
    ListOfExact(spaces, links, owned, m.objs, k.obj, Listing(i, a));
    ShownCovers(a, k.page, v);
    var y :| 0 <= y < |l| && l[y] == Listing(i, a);
  }

  ghost predicate AllReached(tables: seq<Table>, links: seq<set<nat>>, owned: set<nat>, k: Key) {
    forall i: nat, v :: i < |tables| && v in tables[i] && tables[i][v].frame == k ==> Reached(links, owned, i, v)
  }

  /** So all translations of a page are dropped if and only if each is in such an area. */
  lemma ListedExactly(spaces: seq<seq<Area>>, links: seq<set<nat>>, owned: set<nat>, tables: seq<Table>, m: Mem, k: Key)
    requires LinksOk(spaces, links) && KindsOk(spaces, m) && ChainsOk(m.objs) && Coherent(spaces, tables, m)
    requires k.obj in m.objs && m.objs[k.obj].kind == File
    ensures AllListed(tables, ListOf(spaces, links, owned, m.objs, k.obj), k) <==> AllReached(tables, links, owned, k)
  {
    hide Uniform, KindsOk, ChainsOk, Coherent, ListOf, Listed, Reached;
    var l := ListOf(spaces, links, owned, m.objs, k.obj);
    forall i: nat, v | i < |tables| && v in tables[i] && tables[i][v].frame == k
      ensures Listed(l, k.page, i, v) <==> Reached(links, owned, i, v)
    {
      if Listed(l, k.page, i, v) {
        ListedIsReached(spaces, links, owned, m.objs, k.obj, k.page, i, v);
      }
      if Reached(links, owned, i, v) {
        ReachedIsListed(spaces, links, owned, tables, m, k, i, v);
      }
    }
  }

  // ----- Over several pages -----

  // Translations have been dropped, but only such as can be reached.
  ghost predicate Fewer(before: seq<Table>, after: seq<Table>, links: seq<set<nat>>, owned: set<nat>) {
    && |after| == |before|
    && (forall i: nat, v :: i < |after| && v in after[i] ==> v in before[i] && after[i][v] == before[i][v])
    && (forall i: nat, v :: i < |before| && v in before[i] && !Reached(links, owned, i, v) ==> v in after[i])
  }

  lemma FewerTransitive(a: seq<Table>, b: seq<Table>, c: seq<Table>, links: seq<set<nat>>, owned: set<nat>)
    requires Fewer(a, b, links, owned) && Fewer(b, c, links, owned)
    ensures Fewer(a, c, links, owned)
  {
    hide Reached;
  }

  lemma UnlistedFewer(spaces: seq<seq<Area>>, links: seq<set<nat>>, owned: set<nat>, objs: map<ObjId, MmObj>,
                      tables: seq<Table>, o: ObjId, p: nat)
    requires LinksOk(spaces, links)
    ensures Fewer(tables, Unlisted(tables, ListOf(spaces, links, owned, objs, o), p), links, owned)
  {
    hide Uniform, ListOf, Listed, Reached;
    var l := ListOf(spaces, links, owned, objs, o);
    var t := Unlisted(tables, l, p);
    forall i: nat, v | i < |tables| && v in tables[i] && !Reached(links, owned, i, v) ensures v in t[i] {
      if Listed(l, p, i, v) {
        ListedIsReached(spaces, links, owned, objs, o, p, i, v);
      }
      assert t[i] == UnlistedTable(tables[i], l, p, i);
    }
    forall i: nat, v | i < |t| && v in t[i] ensures v in tables[i] && t[i][v] == tables[i][v] {
      assert t[i] == UnlistedTable(tables[i], l, p, i);
    }
  }

  lemma UnreachedStays(before: seq<Table>, after: seq<Table>, links: seq<set<nat>>, owned: set<nat>, i: nat, v: nat)
    requires Fewer(before, after, links, owned) && i < |before| && v in before[i] && !Reached(links, owned, i, v)
    ensures |after| == |before| && v in after[i] && after[i][v] == before[i][v]
  {
    hide Reached;
  }

  lemma FewerReached(before: seq<Table>, after: seq<Table>, links: seq<set<nat>>, owned: set<nat>, k: Key)
    requires Fewer(before, after, links, owned)
    ensures AllReached(after, links, owned, k) <==> AllReached(before, links, owned, k)
  {
    hide Reached;
  }

  ghost predicate KeysReached(tables: seq<Table>, links: seq<set<nat>>, owned: set<nat>, keys: set<Key>) {
    forall k :: k in keys ==> AllReached(tables, links, owned, k)
  }

  // A good translation does not lead to a page that is gone.
  lemma GoneReached(spaces: seq<seq<Area>>, tables: seq<Table>, m: Mem, links: seq<set<nat>>, owned: set<nat>,
                    before: seq<Table>, keys: set<Key>)
    requires Coherent(spaces, tables, m) && Fewer(before, tables, links, owned) && m.frames.Keys !! keys
    ensures KeysReached(before, links, owned, keys)
  {
    hide Fewer, Reached;
    forall k | k in keys ensures AllReached(before, links, owned, k) {
      forall i: nat, v | i < |tables| && v in tables[i] ensures tables[i][v].frame != k {
        assert TableOk(spaces[i], tables[i], m);
      }
      FewerReached(before, tables, links, owned, k);
    }
  }
}
