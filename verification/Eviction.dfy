/** Cleaning and reclaiming pages of files under live address spaces. */
module Eviction {
  import opened PageTypes
  import opened AreaList
  import opened MemObjects
  import opened Memory
  import opened EagerCopy
  import opened Spaces
  import opened NewMappings
  import opened Accesses
  import opened Translations

  // ----- Memories that read alike -----

  /** The same objects with the same pages resident, every page with the same contents. */
  ghost predicate Alike(m: Mem, n: Mem) {
    && n.objs == m.objs && n.frames.Keys == m.frames.Keys
    && (forall k :: k in m.frames ==> n.frames[k].data == m.frames[k].data)
    && (forall k: Key :: k !in m.frames ==> Stored(n.disk, k) == Stored(m.disk, k))
  }

  lemma CleanedAlike(m: Mem, k: Key)
    requires k in m.frames
    ensures Alike(m, Cleaned(m, k))
  {
  }

  lemma {:induction false} AlikeReads(m: Mem, n: Mem, o: ObjId, p: nat)
    requires Alike(m, n)
    ensures FirstAt(n, o, p) == FirstAt(m, o, p) && View(n, o, p) == View(m, o, p)
            && Content(n, o, p) == Content(m, o, p)
    decreases o
  {
    if o in m.objs && m.objs[o].kind == Shadow && Key(o, p) !in m.frames && m.objs[o].shadowed < o {
      AlikeReads(m, n, m.objs[o].shadowed, p);
    }
  }

  lemma AlikeShows(a: map<nat, APage>, areas: seq<Area>, m: Mem, n: Mem)
    requires Alike(m, n) && Shows(a, areas, m)
    ensures Shows(a, areas, n)
  {
    hide Alike, View, FirstAt;
    AlikeObjs(m, n);
    forall v: nat ensures Get(a, v) == Meaning(n, areas, v) {
      assert Get(a, v) == Meaning(m, areas, v);
      if PageAt(areas, v).Some? {
        AlikeReads(m, n, PageAt(areas, v).value.obj, PageAt(areas, v).value.page);
      }
    }
  }

  lemma AlikeObjs(m: Mem, n: Mem)
    requires Alike(m, n)
    ensures n.objs == m.objs && n.frames.Keys == m.frames.Keys
  {
  }

  lemma AlikeStore(store: map<Key, Page>, m: Mem, n: Mem, next: ObjId)
    requires Alike(m, n) && StoreShows(store, m, next)
    ensures StoreShows(store, n, next)
  {
    hide Alike, Content, Stored;
    AlikeObjs(m, n);
    forall o, p: nat | o in n.objs && n.objs[o].kind != Shadow ensures Stored(store, Key(o, p)) == Content(n, o, p) {
      AlikeReads(m, n, o, p);
    }
  }

  /** Cleaning a page goes unnoticed. */
  lemma AlikeRefines(a: AState, spaces: seq<seq<Area>>, m: Mem, n: Mem, next: ObjId)
    requires Alike(m, n) && SpacesOk(spaces, m) && Refines(a, spaces, m, next)
    ensures SpacesOk(spaces, n) && Refines(a, spaces, n, next)
  {
    hide Alike, Shows, StoreShows, WellFormed, Exclusive;
    AlikeObjs(m, n);
    AlikeStore(a.store, m, n, next);
    forall i | 0 <= i < |spaces| ensures Shows(a.spaces[i], spaces[i], n) {
      AlikeShows(a.spaces[i], spaces[i], m, n);
    }
  }

  lemma AlikeCoherent(spaces: seq<seq<Area>>, tables: seq<Table>, m: Mem, n: Mem)
    requires Alike(m, n) && Coherent(spaces, tables, m)
    ensures Coherent(spaces, tables, n)
  {
    hide Alike, FirstAt;
    AlikeObjs(m, n);
    forall i | 0 <= i < |spaces| ensures TableOk(spaces[i], tables[i], n) {
      forall v | v in tables[i]
        ensures PageAt(spaces[i], v).Some? && PteOk(n, PageAt(spaces[i], v).value, tables[i][v])
      {
        assert TableOk(spaces[i], tables[i], m);
        AlikeReads(m, n, PageAt(spaces[i], v).value.obj, PageAt(spaces[i], v).value.page);
      }
    }
  }

  // ----- A page that is no longer resident -----

  /** n is m without page k of a file. */
  ghost predicate Evicted(m: Mem, n: Mem, k: Key) {
    && k in m.frames && k.obj in m.objs && m.objs[k.obj].kind == File
    && n.frames == m.frames - {k} && n.disk == m.disk
    && k.obj in n.objs && n.objs == m.objs[k.obj := n.objs[k.obj]] && SameLink(n.objs[k.obj], m.objs[k.obj])
  }

  // The page's frame agrees with the backing store.
  ghost predicate Stores(m: Mem, k: Key) {
    k in m.frames && m.frames[k].data == Stored(m.disk, k)
  }

  // Seen backwards, a page that the backing store holds is made resident with what it reads as.
  lemma EvictedFills(m: Mem, n: Mem, k: Key)
    requires Evicted(m, n, k) && Stores(m, k)
    ensures Fills(n, m, {k}) && n.objs.Keys == m.objs.Keys && k.obj in n.objs && n.objs[k.obj].kind == File
  {
  }

  lemma UnfilledKinds(spaces: seq<seq<Area>>, m: Mem, n: Mem)
    requires SpacesOk(spaces, m) && Filled(n, m)
    ensures SpacesOk(spaces, n)
  {
    hide WellFormed, Exclusive, View;
    forall o ensures Free(m.objs, o) ==> Free(n.objs, o) {
      if Free(m.objs, o) {
        assert Shadowers(n.objs, o) == Shadowers(m.objs, o);
      }
    }
  }

  lemma UnfilledStore(store: map<Key, Page>, m: Mem, n: Mem, next: ObjId)
    requires ChainsOk(n.objs) && Filled(n, m) && StoreShows(store, m, next)
    ensures StoreShows(store, n, next)
  {
    forall o, p: nat | o in n.objs && n.objs[o].kind != Shadow ensures Stored(store, Key(o, p)) == Content(n, o, p) {
      assert SameLink(n.objs[o], m.objs[o]);
      FilledView(n, m, o, p);
    }
  }

  lemma UnfilledShows(a: map<nat, APage>, areas: seq<Area>, m: Mem, n: Mem, f: ObjId, p: nat)
    requires ChainsOk(n.objs) && f in n.objs && n.objs[f].kind == File && Fills(n, m, {Key(f, p)}) && Shows(a, areas, m)
    requires forall w: nat :: PageAt(areas, w).Some? ==> KindOk(n, PageAt(areas, w).value)
    ensures Shows(a, areas, n)
  {
    hide Fills, CellOf, KindOk;
    assert {Key(f, p), Key(n.objs[f].bottom, p)} == {Key(f, p)};
    forall w: nat ensures Get(a, w) == Meaning(n, areas, w) {
      assert Get(a, w) == Meaning(m, areas, w);
      if PageAt(areas, w).Some? {
        var mp := PageAt(areas, w).value;
        FileIsShared(n, mp, f);
        CellFilled(n, m, f, p, mp);
      }
    }
  }

  lemma FileIsShared(n: Mem, mp: Mapping, f: ObjId)
    requires KindOk(n, mp) && f in n.objs && n.objs[f].kind == File
    ensures mp.obj == f ==> mp.flags == Shared
  {
  }

  // Reclaiming a page that the backing store holds goes unnoticed.
  lemma StoredEvicts(a: AState, spaces: seq<seq<Area>>, m: Mem, n: Mem, next: ObjId, k: Key)
    requires SpacesOk(spaces, m) && ChainsOk(n.objs) && Refines(a, spaces, m, next) && Evicted(m, n, k) && Stores(m, k)
    ensures SpacesOk(spaces, n) && Refines(a, spaces, n, next)
  {
    hide Evicted, Stores, Filled, TopsFree, WellFormed, Shows, StoreShows, Exclusive, ChainsOk, KindOk;
    EvictedFills(m, n, k);
    UnfilledKinds(spaces, m, n);
    UnfilledStore(a.store, m, n, next);
    forall j | 0 <= j < |spaces| ensures Shows(a.spaces[j], spaces[j], n) {
      UnfilledShows(a.spaces[j], spaces[j], m, n, k.obj, k.page);
    }
  }

  // m once the frame of page k holds what the backing store holds.
  function Lapsed(m: Mem, k: Key): Mem
    requires k in m.frames
  {
    m.(frames := m.frames[k := m.frames[k].(data := Stored(m.disk, k))])
  }

  lemma LapsedShows(a: map<nat, APage>, areas: seq<Area>, m: Mem, k: Key)
    requires ChainsOk(m.objs) && k in m.frames && k.obj in m.objs && m.objs[k.obj].kind == File && Shows(a, areas, m)
    requires forall w: nat :: PageAt(areas, w).Some? ==> KindOk(m, PageAt(areas, w).value)
    ensures Shows(a, areas, Lapsed(m, k))
  {
    hide ChainsOk, Shows, KindOk, Stored;
    forall w: nat | PageAt(areas, w).Some?
      ensures PageAt(areas, w).value.obj == k.obj ==> PageAt(areas, w).value.flags == Shared
    {
      FileIsShared(m, PageAt(areas, w).value, k.obj);
    }
    ShowsWritten(a, areas, m, Lapsed(m, k), k.obj, k.page, Stored(m.disk, k));
  }

  lemma LapseRefines(a: AState, spaces: seq<seq<Area>>, m: Mem, next: ObjId, k: Key)
    requires SpacesOk(spaces, m) && ChainsOk(m.objs) && NamesBelow(m.objs, next) && Refines(a, spaces, m, next)
    requires k in m.frames && k.obj in m.objs && m.objs[k.obj].kind == File
    ensures SpacesOk(spaces, Lapsed(m, k))
    ensures Refines(Step(a, Revert(k, Stored(m.disk, k))), spaces, Lapsed(m, k), next)
  {
    hide ChainsOk, TopsFree, WellFormed, Shows, StoreShows, Exclusive, KindOk, Stored;
    var d := Stored(m.disk, k);
    WroteSpaces(spaces, m, Lapsed(m, k), k, d);
    StoreWritten(a.store, m, Lapsed(m, k), next, k.obj, k.page, d);
    forall j | 0 <= j < |spaces| ensures Shows(a.spaces[j], spaces[j], Lapsed(m, k)) {
      LapsedShows(a.spaces[j], spaces[j], m, k);
    }
  }

  /**
   Reclaiming any page of a file shows as the page taking the contents of the backing store, and as nothing
   at all if it had them.
   */
  lemma EvictRefines(a: AState, spaces: seq<seq<Area>>, m: Mem, n: Mem, next: ObjId, k: Key)
    requires SpacesOk(spaces, m) && ChainsOk(m.objs) && ChainsOk(n.objs) && NamesBelow(m.objs, next)
    requires Refines(a, spaces, m, next) && Evicted(m, n, k)
    ensures SpacesOk(spaces, n)
    ensures Refines(if Stores(m, k) then a else Step(a, Revert(k, Stored(m.disk, k))), spaces, n, next)
  {
    hide SpacesOk, ChainsOk, NamesBelow, Refines, Step, Stored;
    if Stores(m, k) {
      StoredEvicts(a, spaces, m, n, next, k);
    } else {
      LapseRefines(a, spaces, m, next, k);
      StoredEvicts(Step(a, Revert(k, Stored(m.disk, k))), spaces, Lapsed(m, k), n, next, k);
    }
  }

  // ----- Translations of the page -----

  ghost predicate NoneLeadsTo(tables: seq<Table>, k: Key) {
    forall i, v :: 0 <= i < |tables| && v in tables[i] ==> tables[i][v].frame != k
  }

  lemma EvictedPte(m: Mem, n: Mem, k: Key, mp: Mapping, e: Pte)
    requires ChainsOk(n.objs) && Evicted(m, n, k) && mp.obj in n.objs && PteOk(m, mp, e)
    ensures PteOk(n, mp, e) <==> e.frame != k
  {
    var l := Lapsed(m, k);
    WroteFirstAt(m, l, k, Stored(m.disk, k), mp.obj, mp.page);
    EvictedFills(l, n, k);
    FirstAtRead(n, l, k.obj, k.page, mp.obj, mp.page);
  }

  /** Translations stay good if and only if none of them led to the frame. */
  lemma EvictCoherent(spaces: seq<seq<Area>>, tables: seq<Table>, m: Mem, n: Mem, k: Key)
    requires KindsOk(spaces, n) && ChainsOk(n.objs) && Coherent(spaces, tables, m) && Evicted(m, n, k)
    ensures Coherent(spaces, tables, n) <==> NoneLeadsTo(tables, k)
  {
    hide Evicted, WellFormed, ChainsOk, PteOk;
    forall i, v | 0 <= i < |spaces| && v in tables[i]
      ensures PageAt(spaces[i], v).Some?
              && (PteOk(n, PageAt(spaces[i], v).value, tables[i][v]) <==> tables[i][v].frame != k)
    {
      assert TableOk(spaces[i], tables[i], m);
      assert KindOk(n, PageAt(spaces[i], v).value);
      EvictedPte(m, n, k, PageAt(spaces[i], v).value, tables[i][v]);
    }
  }

  // An area on the list of a bottom object, with the process whose page table it belongs to.
  datatype Listing = Listing(proc: nat, area: Area)

  // The page of the process at which the area shows page p of its object.
  function ShownAt(a: Area, p: nat): Option<nat> {
    if a.off <= p < a.off + (a.end - a.start) then Some(a.start + p - a.off) else None
  }

  predicate Listed(listed: seq<Listing>, p: nat, i: nat, v: nat) {
    exists x :: 0 <= x < |listed| && listed[x].proc == i && ShownAt(listed[x].area, p) == Some(v)
  }

  // pframe_remove_from_pts: what is left of the page tables.
  function UnlistedTable(table: Table, listed: seq<Listing>, p: nat, i: nat): Table {
    map v | v in table && !Listed(listed, p, i, v) :: table[v]
  }

  function Unlisted(tables: seq<Table>, listed: seq<Listing>, p: nat): seq<Table> {
    seq(|tables|, i requires 0 <= i < |tables| => UnlistedTable(tables[i], listed, p, i))
  }

  lemma UnlistedNone(tables: seq<Table>, p: nat)
    ensures Unlisted(tables, [], p) == tables
  {
    forall i | 0 <= i < |tables| ensures Unlisted(tables, [], p)[i] == tables[i] {
      assert UnlistedTable(tables[i], [], p, i) == tables[i];
    }
  }

  lemma UnlistedNext(tables: seq<Table>, listed: seq<Listing>, x: nat, p: nat)
    requires x < |listed| && listed[x].proc < |tables|
    ensures |Unlisted(tables, listed[..x], p)| == |tables|
    ensures var t, i, v := Unlisted(tables, listed[..x], p), listed[x].proc, ShownAt(listed[x].area, p);
            Unlisted(tables, listed[..x + 1], p) == if v.Some? then t[i := t[i] - {v.value}] else t
  {
    hide ShownAt, Listed;
    var t, t' := Unlisted(tables, listed[..x], p), Unlisted(tables, listed[..x + 1], p);
    var v := ShownAt(listed[x].area, p);
    forall i | 0 <= i < |tables|
      ensures t'[i] == if v.Some? && i == listed[x].proc then t[i] - {v.value} else t[i]
    {
      forall w: nat
        ensures Listed(listed[..x + 1], p, i, w) <==>
                Listed(listed[..x], p, i, w) || (listed[x].proc == i && v == Some(w))
      {
        ListedNext(listed, x, p, i, w);
      }
      assert t'[i] == if v.Some? && i == listed[x].proc then t[i] - {v.value} else t[i];
    }
  }

  lemma ListedNext(listed: seq<Listing>, x: nat, p: nat, i: nat, v: nat)
    requires x < |listed|
    ensures Listed(listed[..x + 1], p, i, v) <==>
            Listed(listed[..x], p, i, v) || (listed[x].proc == i && ShownAt(listed[x].area, p) == Some(v))
  {
    hide ShownAt;
    var l, l' := listed[..x], listed[..x + 1];
    if Listed(l, p, i, v) {
      var y :| 0 <= y < |l| && l[y].proc == i && ShownAt(l[y].area, p) == Some(v);
      assert l'[y] == l[y];
    }
    if listed[x].proc == i && ShownAt(listed[x].area, p) == Some(v) {
      assert l'[x] == listed[x];
    }
    if Listed(l', p, i, v) {
      var y :| 0 <= y < |l'| && l'[y].proc == i && ShownAt(l'[y].area, p) == Some(v);
      assert y < x ==> l[y] == l'[y];
    }
  }

  /** Dropping translations does no harm. */
  lemma UnlistedCoherent(spaces: seq<seq<Area>>, tables: seq<Table>, listed: seq<Listing>, p: nat, m: Mem)
    requires Coherent(spaces, tables, m)
    ensures Coherent(spaces, Unlisted(tables, listed, p), m)
  {
    hide PteOk, Listed;
  }

  // Every translation that leads to page k is one that pframe_remove_from_pts finds.
  ghost predicate AllListed(tables: seq<Table>, listed: seq<Listing>, k: Key) {
    forall i: nat, v :: i < |tables| && v in tables[i] && tables[i][v].frame == k ==> Listed(listed, k.page, i, v)
  }

  lemma UnlistedLeads(tables: seq<Table>, listed: seq<Listing>, k: Key)
    ensures NoneLeadsTo(Unlisted(tables, listed, k.page), k) <==> AllListed(tables, listed, k)
  {
    hide Listed;
    var t := Unlisted(tables, listed, k.page);
    assert forall i: nat, v :: i < |tables| ==> (v in t[i] <==> v in tables[i] && !Listed(listed, k.page, i, v));
    assert forall i: nat, v :: i < |tables| && v in t[i] ==> t[i][v] == tables[i][v];
  }

  // ----- Pages of files that are safe to reclaim -----

  /**
   A clean page of a file agrees with the backing store, unless it was stored into through a translation
   while it was clean.
   */
  ghost predicate FilesSaved(m: Mem, unmarked: set<Key>) {
    forall k :: k in m.frames && k.obj in m.objs && m.objs[k.obj].kind == File && !m.frames[k].dirty
                && k !in unmarked ==>
                  m.frames[k].data == Stored(m.disk, k)
  }

  lemma SavedPart(m: Mem, n: Mem, unmarked: set<Key>)
    requires FilesSaved(m, unmarked) && Part(n, m)
    ensures FilesSaved(n, unmarked)
  {
    hide Stored;
    forall k | k in n.frames && k.obj in n.objs && n.objs[k.obj].kind == File && !n.frames[k].dirty && k !in unmarked
      ensures n.frames[k].data == Stored(n.disk, k)
    {
      assert SameLink(n.objs[k.obj], m.objs[k.obj]);
    }
  }

  // An object changes its counts, or one that is no file is added.
  lemma SavedObject(m: Mem, o: ObjId, x: MmObj, unmarked: set<Key>)
    requires FilesSaved(m, unmarked) && (x.kind == File ==> o in m.objs && m.objs[o].kind == File)
    ensures FilesSaved(m.(objs := m.objs[o := x]), unmarked)
  {
    hide Stored;
  }

  lemma SavedOpened(m: Mem, f: ObjId, pages: map<nat, Page>, unmarked: set<Key>)
    requires FilesSaved(m, unmarked) && f !in m.objs && (forall k :: k in m.frames ==> k.obj in m.objs)
    ensures FilesSaved(WithOpened(m, f, pages), unmarked)
  {
    hide Stored, WithFile;
    forall k: Key ensures k.obj != f ==> Stored(WithFile(m.disk, f, pages), k) == Stored(m.disk, k) {
      OpenDisk(m.disk, f, pages, k);
    }
  }

  lemma SavedFilled(m: Mem, n: Mem, unmarked: set<Key>)
    requires FilesSaved(m, unmarked) && Filled(m, n)
    ensures FilesSaved(n, unmarked)
  {
    hide Stored;
    forall k | k in n.frames && k.obj in n.objs && n.objs[k.obj].kind == File && !n.frames[k].dirty && k !in unmarked
      ensures n.frames[k].data == Stored(n.disk, k)
    {
      assert SameLink(m.objs[k.obj], n.objs[k.obj]);
    }
  }

  // A store: marked, the page is dirty afterwards; unmarked, it is noted unless it was dirty before.
  lemma SavedStore(m: Mem, k: Key, fr: Frame, marked: bool, unmarked: set<Key>)
    requires FilesSaved(m, unmarked) && k in m.frames && k.obj in m.objs
    requires marked && m.objs[k.obj].kind == File ==> fr.dirty
    requires !marked && m.frames[k].dirty ==> fr.dirty
    ensures FilesSaved(m.(frames := m.frames[k := fr]),
                       if marked then unmarked - {k} else if m.frames[k].dirty then unmarked else unmarked + {k})
  {
    hide Stored;
  }

  lemma SavedCleaned(m: Mem, k: Key, unmarked: set<Key>)
    requires FilesSaved(m, unmarked) && k in m.frames
    ensures FilesSaved(Cleaned(m, k), unmarked - {k})
  {
  }

  lemma SavedEvicted(m: Mem, n: Mem, k: Key, unmarked: set<Key>)
    requires FilesSaved(m, unmarked) && Evicted(m, n, k)
    ensures FilesSaved(n, unmarked - {k})
    ensures !m.frames[k].dirty && k !in unmarked ==> Stores(m, k)
  {
    hide Stored;
  }
}
