/** What looking up a page and storing into it do to every page of every process. */
module Accesses {
  import opened PageTypes
  import opened AreaList
  import opened MemObjects
  import opened Memory
  import opened EagerCopy
  import opened Spaces

  // ----- Looking up -----

  // Pages to be filled for o: its own, which nothing above looks at, and the bottom object's.
  ghost predicate Unobserved(m: Mem, o: ObjId) {
    o in m.objs && (m.objs[o].kind != Shadow || Shadowers(m.objs, o) == {})
  }

  lemma {:induction false} FirstAtFilled(m: Mem, n: Mem, o: ObjId, p: nat, x: ObjId, q: nat)
    requires ChainsOk(m.objs) && Unobserved(m, o) && Fills(m, n, {Key(o, p), Key(m.objs[o].bottom, p)}) && x in m.objs
    requires x != o || q != p || m.objs[o].kind != Shadow
    ensures FirstAt(n, x, q) == FirstAt(m, x, q)
  {
    assert SameLink(m.objs[x], n.objs[x]);
    if m.objs[x].kind == Shadow && Key(x, q) !in m.frames {
      BottomBelow(m.objs, o);
      assert Key(x, q) !in n.frames;
      assert m.objs[x].shadowed == o ==> x in Shadowers(m.objs, o);
      FirstAtFilled(m, n, o, p, m.objs[x].shadowed, q);
    }
  }

  lemma CellFilled(m: Mem, n: Mem, o: ObjId, p: nat, mp: Mapping)
    requires ChainsOk(m.objs) && Unobserved(m, o) && Fills(m, n, {Key(o, p), Key(m.objs[o].bottom, p)}) && KindOk(m, mp)
    requires mp.obj != o || mp.page != p || mp.flags == Shared
    ensures CellOf(n, mp) == CellOf(m, mp)
  {
    if mp.flags == Private {
      FirstAtFilled(m, n, o, p, mp.obj, mp.page);
      FirstAtLive(m, mp.obj, mp.page);
      FilledView(m, n, mp.obj, mp.page);
      assert SameLink(m.objs[FirstAt(m, mp.obj, mp.page)], n.objs[FirstAt(m, mp.obj, mp.page)]);
    }
  }

  /** A cell of the eager machine holds what the page reads as. */
  lemma ContentsAre(a: AState, m: Mem, next: ObjId, mp: Mapping)
    requires ChainsOk(m.objs) && StoreShows(a.store, m, next) && KindOk(m, mp)
    ensures Contents(a, CellOf(m, mp)) == View(m, mp.obj, mp.page)
  {
    FirstAtLive(m, mp.obj, mp.page);
  }

  lemma StoreFilled(store: map<Key, Page>, m: Mem, n: Mem, next: ObjId)
    requires ChainsOk(m.objs) && Filled(m, n) && StoreShows(store, m, next)
    ensures StoreShows(store, n, next)
  {
    forall o, p: nat | o in n.objs && n.objs[o].kind != Shadow ensures Stored(store, Key(o, p)) == Content(n, o, p) {
      assert SameLink(m.objs[o], n.objs[o]);
      FilledView(m, n, o, p);
    }
  }

  lemma KindsFilled(spaces: seq<seq<Area>>, m: Mem, n: Mem)
    requires SpacesOk(spaces, m) && Filled(m, n)
    ensures SpacesOk(spaces, n)
  {
    hide WellFormed, Exclusive, View;
    forall o ensures Free(m.objs, o) ==> Free(n.objs, o) {
      if Free(m.objs, o) {
        assert Shadowers(n.objs, o) == Shadowers(m.objs, o);
      }
    }
  }

  lemma ShowsFilled(a: map<nat, APage>, areas: seq<Area>, m: Mem, n: Mem, o: ObjId, p: nat)
    requires ChainsOk(m.objs) && Unobserved(m, o) && Fills(m, n, {Key(o, p), Key(m.objs[o].bottom, p)})
             && Shows(a, areas, m)
    requires forall w: nat :: PageAt(areas, w).Some? ==>
                                KindOk(m, PageAt(areas, w).value) &&
                                (PageAt(areas, w).value.obj != o || PageAt(areas, w).value.page != p
                                 || PageAt(areas, w).value.flags == Shared)
    ensures Shows(a, areas, n)
  {
    hide ChainsOk, Unobserved, Fills, CellOf, KindOk;
    forall w: nat ensures Get(a, w) == Meaning(n, areas, w) {
      assert Get(a, w) == Meaning(m, areas, w);
      if PageAt(areas, w).Some? {
        CellFilled(m, n, o, p, PageAt(areas, w).value);
      }
    }
  }

  lemma TopUnobserved(spaces: seq<seq<Area>>, m: Mem, i: nat, v: nat)
    requires SpacesOk(spaces, m) && i < |spaces| && PageAt(spaces[i], v).Some?
    ensures KindOk(m, PageAt(spaces[i], v).value) && Unobserved(m, PageAt(spaces[i], v).value.obj)
  {
  }

  // A page that is looked up for writing: private contents become the page's own.
  lemma TouchedPage(a: AState, spaces: seq<seq<Area>>, m: Mem, n: Mem, next: ObjId, i: nat, v: nat)
    requires SpacesOk(spaces, m) && ChainsOk(m.objs) && Refines(a, spaces, m, next) && i < |spaces|
             && PageAt(spaces[i], v).Some?
    requires var mp := PageAt(spaces[i], v).value;
             mp.obj in m.objs && mp.flags == Private && Fills(m, n,
                                                              {Key(mp.obj, mp.page), Key(m.objs[mp.obj].bottom, mp.page)})
             && Key(mp.obj, mp.page) in n.frames
    ensures v in a.spaces[i] && a.spaces[i][v].flags == Private
    ensures Shows(a.spaces[i][v := a.spaces[i][v].(cell := Own(Contents(a, a.spaces[i][v].cell)))], spaces[i], n)
  {
    hide ChainsOk, Unobserved, Fills, TopsFree, WellFormed, Shadowers, View, StoreShows, FirstAt, CellOf;
    var mp := PageAt(spaces[i], v).value;
    TopUnobserved(spaces, m, i, v);
    ContentsAre(a, m, next, mp);
    assert Get(a.spaces[i], v) == Meaning(m, spaces[i], v);
    var b := a.spaces[i][v := a.spaces[i][v].(cell := Own(Contents(a, a.spaces[i][v].cell)))];
    forall w: nat ensures Get(b, w) == Meaning(n, spaces[i], w) {
      assert Get(a.spaces[i], w) == Meaning(m, spaces[i], w);
      if w == v {
        TouchedCell(m, n, mp);
      } else if PageAt(spaces[i], w).Some? {
        assert Apart(i, v, mp, i, w, PageAt(spaces[i], w).value);
        CellFilled(m, n, mp.obj, mp.page, PageAt(spaces[i], w).value);
      }
    }
  }

  lemma TouchedCell(m: Mem, n: Mem, mp: Mapping)
    requires ChainsOk(m.objs) && KindOk(m, mp) && mp.flags == Private
    requires Fills(m, n, {Key(mp.obj, mp.page), Key(m.objs[mp.obj].bottom, mp.page)})
             && Key(mp.obj, mp.page) in n.frames
    ensures CellOf(n, mp) == Own(View(m, mp.obj, mp.page))
  {
    FilledView(m, n, mp.obj, mp.page);
    assert SameLink(m.objs[mp.obj], n.objs[mp.obj]);
  }

  /** A lookup for writing is the event Touch. */
  lemma TouchRefines(a: AState, spaces: seq<seq<Area>>, m: Mem, n: Mem, next: ObjId, i: nat, v: nat)
    requires SpacesOk(spaces, m) && ChainsOk(m.objs) && Refines(a, spaces, m, next) && i < |spaces|
             && PageAt(spaces[i], v).Some?
    requires var mp := PageAt(spaces[i], v).value;
             mp.obj in m.objs && Fills(m, n, {Key(mp.obj, mp.page), Key(m.objs[mp.obj].bottom, mp.page)})
             && Key(mp.obj, mp.page) in n.frames
    ensures SpacesOk(spaces, n) && Refines(Step(a, Touch(i, v)), spaces, n, next)
  {
    hide ChainsOk, Unobserved, Filled, TopsFree, WellFormed, Shows, StoreShows, Exclusive, KindOk;
    var mp := PageAt(spaces[i], v).value;
    KindsFilled(spaces, m, n);
    StoreFilled(a.store, m, n, next);
    TopUnobserved(spaces, m, i, v);
    PageShown(a, spaces, m, next, i, v);
    forall j | 0 <= j < |spaces| && (j != i || mp.flags == Shared) ensures Shows(a.spaces[j], spaces[j], n) {
      NotThePage(spaces, m, i, v, j);
      ShowsFilled(a.spaces[j], spaces[j], m, n, mp.obj, mp.page);
    }
    if mp.flags == Private {
      TouchedPage(a, spaces, m, n, next, i, v);
    }
  }

  lemma PageShown(a: AState, spaces: seq<seq<Area>>, m: Mem, next: ObjId, i: nat, v: nat)
    requires Refines(a, spaces, m, next) && i < |spaces| && PageAt(spaces[i], v).Some?
    ensures v in a.spaces[i] && a.spaces[i][v].flags == PageAt(spaces[i], v).value.flags
    ensures a.spaces[i][v].cell == CellOf(m, PageAt(spaces[i], v).value)
  {
    hide CellOf;
    assert Get(a.spaces[i], v) == Meaning(m, spaces[i], v);
  }

  lemma NotThePage(spaces: seq<seq<Area>>, m: Mem, i: nat, v: nat, j: nat)
    requires SpacesOk(spaces, m) && i < |spaces| && j < |spaces| && PageAt(spaces[i], v).Some?
    requires j != i || PageAt(spaces[i], v).value.flags == Shared
    ensures var mp := PageAt(spaces[i], v).value;
            forall w: nat :: PageAt(spaces[j], w).Some? ==>
                               KindOk(m, PageAt(spaces[j], w).value) &&
                               (PageAt(spaces[j], w).value.obj != mp.obj || PageAt(spaces[j], w).value.page != mp.page
                                || PageAt(spaces[j], w).value.flags == Shared)
  {
    hide WellFormed, TopsFree;
    var mp := PageAt(spaces[i], v).value;
    assert KindOk(m, mp);
    forall w: nat | PageAt(spaces[j], w).Some?
      ensures KindOk(m, PageAt(spaces[j], w).value)
      ensures PageAt(spaces[j], w).value.obj != mp.obj || PageAt(spaces[j], w).value.page != mp.page
              || PageAt(spaces[j], w).value.flags == Shared
    {
      assert Apart(j, w, PageAt(spaces[j], w).value, i, v, mp);
    }
  }

  /** A lookup for reading goes unnoticed. */
  lemma ReadRefines(a: AState, spaces: seq<seq<Area>>, m: Mem, n: Mem, next: ObjId, b: ObjId, p: nat)
    requires SpacesOk(spaces, m) && ChainsOk(m.objs) && Refines(a, spaces, m, next)
    requires b in m.objs && m.objs[b].kind != Shadow && Fills(m, n, {Key(b, p)})
    ensures SpacesOk(spaces, n) && Refines(a, spaces, n, next)
  {
    hide Filled, TopsFree, WellFormed, Shows, StoreShows, Exclusive;
    assert {Key(b, p), Key(m.objs[b].bottom, p)} == {Key(b, p)};
    KindsFilled(spaces, m, n);
    StoreFilled(a.store, m, n, next);
    forall j | 0 <= j < |spaces| ensures Shows(a.spaces[j], spaces[j], n) {
      ShowsFilled(a.spaces[j], spaces[j], m, n, b, p);
    }
  }

  lemma FirstAtRead(m: Mem, n: Mem, b: ObjId, p: nat, x: ObjId, q: nat)
    requires ChainsOk(m.objs) && b in m.objs && m.objs[b].kind != Shadow && Fills(m, n, {Key(b, p)}) && x in m.objs
    ensures FirstAt(n, x, q) == FirstAt(m, x, q)
  {
    assert {Key(b, p), Key(m.objs[b].bottom, p)} == {Key(b, p)};
    FirstAtFilled(m, n, b, p, x, q);
  }

  // ----- Storing -----

  ghost predicate Wrote(m: Mem, n: Mem, k: Key, data: Page) {
    k in m.frames && k in n.frames && n.frames[k].data == data && n == m.(frames := m.frames[k := n.frames[k]])
  }

  lemma {:induction false} WroteFirstAt(m: Mem, n: Mem, k: Key, data: Page, x: ObjId, q: nat)
    requires Wrote(m, n, k, data)
    ensures FirstAt(n, x, q) == FirstAt(m, x, q)
  {
    if x in m.objs && m.objs[x].kind == Shadow && Key(x, q) !in m.frames && m.objs[x].shadowed < x {
      WroteFirstAt(m, n, k, data, m.objs[x].shadowed, q);
    }
  }

  lemma WroteView(m: Mem, n: Mem, k: Key, data: Page, x: ObjId, q: nat)
    requires Wrote(m, n, k, data)
    ensures View(n, x, q) == if Key(FirstAt(m, x, q), q) == k then data else View(m, x, q)
  {
    WroteFirstAt(m, n, k, data, x, q);
  }

  // Only the object itself ends a walk at an object that nothing shadows.
  lemma {:induction false} WalkEnds(m: Mem, x: ObjId, q: nat, o: ObjId)
    requires ChainsOk(m.objs) && x in m.objs && FirstAt(m, x, q) == o && Shadowers(m.objs, o) == {}
    ensures x == o
  {
    if m.objs[x].kind == Shadow && Key(x, q) !in m.frames {
      assert x !in Shadowers(m.objs, o);
      WalkEnds(m, m.objs[x].shadowed, q, o);
    }
  }

  /** A store into page p of a mapped object is seen only through that object, unless it is a file. */
  lemma CellWritten(m: Mem, n: Mem, o: ObjId, p: nat, data: Page, mp: Mapping)
    requires ChainsOk(m.objs) && Wrote(m, n, Key(o, p), data) && Free(m.objs, o) && KindOk(m, mp)
    requires mp.obj != o || mp.page != p || mp.flags == Shared
    ensures CellOf(n, mp) == CellOf(m, mp)
  {
    if mp.flags == Private {
      WroteView(m, n, Key(o, p), data, mp.obj, mp.page);
      WroteFirstAt(m, n, Key(o, p), data, mp.obj, mp.page);
      if FirstAt(m, mp.obj, mp.page) == o && m.objs[o].kind != File {
        WalkEnds(m, mp.obj, mp.page, o);
      }
    }
  }

  lemma ShowsWritten(a: map<nat, APage>, areas: seq<Area>, m: Mem, n: Mem, o: ObjId, p: nat, data: Page)
    requires ChainsOk(m.objs) && Wrote(m, n, Key(o, p), data) && Free(m.objs, o) && Shows(a, areas, m)
    requires forall w: nat :: PageAt(areas, w).Some? ==>
                                KindOk(m, PageAt(areas, w).value) &&
                                (PageAt(areas, w).value.obj != o || PageAt(areas, w).value.page != p
                                 || PageAt(areas, w).value.flags == Shared)
    ensures Shows(a, areas, n)
  {
    hide ChainsOk, Wrote, Free, CellOf, KindOk;
    forall w: nat ensures Get(a, w) == Meaning(n, areas, w) {
      assert Get(a, w) == Meaning(m, areas, w);
      if PageAt(areas, w).Some? {
        CellWritten(m, n, o, p, data, PageAt(areas, w).value);
      }
    }
  }

  lemma StoreWritten(store: map<Key, Page>, m: Mem, n: Mem, next: ObjId, o: ObjId, p: nat, data: Page)
    requires Wrote(m, n, Key(o, p), data) && StoreShows(store, m, next) && o in m.objs && o < next
    ensures m.objs[o].kind != Shadow ==> StoreShows(store[Key(o, p) := data], n, next)
    ensures m.objs[o].kind == Shadow ==> StoreShows(store, n, next)
  {
    var store' := if m.objs[o].kind != Shadow then store[Key(o, p) := data] else store;
    forall x, q: nat | x in n.objs && n.objs[x].kind != Shadow ensures Stored(store', Key(x, q)) == Content(n, x, q) {
      assert Stored(store, Key(x, q)) == Content(m, x, q);
    }
  }

  lemma WrittenPage(a: AState, spaces: seq<seq<Area>>, m: Mem, n: Mem, next: ObjId, i: nat, v: nat, data: Page)
    requires SpacesOk(spaces, m) && ChainsOk(m.objs) && Refines(a, spaces, m, next) && i < |spaces|
             && PageAt(spaces[i], v).Some?
    requires var mp := PageAt(spaces[i], v).value;
             mp.flags == Private && Wrote(m, n, Key(mp.obj, mp.page), data)
    ensures v in a.spaces[i] && Shows(a.spaces[i][v := a.spaces[i][v].(cell := Own(data))], spaces[i], n)
  {
    hide ChainsOk, Wrote, TopsFree, WellFormed, StoreShows, CellOf, Free;
    var mp := PageAt(spaces[i], v).value;
    TopFree(spaces, m, i, v);
    PageShown(a, spaces, m, next, i, v);
    var b := a.spaces[i][v := a.spaces[i][v].(cell := Own(data))];
    forall w: nat ensures Get(b, w) == Meaning(n, spaces[i], w) {
      assert Get(a.spaces[i], w) == Meaning(m, spaces[i], w);
      if w == v {
        WrittenCell(m, n, mp, data);
      } else if PageAt(spaces[i], w).Some? {
        assert Apart(i, v, mp, i, w, PageAt(spaces[i], w).value);
        CellWritten(m, n, mp.obj, mp.page, data, PageAt(spaces[i], w).value);
      }
    }
  }

  lemma TopFree(spaces: seq<seq<Area>>, m: Mem, i: nat, v: nat)
    requires SpacesOk(spaces, m) && i < |spaces| && PageAt(spaces[i], v).Some?
    ensures KindOk(m, PageAt(spaces[i], v).value) && Free(m.objs, PageAt(spaces[i], v).value.obj)
  {
  }

  lemma WrittenCell(m: Mem, n: Mem, mp: Mapping, data: Page)
    requires KindOk(m, mp) && mp.flags == Private && Wrote(m, n, Key(mp.obj, mp.page), data)
    ensures CellOf(n, mp) == Own(data)
  {
  }

  lemma WroteSpaces(spaces: seq<seq<Area>>, m: Mem, n: Mem, k: Key, data: Page)
    requires SpacesOk(spaces, m) && Wrote(m, n, k, data)
    ensures SpacesOk(spaces, n)
  {
    hide WellFormed, Exclusive, Free;
  }

  /** A store into the frame that a page of process i leads to is the event Write. */
  lemma WriteRefines(a: AState, spaces: seq<seq<Area>>, m: Mem, n: Mem, next: ObjId, i: nat, v: nat, data: Page)
    requires SpacesOk(spaces, m) && ChainsOk(m.objs) && NamesBelow(m.objs, next) && Refines(a, spaces, m, next)
    requires i < |spaces| && PageAt(spaces[i], v).Some?
    requires Wrote(m, n, Key(PageAt(spaces[i], v).value.obj, PageAt(spaces[i], v).value.page), data)
    ensures SpacesOk(spaces, n) && Refines(Step(a, Write(i, v, data)), spaces, n, next)
  {
    hide ChainsOk, Wrote, TopsFree, WellFormed, Shows, StoreShows, Exclusive, Free, PrivateCell;
    var mp := PageAt(spaces[i], v).value;
    TopFree(spaces, m, i, v);
    PageShown(a, spaces, m, next, i, v);
    WroteSpaces(spaces, m, n, Key(mp.obj, mp.page), data);
    StoreWritten(a.store, m, n, next, mp.obj, mp.page, data);
    forall j | 0 <= j < |spaces| && (j != i || mp.flags == Shared) ensures Shows(a.spaces[j], spaces[j], n) {
      NotThePage(spaces, m, i, v, j);
      ShowsWritten(a.spaces[j], spaces[j], m, n, mp.obj, mp.page, data);
    }
    if mp.flags == Private {
      WrittenPage(a, spaces, m, n, next, i, v, data);
    }
  }
}
