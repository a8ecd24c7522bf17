/** All address spaces together with the memory objects they map, as values. */
module Spaces {
  import opened PageTypes
  import opened AreaList
  import opened MemObjects
  import opened EagerCopy

  // ----- References held by address spaces -----

  ghost function AllObjs(spaces: seq<seq<Area>>): multiset<ObjId> {
    if spaces == [] then multiset{} else Objs(spaces[0]) + AllObjs(spaces[1..])
  }

  lemma Prefixed(p: multiset<ObjId>, x: multiset<ObjId>, y: multiset<ObjId>, z: multiset<ObjId>, w: multiset<ObjId>)
    requires x + y == z + w
    ensures p + x + y == p + z + w
  {
    assert p + x + y == p + (x + y);
    assert p + z + w == p + (z + w);
  }

  lemma Cancelled(x: multiset<ObjId>, p: multiset<ObjId>, a: multiset<ObjId>, q: multiset<ObjId>, y: multiset<ObjId>,
                  b: multiset<ObjId>)
    requires x + (p + a + q) == y + (p + b + q)
    ensures x + a == y + b
  {
    forall o: ObjId ensures (x + a)[o] == (y + b)[o] {
      assert (x + (p + a + q))[o] == (y + (p + b + q))[o];
    }
  }

  lemma {:induction false} AllObjsUpdate(spaces: seq<seq<Area>>, i: nat, areas: seq<Area>)
    requires i < |spaces|
    ensures AllObjs(spaces[i := areas]) + Objs(spaces[i]) == AllObjs(spaces) + Objs(areas)
  {
    var t := spaces[i := areas];
    if i == 0 {
      assert t[1..] == spaces[1..];
    } else {
      assert t[1..] == spaces[1..][i - 1 := areas];
      AllObjsUpdate(spaces[1..], i - 1, areas);
      assert t[0] == spaces[0] && spaces[1..][i - 1] == spaces[i];
      Prefixed(Objs(spaces[0]), AllObjs(t[1..]), Objs(spaces[i]), AllObjs(spaces[1..]), Objs(areas));
    }
  }

  lemma {:induction false} AllObjsAppend(spaces: seq<seq<Area>>, areas: seq<Area>)
    ensures AllObjs(spaces + [areas]) == AllObjs(spaces) + Objs(areas)
  {
    if spaces == [] {
      assert (spaces + [areas])[1..] == [];
    } else {
      assert (spaces + [areas])[1..] == spaces[1..] + [areas];
      AllObjsAppend(spaces[1..], areas);
    }
  }

  lemma {:induction false} AllObjsContains(spaces: seq<seq<Area>>, i: nat)
    requires i < |spaces|
    ensures Objs(spaces[i]) <= AllObjs(spaces)
  {
    if i > 0 {
      AllObjsContains(spaces[1..], i - 1);
    }
  }

  // Replacing one area of one space.
  lemma AllObjsReplace(spaces: seq<seq<Area>>, i: nat, pre: seq<Area>, a: Area, mid: seq<Area>, post: seq<Area>)
    requires i < |spaces|
    ensures AllObjs(spaces[i := pre + mid + post]) + multiset{a.obj} ==
            AllObjs(spaces[i := pre + [a] + post]) + Objs(mid)
    ensures a.obj in AllObjs(spaces[i := pre + [a] + post])
  {
    hide AllObjs;
    var t := spaces[i := pre + [a] + post];
    AllObjsUpdate(t, i, pre + mid + post);
    assert t[i := pre + mid + post] == spaces[i := pre + mid + post];
    ObjsSplit(pre, [a], post);
    ObjsSplit(pre, mid, post);
    assert Objs([a]) == multiset{a.obj};
    Cancelled(AllObjs(t[i := pre + mid + post]), Objs(pre), multiset{a.obj}, Objs(post), AllObjs(t), Objs(mid));
    AllObjsContains(t, i);
  }

  lemma ObjsSplit(pre: seq<Area>, mid: seq<Area>, post: seq<Area>)
    ensures Objs(pre + mid + post) == Objs(pre) + Objs(mid) + Objs(post)
  {
    ObjsConcat(pre + mid, post);
    ObjsConcat(pre, mid);
  }

  // ----- Invariants -----

  ghost predicate KindOk(m: Mem, mp: Mapping) {
    mp.obj in m.objs && (mp.flags == Private <==> m.objs[mp.obj].kind == Shadow)
  }

  /** Every mapped object is alive, and it is a shadow object exactly under a private mapping. */
  ghost predicate KindsOk(spaces: seq<seq<Area>>, m: Mem) {
    && (forall i :: 0 <= i < |spaces| ==> WellFormed(spaces[i]))
    && (forall i, v: nat :: 0 <= i < |spaces| && PageAt(spaces[i], v).Some? ==> KindOk(m, PageAt(spaces[i], v).value))
  }

  ghost predicate Free(objs: map<ObjId, MmObj>, o: ObjId) {
    o in objs && (objs[o].kind == File || Shadowers(objs, o) == {})
  }

  /** No object other than a file is both mapped and shadowed. */
  ghost predicate TopsFree(spaces: seq<seq<Area>>, objs: map<ObjId, MmObj>) {
    forall i, v: nat :: 0 <= i < |spaces| && PageAt(spaces[i], v).Some? ==> Free(objs, PageAt(spaces[i], v).value.obj)
  }

  /** The object under a private mapping belongs to one process, and no two pages share a page of it. */
  ghost predicate Exclusive(spaces: seq<seq<Area>>) {
    forall i, v: nat, j, w: nat ::
      0 <= i < |spaces| && 0 <= j < |spaces| && PageAt(spaces[i], v).Some? && PageAt(spaces[j], w).Some? ==>
        Apart(i, v, PageAt(spaces[i], v).value, j, w, PageAt(spaces[j], w).value)
  }

  predicate Apart(i: int, v: nat, mp: Mapping, j: int, w: nat, mq: Mapping) {
    mp.flags == Private && mp.obj == mq.obj ==> i == j && (mp.page == mq.page ==> v == w)
  }

  ghost predicate SpacesOk(spaces: seq<seq<Area>>, m: Mem) {
    KindsOk(spaces, m) && TopsFree(spaces, m.objs) && Exclusive(spaces)
  }

  // ----- What the eager machine should show -----

  function PrivateCell(m: Mem, o: ObjId, p: nat): Cell {
    var f := FirstAt(m, o, p);
    if f in m.objs && m.objs[f].kind == File then Alias(Key(f, p)) else Own(View(m, o, p))
  }

  function ObjCell(m: Mem, o: ObjId, flags: MapType, p: nat): Cell {
    if flags == Shared then Alias(Key(o, p)) else PrivateCell(m, o, p)
  }

  function CellOf(m: Mem, mp: Mapping): Cell {
    ObjCell(m, mp.obj, mp.flags, mp.page)
  }

  function Meaning(m: Mem, areas: seq<Area>, v: nat): Option<APage> {
    match PageAt(areas, v)
    case None => None
    case Some(mp) => Some(APage(CellOf(m, mp), mp.prot, mp.flags))
  }

  ghost predicate Shows(a: map<nat, APage>, areas: seq<Area>, m: Mem) {
    forall v: nat :: Get(a, v) == Meaning(m, areas, v)
  }

  ghost predicate StoreShows(store: map<Key, Page>, m: Mem, next: ObjId) {
    && (forall o, p: nat :: o in m.objs && m.objs[o].kind != Shadow ==> Stored(store, Key(o, p)) == Content(m, o, p))
    && (forall k :: k in store ==> k.obj < next)
  }

  /** Copy-on-write state s refines eager state a. */
  ghost predicate Refines(a: AState, spaces: seq<seq<Area>>, m: Mem, next: ObjId) {
    && |a.spaces| == |spaces|
    && (forall i :: 0 <= i < |spaces| ==> Shows(a.spaces[i], spaces[i], m))
    && StoreShows(a.store, m, next)
  }

  // ----- Memory objects going away or being added -----

  lemma CellPart(m: Mem, n: Mem, mp: Mapping)
    requires ChainsOk(n.objs) && Part(n, m) && mp.obj in n.objs
    ensures CellOf(n, mp) == CellOf(m, mp)
  {
    PartView(n, m, mp.obj, mp.page);
    FirstAtLive(n, mp.obj, mp.page);
  }

  lemma ShowsPart(a: map<nat, APage>, areas: seq<Area>, m: Mem, n: Mem)
    requires ChainsOk(n.objs) && Part(n, m) && Shows(a, areas, m)
    requires forall v: nat :: PageAt(areas, v).Some? ==> PageAt(areas, v).value.obj in n.objs
    ensures Shows(a, areas, n)
  {
    hide ChainsOk, Part, CellOf;
    forall v: nat ensures Get(a, v) == Meaning(n, areas, v) {
      if PageAt(areas, v).Some? {
        CellPart(m, n, PageAt(areas, v).value);
      }
    }
  }

  lemma StorePart(store: map<Key, Page>, m: Mem, n: Mem, next: ObjId)
    requires ChainsOk(n.objs) && Part(n, m) && StoreShows(store, m, next)
    ensures StoreShows(store, n, next)
  {
    forall o, p: nat | o in n.objs && n.objs[o].kind != Shadow ensures Stored(store, Key(o, p)) == Content(n, o, p) {
      assert SameLink(n.objs[o], m.objs[o]);
    }
  }

  /** Dropping objects that no mapping needs goes unnoticed. */
  lemma RefinesPart(a: AState, spaces: seq<seq<Area>>, m: Mem, n: Mem, next: ObjId)
    requires ChainsOk(n.objs) && Part(n, m) && Refines(a, spaces, m, next) && KindsOk(spaces, n)
    ensures Refines(a, spaces, n, next)
  {
    hide ChainsOk, Part, Shows, StoreShows;
    forall i | 0 <= i < |spaces| ensures Shows(a.spaces[i], spaces[i], n) {
      ShowsPart(a.spaces[i], spaces[i], m, n);
    }
    StorePart(a.store, m, n, next);
  }

  // m grows to n by objects that nothing maps yet.
  lemma CellGrown(m: Mem, n: Mem, mp: Mapping)
    requires ChainsOk(m.objs) && Part(m, n) && mp.obj in m.objs
    ensures CellOf(n, mp) == CellOf(m, mp)
  {
    PartView(m, n, mp.obj, mp.page);
    FirstAtLive(m, mp.obj, mp.page);
  }

  lemma ShowsGrown(a: map<nat, APage>, areas: seq<Area>, m: Mem, n: Mem)
    requires ChainsOk(m.objs) && Part(m, n) && Shows(a, areas, m)
    requires forall v: nat :: PageAt(areas, v).Some? ==> PageAt(areas, v).value.obj in m.objs
    ensures Shows(a, areas, n)
  {
    hide ChainsOk, Part, CellOf;
    forall v: nat ensures Get(a, v) == Meaning(n, areas, v) {
      if PageAt(areas, v).Some? {
        CellGrown(m, n, PageAt(areas, v).value);
      }
    }
  }

  lemma RefinesGrown(a: AState, spaces: seq<seq<Area>>, m: Mem, n: Mem, next: ObjId, next': ObjId)
    requires ChainsOk(m.objs) && Part(m, n) && Refines(a, spaces, m, next) && KindsOk(spaces, m)
             && StoreShows(a.store, n, next')
    ensures Refines(a, spaces, n, next')
  {
    hide ChainsOk, Part, Shows, StoreShows;
    forall i | 0 <= i < |spaces| ensures Shows(a.spaces[i], spaces[i], n) {
      ShowsGrown(a.spaces[i], spaces[i], m, n);
    }
  }

  // ----- Carving -----

  lemma CarveShows(a: map<nat, APage>, areas: seq<Area>, m: Mem, lo: nat, hi: nat)
    requires Shows(a, areas, m) && lo <= hi
    ensures Shows(UnmapRange(a, lo, hi), Carve(areas, lo, hi), m)
  {
    forall v: nat ensures Get(UnmapRange(a, lo, hi), v) == Meaning(m, Carve(areas, lo, hi), v) {
      assert Get(a, v) == Meaning(m, areas, v);
      CarvePageAt(areas, lo, hi, v);
    }
  }

  lemma CarveRefines(a: AState, spaces: seq<seq<Area>>, m: Mem, next: ObjId, i: nat, lo: nat, hi: nat)
    requires Refines(a, spaces, m, next) && i < |spaces| && lo <= hi
    ensures Refines(Step(a, Unmap(i, lo, hi)), spaces[i := Carve(spaces[i], lo, hi)], m, next)
  {
    hide Shows, StoreShows;
    CarveShows(a.spaces[i], spaces[i], m, lo, hi);
  }

  // Restricting the page maps keeps every invariant that quantifies over mapped pages.
  ghost predicate Within(spaces': seq<seq<Area>>, spaces: seq<seq<Area>>) {
    && |spaces'| == |spaces|
    && (forall i :: 0 <= i < |spaces'| ==> WellFormed(spaces'[i]))
    && (forall i, v: nat :: 0 <= i < |spaces'| && PageAt(spaces'[i], v).Some? ==>
                              PageAt(spaces'[i], v) == PageAt(spaces[i], v))
  }

  lemma CarveWithinSpaces(spaces: seq<seq<Area>>, m: Mem, i: nat, lo: nat, hi: nat)
    requires KindsOk(spaces, m) && i < |spaces| && lo <= hi
    ensures Within(spaces[i := Carve(spaces[i], lo, hi)], spaces)
  {
    hide KindOk;
    var spaces' := spaces[i := Carve(spaces[i], lo, hi)];
    CarveWellFormed(spaces[i], lo, hi);
    forall j, v: nat | 0 <= j < |spaces'| && PageAt(spaces'[j], v).Some? ensures PageAt(spaces'[j], v) ==
                                                                                 PageAt(spaces[j], v) {
      if j == i {
        CarvePageAt(spaces[i], lo, hi, v);
      }
    }
  }

  lemma WithinOk(spaces': seq<seq<Area>>, spaces: seq<seq<Area>>, m: Mem)
    requires SpacesOk(spaces, m) && Within(spaces', spaces)
    ensures SpacesOk(spaces', m)
  {
    hide WellFormed, Free, KindOk, Apart;
    forall i, v: nat | 0 <= i < |spaces'| && PageAt(spaces'[i], v).Some?
      ensures KindOk(m, PageAt(spaces'[i], v).value) && Free(m.objs, PageAt(spaces'[i], v).value.obj)
    {
      assert PageAt(spaces'[i], v) == PageAt(spaces[i], v);
    }
    forall i, v: nat, j, w: nat | 0 <= i < |spaces'| && 0 <= j < |spaces'| && PageAt(spaces'[i], v).Some?
                                  && PageAt(spaces'[j], w).Some?
      ensures Apart(i, v, PageAt(spaces'[i], v).value, j, w, PageAt(spaces'[j], w).value)
    {
      assert PageAt(spaces'[i], v) == PageAt(spaces[i], v) && PageAt(spaces'[j], w) == PageAt(spaces[j], w);
    }
  }

  // ----- Mapped pages are held, so dropping other references keeps them -----

  lemma {:induction false} MappedHeld(areas: seq<Area>, v: nat)
    requires PageAt(areas, v).Some?
    ensures PageAt(areas, v).value.obj in Objs(areas)
  {
    var i := PageAtWitness(areas, v);
    ObjsContains(areas, i);
  }

  lemma FreePart(m: Mem, n: Mem, o: ObjId)
    requires Part(n, m) && Free(m.objs, o) && o in n.objs
    ensures Free(n.objs, o)
  {
    assert SameLink(n.objs[o], m.objs[o]);
    if n.objs[o].kind != File {
      forall s | s in Shadowers(n.objs, o) ensures s in Shadowers(m.objs, o) {
        assert SameLink(n.objs[s], m.objs[s]);
      }
    }
  }

  lemma SpacesPart(spaces: seq<seq<Area>>, m: Mem, n: Mem, h: multiset<ObjId>)
    requires SpacesOk(spaces, m) && Part(n, m) && RefsOk(n.objs, h) && AllObjs(spaces) <= h
    ensures SpacesOk(spaces, n)
  {
    hide WellFormed, Free, Exclusive, AllObjs, Objs, Users, Shadowers;
    forall i, v: nat | 0 <= i < |spaces| && PageAt(spaces[i], v).Some?
      ensures KindOk(n, PageAt(spaces[i], v).value) && Free(n.objs, PageAt(spaces[i], v).value.obj)
    {
      var mp := PageAt(spaces[i], v).value;
      MappedHeld(spaces[i], v);
      AllObjsContains(spaces, i);
      assert mp.obj in h;
      assert SameLink(n.objs[mp.obj], m.objs[mp.obj]);
      FreePart(m, n, mp.obj);
    }
  }
}
