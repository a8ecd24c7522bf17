/**
 What the area loop of do_fork builds. Each private area of the parent and its copy in the child get a
 shadow object of their own over the object both used to share; shared areas keep their object.
 */
module Forking {
  import opened PageTypes
  import opened AreaList
  import opened MemObjects
  import opened References
  import opened Memory
  import opened EagerCopy
  import opened Spaces
  import opened NewMappings

  // The same areas with other objects.
  ghost predicate Relabelled(orig: seq<Area>, areas: seq<Area>) {
    |areas| == |orig| && forall x :: 0 <= x < |orig| ==> areas[x] == orig[x].(obj := areas[x].obj)
  }

  ghost predicate SharedKept(orig: seq<Area>, areas: seq<Area>) {
    |areas| == |orig| && forall x :: 0 <= x < |orig| && orig[x].flags == Shared ==> areas[x] == orig[x]
  }

  // No two areas have the object of a private area in common.
  ghost predicate PrivateAlone(areas: seq<Area>) {
    forall x, y :: 0 <= x < |areas| && 0 <= y < |areas| && areas[x].flags == Private && areas[y].obj == areas[x].obj ==>
                     x == y
  }

  lemma RelabelledOk(orig: seq<Area>, areas: seq<Area>)
    requires WellFormed(orig) && Relabelled(orig, areas)
    ensures WellFormed(areas)
  {
  }

  lemma RelabelledPage(orig: seq<Area>, areas: seq<Area>, v: nat) returns (x: nat)
    requires WellFormed(orig) && Relabelled(orig, areas)
    ensures PageAt(areas, v).Some? <==> PageAt(orig, v).Some?
    ensures PageAt(areas, v).Some? ==>
              && x < |orig| && Covers(orig[x], v)
              && PageAt(areas, v) == Some(MappingOf(areas[x], v)) && PageAt(orig, v) == Some(MappingOf(orig[x], v))
  {
    hide WellFormed;
    RelabelledOk(orig, areas);
    x := 0;
    if PageAt(orig, v).Some? {
      x := PageAtWitness(orig, v);
      PageAtIndex(areas, x, v);
    } else if PageAt(areas, v).Some? {
      x := PageAtWitness(areas, v);
      PageAtIndex(orig, x, v);
    }
  }

  /** Object s is a new, unshadowed shadow object over o. */
  ghost predicate Above(m: Mem, s: ObjId, o: ObjId) {
    s in m.objs && m.objs[s].kind == Shadow && m.objs[s].shadowed == o && Shadowers(m.objs, s) == {}
  }

  // How far apart area x of parent and child are, once the loop has passed it.
  ghost predicate Split(m: Mem, low: ObjId, next: ObjId, orig: Area, parent: Area, child: Area) {
    if orig.flags == Shared then parent.obj == child.obj == orig.obj
    else low <= child.obj < parent.obj < next && Above(m, parent.obj, orig.obj) && Above(m, child.obj, orig.obj)
  }

  ghost predicate Ordered(orig: seq<Area>, parent: seq<Area>, child: seq<Area>, k: nat)
    requires |orig| == |parent| == |child| && k <= |orig|
  {
    forall x, y :: 0 <= x < y < k && orig[x].flags == Private && orig[y].flags == Private ==>
                     parent[x].obj < child[y].obj
  }

  // No private area has object o.
  ghost predicate Spared(orig: seq<Area>, o: ObjId) {
    forall x :: 0 <= x < |orig| && orig[x].flags == Private ==> orig[x].obj != o
  }

  /** Memory m0 has grown to m by the objects of the first k areas. */
  ghost predicate ForkMem(m0: Mem, m: Mem, orig: seq<Area>) {
    && Part(m0, m) && m.frames == m0.frames && m.disk == m0.disk
    && (forall o :: Free(m0.objs, o) && Spared(orig, o) ==> Free(m.objs, o))
  }

  /** The state of the loop after k areas; low is the first name given out by this fork. */
  ghost predicate ForkInv(m0: Mem, m: Mem, low: ObjId, next: ObjId, orig: seq<Area>, parent: seq<Area>,
                          child: seq<Area>, k: nat) {
    && Relabelled(orig, parent) && Relabelled(orig, child) && k <= |orig| && low <= next
    && (forall x :: k <= x < |orig| ==> parent[x] == orig[x])
    && (forall x :: 0 <= x < k ==> Split(m, low, next, orig[x], parent[x], child[x]))
    && Ordered(orig, parent, child, k)
    && ForkMem(m0, m, orig)
  }

  // ----- One turn of the loop -----

  lemma AboveKept(m: Mem, n: Mem, s: ObjId, o: ObjId, t: ObjId, u: ObjId)
    requires Above(m, s, o) && u in m.objs && t !in m.objs && t != u && s != u
    requires n.objs == m.objs[t := NewShadow(u, m.objs[u].bottom)]
    ensures Above(n, s, o)
  {
    assert Shadowers(n.objs, s) == Shadowers(m.objs, s);
  }

  lemma SplitKept(m: Mem, n: Mem, low: ObjId, next: ObjId, next': ObjId, a: Area, p: Area, c: Area, t: ObjId, u: ObjId)
    requires Split(m, low, next, a, p, c) && next <= next' && u in m.objs && t !in m.objs && u < low && u < t
    requires n.objs == m.objs[t := NewShadow(u, m.objs[u].bottom)]
    ensures Split(n, low, next', a, p, c)
  {
    hide Above;
    if a.flags == Private {
      AboveKept(m, n, p.obj, a.obj, t, u);
      AboveKept(m, n, c.obj, a.obj, t, u);
    }
  }

  lemma SplitRef(m: Mem, low: ObjId, next: ObjId, a: Area, p: Area, c: Area, u: ObjId)
    requires Split(m, low, next, a, p, c) && u in m.objs
    ensures Split(WithRefs(m, u, 1), low, next, a, p, c)
  {
    if a.flags == Private {
      assert Shadowers(WithRefs(m, u, 1).objs, p.obj) == Shadowers(m.objs, p.obj);
      assert Shadowers(WithRefs(m, u, 1).objs, c.obj) == Shadowers(m.objs, c.obj);
    }
  }

  lemma RefMem(m0: Mem, m: Mem, orig: seq<Area>, o: ObjId)
    requires ForkMem(m0, m, orig) && o in m.objs
    ensures ForkMem(m0, WithRefs(m, o, 1), orig)
  {
    hide Spared;
    var n := WithRefs(m, o, 1);
    forall x | Free(m0.objs, x) && Spared(orig, x) ensures Free(n.objs, x) {
      assert Free(m.objs, x);
      assert Shadowers(n.objs, x) == Shadowers(m.objs, x);
    }
  }

  lemma ShadowMem(m0: Mem, m: Mem, h: multiset<ObjId>, orig: seq<Area>, k: nat, s: ObjId, store: map<Key, Page>)
    requires ForkMem(m0, m, orig) && k < |orig| && orig[k].flags == Private && orig[k].obj in m.objs
    requires MemOk(m, h, {}) && NamesBelow(m.objs, s) && StoreShows(store, m, s)
    ensures ForkMem(m0, Shadowed(m, orig[k].obj, s), orig) && Above(Shadowed(m, orig[k].obj, s), s, orig[k].obj)
    ensures StoreShows(store, Shadowed(m, orig[k].obj, s), s + 1) && s !in m.objs
  {
    hide MemOk, NamesBelow, StoreShows, Part, Free, ChainsOk, Shadowers;
    var n := Shadowed(m, orig[k].obj, s);
    ShadowPart(m, h, orig[k].obj, s, store);
    PartTransitive(m0, m, n);
    Chained(m, h, {}, orig[k].obj);
    forall x | Free(m0.objs, x) && Spared(orig, x) ensures Free(n.objs, x) {
      ShadowFree(m, orig[k].obj, s, x);
    }
  }

  lemma StoreRef(store: map<Key, Page>, m: Mem, o: ObjId, next: ObjId)
    requires StoreShows(store, m, next) && o in m.objs
    ensures StoreShows(store, WithRefs(m, o, 1), next)
  {
  }

  // The three changes of memory for a private area.
  lemma PrivateMem(m0: Mem, m: Mem, h: multiset<ObjId>, orig: seq<Area>, k: nat, next: ObjId, store: map<Key, Page>)
    requires ForkMem(m0, m, orig) && k < |orig| && orig[k].flags == Private && orig[k].obj in h && orig[k].obj in m.objs
    requires MemOk(m, h, {}) && NamesBelow(m.objs, next) && StoreShows(store, m, next)
    ensures next !in m.objs && next + 1 !in m.objs
    ensures var m2 := Shadowed(WithRefs(m, orig[k].obj, 1), orig[k].obj, next);
            var m3 := Shadowed(m2, orig[k].obj, next + 1);
            && Above(m2, next, orig[k].obj) && Above(m3, next + 1, orig[k].obj)
            && ForkMem(m0, m3, orig) && StoreShows(store, m3, next + 2)
  {
    hide ForkMem, MemOk, NamesBelow, StoreShows, Above;
    var o := orig[k].obj;
    var m1 := WithRefs(m, o, 1);
    var m2 := Shadowed(m1, o, next);
    RefMem(m0, m, orig, o);
    Referenced(m, h, o);
    NamesSame(m.objs, m1.objs, next);
    StoreRef(store, m, o, next);
    var h1 := h + multiset{o};
    ShadowMem(m0, m1, h1, orig, k, next, store);
    ShadowCreated(m1, h1, o, next);
    var h2 := h1 - multiset{o} + multiset{next};
    ShadowMem(m0, m2, h2, orig, k, next + 1, store);
  }

  lemma SharedStep(m0: Mem, m: Mem, low: ObjId, next: ObjId, orig: seq<Area>, parent: seq<Area>, child: seq<Area>,
                   k: nat)
    requires ForkInv(m0, m, low, next, orig, parent, child, k) && k < |orig| && orig[k].flags == Shared
             && orig[k].obj in m.objs
    ensures ForkInv(m0, WithRefs(m, orig[k].obj, 1), low, next, orig, parent,
                    child[k := child[k].(obj := orig[k].obj)], k + 1)
  {
    hide ForkMem, Above;
    RefMem(m0, m, orig, orig[k].obj);
    forall x | 0 <= x < k ensures Split(WithRefs(m, orig[k].obj, 1), low, next, orig[x], parent[x], child[x]) {
      SplitRef(m, low, next, orig[x], parent[x], child[x], orig[k].obj);
    }
  }

  // The three changes of memory for a private area, seen from an area the loop has passed.
  lemma SplitThrice(m: Mem, low: ObjId, next: ObjId, a: Area, p: Area, c: Area, o: ObjId)
    requires Split(m, low, next, a, p, c) && o in m.objs && o < low <= next && next !in m.objs && next + 1 !in m.objs
    ensures Split(Shadowed(Shadowed(WithRefs(m, o, 1), o, next), o, next + 1), low, next + 2, a, p, c)
  {
    hide Split;
    var m1 := WithRefs(m, o, 1);
    var m2 := Shadowed(m1, o, next);
    SplitRef(m, low, next, a, p, c, o);
    SplitKept(m1, m2, low, next, next + 1, a, p, c, next, o);
    SplitKept(m2, Shadowed(m2, o, next + 1), low, next + 1, next + 2, a, p, c, next + 1, o);
  }

  lemma PrivateStep(m0: Mem, m: Mem, low: ObjId, next: ObjId, orig: seq<Area>, parent: seq<Area>, child: seq<Area>,
                    k: nat)
    requires ForkInv(m0, m, low, next, orig, parent, child, k) && k < |orig| && orig[k].flags == Private
    requires orig[k].obj in m.objs && orig[k].obj < low && next !in m.objs && next + 1 !in m.objs
    requires var m2 := Shadowed(WithRefs(m, orig[k].obj, 1), orig[k].obj, next);
             Above(m2, next, orig[k].obj) && Above(Shadowed(m2, orig[k].obj, next + 1), next + 1, orig[k].obj)
             && ForkMem(m0, Shadowed(m2, orig[k].obj, next + 1), orig)
    ensures ForkInv(m0, Shadowed(Shadowed(WithRefs(m, orig[k].obj, 1), orig[k].obj, next), orig[k].obj, next + 1), low,
                    next + 2,
                    orig, parent[k := parent[k].(obj := next + 1)], child[k := child[k].(obj := next)], k + 1)
  {
    hide ForkMem, Above;
    var o := orig[k].obj;
    var m2 := Shadowed(WithRefs(m, o, 1), o, next);
    var m3 := Shadowed(m2, o, next + 1);
    AboveKept(m2, m3, next, o, next + 1, o);
    forall x | 0 <= x < k ensures Split(m3, low, next + 2, orig[x], parent[x], child[x]) {
      SplitThrice(m, low, next, orig[x], parent[x], child[x], o);
    }
  }

  // ----- When the loop is done -----

  lemma NewCell(m0: Mem, m: Mem, s: ObjId, o: ObjId, p: nat)
    requires ChainsOk(m0.objs) && Part(m0, m) && m.frames == m0.frames && o in m0.objs && Above(m, s, o) && o < s
             && Key(s, p) !in m0.frames
    ensures PrivateCell(m, s, p) == PrivateCell(m0, o, p)
  {
    PartView(m0, m, o, p);
    FirstAtLive(m0, o, p);
  }

  lemma SplitCells(m0: Mem, m: Mem, low: ObjId, next: ObjId, a: Area, parent: Area, child: Area, p: nat)
    requires ChainsOk(m0.objs) && Part(m0, m) && m.frames == m0.frames && Split(m, low, next, a, parent, child)
    requires a.obj in m0.objs && a.obj < low && forall k :: k in m0.frames ==> k.obj < low
    ensures ObjCell(m, parent.obj, a.flags, p) == ObjCell(m0, a.obj, a.flags, p) == ObjCell(m, child.obj, a.flags, p)
  {
    hide ChainsOk, Part, Above, PrivateCell;
    if a.flags == Private {
      NewCell(m0, m, parent.obj, a.obj, p);
      NewCell(m0, m, child.obj, a.obj, p);
    }
  }

  lemma ForkShows(a: map<nat, APage>, m0: Mem, m: Mem, low: ObjId, next: ObjId, orig: seq<Area>, parent: seq<Area>,
                  child: seq<Area>)
    requires ForkInv(m0, m, low, next, orig, parent, child, |orig|) && WellFormed(orig) && Shows(a, orig, m0)
             && ChainsOk(m0.objs)
    requires forall k :: k in m0.frames ==> k.obj < low
    requires forall x :: 0 <= x < |orig| ==> orig[x].obj in m0.objs && orig[x].obj < low
    ensures Shows(a, parent, m) && Shows(a, child, m)
  {
    hide WellFormed, Split, ObjCell, ChainsOk, Part, Free;
    forall v: nat ensures Get(a, v) == Meaning(m, parent, v) && Get(a, v) == Meaning(m, child, v) {
      assert Get(a, v) == Meaning(m0, orig, v);
      var x := RelabelledPage(orig, parent, v);
      var y := RelabelledPage(orig, child, v);
      if PageAt(orig, v).Some? {
        SplitCells(m0, m, low, next, orig[x], parent[x], child[x], ObjPage(orig[x], v));
        SplitCells(m0, m, low, next, orig[y], parent[y], child[y], ObjPage(orig[y], v));
      }
    }
  }

  function Forked(spaces: seq<seq<Area>>, i: nat, parent: seq<Area>, child: seq<Area>): seq<seq<Area>>
    requires i < |spaces|
  {
    spaces[i := parent] + [child]
  }

  // The mapping that the first page of an area has.
  lemma AreaMapping(spaces: seq<seq<Area>>, m: Mem, i: nat, x: nat)
    requires KindsOk(spaces, m) && i < |spaces| && x < |spaces[i]|
    ensures PageAt(spaces[i], spaces[i][x].start) == Some(MappingOf(spaces[i][x], spaces[i][x].start))
    ensures KindOk(m, MappingOf(spaces[i][x], spaces[i][x].start))
  {
    PageAtIndex(spaces[i], x, spaces[i][x].start);
  }

  lemma SparedElsewhere(spaces: seq<seq<Area>>, m: Mem, i: nat, j: nat, v: nat)
    requires SpacesOk(spaces, m) && i < |spaces| && j < |spaces| && PageAt(spaces[j], v).Some?
    requires j != i || PageAt(spaces[j], v).value.flags == Shared
    ensures Spared(spaces[i], PageAt(spaces[j], v).value.obj)
  {
    hide TopsFree, WellFormed;
    var mp := PageAt(spaces[j], v).value;
    forall x | 0 <= x < |spaces[i]| && spaces[i][x].flags == Private ensures spaces[i][x].obj != mp.obj {
      var w := spaces[i][x].start;
      AreaMapping(spaces, m, i, x);
      assert Apart(i, w, PageAt(spaces[i], w).value, j, v, mp);
      assert KindOk(m, mp);
    }
  }

  // The pages that keep their mapping.
  lemma KeptPage(spaces: seq<seq<Area>>, m0: Mem, m: Mem, low: ObjId, i: nat, j: nat, v: nat)
    requires i < |spaces| && j < |spaces| && SpacesOk(spaces, m0) && NamesBelow(m0.objs, low)
             && ForkMem(m0, m, spaces[i])
    requires PageAt(spaces[j], v).Some? && (j != i || PageAt(spaces[j], v).value.flags == Shared)
    ensures var mp := PageAt(spaces[j], v).value;
            mp.obj in m0.objs && mp.obj < low && KindOk(m, mp) && Free(m.objs, mp.obj)
  {
    hide Exclusive, WellFormed, Free, Spared;
    var mp := PageAt(spaces[j], v).value;
    SparedElsewhere(spaces, m0, i, j, v);
    assert KindOk(m0, mp) && Free(m0.objs, mp.obj);
    assert SameLink(m0.objs[mp.obj], m.objs[mp.obj]);
  }

  /** Every page after the fork is either as before or on one of the new shadow objects. */
  lemma ForkPage(spaces: seq<seq<Area>>, m0: Mem, m: Mem, low: ObjId, next: ObjId, i: nat, parent: seq<Area>,
                 child: seq<Area>, j: nat, v: nat)
    returns (renewed: bool, x: nat)
    requires SpacesOk(spaces, m0) && NamesBelow(m0.objs, low) && i < |spaces| && WellFormed(spaces[i])
    requires ForkInv(m0, m, low, next, spaces[i], parent, child, |spaces[i]|)
    requires j <= |spaces| && PageAt(Forked(spaces, i, parent, child)[j], v).Some?
    ensures var mp := PageAt(Forked(spaces, i, parent, child)[j], v).value;
            && KindOk(m, mp) && Free(m.objs, mp.obj)
            && (!renewed ==>
                  var j0 := if j == |spaces| then i else j;
                  mp.obj < low && PageAt(spaces[j0], v) == Some(mp) && (j0 == i ==> mp.flags == Shared))
            && (renewed ==>
                  && (j == i || j == |spaces|) && x < |spaces[i]| && spaces[i][x].flags == Private
                  && mp.flags == Private
                  && Covers((if j == i then parent else child)[x], v) && low <= mp.obj
                  && mp == MappingOf((if j == i then parent else child)[x], v))
  {
    hide SpacesOk, WellFormed, ForkMem, Ordered;
    renewed, x := false, 0;
    if j == i || j == |spaces| {
      var areas := if j == i then parent else child;
      x := RelabelledPage(spaces[i], areas, v);
      renewed := spaces[i][x].flags == Private;
      assert Split(m, low, next, spaces[i][x], parent[x], child[x]);
    }
    if !renewed {
      KeptPage(spaces, m0, m, low, i, if j == |spaces| then i else j, v);
    }
  }

  lemma ForkKinds(spaces: seq<seq<Area>>, m0: Mem, m: Mem, low: ObjId, next: ObjId, i: nat, parent: seq<Area>,
                  child: seq<Area>)
    requires SpacesOk(spaces, m0) && NamesBelow(m0.objs, low) && i < |spaces| && WellFormed(spaces[i])
    requires ForkInv(m0, m, low, next, spaces[i], parent, child, |spaces[i]|)
    ensures KindsOk(Forked(spaces, i, parent, child), m) && TopsFree(Forked(spaces, i, parent, child), m.objs)
  {
    hide Split, ForkMem, Ordered, WellFormed, TopsFree, Exclusive, KindOk, Free, Relabelled;
    var t := Forked(spaces, i, parent, child);
    RelabelledOk(spaces[i], parent);
    RelabelledOk(spaces[i], child);
    forall j, v: nat | 0 <= j < |t| && PageAt(t[j], v).Some?
      ensures KindOk(m, PageAt(t[j], v).value) && Free(m.objs, PageAt(t[j], v).value.obj)
    {
      var renewed, x := ForkPage(spaces, m0, m, low, next, i, parent, child, j, v);
    }
    FreeEverywhere(t, m.objs);
  }

  lemma FreeEverywhere(spaces: seq<seq<Area>>, objs: map<ObjId, MmObj>)
    requires forall j, v: nat :: 0 <= j < |spaces| && PageAt(spaces[j], v).Some? ==>
                                   Free(objs, PageAt(spaces[j], v).value.obj)
    ensures TopsFree(spaces, objs)
  {
  }

  // Two new shadow objects are the same only for the same area of the same process.
  lemma NewApart(m: Mem, low: ObjId, next: ObjId, orig: seq<Area>, parent: seq<Area>, child: seq<Area>, x: nat, y: nat,
                 xp: bool, yp: bool)
    requires |orig| == |parent| == |child| && Ordered(orig, parent, child, |orig|) && x < |orig| && y < |orig|
    requires orig[x].flags == Private && orig[y].flags == Private
    requires Split(m, low, next, orig[x], parent[x], child[x]) && Split(m, low, next, orig[y], parent[y], child[y])
    requires (if xp then parent else child)[x].obj == (if yp then parent else child)[y].obj
    ensures x == y && xp == yp
  {
    hide Above;
  }

  lemma ForkExclusive(spaces: seq<seq<Area>>, m0: Mem, m: Mem, low: ObjId, next: ObjId, i: nat, parent: seq<Area>,
                      child: seq<Area>)
    requires SpacesOk(spaces, m0) && NamesBelow(m0.objs, low) && i < |spaces| && WellFormed(spaces[i])
    requires ForkInv(m0, m, low, next, spaces[i], parent, child, |spaces[i]|)
    ensures Exclusive(Forked(spaces, i, parent, child))
  {
    hide Split, ForkMem, Ordered, WellFormed, TopsFree, KindsOk, KindOk, Free;
    var t := Forked(spaces, i, parent, child);
    forall j, v: nat, k, w: nat | 0 <= j < |t| && 0 <= k < |t| && PageAt(t[j], v).Some? && PageAt(t[k], w).Some?
      ensures Apart(j, v, PageAt(t[j], v).value, k, w, PageAt(t[k], w).value)
    {
      var jn, x := ForkPage(spaces, m0, m, low, next, i, parent, child, j, v);
      var kn, y := ForkPage(spaces, m0, m, low, next, i, parent, child, k, w);
      var mp, mq := PageAt(t[j], v).value, PageAt(t[k], w).value;
      if mp.flags == Private && mp.obj == mq.obj {
        if jn {
          NewApart(m, low, next, spaces[i], parent, child, x, y, j == i, k == i);
        } else {
          assert Apart(j, v, mp, if k == |spaces| then i else k, w, mq);
        }
      }
    }
  }

  lemma ForkRefines(a: AState, spaces: seq<seq<Area>>, m0: Mem, h: multiset<ObjId>, m: Mem, low: ObjId, next: ObjId,
                    i: nat, parent: seq<Area>, child: seq<Area>)
    requires SpacesOk(spaces, m0) && NamesBelow(m0.objs, low) && MemOk(m0, h, {}) && i < |spaces|
             && Refines(a, spaces, m0, low)
    requires ForkInv(m0, m, low, next, spaces[i], parent, child, |spaces[i]|) && StoreShows(a.store, m, next)
    ensures Refines(Step(a, Fork(i)), Forked(spaces, i, parent, child), m, next)
  {
    hide ForkInv, MemOk, SpacesOk, Shows, StoreShows, NamesBelow;
    ForkFacts(spaces, m0, h, m, low, next, i, parent, child);
    ForkShows(a.spaces[i], m0, m, low, next, spaces[i], parent, child);
    RefinesGrown(a, spaces, m0, m, low, next);
  }

  // The objects the loop hands out are new, so no two areas of one process have the same.
  lemma ForkObjects(m0: Mem, m: Mem, low: ObjId, next: ObjId, orig: seq<Area>, parent: seq<Area>, child: seq<Area>)
    requires ForkInv(m0, m, low, next, orig, parent, child, |orig|)
    requires forall x :: 0 <= x < |orig| ==> orig[x].obj < low
    ensures SharedKept(orig, child) && PrivateAlone(parent) && PrivateAlone(child)
  {
    hide Above, ForkMem;
    forall x | 0 <= x < |orig|
      ensures parent[x] == orig[x].(obj := parent[x].obj) && child[x] == orig[x].(obj := child[x].obj)
              && Split(m, low, next, orig[x], parent[x], child[x])
    {
    }
    forall x, y | 0 <= x < |orig| && 0 <= y < |orig| && orig[x].flags == Private && x != y
      ensures parent[x].obj != parent[y].obj && child[x].obj != child[y].obj
    {
      if orig[y].flags == Private {
        assert if x < y then parent[x].obj < child[y].obj else parent[y].obj < child[x].obj;
      }
    }
  }

  lemma ForkFacts(spaces: seq<seq<Area>>, m0: Mem, h: multiset<ObjId>, m: Mem, low: ObjId, next: ObjId, i: nat,
                  parent: seq<Area>, child: seq<Area>)
    requires SpacesOk(spaces, m0) && NamesBelow(m0.objs, low) && MemOk(m0, h, {}) && i < |spaces|
    requires ForkInv(m0, m, low, next, spaces[i], parent, child, |spaces[i]|)
    ensures ChainsOk(m0.objs) && KindsOk(spaces, m0) && Part(m0, m) && WellFormed(spaces[i])
    ensures Relabelled(spaces[i], parent) && Relabelled(spaces[i], child) && SharedKept(spaces[i], child)
    ensures PrivateAlone(parent) && PrivateAlone(child)
    ensures forall k :: k in m0.frames ==> k.obj < low
    ensures forall x :: 0 <= x < |spaces[i]| ==> spaces[i][x].obj in m0.objs && spaces[i][x].obj < low
  {
    hide ChainsOk, RefsOk, PinsOk, WellFormed, TopsFree, Exclusive, Split, Ordered, Relabelled, Part, SharedKept,
      PrivateAlone;
    forall x | 0 <= x < |spaces[i]| ensures spaces[i][x].obj in m0.objs && spaces[i][x].obj < low {
      AreaMapping(spaces, m0, i, x);
    }
    ForkObjects(m0, m, low, next, spaces[i], parent, child);
  }
}
