/** An area whose end is moved in place, under live address spaces: what do_brk does to the dynamic region. */
module Resizing {
  import opened PageTypes
  import opened AreaList
  import opened MemObjects
  import opened EagerCopy
  import opened Spaces
  import opened Translations
  import opened Eviction
  import opened AreaLinks

  // ----- Moving the end of an area -----

  function Resized(areas: seq<Area>, a: Area, end: nat): seq<Area> {
    if areas == [] then []
    else if areas[0] == a then [a.(end := end)] + areas[1..]
    else [areas[0]] + Resized(areas[1..], a, end)
  }

  lemma {:induction false} ResizedElements(areas: seq<Area>, a: Area, end: nat) returns (k: nat)
    requires a in areas
    ensures k < |areas| && areas[k] == a && Resized(areas, a, end) == areas[k := a.(end := end)]
  {
    if areas[0] == a {
      k := 0;
    } else {
      var r := ResizedElements(areas[1..], a, end);
      k := r + 1;
    }
  }

  lemma ResizedWellFormed(areas: seq<Area>, a: Area, end: nat, k: nat)
    requires WellFormed(areas) && k < |areas| && areas[k] == a && AreaOk(a.(end := end))
             && (a.end < end ==> Unmapped(areas, a.end, end))
    ensures WellFormed(areas[k := a.(end := end)])
  {
    var r := areas[k := a.(end := end)];
    if a.end < end {
      UnmappedIffDisjoint(areas, a.end, end);
    }
    forall i, j | 0 <= i < j < |r| ensures r[i].end <= r[j].start {
      assert areas[i].end <= areas[j].start;
    }
  }

  lemma ResizedAt(areas: seq<Area>, a: Area, end: nat, k: nat, v: nat)
    requires WellFormed(areas) && k < |areas| && areas[k] == a && WellFormed(areas[k := a.(end := end)])
    ensures PageAt(areas[k := a.(end := end)], v) ==
            if a.start <= v < end then Some(MappingOf(a, v)) else if Covers(a, v) then None else PageAt(areas, v)
  {
    var r := areas[k := a.(end := end)];
    if a.start <= v < end {
      PageAtIndex(r, k, v);
    } else if PageAt(areas, v).Some? && !Covers(a, v) {
      var i := PageAtWitness(areas, v);
      PageAtIndex(r, i, v);
    } else {
      forall i | 0 <= i < |r| ensures !Covers(r[i], v) {
        if i != k && Covers(areas[i], v) {
          PageAtIndex(areas, i, v);
        }
      }
      PageAtNone(r, v);
    }
  }

  /** An area can grow over free pages or shrink: its pages up to the new end are mapped, those beyond are not. */
  lemma ResizedOk(areas: seq<Area>, a: Area, end: nat)
    requires WellFormed(areas) && a in areas && AreaOk(a.(end := end)) && (a.end < end ==> Unmapped(areas, a.end, end))
    ensures WellFormed(Resized(areas, a, end)) && a.(end := end) in Resized(areas, a, end)
    ensures forall x :: x in areas && x != a ==> x in Resized(areas, a, end)
    ensures forall v: nat :: PageAt(Resized(areas, a, end), v) ==
                             if a.start <= v < end then Some(MappingOf(a, v)) else if Covers(a, v) then None
                             else PageAt(areas, v)
  {
    hide WellFormed, Unmapped, Resized, AreaOk, Covers;
    var k := ResizedElements(areas, a, end);
    ResizedWellFormed(areas, a, end, k);
    var r := areas[k := a.(end := end)];
    assert r[k] == a.(end := end);
    forall x | x in areas && x != a ensures x in r {
      var i :| 0 <= i < |areas| && areas[i] == x;
      assert r[i] == x;
    }
    forall v: nat ensures PageAt(r, v) == if a.start <= v < end then Some(MappingOf(a, v)) else if Covers(a, v)
                                          then None else PageAt(areas, v) {
      ResizedAt(areas, a, end, k, v);
    }
  }

  // ----- The address spaces -----

  // No other area of the process has the same object.
  predicate Alone(areas: seq<Area>, a: Area) {
    forall b :: b in areas && b.obj == a.obj ==> b == a
  }

  // The page map of a process gains the pages from a.end to end.
  ghost predicate Gains(areas: seq<Area>, areas': seq<Area>, a: Area, end: nat) {
    forall v: nat :: PageAt(areas', v) ==
                     if a.end <= v < end && a.start <= v then Some(MappingOf(a, v)) else PageAt(areas, v)
  }

  lemma ResizedGains(areas: seq<Area>, a: Area, end: nat)
    requires WellFormed(areas) && a in areas && AreaOk(a.(end := end)) && a.end < end && Unmapped(areas, a.end, end)
    ensures WellFormed(Resized(areas, a, end)) && Gains(areas, Resized(areas, a, end), a, end)
  {
    hide WellFormed, Unmapped, Resized;
    ResizedOk(areas, a, end);
    AreaIn(areas, a);
    var k :| 0 <= k < |areas| && areas[k] == a;
    forall v: nat | Covers(a, v) ensures PageAt(areas, v) == Some(MappingOf(a, v)) {
      PageAtIndex(areas, k, v);
    }
  }

  lemma ResizedLoses(areas: seq<Area>, a: Area, end: nat)
    requires WellFormed(areas) && a in areas && AreaOk(a.(end := end)) && end <= a.end
    ensures WellFormed(Resized(areas, a, end))
    ensures forall v: nat :: PageAt(Resized(areas, a, end), v) == if end <= v < a.end then None else PageAt(areas, v)
  {
    hide WellFormed, Unmapped, Resized;
    ResizedOk(areas, a, end);
    AreaIn(areas, a);
    var k :| 0 <= k < |areas| && areas[k] == a;
    forall v: nat | Covers(a, v) ensures PageAt(areas, v) == Some(MappingOf(a, v)) {
      PageAtIndex(areas, k, v);
    }
  }

  lemma StartMapped(areas: seq<Area>, a: Area)
    requires WellFormed(areas) && a in areas
    ensures PageAt(areas, a.start) == Some(MappingOf(a, a.start))
  {
    var k :| 0 <= k < |areas| && areas[k] == a;
    PageAtIndex(areas, k, a.start);
  }

  // Where an object is mapped that only a has, it is mapped by a.
  lemma AloneAt(areas: seq<Area>, a: Area, v: nat)
    requires Alone(areas, a) && PageAt(areas, v).Some? && PageAt(areas, v).value.obj == a.obj
    ensures Covers(a, v) && PageAt(areas, v) == Some(MappingOf(a, v))
  {
    var k := PageAtWitness(areas, v);
    assert areas[k] in areas;
  }

  lemma GrownKinds(spaces: seq<seq<Area>>, m: Mem, i: nat, a: Area, end: nat)
    requires KindsOk(spaces, m) && TopsFree(spaces, m.objs) && i < |spaces| && a in spaces[i]
             && AreaOk(a.(end := end)) && a.end < end && Unmapped(spaces[i], a.end, end)
    ensures var spaces' := spaces[i := Resized(spaces[i], a, end)]; KindsOk(spaces', m) && TopsFree(spaces', m.objs)
  {
    hide WellFormed, Unmapped, Resized, Free, KindOk;
    ResizedGains(spaces[i], a, end);
    StartMapped(spaces[i], a);
    var spaces' := spaces[i := Resized(spaces[i], a, end)];
    var mp := MappingOf(a, a.start);
    assert KindOk(m, mp) && Free(m.objs, mp.obj);
    forall j, v: nat | 0 <= j < |spaces'| && PageAt(spaces'[j], v).Some?
      ensures KindOk(m, PageAt(spaces'[j], v).value) && Free(m.objs, PageAt(spaces'[j], v).value.obj)
    {
      if j == i && PageAt(spaces'[i], v) != PageAt(spaces[i], v) {
        SameKind(m, mp, MappingOf(a, v));
      } else {
        assert PageAt(spaces[j], v).Some?;
      }
    }
  }

  lemma SameKind(m: Mem, mp: Mapping, mq: Mapping)
    requires KindOk(m, mp) && mq.obj == mp.obj && mq.flags == mp.flags
    ensures KindOk(m, mq)
  {
  }

  lemma GrownExclusive(spaces: seq<seq<Area>>, i: nat, a: Area, end: nat)
    requires (forall j :: 0 <= j < |spaces| ==> WellFormed(spaces[j])) && Exclusive(spaces)
    requires i < |spaces| && a in spaces[i] && Alone(spaces[i], a)
             && AreaOk(a.(end := end)) && a.end < end && Unmapped(spaces[i], a.end, end)
    requires a.flags == Private
    ensures Exclusive(spaces[i := Resized(spaces[i], a, end)])
  {
    hide WellFormed, Unmapped, Resized, Alone;
    ResizedGains(spaces[i], a, end);
    AreaIn(spaces[i], a);
    var spaces' := spaces[i := Resized(spaces[i], a, end)];
    forall j, v: nat, k, w: nat | 0 <= j < |spaces'| && 0 <= k < |spaces'| && PageAt(spaces'[j], v).Some?
                                  && PageAt(spaces'[k], w).Some?
      ensures Apart(j, v, PageAt(spaces'[j], v).value, k, w, PageAt(spaces'[k], w).value)
    {
      GrownApart(spaces, i, a, end, j, v, k, w);
    }
  }

  lemma GrownApart(spaces: seq<seq<Area>>, i: nat, a: Area, end: nat, j: nat, v: nat, k: nat, w: nat)
    requires (forall x :: 0 <= x < |spaces| ==> WellFormed(spaces[x])) && Exclusive(spaces)
    requires i < |spaces| && a in spaces[i] && Alone(spaces[i], a) && AreaOk(a) && a.end < end && a.flags == Private
    requires Gains(spaces[i], Resized(spaces[i], a, end), a, end)
    requires j < |spaces| && k < |spaces|
    requires var spaces' := spaces[i := Resized(spaces[i], a, end)];
             PageAt(spaces'[j], v).Some? && PageAt(spaces'[k], w).Some?
    ensures var spaces' := spaces[i := Resized(spaces[i], a, end)];
            Apart(j, v, PageAt(spaces'[j], v).value, k, w, PageAt(spaces'[k], w).value)
  {
    hide WellFormed, Resized, Alone;
    var spaces' := spaces[i := Resized(spaces[i], a, end)];
    StartMapped(spaces[i], a);
    var newV, newW := j == i && a.end <= v < end, k == i && a.end <= w < end;
    if newV && !newW {
      OldApart(spaces, i, a, k, w);
    } else if newW && !newV {
      OldApart(spaces, i, a, j, v);
    } else if !newV && !newW {
      assert PageAt(spaces'[j], v) == PageAt(spaces[j], v) && PageAt(spaces'[k], w) == PageAt(spaces[k], w);
    }
  }

  // A page that maps the object of a is a page of a.
  lemma OldApart(spaces: seq<seq<Area>>, i: nat, a: Area, k: nat, w: nat)
    requires Exclusive(spaces) && i < |spaces| && k < |spaces| && a.flags == Private && Alone(spaces[i], a)
    requires PageAt(spaces[i], a.start) == Some(MappingOf(a, a.start)) && PageAt(spaces[k], w).Some?
    ensures PageAt(spaces[k], w).value.obj == a.obj ==>
              k == i && Covers(a, w) && PageAt(spaces[k], w) == Some(MappingOf(a, w))
  {
    hide Alone;
    assert Apart(i, a.start, MappingOf(a, a.start), k, w, PageAt(spaces[k], w).value);
    if PageAt(spaces[k], w).value.obj == a.obj {
      AloneAt(spaces[i], a, w);
    }
  }

  // The new pages as they show: what the object behind the area holds there.
  function Added(m: Mem, a: Area, lo: nat, hi: nat): map<nat, APage>
    requires a.start <= lo
  {
    map v: nat | v < hi && From(lo, v) :: APage(CellOf(m, MappingOf(a, v)), a.prot, a.flags)
  }

  lemma GrownRefines(s: AState, spaces: seq<seq<Area>>, m: Mem, next: ObjId, i: nat, a: Area, end: nat)
    requires Refines(s, spaces, m, next) && i < |spaces| && a.start <= a.end <= end
    requires Gains(spaces[i], Resized(spaces[i], a, end), a, end)
    ensures Refines(Step(s, Extend(i, Added(m, a, a.end, end))), spaces[i := Resized(spaces[i], a, end)], m, next)
  {
    hide Resized, StoreShows, CellOf;
    var areas' := Resized(spaces[i], a, end);
    var t := Step(s, Extend(i, Added(m, a, a.end, end)));
    assert Shows(s.spaces[i], spaces[i], m);
    forall v: nat ensures Get(t.spaces[i], v) == Meaning(m, areas', v) {
      assert Get(s.spaces[i], v) == Meaning(m, spaces[i], v);
    }
  }

  /** Growth over free pages shows as those pages appearing with what the object holds there. */
  lemma GrowOk(s: AState, spaces: seq<seq<Area>>, m: Mem, next: ObjId, i: nat, a: Area, end: nat)
    requires SpacesOk(spaces, m) && Refines(s, spaces, m, next) && i < |spaces| && a in spaces[i] && a.flags == Private
    requires Alone(spaces[i], a) && AreaOk(a.(end := end)) && a.start <= a.end < end && Unmapped(spaces[i], a.end, end)
    ensures var spaces' := spaces[i := Resized(spaces[i], a, end)];
            SpacesOk(spaces', m) && Refines(Step(s, Extend(i, Added(m, a, a.end, end))), spaces', m, next)
  {
    hide WellFormed, Unmapped, Resized, Refines, Step, Alone, Gains, TopsFree, Exclusive, KindOk;
    assert WellFormed(spaces[i]);
    GrownKinds(spaces, m, i, a, end);
    GrownExclusive(spaces, i, a, end);
    ResizedGains(spaces[i], a, end);
    GrownRefines(s, spaces, m, next, i, a, end);
  }

  /** A shrink shows as the pages given up disappearing. */
  lemma ShrinkOk(s: AState, spaces: seq<seq<Area>>, m: Mem, next: ObjId, i: nat, a: Area, end: nat)
    requires SpacesOk(spaces, m) && Refines(s, spaces, m, next) && i < |spaces| && a in spaces[i]
             && AreaOk(a.(end := end)) && end <= a.end
    ensures var spaces' := spaces[i := Resized(spaces[i], a, end)];
            SpacesOk(spaces', m) && Refines(Step(s, Unmap(i, end, a.end)), spaces', m, next)
  {
    hide WellFormed, Resized, StoreShows, CellOf, KindOk, TopsFree, Exclusive;
    assert WellFormed(spaces[i]);
    ResizedLoses(spaces[i], a, end);
    var spaces' := spaces[i := Resized(spaces[i], a, end)];
    assert Within(spaces', spaces);
    WithinOk(spaces', spaces, m);
    ShrunkShows(s.spaces[i], spaces[i], m, a, end);
  }

  lemma ShrunkShows(space: map<nat, APage>, areas: seq<Area>, m: Mem, a: Area, end: nat)
    requires Shows(space, areas, m)
    requires forall v: nat :: PageAt(Resized(areas, a, end), v) == if end <= v < a.end then None else PageAt(areas, v)
    ensures Shows(UnmapRange(space, end, a.end), Resized(areas, a, end), m)
  {
    hide Resized, CellOf;
    forall v: nat ensures Get(UnmapRange(space, end, a.end), v) == Meaning(m, Resized(areas, a, end), v) {
      assert Get(space, v) == Meaning(m, areas, v);
    }
  }

  // ----- Translations and lists -----

  /** Translations stay good if and only if no page given up has one. */
  lemma ResizedCoherent(spaces: seq<seq<Area>>, tables: seq<Table>, m: Mem, i: nat, a: Area, end: nat)
    requires KindsOk(spaces, m) && Coherent(spaces, tables, m) && i < |spaces| && a in spaces[i]
             && AreaOk(a.(end := end)) && (a.end < end ==> Unmapped(spaces[i], a.end, end))
    ensures Coherent(spaces[i := Resized(spaces[i], a, end)], tables, m) <==>
            forall v :: v in tables[i] ==> !(end <= v < a.end)
  {
    hide WellFormed, Unmapped, Resized, PteOk, KindOk;
    assert WellFormed(spaces[i]) && TableOk(spaces[i], tables[i], m);
    if a.end < end {
      ResizedGains(spaces[i], a, end);
      FreeIs(spaces[i], a.end, end);
    } else {
      ResizedLoses(spaces[i], a, end);
    }
    var spaces' := spaces[i := Resized(spaces[i], a, end)];
    assert forall v :: v in tables[i] ==> PageAt(spaces'[i], v) == if end <= v < a.end then None
                                                                   else PageAt(spaces[i], v);
    forall j | 0 <= j < |spaces'| && j != i ensures TableOk(spaces'[j], tables[j], m) {
      assert TableOk(spaces[j], tables[j], m);
    }
  }

  lemma FreeIs(areas: seq<Area>, lo: nat, hi: nat)
    requires Unmapped(areas, lo, hi)
    ensures forall v :: lo <= v < hi ==> PageAt(areas, v) == None
  {
  }

  // The area stays on its list, or off it, with the pages it has now.
  function ResizedLinks(linked: set<nat>, a: Area, end: nat): set<nat> {
    if a.start in linked then linked + AreaPages(a.(end := end)) else linked - AreaPages(a.(end := end))
  }

  lemma ResizedUniform(areas: seq<Area>, linked: set<nat>, a: Area, end: nat)
    requires WellFormed(areas) && Uniform(areas, linked) && a in areas && AreaOk(a.(end := end))
             && (a.end < end ==> Unmapped(areas, a.end, end))
    ensures Uniform(Resized(areas, a, end), ResizedLinks(linked, a, end))
  {
    hide Unmapped;
    var k := ResizedElements(areas, a, end);
    ResizedWellFormed(areas, a, end, k);
    var r := Resized(areas, a, end);
    forall b | b in r ensures Whole(b, ResizedLinks(linked, a, end)) {
      var x :| 0 <= x < |r| && r[x] == b;
      if x != k {
        assert b == areas[x] && b in areas && Whole(b, linked);
        assert forall v :: Covers(b, v) ==> !Covers(r[k], v);
      }
    }
  }
}
