/**
 The list of areas of one address space, and what it means page by page.
 An area maps the pages [start, end) to consecutive pages of one memory object,
 the first of them to object page `off`.
 */
module AreaList {
  import opened PageTypes

  datatype Area = Area(start: nat, end: nat, off: nat, prot: Prot, flags: MapType, obj: ObjId)

  // What one virtual page is mapped to.
  datatype Mapping = Mapping(obj: ObjId, page: nat, prot: Prot, flags: MapType)

  predicate Covers(a: Area, v: nat) {
    a.start <= v < a.end
  }

  function ObjPage(a: Area, v: nat): nat
    requires a.start <= v
  {
    v - a.start + a.off
  }

  function MappingOf(a: Area, v: nat): Mapping
    requires a.start <= v
  {
    Mapping(a.obj, ObjPage(a, v), a.prot, a.flags)
  }

  /** The page-level meaning of an area list. */
  function PageAt(areas: seq<Area>, v: nat): Option<Mapping> {
    if areas == [] then None
    else if Covers(areas[0], v) then Some(MappingOf(areas[0], v))
    else PageAt(areas[1..], v)
  }

  // An area is not empty and lies in user space, and its object page numbers are small.
  predicate AreaOk(a: Area) {
    USER_LOW <= a.start < a.end <= USER_HIGH && a.off + (a.end - a.start) <= OFF_LIMIT
  }

  /** Sorted by address, pairwise disjoint, no empty area, all inside user space. */
  ghost predicate WellFormed(areas: seq<Area>) {
    && (forall i :: 0 <= i < |areas| ==> AreaOk(areas[i]))
    && (forall i, j :: 0 <= i < j < |areas| ==> areas[i].end <= areas[j].start)
  }

  lemma AreaIn(areas: seq<Area>, a: Area)
    requires WellFormed(areas) && a in areas
    ensures AreaOk(a)
  {
  }

  ghost predicate Unmapped(areas: seq<Area>, lo: nat, hi: nat) {
    forall v :: lo <= v < hi ==> PageAt(areas, v) == None
  }

  // The references an area list holds: one per area.
  ghost function Objs(areas: seq<Area>): multiset<ObjId> {
    if areas == [] then multiset{} else multiset{areas[0].obj} + Objs(areas[1..])
  }

  lemma {:induction false} PageAtConcat(xs: seq<Area>, ys: seq<Area>, v: nat)
    ensures PageAt(xs + ys, v) == if PageAt(xs, v).Some? then PageAt(xs, v) else PageAt(ys, v)
  {
    if xs == [] {
      assert xs + ys == ys;
    } else {
      assert (xs + ys)[1..] == xs[1..] + ys;
      PageAtConcat(xs[1..], ys, v);
    }
  }

  lemma {:induction false} ObjsConcat(xs: seq<Area>, ys: seq<Area>)
    ensures Objs(xs + ys) == Objs(xs) + Objs(ys)
  {
    if xs == [] {
      assert xs + ys == ys;
    } else {
      assert (xs + ys)[1..] == xs[1..] + ys;
      ObjsConcat(xs[1..], ys);
    }
  }

  lemma {:induction false} ObjsContains(areas: seq<Area>, i: nat)
    requires i < |areas|
    ensures areas[i].obj in Objs(areas)
  {
    if i > 0 {
      ObjsContains(areas[1..], i - 1);
    }
  }

  /** A mapped page is covered by some area, and its mapping is that area's. */
  lemma {:induction false} PageAtWitness(areas: seq<Area>, v: nat) returns (i: nat)
    requires PageAt(areas, v).Some?
    ensures i < |areas| && Covers(areas[i], v) && PageAt(areas, v) == Some(MappingOf(areas[i], v))
  {
    if Covers(areas[0], v) {
      i := 0;
    } else {
      var k := PageAtWitness(areas[1..], v);
      i := k + 1;
    }
  }

  /** In a well-formed list the page-level meaning can be read off any covering area. */
  lemma {:induction false} PageAtIndex(areas: seq<Area>, i: nat, v: nat)
    requires WellFormed(areas) && i < |areas| && Covers(areas[i], v)
    ensures PageAt(areas, v) == Some(MappingOf(areas[i], v))
  {
    if i > 0 {
      assert areas[0].end <= areas[i].start;
      PageAtIndex(areas[1..], i - 1, v);
    }
  }

  lemma {:induction false} PageAtNone(areas: seq<Area>, v: nat)
    requires forall i :: 0 <= i < |areas| ==> !Covers(areas[i], v)
    ensures PageAt(areas, v) == None
  {
    if areas != [] {
      assert forall i :: 0 <= i < |areas[1..]| ==> areas[1..][i] == areas[i + 1];
      PageAtNone(areas[1..], v);
    }
  }

  lemma UnmappedIffDisjoint(areas: seq<Area>, lo: nat, hi: nat)
    requires WellFormed(areas) && lo < hi
    ensures Unmapped(areas, lo, hi) <==> forall i :: 0 <= i < |areas| ==> areas[i].end <= lo || hi <= areas[i].start
  {
    if Unmapped(areas, lo, hi) {
      forall i | 0 <= i < |areas| ensures areas[i].end <= lo || hi <= areas[i].start {
        if areas[i].end > lo && hi > areas[i].start {
          PageAtIndex(areas, i, Max(lo, areas[i].start));
        }
      }
    } else {
      var v :| lo <= v < hi && PageAt(areas, v) != None;
      var i := PageAtWitness(areas, v);
    }
  }

  // ----- Carving a range out of the list -----

  // What is left of one area outside [lo, hi).
  function Pieces(a: Area, lo: nat, hi: nat): seq<Area>
    requires lo <= hi
  {
    var left := Min(a.end, lo);
    var right := Max(a.start, hi);
    (if a.start < left then [a.(end := left)] else []) +
    (if right < a.end then [a.(start := right, off := a.off + (right - a.start))] else [])
  }

  function Carve(areas: seq<Area>, lo: nat, hi: nat): seq<Area>
    requires lo <= hi
  {
    if areas == [] then [] else Pieces(areas[0], lo, hi) + Carve(areas[1..], lo, hi)
  }

  lemma {:induction false} CarveConcat(xs: seq<Area>, ys: seq<Area>, lo: nat, hi: nat)
    requires lo <= hi
    ensures Carve(xs + ys, lo, hi) == Carve(xs, lo, hi) + Carve(ys, lo, hi)
  {
    if xs == [] {
      assert xs + ys == ys;
    } else {
      assert (xs + ys)[1..] == xs[1..] + ys;
      CarveConcat(xs[1..], ys, lo, hi);
    }
  }

  lemma CarveSnoc(areas: seq<Area>, i: nat, lo: nat, hi: nat)
    requires i < |areas| && lo <= hi
    ensures Carve(areas[..i + 1], lo, hi) == Carve(areas[..i], lo, hi) + Pieces(areas[i], lo, hi)
  {
    assert areas[..i + 1] == areas[..i] + [areas[i]];
    CarveConcat(areas[..i], [areas[i]], lo, hi);
  }

  // Areas at or above hi are not touched.
  lemma {:induction false} CarveAbove(areas: seq<Area>, lo: nat, hi: nat)
    requires lo <= hi
    requires forall i :: 0 <= i < |areas| ==> hi <= areas[i].start < areas[i].end
    ensures Carve(areas, lo, hi) == areas
  {
    if areas != [] {
      assert forall i :: 0 <= i < |areas[1..]| ==> areas[1..][i] == areas[i + 1];
      CarveAbove(areas[1..], lo, hi);
      assert Pieces(areas[0], lo, hi) == [areas[0]];
    }
  }

  lemma PiecesOutside(a: Area, lo: nat, hi: nat)
    requires lo <= hi && AreaOk(a) && (a.end <= lo || hi <= a.start)
    ensures Pieces(a, lo, hi) == [a]
  {
  }

  // Carving free pages changes nothing.
  lemma {:induction false} CarveFree(areas: seq<Area>, lo: nat, hi: nat)
    requires lo <= hi && forall i :: 0 <= i < |areas| ==> AreaOk(areas[i])
                                                          && (areas[i].end <= lo || hi <= areas[i].start)
    ensures Carve(areas, lo, hi) == areas
  {
    hide Pieces, AreaOk;
    if areas != [] {
      var rest := areas[1..];
      assert forall i :: 0 <= i < |rest| ==> rest[i] == areas[i + 1];
      CarveFree(rest, lo, hi);
      PiecesOutside(areas[0], lo, hi);
      assert [areas[0]] + rest == areas;
    }
  }

  lemma PiecesPageAt(a: Area, lo: nat, hi: nat, v: nat)
    requires lo <= hi
    ensures PageAt(Pieces(a, lo, hi), v) == if lo <= v < hi then None else PageAt([a], v)
  {
    var left, right := Min(a.end, lo), Max(a.start, hi);
    var ls: seq<Area> := if a.start < left then [a.(end := left)] else [];
    var rs: seq<Area> := if right < a.end then [a.(start := right, off := a.off + (right - a.start))] else [];
    PageAtConcat(ls, rs, v);
  }

  /** Carving is restriction of the page-level map: surviving pages keep object, object page, protection and flags. */
  lemma {:induction false} CarvePageAt(areas: seq<Area>, lo: nat, hi: nat, v: nat)
    requires lo <= hi
    ensures PageAt(Carve(areas, lo, hi), v) == if lo <= v < hi then None else PageAt(areas, v)
  {
    if areas != [] {
      CarvePageAt(areas[1..], lo, hi, v);
      PageAtConcat(Pieces(areas[0], lo, hi), Carve(areas[1..], lo, hi), v);
      PiecesPageAt(areas[0], lo, hi, v);
    }
  }

  lemma CarvedIsFree(areas: seq<Area>, lo: nat, hi: nat)
    requires lo <= hi
    ensures Unmapped(Carve(areas, lo, hi), lo, hi)
  {
    forall v | lo <= v < hi ensures PageAt(Carve(areas, lo, hi), v) == None {
      CarvePageAt(areas, lo, hi, v);
    }
  }

  // Every carved area lies within an area it came from.
  lemma {:induction false} CarveWithin(areas: seq<Area>, lo: nat, hi: nat, k: nat) returns (i: nat)
    requires lo <= hi && k < |Carve(areas, lo, hi)|
    requires forall j :: 0 <= j < |areas| ==> AreaOk(areas[j])
    ensures i < |areas|
    ensures var c := Carve(areas, lo, hi)[k];
            AreaOk(c) && areas[i].start <= c.start && c.end <= areas[i].end && c.obj == areas[i].obj
  {
    var n := |Pieces(areas[0], lo, hi)|;
    if k < n {
      i := 0;
    } else {
      assert forall j :: 0 <= j < |areas[1..]| ==> areas[1..][j] == areas[j + 1];
      var r := CarveWithin(areas[1..], lo, hi, k - n);
      i := r + 1;
    }
  }

  lemma {:induction false} CarveWellFormed(areas: seq<Area>, lo: nat, hi: nat)
    requires lo <= hi && WellFormed(areas)
    ensures WellFormed(Carve(areas, lo, hi))
  {
    if areas != [] {
      CarveWellFormed(areas[1..], lo, hi);
      var rest := Carve(areas[1..], lo, hi);
      forall k | 0 <= k < |rest| ensures areas[0].end <= rest[k].start {
        var i := CarveWithin(areas[1..], lo, hi, k);
        assert areas[1..][i] == areas[i + 1];
      }
    }
  }

  // ----- The four cases of vmmap_remove -----

  // The areas whose translations vmmap_remove drops: one that contains the whole range, whose pages in the
  // range are dropped, and those strictly inside the range.
  predicate FlushedBy(a: Area, lo: nat, hi: nat, v: nat) {
    if a.start <= lo && hi <= a.end then lo <= v < hi
    else lo < a.start && a.end < hi && Covers(a, v)
  }

  predicate Flushed(areas: seq<Area>, lo: nat, hi: nat, v: nat) {
    exists x :: 0 <= x < |areas| && FlushedBy(areas[x], lo, hi, v)
  }

  lemma FlushedSnoc(areas: seq<Area>, j: nat, lo: nat, hi: nat, v: nat)
    requires j < |areas|
    ensures Flushed(areas[..j + 1], lo, hi, v) <==> Flushed(areas[..j], lo, hi, v) || FlushedBy(areas[j], lo, hi, v)
  {
    if Flushed(areas[..j], lo, hi, v) {
      var x :| 0 <= x < j && FlushedBy(areas[..j][x], lo, hi, v);
      assert areas[..j + 1][x] == areas[..j][x];
    }
    if FlushedBy(areas[j], lo, hi, v) {
      assert areas[..j + 1][j] == areas[j];
    }
    if Flushed(areas[..j + 1], lo, hi, v) {
      var x :| 0 <= x < j + 1 && FlushedBy(areas[..j + 1][x], lo, hi, v);
      assert x < j ==> areas[..j][x] == areas[..j + 1][x];
    }
  }

  // Past the area that contains the whole range nothing more is dropped.
  lemma FlushedRest(areas: seq<Area>, j: nat, lo: nat, hi: nat, v: nat)
    requires j <= |areas| && lo <= hi
    requires forall x :: j <= x < |areas| ==> hi <= areas[x].start < areas[x].end
    ensures Flushed(areas, lo, hi, v) <==> Flushed(areas[..j], lo, hi, v)
  {
    if Flushed(areas, lo, hi, v) {
      var x :| 0 <= x < |areas| && FlushedBy(areas[x], lo, hi, v);
      assert areas[..j][x] == areas[x];
    }
    if Flushed(areas[..j], lo, hi, v) {
      var x :| 0 <= x < j && FlushedBy(areas[..j][x], lo, hi, v);
      assert areas[..j][x] == areas[x];
    }
  }

  /** What each case leaves of an area. */
  lemma PiecesByCase(a: Area, lo: nat, hi: nat)
    requires a.start <= a.end && lo <= hi
    ensures var apart := lo > a.end || hi < a.start;
            && (!apart && a.start <= lo && hi <= a.end ==>
                  Pieces(a, lo, hi) ==
                  (if a.start == lo then [] else [a.(end := lo)]) +
                  (if hi == a.end then [] else [a.(start := hi, off := a.off + hi - a.start)]))
            && (!apart && a.end < hi && a.start <= lo ==>
                  Pieces(a, lo, hi) == if a.start == lo then [] else [a.(end := lo)])
            && (!apart && lo < a.start && hi <= a.end ==>
                  Pieces(a, lo, hi) == if hi == a.end then [] else [a.(start := hi, off := a.off + hi - a.start)])
            && (lo < a.start && hi > a.end ==> Pieces(a, lo, hi) == [])
            && (apart && a.start < a.end ==> Pieces(a, lo, hi) == [a])
  {
  }

  // One step of the loop of vmmap_remove, which has carved the first j areas.
  lemma CarveStep(areas: seq<Area>, j: nat, lo: nat, hi: nat, cur: seq<Area>, pos: nat)
    requires j < |areas| && lo <= hi
    requires cur == Carve(areas[..j], lo, hi) + areas[j..] && pos == |Carve(areas[..j], lo, hi)|
    ensures pos < |cur| && cur[pos] == areas[j]
    ensures cur[..pos] + Pieces(areas[j], lo, hi) + cur[pos + 1..] == Carve(areas[..j + 1], lo, hi) + areas[j + 1..]
    ensures pos + |Pieces(areas[j], lo, hi)| == |Carve(areas[..j + 1], lo, hi)|
  {
    hide Carve, Pieces;
    CarveSnoc(areas, j, lo, hi);
    assert cur[..pos] == Carve(areas[..j], lo, hi);
    assert cur[pos + 1..] == areas[j + 1..];
  }

  // The loop may stop at an area that contains the whole range.
  lemma CarveStop(areas: seq<Area>, j: nat, lo: nat, hi: nat)
    requires WellFormed(areas) && 0 < j <= |areas| && lo <= hi <= areas[j - 1].end
    ensures Carve(areas[..j], lo, hi) + areas[j..] == Carve(areas, lo, hi)
    ensures forall x :: j <= x < |areas| ==> hi <= areas[x].start < areas[x].end
  {
    hide Carve;
    assert areas == areas[..j] + areas[j..];
    CarveConcat(areas[..j], areas[j..], lo, hi);
    assert forall x :: 0 <= x < |areas[j..]| ==> areas[j..][x] == areas[x + j];
    CarveAbove(areas[j..], lo, hi);
  }

  /**
   After vmmap_remove no translation leads to an unmapped page, if and only if each translation in the
   range lay in an area that contains the whole range or in one strictly inside it.
   */
  lemma StaleFreeIff<T>(areas: seq<Area>, table: map<nat, T>, lo: nat, hi: nat)
    requires lo <= hi && forall v :: v in table ==> PageAt(areas, v).Some?
    ensures (forall v :: v in table && !Flushed(areas, lo, hi, v) ==> PageAt(Carve(areas, lo, hi), v).Some?) <==>
            (forall v :: v in table && lo <= v < hi ==> Flushed(areas, lo, hi, v))
  {
    forall v | v in table ensures PageAt(Carve(areas, lo, hi), v).Some? <==> !(lo <= v < hi) {
      CarvePageAt(areas, lo, hi, v);
    }
  }

  // ----- Inserting an area -----

  // The list with `a` put in front of the first area that starts at or above a.end.
  function Inserted(areas: seq<Area>, a: Area): seq<Area> {
    if areas == [] || areas[0].start >= a.end then [a] + areas
    else [areas[0]] + Inserted(areas[1..], a)
  }

  lemma {:induction false} InsertedAt(areas: seq<Area>, a: Area, k: nat)
    requires k <= |areas|
    requires forall i :: 0 <= i < k ==> areas[i].start < a.end
    requires k < |areas| ==> areas[k].start >= a.end
    ensures Inserted(areas, a) == areas[..k] + [a] + areas[k..]
  {
    if k > 0 {
      InsertedAt(areas[1..], a, k - 1);
      FirstAndRest(areas, a, k);
    }
  }

  lemma FirstAndRest(areas: seq<Area>, a: Area, k: nat)
    requires 0 < k <= |areas|
    ensures var rest := areas[1..];
            [areas[0]] + (rest[..k - 1] + [a] + rest[k - 1..]) == areas[..k] + [a] + areas[k..]
  {
  }

  lemma InsertPosition(areas: seq<Area>, a: Area) returns (k: nat)
    ensures k <= |areas|
    ensures forall i :: 0 <= i < k ==> areas[i].start < a.end
    ensures k < |areas| ==> areas[k].start >= a.end
    ensures Inserted(areas, a) == areas[..k] + [a] + areas[k..]
  {
    k := 0;
    while k < |areas| && areas[k].start < a.end
      invariant k <= |areas|
      invariant forall i :: 0 <= i < k ==> areas[i].start < a.end
    {
      k := k + 1;
    }
    InsertedAt(areas, a, k);
  }

  lemma InsertedElements(areas: seq<Area>, a: Area) returns (k: nat)
    ensures k <= |areas| && |Inserted(areas, a)| == |areas| + 1 && Inserted(areas, a)[k] == a
    ensures forall i :: 0 <= i < k ==> Inserted(areas, a)[i] == areas[i] && areas[i].start < a.end
    ensures forall i :: k < i <= |areas| ==> Inserted(areas, a)[i] == areas[i - 1]
    ensures k < |areas| ==> areas[k].start >= a.end
  {
    k := InsertPosition(areas, a);
  }

  lemma InsertedKeepsOrder(areas: seq<Area>, a: Area)
    requires WellFormed(areas) && AreaOk(a)
    requires forall i :: 0 <= i < |areas| ==> areas[i].end <= a.start || a.end <= areas[i].start
    ensures WellFormed(Inserted(areas, a))
  {
    var k := InsertedElements(areas, a);
    var r := Inserted(areas, a);
    forall i, j | 0 <= i < j < |r| ensures r[i].end <= r[j].start {
      if i < k < j {
        assert areas[i].end <= areas[j - 1].start;
      } else if i == k < j - 1 {
        assert areas[k].end <= areas[j - 1].start;
      } else if i < j < k {
        assert areas[i].end <= areas[j].start;
      } else if k < i {
        assert areas[i - 1].end <= areas[j - 1].start;
      }
    }
  }

  /** Insertion keeps the list well formed exactly when the new area's pages were free. */
  lemma InsertedWellFormed(areas: seq<Area>, a: Area)
    requires WellFormed(areas) && AreaOk(a)
    ensures WellFormed(Inserted(areas, a)) <==> Unmapped(areas, a.start, a.end)
  {
    UnmappedIffDisjoint(areas, a.start, a.end);
    if WellFormed(Inserted(areas, a)) {
      var k := InsertedElements(areas, a);
      forall i | 0 <= i < |areas| ensures areas[i].end <= a.start || a.end <= areas[i].start {
        if i < k {
          assert Inserted(areas, a)[i].end <= Inserted(areas, a)[k].start;
        } else {
          assert Inserted(areas, a)[k].end <= Inserted(areas, a)[i + 1].start;
        }
      }
    } else if forall i :: 0 <= i < |areas| ==> areas[i].end <= a.start || a.end <= areas[i].start {
      InsertedKeepsOrder(areas, a);
    }
  }

  /** Insertion into free pages overrides the page-level map on those pages and nowhere else. */
  lemma InsertedPageAt(areas: seq<Area>, a: Area, v: nat)
    requires WellFormed(areas) && AreaOk(a) && Unmapped(areas, a.start, a.end)
    ensures PageAt(Inserted(areas, a), v) == if Covers(a, v) then Some(MappingOf(a, v)) else PageAt(areas, v)
  {
    var k := InsertPosition(areas, a);
    PageAtConcat(areas[..k] + [a], areas[k..], v);
    PageAtConcat(areas[..k], [a], v);
    PageAtConcat(areas[..k], areas[k..], v);
    assert areas[..k] + areas[k..] == areas;
  }

  lemma {:induction false} InsertedObjs(areas: seq<Area>, a: Area)
    ensures Objs(Inserted(areas, a)) == Objs(areas) + multiset{a.obj}
  {
    if areas == [] || areas[0].start >= a.end {
      assert ([a] + areas)[1..] == areas;
    } else {
      InsertedObjs(areas[1..], a);
      assert Inserted(areas, a)[1..] == Inserted(areas[1..], a);
    }
  }
}
