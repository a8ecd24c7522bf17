/** Searching and extending one area list: the parts of vmmap.c that concern a single address space. */
module Vmmap {
  import opened PageTypes
  import opened AreaList

  /** vmmap_lookup: the area that holds a page, if any. */
  method Lookup(areas: seq<Area>, v: nat) returns (r: Option<Area>)
    requires WellFormed(areas)
    ensures r.None? <==> PageAt(areas, v) == None
    ensures r.Some? ==> r.value in areas && Covers(r.value, v) && PageAt(areas, v) == Some(MappingOf(r.value, v))
  {
    var i := 0;
    while i < |areas|
      invariant 0 <= i <= |areas|
      invariant forall j :: 0 <= j < i ==> !Covers(areas[j], v)
    {
      if v < areas[i].end && v >= areas[i].start {
        PageAtIndex(areas, i, v);
        return Some(areas[i]);
      }
      i := i + 1;
    }
    PageAtNone(areas, v);
    return None;
  }

  /** vmmap_is_range_empty, with its early exit, agrees with the page-level map. */
  method IsRangeEmpty(areas: seq<Area>, start: nat, npages: nat) returns (empty: bool)
    requires WellFormed(areas) && 0 < npages && USER_LOW <= start && start + npages <= USER_HIGH
    ensures empty <==> Unmapped(areas, start, start + npages)
  {
    var end := start + npages;
    UnmappedIffDisjoint(areas, start, end);
    var i := 0;
    while i < |areas|
      invariant 0 <= i <= |areas|
      invariant forall j :: 0 <= j < i ==> areas[j].end <= start || end <= areas[j].start
    {
      if areas[i].end > start && areas[i].start < end {
        return false;
      } else if start < areas[i].start && areas[i].start >= end {
        return true;
      }
      i := i + 1;
    }
    return true;
  }

  // vmmap_find_range either finds a gap, finds none, or follows a null pointer.
  datatype Gap = At(start: nat) | NoGap | NullArea

  ghost predicate FreeAt(areas: seq<Area>, start: nat, npages: nat) {
    USER_LOW <= start && start + npages <= USER_HIGH && Unmapped(areas, start, start + npages)
  }

  ghost predicate HighestFree(areas: seq<Area>, start: nat, npages: nat) {
    FreeAt(areas, start, npages) && forall s: nat :: FreeAt(areas, s, npages) ==> s <= start
  }

  ghost predicate NoneFree(areas: seq<Area>, npages: nat) {
    forall s: nat :: !FreeAt(areas, s, npages)
  }

  // A free range that reaches above `end` does not reach below it when the gap above is too small.
  lemma GapTooSmall(areas: seq<Area>, i: nat, end: nat, start: nat, npages: nat)
    requires WellFormed(areas) && i < |areas| && areas[i].end <= end && end - areas[i].end < npages
    requires FreeAt(areas, start, npages) && start + npages <= end
    ensures start + npages <= areas[i].start
  {
    if start + npages > areas[i].start {
      UnmappedIffDisjoint(areas, start, start + npages);
    }
  }

  lemma GapIsFree(areas: seq<Area>, i: nat, start: nat, npages: nat)
    requires WellFormed(areas) && i <= |areas|
    requires i > 0 ==> areas[i - 1].end <= start
    requires i < |areas| ==> start + npages <= areas[i].start
    ensures Unmapped(areas, start, start + npages)
  {
    forall v | start <= v < start + npages ensures PageAt(areas, v) == None {
      forall k | 0 <= k < |areas| ensures !Covers(areas[k], v) {
        if k < i - 1 {
          assert areas[k].end <= areas[i - 1].start;
        } else if i < k {
          assert areas[i].end <= areas[k].start;
        }
      }
      PageAtNone(areas, v);
    }
  }

  /**
   vmmap_find_range, searching downwards. The result is the highest free range of the given length, and
   NoGap exactly when there is none, for every map but the empty one, on which it follows a null pointer.
   */
  method FindRange(areas: seq<Area>, npages: nat) returns (r: Gap)
    requires WellFormed(areas)
    ensures r == NullArea <==> areas == []
    ensures r.At? ==> HighestFree(areas, r.start, npages)
    ensures r == NoGap ==> NoneFree(areas, npages)
  {
    if areas == [] {
      return NullArea;
    }
    var userEnd := USER_HIGH;
    var i := |areas|;
    while i > 0
      invariant 0 <= i <= |areas|
      invariant userEnd == (if i == |areas| then USER_HIGH else areas[i].start)
      invariant forall s: nat :: FreeAt(areas, s, npages) ==> s + npages <= userEnd
      invariant i < |areas| ==> npages > 0
    {
      var a := areas[i - 1];
      assert i < |areas| ==> a.end <= areas[i].start;
      if npages <= userEnd - a.end {
        GapIsFree(areas, i, userEnd - npages, npages);
        return At(userEnd - npages);
      }
      forall s: nat | FreeAt(areas, s, npages) ensures s + npages <= a.start {
        GapTooSmall(areas, i - 1, userEnd, s, npages);
      }
      userEnd := a.start;
      i := i - 1;
    }
    if areas[0].start - USER_LOW >= npages {
      GapIsFree(areas, 0, areas[0].start - npages, npages);
      return At(areas[0].start - npages);
    }
    return NoGap;
  }

  /** vmmap_insert */
  method Insert(areas: seq<Area>, a: Area) returns (areas': seq<Area>)
    requires WellFormed(areas) && AreaOk(a)
    ensures areas' == Inserted(areas, a)
    ensures WellFormed(areas') <==> Unmapped(areas, a.start, a.end)
    ensures Objs(areas') == Objs(areas) + multiset{a.obj}
  {
    InsertedWellFormed(areas, a);
    InsertedObjs(areas, a);
    var i := 0;
    while i < |areas|
      invariant 0 <= i <= |areas|
      invariant forall j :: 0 <= j < i ==> areas[j].start < a.end
    {
      if areas[i].start >= a.end {
        InsertedAt(areas, a, i);
        return areas[..i] + [a] + areas[i..];
      }
      i := i + 1;
    }
    InsertedAt(areas, a, i);
    assert areas[..i] == areas && areas[i..] == [];
    return areas + [a];
  }

  function Unbacked(a: Area): Area { a.(obj := NULL) }

  function Layout(areas: seq<Area>): seq<Area> {
    seq(|areas|, i requires 0 <= i < |areas| => Unbacked(areas[i]))
  }

  /** vmmap_clone: the same areas in the same places, with no objects set yet. */
  method Clone(areas: seq<Area>) returns (copy: seq<Area>)
    requires WellFormed(areas)
    ensures copy == Layout(areas) && WellFormed(copy)
  {
    copy := [];
    var i := 0;
    while i < |areas|
      invariant 0 <= i <= |areas|
      invariant copy == Layout(areas[..i]) && WellFormed(copy)
    {
      var a := Unbacked(areas[i]);
      CloneStep(areas, i);
      copy := Insert(copy, a);
      i := i + 1;
    }
    assert areas[..i] == areas;
  }

  lemma CloneStep(areas: seq<Area>, i: nat)
    requires WellFormed(areas) && i < |areas|
    ensures Inserted(Layout(areas[..i]), Unbacked(areas[i])) == Layout(areas[..i + 1])
    ensures WellFormed(Layout(areas[..i + 1]))
  {
    var l := Layout(areas[..i]);
    InsertedAt(l, Unbacked(areas[i]), i);
    assert Layout(areas[..i + 1]) == l + [Unbacked(areas[i])];
    assert l[..i] == l && l[i..] == [];
  }

  /** A clone maps the same pages with the same object pages, protection and flags. */
  lemma {:induction false} ClonePageAt(areas: seq<Area>, v: nat)
    ensures PageAt(Layout(areas), v) ==
            match PageAt(areas, v) case None => None case Some(mp) => Some(mp.(obj := NULL))
  {
    if areas != [] {
      assert Layout(areas)[1..] == Layout(areas[1..]);
      ClonePageAt(areas[1..], v);
    }
  }
}
