/** The process break: do_brk, which maps, resizes and removes the area behind the data of the program. */
module Brk {
  import opened PageTypes
  import opened AreaList
  import opened ByteCopies
  import opened EagerCopy
  import opened Forking
  import opened NewMappings
  import opened AreaLinks
  import opened Resizing
  import opened VirtualMemory
  import opened MemObjects
  import opened Translations
  import Vmmap

  // do_brk reports a break, fails with ENOMEM, or follows a null area pointer.
  datatype BrkResult = Done(brk: nat) | NoMem | NullVma

  function Down(addr: nat): nat { addr / PAGE_SIZE }

  // The first page boundary at or above an address, as a page number.
  function Up(addr: nat): nat { (addr + PAGE_SIZE - 1) / PAGE_SIZE }

  // ----- The dynamic region -----

  const HEAP_PROT := Prot(true, true, false)

  // One area covers exactly the pages from lo to hi, and no other has its object.
  ghost predicate HeapIn(areas: seq<Area>, lo: nat, hi: nat) {
    exists h :: h in areas && IsHeap(h, lo, hi) && Alone(areas, h)
  }

  predicate IsHeap(h: Area, lo: nat, hi: nat) {
    h.start == lo && h.end == hi && h.off == 0 && h.prot == HEAP_PROT && h.flags == Private
  }

  // The page at which the dynamic region ends: it starts where the data area ends.
  function TopOf(edge: nat, brk: nat): nat {
    if brk > edge * PAGE_SIZE then Up(brk) else edge
  }

  /**
   The region's end moved from page `was` to page `now`; pages it keeps and all other pages are as before.
   A region that was there keeps its object, and a new one has `obj`.
   */
  ghost predicate Moved(areas: seq<Area>, areas': seq<Area>, edge: nat, was: nat, now: nat, obj: ObjId) {
    forall v: nat ::
      if edge <= v < now then PageAt(areas', v) == HeapPage(Behind(areas, edge, was, obj), v - edge)
                              && (v < was ==> PageAt(areas', v) == PageAt(areas, v))
      else PageAt(areas', v) == if edge <= v < was then None else PageAt(areas, v)
  }

  function HeapPage(obj: ObjId, page: nat): Option<Mapping> { Some(Mapping(obj, page, HEAP_PROT, Private)) }

  // The object behind the region that ends at page `was`.
  function Behind(areas: seq<Area>, edge: nat, was: nat, obj: ObjId): ObjId {
    if edge < was && PageAt(areas, edge).Some? then PageAt(areas, edge).value.obj else obj
  }

  lemma Rounding(addr: nat)
    ensures Down(addr) <= Up(addr) <= Down(addr) + 1
    ensures addr % PAGE_SIZE == 0 ==> Up(addr) == Down(addr)
    ensures addr % PAGE_SIZE != 0 ==> Up(addr) == Down(addr) + 1
    ensures forall e: nat :: addr > e * PAGE_SIZE <==> Up(addr) > e
    ensures forall e: nat :: addr >= e * PAGE_SIZE <==> Down(addr) >= e
    ensures addr > 0 ==> Down(addr - 1) == Up(addr) - 1
  {
  }

  // The request is one that do_brk carries out as it should.
  predicate Safe(edge: nat, brk: nat, addr: nat) {
    brk % PAGE_SIZE == 0 || brk <= edge * PAGE_SIZE || (addr > edge * PAGE_SIZE && Up(addr) <= Up(brk))
  }

  /** What the documentation promises: the region ends at the new break, or ENOMEM if a mapping is in the way. */
  ghost predicate Right(areas: seq<Area>, brk: nat, areas': seq<Area>, brk': nat, edge: nat, addr: nat,
                        obj: ObjId, r: BrkResult) {
    var was, now := TopOf(edge, brk), TopOf(edge, addr);
    if Unmapped(areas, was, now) then r == Done(addr) && brk' == addr && Moved(areas, areas', edge, was, now, obj)
    else r == NoMem && areas' == areas && brk' == brk
  }

  lemma RoundingMonotone(a: nat, b: nat)
    requires a <= b
    ensures Up(a) <= Up(b) && Down(a) <= Down(b)
  {
  }

  // The page count do_brk works out, in 32-bit arithmetic.
  function PagesBetween(from: nat, addr: nat): nat {
    var n := (Up(addr) - Down(from)) % WORD;
    if from % PAGE_SIZE != 0 then (n - 1) % WORD else n
  }

  lemma PagesBetweenIs(from: nat, addr: nat)
    requires from < addr <= USER_HIGH * PAGE_SIZE
    ensures PagesBetween(from, addr) == Up(addr) - Up(from)
  {
    hide Up, Down;
    Rounding(from);
    Rounding(addr);
    Rounding(USER_HIGH * PAGE_SIZE);
    RoundingMonotone(from, addr);
    RoundingMonotone(addr, USER_HIGH * PAGE_SIZE);
    if from % PAGE_SIZE != 0 {
      assert Up(addr) > Down(from);
    }
  }

  lemma TheHeap(areas: seq<Area>, lo: nat, hi: nat) returns (h: Area)
    requires HeapIn(areas, lo, hi)
    ensures h in areas && IsHeap(h, lo, hi) && Alone(areas, h)
  {
    h :| h in areas && IsHeap(h, lo, hi) && Alone(areas, h);
  }

  // The area that holds the page ends at page `edge`.
  ghost predicate DataIn(areas: seq<Area>, page: nat, edge: nat) {
    exists d :: d in areas && Covers(d, page) && d.end == edge
  }

  lemma TheData(areas: seq<Area>, page: nat, edge: nat) returns (d: Area)
    requires DataIn(areas, page, edge)
    ensures d in areas && Covers(d, page) && d.end == edge
  {
    d :| d in areas && Covers(d, page) && d.end == edge;
  }

  /** The dynamic region starts where the area below the starting break ends, and goes as far as the break. */
  ghost predicate BrkOk(areas: seq<Area>, startBrk: nat, brk: nat, edge: nat) {
    && WellFormed(areas) && 0 < startBrk <= brk && DataIn(areas, Down(startBrk - 1), edge)
    && (brk > edge * PAGE_SIZE ==> HeapIn(areas, edge, Up(brk)))
  }

  lemma HeapPages(areas: seq<Area>, h: Area, lo: nat, hi: nat)
    requires WellFormed(areas) && h in areas && IsHeap(h, lo, hi)
    ensures forall v: nat :: lo <= v < hi ==> PageAt(areas, v) == Some(MappingOf(h, v))
  {
    var k :| 0 <= k < |areas| && areas[k] == h;
    forall v: nat | lo <= v < hi ensures PageAt(areas, v) == Some(MappingOf(h, v)) {
      PageAtIndex(areas, k, v);
    }
  }

  lemma StayedBelow(areas: seq<Area>, e: nat, obj: ObjId)
    ensures Moved(areas, areas, e, e, e, obj) && Unmapped(areas, e, e)
  {
  }

  lemma Stayed(areas: seq<Area>, e: nat, brk: nat, addr: nat, obj: ObjId)
    requires WellFormed(areas) && addr == Max(brk, e * PAGE_SIZE) && (brk > e * PAGE_SIZE ==> HeapIn(areas, e, Up(brk)))
    ensures Moved(areas, areas, e, TopOf(e, brk), TopOf(e, addr), obj) && Unmapped(areas, TopOf(e, brk), TopOf(e, addr))
  {
    hide Up, WellFormed;
    if brk > e * PAGE_SIZE {
      var h := TheHeap(areas, e, Up(brk));
      HeapPages(areas, h, e, Up(brk));
    }
  }

  lemma InsertedHeap(areas: seq<Area>, a: Area, data: Area)
    requires WellFormed(areas) && data in areas && AreaOk(a) && IsHeap(a, a.start, a.end)
             && Unmapped(areas, a.start, a.end) && (forall b :: b in areas ==> b.obj != a.obj)
    ensures data in Inserted(areas, a) && HeapIn(Inserted(areas, a), a.start, a.end)
    ensures Moved(areas, Inserted(areas, a), a.start, a.start, a.end, a.obj)
  {
    hide WellFormed, Inserted, Unmapped;
    var k := InsertPosition(areas, a);
    assert areas == areas[..k] + areas[k..];
    assert a in Inserted(areas, a) && forall b :: b in Inserted(areas, a) ==> b == a || b in areas;
    forall v: nat ensures PageAt(Inserted(areas, a), v) == if Covers(a, v) then Some(MappingOf(a, v))
                                                           else PageAt(areas, v) {
      InsertedPageAt(areas, a, v);
    }
    CoverFree(areas, a);
  }

  lemma CoverFree(areas: seq<Area>, a: Area)
    requires Unmapped(areas, a.start, a.end)
    ensures forall v: nat :: Covers(a, v) ==> PageAt(areas, v) == None
  {
  }

  lemma NothingBetween(areas: seq<Area>, lo: nat, hi: nat)
    ensures hi <= lo ==> Unmapped(areas, lo, hi)
  {
  }

  // A break inside the last page of the region: that page is in the way of its growth.
  lemma HeapInTheWay(areas: seq<Area>, h: Area, page: nat, npages: nat)
    requires WellFormed(areas) && h in areas && npages > 0
    ensures Covers(h, page) ==> !Unmapped(areas, page, page + npages)
  {
    if Covers(h, page) {
      var k :| 0 <= k < |areas| && areas[k] == h;
      PageAtIndex(areas, k, page);
    }
  }

  lemma ResizedHeap(areas: seq<Area>, h: Area, data: Area, e: nat, was: nat, now: nat,
                    obj: ObjId)
    requires WellFormed(areas) && data in areas && h in areas && IsHeap(h, e, was) && data.end == e < now <= USER_HIGH
    requires Unmapped(areas, was, now) && Alone(areas, h)
    ensures WellFormed(Resized(areas, h, now)) && data in Resized(areas, h, now)
            && HeapIn(Resized(areas, h, now), e, now)
    ensures Moved(areas, Resized(areas, h, now), e, was, now, obj)
  {
    hide WellFormed, Unmapped, Resized;
    AreaIn(areas, h);
    AreaIn(areas, data);
    ResizedOk(areas, h, now);
    ResizedAlone(areas, h, now);
    HeapPages(areas, h, e, was);
  }

  lemma ResizedAlone(areas: seq<Area>, h: Area, now: nat)
    requires h in areas && Alone(areas, h) && WellFormed(areas)
    ensures Alone(Resized(areas, h, now), h.(end := now))
  {
    var k := ResizedElements(areas, h, now);
    forall x | 0 <= x < |areas| && x != k ensures areas[x].obj != h.obj {
      assert areas[x] in areas;
    }
  }

  lemma CarvedHeap(areas: seq<Area>, h: Area, data: Area, e: nat, was: nat, obj: ObjId)
    requires WellFormed(areas) && data in areas && h in areas && IsHeap(h, e, was) && data.end == e
    ensures WellFormed(Carve(areas, e, was)) && data in Carve(areas, e, was)
            && Moved(areas, Carve(areas, e, was), e, was, e, obj)
  {
    AreaIn(areas, h);
    CarveWellFormed(areas, e, was);
    CarveKeeps(areas, e, was, data);
    forall v: nat ensures PageAt(Carve(areas, e, was), v) == if e <= v < was then None else PageAt(areas, v) {
      CarvePageAt(areas, e, was, v);
    }
  }

  lemma {:induction false} CarveKeeps(areas: seq<Area>, lo: nat, hi: nat, a: Area)
    requires lo <= hi && a in areas && a.start < a.end <= lo
    ensures a in Carve(areas, lo, hi)
  {
    if a == areas[0] {
      assert Pieces(a, lo, hi) == [a];
    } else {
      CarveKeeps(areas[1..], lo, hi, a);
    }
  }

  lemma NotMoved(areas: seq<Area>, areas': seq<Area>, e: nat, was: nat, obj: ObjId)
    requires e < was && PageAt(areas', was - 1).Some?
    ensures !Moved(areas, areas', e, was, e, obj)
  {
    assert PageAt(areas', was - 1) != None;
  }

  lemma CarvedOther(areas: seq<Area>, a: Area, h: Area, e: nat, was: nat, obj: ObjId)
    requires WellFormed(areas) && a in areas && h in areas && IsHeap(h, e, was) && e < was && Covers(a, was)
    ensures !Moved(areas, Carve(areas, a.start, a.end), e, was, e, obj)
  {
    hide Moved;
    AreaIn(areas, a);
    HeapPages(areas, h, e, was);
    var i :| 0 <= i < |areas| && areas[i] == a;
    var j :| 0 <= j < |areas| && areas[j] == h;
    CarvePageAt(areas, a.start, a.end, was - 1);
    NotMoved(areas, Carve(areas, a.start, a.end), e, was, obj);
  }

  // ----- What a smaller region leaves behind -----

  /**
   A region that shrinks, but not to nothing, and grows again maps the same pages of the same object: it
   shows what it showed before, and not zeros, whatever the object holds by then.
   */
  lemma Regrown(areas: seq<Area>, less: seq<Area>, more: seq<Area>, edge: nat, was: nat, now: nat, again: nat,
                obj: ObjId, obj': ObjId, v: nat)
    requires WellFormed(areas) && HeapIn(areas, edge, was) && edge < now <= was
    requires Moved(areas, less, edge, was, now, obj) && Moved(less, more, edge, now, again, obj')
    ensures edge <= v < was && v < again ==> PageAt(more, v) == PageAt(areas, v) && PageAt(areas, v).Some?
  {
    hide WellFormed, PageAt;
    var h := TheHeap(areas, edge, was);
    HeapPages(areas, h, edge, was);
    assert PageAt(less, edge) == HeapPage(h.obj, 0);
  }

  /**
   do_brk drops no translation when it moves the region's end: after a shrink the process's translations
   are good if and only if none was there for a page given up.
   */
  lemma ShrunkTable(areas: seq<Area>, less: seq<Area>, edge: nat, was: nat, now: nat, obj: ObjId, table: Table, m: Mem)
    requires Moved(areas, less, edge, was, now, obj) && edge < now <= was && TableOk(areas, table, m)
    ensures TableOk(less, table, m) <==> forall v :: v in table ==> !(now <= v < was)
  {
    hide PageAt, PteOk, HeapPage;
    forall v | v in table ensures now <= v < was <==> PageAt(less, v) == None {
      assert PageAt(areas, v).Some?;
    }
  }

  // A region of two pages behind the data area, and the same with one page given up.
  function TwoPages(now: nat): seq<Area> {
    [Area(USER_LOW, USER_LOW + 1, 0, HEAP_PROT, Private, 1), Area(USER_LOW + 1, now, 0, HEAP_PROT, Private, 2)]
  }

  function TwoFrames(): Mem {
    Mem(map[1 := MmObj(Anon, 1, 0, [], NULL, 1), 2 := MmObj(Anon, 2, 1, [1], NULL, 2)],
        map[Key(2, 1) := Frame(ZeroPage(), 1, false, false)], map[])
  }

  /** The process has used the region's second page: the shrink that takes it leaves its translation. */
  lemma ShrunkExample()
    ensures var areas, less, m := TwoPages(USER_LOW + 3), TwoPages(USER_LOW + 2), TwoFrames();
            var table := map[USER_LOW + 2 := Pte(Key(2, 1), true)];
            && WellFormed(areas) && Moved(areas, less, USER_LOW + 1, USER_LOW + 3, USER_LOW + 2, 3)
            && TableOk(areas, table, m) && !TableOk(less, table, m)
  {
    var areas, less, m := TwoPages(USER_LOW + 3), TwoPages(USER_LOW + 2), TwoFrames();
    var table := map[USER_LOW + 2 := Pte(Key(2, 1), true)];
    ExampleMoved();
    assert FirstAt(m, 2, 1) == 2;
    assert PageAt(areas, USER_LOW + 2) == Some(Mapping(2, 1, HEAP_PROT, Private));
    ShrunkTable(areas, less, USER_LOW + 1, USER_LOW + 3, USER_LOW + 2, 3, table, m);
    assert USER_LOW + 2 in table;
  }

  lemma ExampleMoved()
    ensures Moved(TwoPages(USER_LOW + 3), TwoPages(USER_LOW + 2), USER_LOW + 1, USER_LOW + 3, USER_LOW + 2, 3)
  {
    forall v: nat, now: nat
      ensures PageAt(TwoPages(now), v) ==
              if v == USER_LOW then Some(Mapping(1, 0, HEAP_PROT, Private))
              else if USER_LOW + 1 <= v < now then HeapPage(2, v - (USER_LOW + 1)) else None
    {
      var rest := TwoPages(now)[1..];
      assert rest == [Area(USER_LOW + 1, now, 0, HEAP_PROT, Private, 2)];
      assert PageAt(rest[1..], v) == None;
      assert PageAt(rest, v) == if Covers(rest[0], v) then Some(MappingOf(rest[0], v)) else None;
    }
  }

  // ----- Other mappings -----

  // Area h is still there, though perhaps with another object, and no other area has its object.
  ghost predicate Stays(areas: seq<Area>, h: Area) {
    exists o :: h.(obj := o) in areas && Alone(areas, h.(obj := o))
  }

  // The data area and the region are still there, though perhaps with other objects.
  ghost predicate Leaves(areas: seq<Area>, areas': seq<Area>, page: nat, edge: nat, top: nat) {
    && (forall d :: d in areas && Covers(d, page) && d.end == edge ==> exists o :: d.(obj := o) in areas')
    && (forall h :: h in areas && IsHeap(h, edge, top) && Alone(areas, h) ==> Stays(areas', h))
  }

  /** Whatever else is mapped and unmapped, the break stays right as long as these two areas are left alone. */
  lemma BrkStays(areas: seq<Area>, areas': seq<Area>, startBrk: nat, brk: nat, edge: nat)
    requires BrkOk(areas, startBrk, brk, edge) && WellFormed(areas')
             && Leaves(areas, areas', Down(startBrk - 1), edge, Up(brk))
    ensures BrkOk(areas', startBrk, brk, edge)
  {
    hide WellFormed, Up, Down, Alone;
    var d := TheData(areas, Down(startBrk - 1), edge);
    var o :| d.(obj := o) in areas';
    assert Covers(d.(obj := o), Down(startBrk - 1));
    if brk > edge * PAGE_SIZE {
      var h := TheHeap(areas, edge, Up(brk));
      var p :| h.(obj := p) in areas' && Alone(areas', h.(obj := p));
      assert IsHeap(h.(obj := p), edge, Up(brk));
    }
  }

  /** After a fork the break of the parent, which the child gets too, is right for both. */
  lemma BrkForked(orig: seq<Area>, areas: seq<Area>, startBrk: nat, brk: nat, edge: nat)
    requires BrkOk(orig, startBrk, brk, edge) && Relabelled(orig, areas) && PrivateAlone(areas)
    ensures BrkOk(areas, startBrk, brk, edge)
  {
    hide WellFormed, Up, Down, Alone, PrivateAlone;
    RelabelledOk(orig, areas);
    forall a | a in orig
      ensures exists o :: a.(obj := o) in areas && (a.flags == Private ==> Alone(areas, a.(obj := o)))
    {
      var x :| 0 <= x < |orig| && orig[x] == a;
      assert areas[x] == a.(obj := areas[x].obj);
      if a.flags == Private {
        AloneFrom(areas, x);
      }
    }
    BrkStays(orig, areas, startBrk, brk, edge);
  }

  lemma AloneFrom(areas: seq<Area>, x: nat)
    requires PrivateAlone(areas) && x < |areas| && areas[x].flags == Private
    ensures Alone(areas, areas[x])
  {
  }

  // ----- What processes see of it -----

  ghost predicate NoneIn(table: Table, lo: nat, hi: nat) {
    forall v :: v in table ==> !(lo <= v < hi)
  }

  /**
   The event that moving the region's end from page `was` to page `now` stands for. A first growth maps pages of
   zeros; a later one brings pages that show what the region's object holds; pages given up disappear.
   */
  ghost predicate EventFits(e: Option<Event>, i: nat, areas: seq<Area>, m: Mem, edge: nat, was: nat, now: nat) {
    if now == was then e == None || e == Some(Unmap(i, was, was))
    else if now < was then e == Some(Unmap(i, now, was))
    else if was == edge then e.Some? && e.value.Map?
                             && e.value == Map(i, edge, now - edge, HEAP_PROT, Private, e.value.bottom, false, 0)
    else edge < was && exists h :: h in areas && IsHeap(h, edge, was) && e == Some(Extend(i, Added(m, h, was, now)))
  }

  // Every byte of the pages from lo to hi is zero in what process i sees.
  ghost predicate ZerosIn(s: AState, i: nat, lo: nat, hi: nat) {
    forall b: nat :: lo * PAGE_SIZE <= b < hi * PAGE_SIZE ==> ByteAt(s, i, b) == 0
  }

  // Every page from lo to hi is mapped for reading and for writing, and is the process's own.
  ghost predicate UsableIn(areas: seq<Area>, lo: nat, hi: nat) {
    forall v: nat :: lo <= v < hi ==> PageAt(areas, v).Some? && PageAt(areas, v).value.prot.read
                                      && PageAt(areas, v).value.prot.write && PageAt(areas, v).value.flags == Private
  }

  lemma NoPages(s: AState, i: nat, at: nat)
    ensures ZerosIn(s, i, at, at)
  {
  }

  lemma MovedUsable(areas: seq<Area>, areas': seq<Area>, edge: nat, was: nat, now: nat, obj: ObjId)
    requires Moved(areas, areas', edge, was, now, obj)
    ensures UsableIn(areas', edge, now)
  {
    hide PageAt;
  }

  ghost function After(s: AState, e: Option<Event>): AState {
    if e.Some? then Step(s, e.value) else s
  }

  lemma CarvedNothing(areas: seq<Area>, lo: nat, hi: nat)
    requires WellFormed(areas) && lo < hi && Unmapped(areas, lo, hi)
    ensures Carve(areas, lo, hi) == areas
  {
    UnmappedIffDisjoint(areas, lo, hi);
    CarveFree(areas, lo, hi);
  }

  // A process with good translations has none for a free page.
  lemma NothingStale(areas: seq<Area>, table: Table, m: Mem, lo: nat, hi: nat, flags: MapType, off: nat)
    requires TableOk(areas, table, m) && Unmapped(areas, lo, hi)
    ensures StaleByChance(areas, table, lo, hi, None, flags, off)
  {
    hide PteOk;
  }

  // A range that is exactly an area: every translation in it is dropped.
  lemma AllFlushed(areas: seq<Area>, h: Area)
    requires h in areas
    ensures forall v :: h.start <= v < h.end ==> Flushed(areas, h.start, h.end, v)
  {
    var x :| 0 <= x < |areas| && areas[x] == h;
    forall v: nat | h.start <= v < h.end ensures Flushed(areas, h.start, h.end, v) {
      assert FlushedBy(areas[x], h.start, h.end, v);
    }
  }

  class Heap {
    const vm: Vm
    const proc: nat
    const startBrk: nat
    // The page at which the data area below the starting break ends.
    ghost const edge: nat
    var brk: nat

    ghost predicate Valid()
      reads this, vm, vm.mem, vm.mem.cache
    {
      vm.Valid() && proc < |vm.spaces| == |vm.tables| && BrkOk(vm.spaces[proc], startBrk, brk, edge)
    }

    constructor (vm: Vm, proc: nat, startBrk: nat, ghost edge: nat)
      requires vm.Valid() && proc < |vm.spaces| == |vm.tables| && 0 < startBrk
               && DataIn(vm.spaces[proc], Down(startBrk - 1), edge)
      ensures Valid() && this.vm == vm && this.proc == proc && this.startBrk == brk == startBrk && this.edge == edge
    {
      hide Vm.Valid;
      Rounding(startBrk);
      vm.Layout(proc);
      this.vm, this.proc, this.startBrk, this.edge, brk := vm, proc, startBrk, edge, startBrk;
    }

    // The end of the data area, found through the page below the starting break.
    method FindEdge() returns (e: nat)
      requires Valid()
      ensures e == edge
    {
      hide Vm.Valid, WellFormed, HeapIn, Down, Up;
      var areas := vm.spaces[proc];
      var r := Vmmap.Lookup(areas, Down(startBrk - 1));
      ghost var data := TheData(areas, Down(startBrk - 1), edge);
      OnlyArea(areas, Down(startBrk - 1), data);
      AreaOfPage(areas, Down(startBrk - 1));
      OnlyArea(areas, Down(startBrk - 1), r.value);
      e := r.value.end;
    }

    // There is no region yet, or none any more.
    method FirstGrowth(addr: nat, e: nat, pgnStart: nat, npages: nat)
      returns (r: BrkResult, ghost obj: ObjId, ghost ev: Option<Event>)
      requires Valid() && startBrk < addr <= USER_HIGH * PAGE_SIZE && e == edge == pgnStart
               && brk <= e * PAGE_SIZE != addr
      requires addr > e * PAGE_SIZE ==> npages == Up(addr) - e
      modifies this`brk, vm, vm.mem, vm.mem.cache
      ensures vm.Valid() && proc < |vm.spaces| == |vm.tables| && vm.abs == After(old(vm.abs), ev)
      ensures r == NoMem ==> vm.spaces == old(vm.spaces) && vm.tables == old(vm.tables) && brk == old(brk) && ev == None
      ensures r != NullVma && (r == NoMem <==> !Unmapped(old(vm.spaces[proc]), e, TopOf(e, addr)))
      ensures r.Done? ==> Valid() && r.brk == brk == addr
                          && Moved(old(vm.spaces[proc]), vm.spaces[proc], e, e, TopOf(e, addr), obj)
      ensures r.Done? ==> EventFits(ev, proc, old(vm.spaces[proc]), vm.mem.M(), e, e, TopOf(e, addr))
      ensures r.Done? ==> ZerosIn(vm.abs, proc, e, TopOf(e, addr))
      ensures (old(vm.Trusted()) ==> vm.Trusted()) && (old(vm.Permitted()) ==> vm.Permitted())
    {
      hide Vm.Valid, Vm.Trusted, WellFormed, Unmapped, HeapIn, Moved, Up, Down, Inserted, DataIn, Carve, Step,
        StaleByChance, Alone, Cut, AreaPages, Backs, Vm.Permitted, ByteAt, Flushed;
      Rounding(addr);
      obj, ev := NULL, None;
      var areas := vm.spaces[proc];
      if addr < e * PAGE_SIZE {
        StayedBelow(areas, e, obj);
        brk := addr;
        return Done(addr), obj, ev;
      }
      ghost var data := TheData(areas, Down(startBrk - 1), edge);
      AreaIn(areas, data);
      Rounding(USER_HIGH * PAGE_SIZE);
      RoundingMonotone(addr, USER_HIGH * PAGE_SIZE);
      var empty := Vmmap.IsRangeEmpty(areas, pgnStart, npages);
      if !empty {
        return NoMem, obj, ev;
      }
      CarvedNothing(areas, pgnStart, pgnStart + npages);
      vm.Names(proc);
      if vm.Trusted() {
        vm.GoodTable(proc);
        NothingStale(areas, vm.tables[proc], vm.mem.M(), pgnStart, pgnStart + npages, Private, 0);
      }
      var mapped, o, bottom := vm.MapArea(proc, None, pgnStart, npages, HEAP_PROT, Private, 0);
      obj := o;
      ev := Some(Map(proc, pgnStart, npages, HEAP_PROT, Private, bottom, false, 0));
      var a := Area(pgnStart, pgnStart + npages, 0, HEAP_PROT, Private, o);
      InsertedHeap(areas, a, data);
      vm.Layout(proc);
      DataStays(areas, vm.spaces[proc], Down(startBrk - 1), data);
      brk := addr;
      return Done(addr), obj, ev;
    }

    // The area to move the end of; none if do_brk takes a page to be in the way.
    method RegionFor(addr: nat, pgnStart: nat, npages: nat, pagenum: nat) returns (vma: Option<Area>)
      requires Valid() && edge * PAGE_SIZE < addr <= USER_HIGH * PAGE_SIZE && addr != brk && edge * PAGE_SIZE < brk
      requires pgnStart == Down(brk) && (addr > brk ==> npages == Up(addr) - Up(brk))
      requires pagenum == if brk % PAGE_SIZE != 0 then Down(brk - 1) + 1 else Down(brk - 1)
      ensures vma.Some? ==> vma.value in vm.spaces[proc] && Covers(vma.value, Up(brk) - 1)
      ensures Safe(edge, brk, addr) ==> (vma.None? <==> !Unmapped(vm.spaces[proc], Up(brk), Up(addr)))
      ensures !Safe(edge, brk, addr) ==> vma.None?
    {
      hide Vm.Valid, WellFormed, Unmapped, HeapIn, Up, Down, DataIn, Alone;
      Rounding(addr);
      Rounding(brk);
      var areas := vm.spaces[proc];
      ghost var h := TheHeap(areas, edge, Up(brk));
      HeapPages(areas, h, edge, Up(brk));
      AreaIn(areas, h);
      Rounding(USER_HIGH * PAGE_SIZE);
      RoundingMonotone(addr, USER_HIGH * PAGE_SIZE);
      RoundingMonotone(Min(addr, brk), Max(addr, brk));
      if npages == 0 || addr <= brk {
        NothingBetween(areas, Up(brk), Up(addr));
        vma := Vmmap.Lookup(areas, Down(brk - 1));
      } else {
        HeapInTheWay(areas, h, Down(brk), npages);
        var empty := Vmmap.IsRangeEmpty(areas, pgnStart, npages);
        if !empty {
          return None;
        }
        vma := Vmmap.Lookup(areas, pagenum);
      }
    }

    // The region is there and some of it stays.
    method Resize(addr: nat, e: nat, pgnStart: nat, npages: nat, pagenum: nat, pgnEnd: nat)
      returns (r: BrkResult, ghost ev: Option<Event>)
      requires Valid() && startBrk < addr <= USER_HIGH * PAGE_SIZE && e == edge && e * PAGE_SIZE < addr != brk
               && e * PAGE_SIZE < brk
      requires pgnStart == Down(brk) && pgnEnd == Up(addr) && (addr > brk ==> npages == Up(addr) - Up(brk))
      requires pagenum == if brk % PAGE_SIZE != 0 then Down(brk - 1) + 1 else Down(brk - 1)
      modifies this`brk, vm`spaces, vm`links, vm`abs, vm`trace
      ensures vm.Valid() && proc < |vm.spaces| == |vm.tables| && vm.abs == After(old(vm.abs), ev)
      ensures r == NoMem ==> vm.spaces == old(vm.spaces) && vm.tables == old(vm.tables) && brk == old(brk) && ev == None
      ensures r != NullVma
      ensures Safe(e, old(brk), addr) ==>
                && (r == NoMem <==> !Unmapped(old(vm.spaces[proc]), Up(old(brk)), Up(addr)))
                && (r.Done? ==> Valid() && r.brk == brk == addr)
                && (r.Done? ==>
                      forall obj :: Moved(old(vm.spaces[proc]), vm.spaces[proc], e, Up(old(brk)), Up(addr), obj))
                && (r.Done? ==> EventFits(ev, proc, old(vm.spaces[proc]), vm.mem.M(), e, Up(old(brk)), Up(addr)))
                && (old(vm.Trusted()) ==> (vm.Trusted() <==> r == NoMem ||
                                                             NoneIn(vm.tables[proc], Up(addr), Up(old(brk)))))
      ensures !Safe(e, old(brk), addr) ==> r == NoMem
      ensures old(vm.Permitted()) ==> vm.Permitted()
    {
      hide Vm.Valid, Vm.Trusted, WellFormed, Unmapped, HeapIn, Moved, Up, Down, Resized, DataIn, Step, Alone, Added,
        ResizedLinks, Vm.Permitted;
      ev := None;
      Rounding(addr);
      Rounding(brk);
      RoundingMonotone(addr, USER_HIGH * PAGE_SIZE);
      Rounding(USER_HIGH * PAGE_SIZE);
      var areas := vm.spaces[proc];
      ghost var data := TheData(areas, Down(startBrk - 1), edge);
      AreaIn(areas, data);
      ghost var h := TheHeap(areas, e, Up(brk));
      AreaIn(areas, h);
      var vma := RegionFor(addr, pgnStart, npages, pagenum);
      if vma.None? {
        return NoMem, ev;
      }
      OnlyArea(areas, Up(brk) - 1, h);
      OnlyArea(areas, Up(brk) - 1, vma.value);
      forall obj: ObjId ensures Moved(areas, Resized(areas, h, pgnEnd), e, Up(brk), pgnEnd, obj) {
        ResizedHeap(areas, h, data, e, Up(brk), pgnEnd, obj);
      }
      ResizedHeap(areas, h, data, e, Up(brk), pgnEnd, NULL);
      DataStays(areas, Resized(areas, h, pgnEnd), Down(startBrk - 1), data);
      ev := Some(if h.end < pgnEnd then Extend(proc, Added(vm.mem.M(), h, h.end, pgnEnd))
                 else Unmap(proc, pgnEnd, h.end));
      vm.ResizeArea(proc, vma.value, pgnEnd);
      brk := addr;
      return Done(addr), ev;
    }

    // The whole region goes.
    method GiveUp(addr: nat, e: nat, pagenum: nat) returns (r: BrkResult, ghost ev: Option<Event>)
      requires Valid() && startBrk < addr <= e * PAGE_SIZE && e == edge && e * PAGE_SIZE < brk
      requires pagenum == if brk % PAGE_SIZE != 0 then Down(brk - 1) + 1 else Down(brk - 1)
      modifies this`brk, vm, vm.mem, vm.mem.cache
      ensures vm.Valid() && proc < |vm.spaces| == |vm.tables| && vm.abs == After(old(vm.abs), ev)
      ensures r != NoMem && (old(vm.Permitted()) ==> vm.Permitted())
      ensures old(brk) % PAGE_SIZE == 0 ==>
                && r == Done(addr) && Valid() && brk == addr && ev == Some(Unmap(proc, e, Up(old(brk))))
                && (forall obj :: Moved(old(vm.spaces[proc]), vm.spaces[proc], e, Up(old(brk)), e, obj))
                && (old(vm.Trusted()) ==> vm.Trusted())
      ensures old(brk) % PAGE_SIZE != 0 ==>
                (r == NullVma <==> PageAt(old(vm.spaces[proc]), Up(old(brk))) == None)
                && forall obj :: !Moved(old(vm.spaces[proc]), vm.spaces[proc], e, Up(old(brk)), e, obj)
    {
      hide Vm.Valid, Vm.Trusted, WellFormed, Unmapped, HeapIn, Moved, Up, Down, Carve, DataIn, Step, Alone, Flush,
        Flushed, Cut, Part, Vm.Permitted;
      ev := None;
      Rounding(brk);
      var areas := vm.spaces[proc];
      ghost var data := TheData(areas, Down(startBrk - 1), edge);
      ghost var h := TheHeap(areas, e, Up(brk));
      HeapPages(areas, h, e, Up(brk));
      var vma := Vmmap.Lookup(areas, pagenum);
      if vma.None? {
        forall obj: ObjId ensures !Moved(areas, areas, e, Up(brk), e, obj) {
          NotMoved(areas, areas, e, Up(brk), obj);
        }
        return NullVma, ev;
      }
      AreaIn(areas, vma.value);
      if brk % PAGE_SIZE == 0 {
        OnlyArea(areas, pagenum, h);
        OnlyArea(areas, pagenum, vma.value);
        CarvedHeap(areas, h, data, e, Up(brk), NULL);
        forall obj: ObjId ensures Moved(areas, Carve(areas, e, Up(brk)), e, Up(brk), e, obj) {
          CarvedHeap(areas, h, data, e, Up(brk), obj);
        }
        DataStays(areas, Carve(areas, e, Up(brk)), Down(startBrk - 1), data);
        AllFlushed(areas, h);
      } else {
        forall obj: ObjId ensures !Moved(areas, Carve(areas, vma.value.start, vma.value.end), e, Up(brk), e, obj) {
          CarvedOther(areas, vma.value, h, e, Up(brk), obj);
        }
      }
      ev := Some(Unmap(proc, vma.value.start, vma.value.end));
      vm.Remove(proc, vma.value.start, vma.value.end - vma.value.start);
      vm.Layout(proc);
      brk := addr;
      return Done(addr), ev;
    }

    /**
     do_brk for an address above the starting break. Unless the break lies inside the last page of the
     region and the request either leaves that page upwards or gives the whole region up, the region is
     made to end at the new break, or ENOMEM is returned and nothing changes, exactly when another mapping
     is in the way. In the excepted cases growth is always refused, and giving up removes a wrong area; so the
     outcome is right if and only if the request is safe, or is a growth that a mapping is in the way of.
     All processes see exactly one event, and translations stay good if and only if a region that is made smaller,
     but not given up, had none for the pages it loses.
     */
    method Move(addr: nat) returns (r: BrkResult, ghost obj: ObjId, ghost ev: Option<Event>)
      requires Valid() && startBrk < addr <= USER_HIGH * PAGE_SIZE
      modifies this`brk, vm, vm.mem, vm.mem.cache
      ensures vm.Valid() && proc < |vm.spaces| == |vm.tables| && vm.abs == After(old(vm.abs), ev)
      ensures r == NoMem ==> vm.spaces == old(vm.spaces) && vm.tables == old(vm.tables) && brk == old(brk) && ev == None
      ensures Safe(edge, old(brk), addr) ==>
                var was, now := TopOf(edge, old(brk)), TopOf(edge, addr);
                && Valid() && r != NullVma && (r == NoMem <==> !Unmapped(old(vm.spaces[proc]), was, now))
                && (r.Done? ==> r.brk == brk == addr
                                && Moved(old(vm.spaces[proc]), vm.spaces[proc], edge, was, now, obj)
                                && EventFits(ev, proc, old(vm.spaces[proc]), vm.mem.M(), edge, was, now)
                                && UsableIn(vm.spaces[proc], edge, now)
                                && (was == edge ==> ZerosIn(vm.abs, proc, edge, now)))
                && (old(vm.Trusted()) ==> (vm.Trusted() <==> r == NoMem || now == edge ||
                                                             NoneIn(old(vm.tables[proc]), now, was)))
      ensures old(vm.Permitted()) ==> vm.Permitted()
      ensures !Safe(edge, old(brk), addr) && addr > edge * PAGE_SIZE ==> r == NoMem
      ensures !Safe(edge, old(brk), addr) && addr <= edge * PAGE_SIZE ==>
                && (r == NullVma <==> PageAt(old(vm.spaces[proc]), Up(old(brk))) == None) && r != NoMem
                && !Moved(old(vm.spaces[proc]), vm.spaces[proc], edge, TopOf(edge, old(brk)), TopOf(edge, addr), obj)
      ensures Right(old(vm.spaces[proc]), old(brk), vm.spaces[proc], brk, edge, addr, obj, r) <==>
              Safe(edge, old(brk), addr) ||
              (addr > edge * PAGE_SIZE &&
               !Unmapped(old(vm.spaces[proc]), TopOf(edge, old(brk)), TopOf(edge, addr)))
    {
      hide Vm.Valid, Vm.Trusted, WellFormed, Unmapped, HeapIn, Moved, Up, Down, PagesBetween, DataIn, Step, NoneIn,
        Added, Vm.Permitted, UsableIn, ZerosIn;
      NothingBetween(vm.spaces[proc], TopOf(edge, brk), TopOf(edge, addr));
      NoneBetween(vm.tables[proc], TopOf(edge, addr), TopOf(edge, brk));
      obj, ev := NULL, None;
      var e := FindEdge();
      Rounding(addr);
      Rounding(brk);
      var from := Max(brk, e * PAGE_SIZE);
      if addr == from {
        Stayed(vm.spaces[proc], e, brk, addr, obj);
        MovedUsable(vm.spaces[proc], vm.spaces[proc], e, TopOf(e, brk), TopOf(e, addr), obj);
        NoPages(vm.abs, proc, e);
        brk := addr;
        return Done(addr), obj, ev;
      }
      Rounding(from);
      var pgnEnd := Up(addr);
      var pgnStart := Down(from);
      var npages := PagesBetween(from, addr);
      if from < addr {
        PagesBetweenIs(from, addr);
      }
      var pagenum := Down(brk - 1);
      if brk % PAGE_SIZE != 0 {
        pagenum := pagenum + 1;
      }
      if from == e * PAGE_SIZE {
        r, obj, ev := FirstGrowth(addr, e, pgnStart, npages);
      } else if addr > e * PAGE_SIZE {
        r, ev := Resize(addr, e, pgnStart, npages, pagenum, pgnEnd);
      } else {
        NothingBetween(vm.spaces[proc], TopOf(e, brk), TopOf(e, addr));
        r, ev := GiveUp(addr, e, pagenum);
      }
      if r.Done? && Safe(e, old(brk), addr) {
        MovedUsable(old(vm.spaces[proc]), vm.spaces[proc], e, TopOf(e, old(brk)), TopOf(e, addr), obj);
      }
    }

    /** do_brk. With no address it reports the break; at the starting break it reports success and moves nothing. */
    method DoBrk(addr: nat) returns (r: BrkResult, ghost obj: ObjId, ghost ev: Option<Event>)
      requires Valid() && addr <= USER_HIGH * PAGE_SIZE
      modifies this`brk, vm, vm.mem, vm.mem.cache
      ensures vm.Valid() && proc < |vm.spaces| == |vm.tables| && vm.abs == After(old(vm.abs), ev)
      ensures addr <= startBrk ==> Valid() && vm.spaces == old(vm.spaces) && brk == old(brk) && ev == None
      ensures addr == 0 ==> r == Done(brk)
      ensures 0 < addr < startBrk ==> r == NoMem
      ensures addr == startBrk ==> r == Done(startBrk)
      ensures r == NoMem ==> vm.spaces == old(vm.spaces) && brk == old(brk) && ev == None
      ensures addr > startBrk && addr % PAGE_SIZE == 0 && (old(brk) % PAGE_SIZE == 0 || old(brk) == startBrk) ==>
                var was, now := TopOf(edge, old(brk)), TopOf(edge, addr);
                && Valid() && r != NullVma && (r.Done? ==> r.brk == brk == addr)
                && (r == NoMem <==> !Unmapped(old(vm.spaces[proc]), was, now))
                && (r.Done? ==> Moved(old(vm.spaces[proc]), vm.spaces[proc], edge, was, now, obj)
                                && EventFits(ev, proc, old(vm.spaces[proc]), vm.mem.M(), edge, was, now)
                                && UsableIn(vm.spaces[proc], edge, now)
                                && (was == edge ==> ZerosIn(vm.abs, proc, edge, now)))
      ensures old(vm.Permitted()) ==> vm.Permitted()
    {
      hide Vm.Valid, Vm.Trusted, WellFormed, Unmapped, HeapIn, Moved, Up, Down, Step, EventFits, Right, NoneIn,
        Vm.Permitted, UsableIn, ZerosIn;
      obj, ev := NULL, None;
      if addr == 0 {
        return Done(brk), obj, ev;
      }
      if addr < startBrk {
        return NoMem, obj, ev;
      } else if addr == startBrk {
        return Done(startBrk), obj, ev;
      }
      StartBelow(vm.spaces[proc], startBrk, brk, edge);
      r, obj, ev := Move(addr);
    }
  }

  lemma DataStays(areas: seq<Area>, areas': seq<Area>, page: nat, d: Area)
    requires d in areas && d in areas' && Covers(d, page)
    ensures DataIn(areas', page, d.end)
  {
  }

  lemma NoneBetween(table: Table, lo: nat, hi: nat)
    ensures hi <= lo ==> NoneIn(table, lo, hi)
  {
  }

  lemma StartBelow(areas: seq<Area>, startBrk: nat, brk: nat, edge: nat)
    requires BrkOk(areas, startBrk, brk, edge)
    ensures startBrk <= edge * PAGE_SIZE
  {
    Rounding(startBrk);
  }

  /** A break inside a page: growth by one page is refused although the page above is free. */
  method RefusedGrowthExample() returns (h: Heap, r: BrkResult)
    ensures h.Valid() && r == NoMem && h.brk == (USER_LOW + 1) * PAGE_SIZE + 1
    ensures Unmapped(h.vm.spaces[h.proc], TopOf(h.edge, h.brk), TopOf(h.edge, h.brk + PAGE_SIZE))
  {
    hide Vm.Valid, Vm.Trusted, WellFormed, Unmapped, HeapIn, Moved, Right, Up, Down, DataIn, EventFits, Step, Carve,
      Inserted, StaleByChance, Cut, AreaPages, Backs, Vm.Permitted, UsableIn, ZerosIn, ByteAt;
    var start := (USER_LOW + 1) * PAGE_SIZE;
    var vm := new Vm(1);
    var mapped, obj, bottom := vm.MapArea(0, None, USER_LOW, 1, HEAP_PROT, Private, 0);
    var d := Area(USER_LOW, USER_LOW + 1, 0, HEAP_PROT, Private, obj);
    OneShared(d);
    assert vm.spaces[0] == [d];
    ExampleStart(d);
    DataStays([d], [d], Down(start - 1), d);
    h := new Heap(vm, 0, start, USER_LOW + 1);
    var grown, o, ev := h.Move(start + 1);
    ExampleGrown([d], vm.spaces[0], o);
    r, o, ev := h.Move(start + 1 + PAGE_SIZE);
  }

  lemma ExampleStart(d: Area)
    requires d == Area(USER_LOW, USER_LOW + 1, 0, HEAP_PROT, Private, d.obj)
    ensures WellFormed([d]) && Covers(d, Down((USER_LOW + 1) * PAGE_SIZE - 1))
    ensures var start := (USER_LOW + 1) * PAGE_SIZE;
            && TopOf(d.end, start) == USER_LOW + 1 && TopOf(d.end, start + 1) == USER_LOW + 2
            && TopOf(d.end, start + 1 + PAGE_SIZE) == USER_LOW + 3
            && Safe(d.end, start, start + 1) && !Safe(d.end, start + 1, start + 1 + PAGE_SIZE)
    ensures Unmapped([d], USER_LOW + 1, USER_LOW + 2) && Unmapped([d], USER_LOW + 2, USER_LOW + 3)
  {
  }

  lemma ExampleGrown(areas: seq<Area>, areas': seq<Area>, obj: ObjId)
    requires Moved(areas, areas', USER_LOW + 1, USER_LOW + 1, USER_LOW + 2, obj)
             && Unmapped(areas, USER_LOW + 2, USER_LOW + 3)
    ensures Unmapped(areas', USER_LOW + 2, USER_LOW + 3)
  {
  }
}
