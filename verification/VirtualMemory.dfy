/** The address spaces of all processes: vmmap.c, fork.c and pagefault.c over shared memory objects. */
module VirtualMemory {
  import opened PageTypes
  import opened AreaList
  import opened PageCache
  import opened MemObjects
  import opened References
  import opened Memory
  import opened EagerCopy
  import opened Spaces
  import opened NewMappings
  import opened Forking
  import opened Accesses
  import opened Translations
  import opened ByteCopies
  import opened Eviction
  import opened AreaLinks
  import opened Resizing
  import opened Protection
  import Vmmap

  // vmmap_map maps at an address, finds no room, or follows the null pointer of vmmap_find_range.
  datatype MapResult = Mapped(start: nat) | NoRoom | NullArea

  // One process with nothing mapped.
  const BOOT: AState := AState([map[]], map[])

  class Vm {
    const mem: Objects
    // The area list of each process; an exited process has none.
    var spaces: seq<seq<Area>>
    var tables: seq<Table>
    // The pages of each process whose areas are on the lists that bottom objects keep, and the maps that name their
    // process.
    var links: seq<set<nat>>
    var owned: set<nat>
    ghost var vnodes: multiset<ObjId>
    // The same memory without copy-on-write, and the events that led to it.
    ghost var abs: AState
    ghost var trace: seq<Event>
    // Pages stored into through a translation while they were clean, and neither marked nor cleaned since.
    ghost var unmarked: set<Key>

    /** With `refs` the references the address spaces hold, every count is exact. */
    ghost predicate Balanced(refs: multiset<ObjId>)
      reads this`vnodes, this`unmarked, mem, mem.cache
    {
      && mem.Valid() && mem.loose == {} && mem.handles == refs + vnodes && FilesHeld(mem.objs, vnodes)
      && FilesSaved(mem.M(), unmarked)
    }

    ghost predicate Valid()
      reads this, mem, mem.cache
    {
      && Balanced(AllObjs(spaces))
      && SpacesOk(spaces, mem.M())
      && Refines(abs, spaces, mem.M(), mem.next)
      && |tables| == |links| == |spaces| && LinksOk(spaces, links)
      && abs == Run(BOOT, trace)
    }

    ghost method Record(e: Event)
      requires abs == Run(BOOT, trace)
      modifies this`abs, this`trace
      ensures abs == Step(old(abs), e) && trace == old(trace) + [e] && abs == Run(BOOT, trace)
    {
      RunSnoc(BOOT, trace, e);
      abs, trace := Step(abs, e), trace + [e];
    }

    constructor (hashSize: nat)
      requires hashSize > 0
      ensures Valid() && Trusted() && abs == BOOT && tables == [map[]] && unmarked == {} && fresh(mem)
              && fresh(mem.cache)
      ensures spaces == [[]] && links == [{}] && owned == {0} && Permitted()
    {
      hide SpacesOk, Refines, AllObjs, Run, MemOk, TablesOk, NamesBelow;
      var o := new Objects(hashSize);
      mem, spaces, tables, links, owned, vnodes := o, [[]], [map[]], [{}], {0}, multiset{};
      abs, trace, unmarked := BOOT, [], {};
      new;
      BootOk(mem.M(), mem.next);
    }

    /** Every translation leads to the frame the process should see. */
    ghost predicate Trusted()
      reads this, mem, mem.cache
    {
      Coherent(spaces, tables, mem.M())
    }

    /** Through its translations each process can do only what its areas allow. */
    ghost predicate Permitted()
      reads this`spaces, this`tables
    {
      PermittedIn(spaces, tables)
    }

    // ----- Files -----

    /** A file becomes available: its vnode holds its object, whose pages are in the backing store. */
    method OpenVnode(pages: map<nat, Page>) returns (f: ObjId)
      requires Valid()
      modifies this`vnodes, this`abs, this`trace, mem, mem.cache`t
      ensures Valid() && abs == Step(old(abs), Open(f, pages)) && vnodes == old(vnodes) + multiset{f}
      ensures f in mem.objs && mem.objs[f].kind == File && (old(Trusted()) ==> Trusted())
      ensures forall p :: p in pages ==> Stored(abs.store, Key(f, p)) == pages[p]
      ensures forall k: Key :: k.obj != f ==> Stored(abs.store, k) == Stored(old(abs).store, k)
    {
      hide Balanced, AllObjs, SpacesOk, Refines, LinksOk, Part, Step, Coherent, KindsOk, ChainsOk, RefsOk, WithFile,
        MemOk, NamesBelow;
      ghost var m, h, next := mem.M(), mem.handles, mem.next;
      BalancedParts(AllObjs(spaces));
      OpenOk(abs, spaces, m, h, next, pages);
      KindsAre(spaces, m);
      if Trusted() {
        SameCoherent(spaces, tables, m, WithOpened(m, next, pages));
      }
      f := NewVnode(pages, AllObjs(spaces));
      OpenedPages(abs, f, pages);
      Record(Open(f, pages));
    }

    lemma OpenSaved(refs: multiset<ObjId>, pages: map<nat, Page>)
      requires Balanced(refs)
      ensures FilesSaved(WithOpened(mem.M(), mem.next, pages), unmarked)
    {
      hide Objects.Valid, FilesHeld, WithFile, FilesSaved, MemOk, NamesBelow, ChainsOk, RefsOk, Grown;
      BalancedParts(refs);
      OpenGrown(mem.M(), mem.handles, mem.next, pages);
      Unnamed(mem.objs, mem.next);
      SavedOpened(mem.M(), mem.next, pages, unmarked);
    }

    method NewVnode(pages: map<nat, Page>, ghost refs: multiset<ObjId>) returns (f: ObjId)
      requires Balanced(refs)
      modifies this`vnodes, mem, mem.cache`t
      ensures Balanced(refs) && vnodes == old(vnodes) + multiset{f} && mem.M() == WithOpened(old(mem.M()), f, pages)
      ensures f == old(mem.next) && mem.next == f + 1
    {
      hide Objects.Valid, FilesHeld, WithFile, FilesSaved;
      ghost var m := mem.M();
      OpenSaved(refs, pages);
      f := mem.FileCreate(pages);
      assert refs + vnodes + multiset{f} == refs + (vnodes + multiset{f});
      FilesOpened(m.objs, vnodes, f);
      vnodes := vnodes + multiset{f};
    }

    // ----- References held by areas -----

    method RefArea(o: ObjId, ghost refs: multiset<ObjId>, ghost m0: Mem)
      requires Balanced(refs) && o in refs && Part(mem.M(), m0)
      modifies mem`objs, mem`handles
      ensures Balanced(refs + multiset{o}) && Part(mem.M(), m0)
    {
      hide Objects.Valid, FilesHeld, Part, FilesSaved;
      mem.HeldIsThere(o);
      ghost var m := mem.M();
      RefsOnly(m, vnodes, o, 1);
      SavedObject(m, o, WithRefs(m, o, 1).objs[o], unmarked);
      PartTransitive(WithRefs(m, o, 1), m, m0);
      mem.Ref(o);
      assert refs + vnodes + multiset{o} == refs + multiset{o} + vnodes;
    }

    method PutArea(o: ObjId, ghost refs: multiset<ObjId>, ghost m0: Mem)
      requires Balanced(refs) && o in refs && Part(mem.M(), m0)
      modifies mem`objs, mem`handles, mem`loose, mem.cache
      ensures Balanced(refs - multiset{o}) && Part(mem.M(), m0)
    {
      hide Objects.Valid, FilesHeld, Part, FilesSaved;
      assert refs + vnodes - multiset{o} == refs - multiset{o} + vnodes;
      FilesMoreHeld(mem.objs, vnodes, mem.handles - multiset{o});
      ghost var m := mem.M();
      mem.Put(o);
      PartFiles(m, mem.M(), vnodes);
      SavedPart(m, mem.M(), unmarked);
      PartTransitive(mem.M(), m, m0);
    }

    // ----- vmmap_remove -----

    /** Case 1 of vmmap_remove: the range lies inside the area, which is split in two. */
    method CutInside(i: nat, pos: nat, lo: nat, hi: nat, ghost m0: Mem)
      requires i < |spaces| && pos < |spaces[i]| && Balanced(AllObjs(spaces)) && Part(mem.M(), m0)
      requires spaces[i][pos].start <= lo <= hi <= spaces[i][pos].end
      modifies this`spaces, mem`objs, mem`handles, mem`loose, mem.cache
      ensures spaces == Replaced(old(spaces), i, pos, Pieces(old(spaces)[i][pos], lo, hi))
      ensures Balanced(AllObjs(spaces)) && Part(mem.M(), m0)
    {
      hide Balanced, Part, AllObjs, Objs, Pieces, Replaced;
      var a := spaces[i][pos];
      ghost var base := AllObjs(spaces);
      AreaHeld(spaces, i, pos);
      RefArea(a.obj, base, m0);
      var split := a.(end := lo);
      var rest := a.(start := hi, off := a.off + hi - a.start);
      Held(base, a.obj);
      var left := KeepOrPut(split, base - multiset{a.obj} + multiset{a.obj}, m0);
      Carried(base - multiset{a.obj}, Objs(left), multiset{a.obj});
      var right := KeepOrPut(rest, base - multiset{a.obj} + Objs(left), m0);
      ObjsConcat(left, right);
      assert base - multiset{a.obj} + Objs(left) + Objs(right) == base - multiset{a.obj} + (Objs(left) + Objs(right));
      PiecesByCase(a, lo, hi);
      ReplacedRefs(spaces, i, pos, left + right);
      spaces := Replaced(spaces, i, pos, left + right);
    }

    // A part of a split area with a reference of its own; an empty part gives the reference up.
    method KeepOrPut(a: Area, ghost others: multiset<ObjId>, ghost m0: Mem) returns (kept: seq<Area>)
      requires Balanced(others + multiset{a.obj}) && Part(mem.M(), m0)
      modifies mem`objs, mem`handles, mem`loose, mem.cache
      ensures kept == if a.start == a.end then [] else [a]
      ensures Balanced(others + Objs(kept)) && Part(mem.M(), m0)
    {
      hide Balanced, Part, Objs;
      ObjsOf(a);
      if a.start == a.end {
        PutArea(a.obj, others + multiset{a.obj}, m0);
        assert others + multiset{a.obj} - multiset{a.obj} == others + multiset{};
        kept := [];
      } else {
        kept := [a];
      }
    }

    // An area that a cut leaves empty gives up its reference and leaves the list.
    method Trim(i: nat, pos: nat, a: Area, ghost m0: Mem)
      requires i < |spaces| && pos < |spaces[i]| && Balanced(AllObjs(spaces)) && Part(mem.M(), m0)
      requires a.start <= a.end && a.obj == spaces[i][pos].obj
      modifies this`spaces, mem`objs, mem`handles, mem`loose, mem.cache
      ensures spaces == Replaced(old(spaces), i, pos, if a.start == a.end then [] else [a])
      ensures Balanced(AllObjs(spaces)) && Part(mem.M(), m0)
    {
      hide Balanced, Part, AllObjs, Objs;
      ghost var base := AllObjs(spaces);
      AreaHeld(spaces, i, pos);
      ObjsOf(a);
      if a.start == a.end {
        ReplacedRefs(spaces, i, pos, []);
        PutArea(a.obj, base, m0);
        assert base - multiset{a.obj} + multiset{} == base - multiset{a.obj};
        spaces := Replaced(spaces, i, pos, []);
      } else {
        ReplacedRefs(spaces, i, pos, [a]);
        assert base - multiset{a.obj} + multiset{a.obj} == base;
        spaces := Replaced(spaces, i, pos, [a]);
      }
    }

    // Apart from pages of process i in a range, every translation leads to the frame the process should see.
    ghost predicate CoherentOutside(i: nat, lo: nat, hi: nat)
      reads this, mem, mem.cache
    {
      i < |tables| && Coherent(spaces, tables[i := WithoutRange(tables[i], lo, hi)], mem.M())
    }

    /**
     vmmap_remove: the page map of process i is restricted to pages outside [lo, lo + npages), for every
     way the range can overlap any number of areas.
     */
    method Remove(i: nat, lo: nat, npages: nat)
      requires Valid() && i < |spaces| && lo + npages < WORD
      modifies this`spaces, this`tables, this`links, this`abs, this`trace, mem`objs, mem`handles, mem`loose, mem.cache
      ensures Valid() && abs == Step(old(abs), Unmap(i, lo, lo + npages)) && Part(mem.M(), old(mem.M()))
      ensures spaces == old(spaces)[i := Carve(old(spaces)[i], lo, lo + npages)]
      ensures |old(tables)| == |old(spaces)| && tables ==
                                                old(tables)[i := Flush(old(tables)[i], old(spaces)[i], lo, lo + npages)]
      ensures old(Trusted()) ==> (Trusted() <==> forall v :: v in old(tables)[i] && lo <= v < lo + npages ==>
                                                               Flushed(old(spaces)[i], lo, lo + npages, v))
      ensures old(Trusted()) ==> CoherentOutside(i, lo, lo + npages)
      ensures |old(links)| == |old(spaces)|
              && links == old(links)[i := Cut(old(spaces)[i], old(links)[i], lo, lo + npages)]
      ensures old(Permitted()) ==> Permitted()
    {
      hide Balanced, SpacesOk, Refines, AllObjs, Part, Carve, Flush, Step, Coherent, Flushed, ChainsOk, RefsOk, MemOk,
        NamesBelow, KindsOk, WithoutRange, Cut, Uniform, WellFormed, PermittedIn;
      var hi := lo + npages;
      ghost var m := mem.M();
      ghost var before := spaces;
      LayoutOk(spaces, m, i);
      LinksAt(spaces, links, i);
      CutUniform(spaces[i], links[i], lo, hi);
      LinksSet(spaces, links, i, Carve(spaces[i], lo, hi), Cut(spaces[i], links[i], lo, hi));
      links := links[i := Cut(spaces[i], links[i], lo, hi)];
      RemoveLoop(i, lo, hi);
      BalancedParts(AllObjs(spaces));
      RemoveOk(abs, before, m, mem.M(), mem.handles, mem.next, i, lo, hi);
      KindsAre(spaces, mem.M());
      if old(Trusted()) {
        RemoveCoherent(before, old(tables), m, mem.M(), i, lo, hi);
        RemoveOutside(before, old(tables), m, mem.M(), i, lo, hi);
        assert tables[i := WithoutRange(tables[i], lo, hi)] == old(tables)[i := WithoutRange(tables[i], lo, hi)];
      }
      if old(Permitted()) {
        PermittedCut(before, old(tables), i, lo, hi);
      }
      Record(Unmap(i, lo, hi));
    }

    lemma BalancedParts(refs: multiset<ObjId>)
      requires Balanced(refs)
      ensures ChainsOk(mem.objs) && RefsOk(mem.objs, mem.handles) && refs <= mem.handles
      ensures MemOk(mem.M(), mem.handles, {}) && NamesBelow(mem.objs, mem.next)
    {
      hide ChainsOk, RefsOk, ResidentOk, PinsOk, FilesHeld, FilesSaved, TablesOk, NamesBelow;
    }

    // The loop of vmmap_remove.
    method RemoveLoop(i: nat, lo: nat, hi: nat)
      requires i < |spaces| == |tables| && lo <= hi && Balanced(AllObjs(spaces)) && WellFormed(spaces[i])
      modifies this`spaces, this`tables, mem`objs, mem`handles, mem`loose, mem.cache
      ensures spaces == old(spaces)[i := Carve(old(spaces)[i], lo, hi)]
      ensures tables == old(tables)[i := Flush(old(tables)[i], old(spaces)[i], lo, hi)]
      ensures Balanced(AllObjs(spaces)) && Part(mem.M(), old(mem.M()))
    {
      hide Balanced, AllObjs, Part, Carve, Pieces, Flush, FlushArea, Replaced, WellFormed;
      ghost var m0 := mem.M();
      ghost var orig := spaces[i];
      ghost var table := tables[i];
      PartSelf(m0);
      CarveNone(table, orig, lo, hi);
      assert spaces == spaces[i := orig] && tables == tables[i := table];
      var pos, stop := 0, false;
      ghost var j := 0;
      while pos < |spaces[i]| && !stop
        invariant |spaces| == |tables| == |old(spaces)| && j <= |orig|
        invariant spaces == old(spaces)[i := Carve(orig[..j], lo, hi) + orig[j..]] && pos == |Carve(orig[..j], lo, hi)|
        invariant tables == old(tables)[i := Flush(table, orig[..j], lo, hi)]
        invariant Balanced(AllObjs(spaces)) && Part(mem.M(), m0)
        invariant stop ==> 0 < j && hi <= orig[j - 1].end
        decreases |orig| - j
      {
        AreaAt(orig, j);
        CarveStep(orig, j, lo, hi, spaces[i], pos);
        ReplacedIn(old(spaces), spaces, i, pos, Pieces(orig[j], lo, hi));
        FlushStep(table, orig, j, lo, hi);
        var count := |spaces[i]|;
        stop := CutArea(i, pos, lo, hi, m0);
        pos := pos + |spaces[i]| + 1 - count;
        j := j + 1;
      }
      if j < |orig| {
        CarveStop(orig, j, lo, hi);
        FlushDone(table, orig, j, lo, hi);
      } else {
        assert orig[..j] == orig && orig[j..] == [];
        assert Carve(orig, lo, hi) + [] == Carve(orig, lo, hi);
      }
    }

    /** The body of the loop: one area is cut as its case demands, and the loop is told whether to stop. */
    method CutArea(i: nat, pos: nat, lo: nat, hi: nat, ghost m0: Mem) returns (stop: bool)
      requires i < |spaces| == |tables| && pos < |spaces[i]| && AreaOk(spaces[i][pos]) && lo <= hi
      requires Balanced(AllObjs(spaces)) && Part(mem.M(), m0)
      modifies this`spaces, this`tables, mem`objs, mem`handles, mem`loose, mem.cache
      ensures spaces == Replaced(old(spaces), i, pos, Pieces(old(spaces)[i][pos], lo, hi))
      ensures tables == old(tables)[i := FlushArea(old(tables)[i], old(spaces)[i][pos], lo, hi)]
      ensures stop ==> hi <= old(spaces)[i][pos].end
      ensures Balanced(AllObjs(spaces)) && Part(mem.M(), m0)
    {
      hide Balanced, AllObjs, Part, Pieces, Replaced;
      var a := spaces[i][pos];
      PiecesByCase(a, lo, hi);
      FlushAreaByCase(tables[i], a, lo, hi);
      ReplacedSame(spaces, i, pos);
      stop := false;
      var apart := lo > a.end || hi < a.start;
      if lo >= a.start && !apart && hi <= a.end {
        CutInside(i, pos, lo, hi, m0);
        tables := tables[i := WithoutRange(tables[i], lo, hi)];
        stop := true;
      } else if a.end < hi && a.start <= lo && !apart {
        Trim(i, pos, a.(end := lo), m0);
      } else if lo < a.start && hi <= a.end && !apart {
        Trim(i, pos, a.(start := hi, off := a.off + hi - a.start), m0);
      } else if lo < a.start && hi > a.end && !apart {
        Trim(i, pos, a.(end := a.start), m0);
        tables := tables[i := WithoutRange(tables[i], a.start, a.end)];
      }
    }

    // ----- vmmap_map -----

    method RefFile(f: ObjId, ghost refs: multiset<ObjId>)
      requires Balanced(refs) && f in mem.objs
      modifies mem`objs, mem`handles
      ensures Balanced(refs + multiset{f}) && mem.M() == WithRefs(old(mem.M()), f, 1)
    {
      hide Objects.Valid, FilesHeld, FilesSaved;
      RefsOnly(mem.M(), vnodes, f, 1);
      SavedObject(mem.M(), f, WithRefs(mem.M(), f, 1).objs[f], unmarked);
      mem.Ref(f);
      assert refs + vnodes + multiset{f} == refs + multiset{f} + vnodes;
    }

    method NewAnonymous(ghost refs: multiset<ObjId>) returns (a: ObjId)
      requires Balanced(refs)
      modifies mem
      ensures Balanced(refs + multiset{a}) && mem.M() == WithAnon(old(mem.M()), a)
      ensures a == old(mem.next) && mem.next == a + 1
    {
      hide Objects.Valid, FilesHeld, FilesSaved;
      FilesNew(mem.objs, vnodes, mem.next, NewAnon(mem.next));
      SavedObject(mem.M(), mem.next, NewAnon(mem.next), unmarked);
      a := mem.AnonCreate();
      assert refs + vnodes + multiset{a} == refs + multiset{a} + vnodes;
    }

    method NewShadowOver(o: ObjId, ghost others: multiset<ObjId>) returns (s: ObjId)
      requires Balanced(others + multiset{o})
      modifies mem
      ensures Balanced(others + multiset{s}) && o in old(mem.objs) && mem.M() == Shadowed(old(mem.M()), o, s)
      ensures s == old(mem.next) && mem.next == s + 1
    {
      hide Objects.Valid, FilesHeld, FilesSaved;
      mem.HeldIsThere(o);
      FilesNew(mem.objs, vnodes, mem.next, NewShadow(o, mem.objs[o].bottom));
      SavedObject(mem.M(), mem.next, NewShadow(o, mem.objs[o].bottom), unmarked);
      s := mem.ShadowOver(o);
      assert others + multiset{o} + vnodes - multiset{o} + multiset{s} == others + multiset{s} + vnodes;
    }

    /** The object for a new mapping: the file's or a new anonymous one, with a shadow object on top if private. */
    method NewObject(flags: MapType, file: Option<ObjId>, ghost refs: multiset<ObjId>) returns (obj: ObjId,
                                                                                                ghost bottom: ObjId)
      requires Balanced(refs) && StoreShows(abs.store, mem.M(), mem.next)
      requires file.Some? ==> file.value in mem.objs && mem.objs[file.value].kind == File
      modifies mem
      ensures Balanced(refs + multiset{obj}) && StoreShows(abs.store, mem.M(), mem.next)
      ensures Grown(old(mem.M()), mem.M()) && Fits(old(mem.M()), mem.M(), obj, flags, bottom, file.Some?)
      ensures Backs(mem.M(), obj, flags, bottom, file.Some?)
      ensures if file.Some? then bottom == file.value else old(mem.next) <= obj
    {
      hide Backs, Balanced, MemOk, NamesBelow, StoreShows, Fits, Grown, ChainsOk, RefsOk;
      ghost var m := mem.M();
      BalancedParts(refs);
      if file.Some? {
        obj, bottom := file.value, file.value;
        FileShared(m, obj, abs.store, mem.next);
        FilePrivate(m, mem.handles, obj, mem.next, abs.store);
        RefFile(obj, refs);
      } else {
        AnonGrown(m, mem.handles, mem.next, abs.store);
        AnonPrivate(m, mem.handles, mem.next, abs.store);
        obj := NewAnonymous(refs);
        bottom := obj;
      }
      if flags == Private {
        obj := NewShadowOver(obj, refs);
      }
    }

    /** The first half of vmmap_map: a place for the mapping, with anything already there removed. */
    method MakeRoom(i: nat, lopage: nat, npages: nat) returns (r: MapResult)
      requires i < |spaces| == |tables| && npages > 0 && Valid()
      requires lopage == 0 || (USER_LOW <= lopage && lopage + npages <= USER_HIGH)
      modifies this`spaces, this`tables, this`links, this`abs, this`trace, mem`objs, mem`handles, mem`loose, mem.cache
      ensures |spaces| == |tables| == |old(spaces)|
      ensures r == NullArea <==> lopage == 0 && old(spaces)[i] == []
      ensures r == NoRoom ==> lopage == 0 && Vmmap.NoneFree(old(spaces)[i], npages)
      ensures !r.Mapped? ==> abs == old(abs) && spaces == old(spaces) && tables == old(tables) && links == old(links)
      ensures r.Mapped? ==> if lopage != 0 then r.start == lopage
                else Vmmap.HighestFree(old(spaces)[i], r.start, npages)
      ensures r.Mapped? ==> Vmmap.FreeAt(spaces[i], r.start, npages)
                            && Cleared(old(spaces), old(tables), old(abs), i, r.start, npages)
      ensures r.Mapped? ==>
                && |links| == |old(links)| == |spaces| && links == old(links)[i := links[i]]
                && SameOutside(links[i], Cut(old(spaces)[i], old(links)[i], r.start, r.start + npages), r.start,
                               r.start + npages)
      ensures Valid() && Part(mem.M(), old(mem.M()))
      ensures r.Mapped? && old(Trusted()) ==> CoherentOutside(i, r.start, r.start + npages)
    {
      hide Balanced, SpacesOk, Refines, AllObjs, WellFormed, Unmapped, Step, Part, Carve, Flush, Flushed, Coherent,
        WithoutRange, Cut, Uniform;
      PartSelf(mem.M());
      LayoutOk(spaces, mem.M(), i);
      if lopage == 0 {
        var gap := Vmmap.FindRange(spaces[i], npages);
        if gap == Vmmap.NullArea {
          return NullArea;
        } else if gap == Vmmap.NoGap {
          return NoRoom;
        }
        AlreadyClear(i, gap.start, npages);
        CutNothing(spaces[i], links[i], gap.start, gap.start + npages);
        if Trusted() {
          CoherentWithout(spaces, tables, mem.M(), i, gap.start, gap.start + npages);
        }
        r := Mapped(gap.start);
      } else {
        var empty := Vmmap.IsRangeEmpty(spaces[i], lopage, npages);
        if empty {
          AlreadyClear(i, lopage, npages);
          CutNothing(spaces[i], links[i], lopage, lopage + npages);
          if Trusted() {
            CoherentWithout(spaces, tables, mem.M(), i, lopage, lopage + npages);
          }
        } else {
          CarvedIsFree(spaces[i], lopage, lopage + npages);
          Remove(i, lopage, npages);
        }
        r := Mapped(lopage);
      }
    }

    // The state is that of before with one range of process i removed.
    ghost predicate Cleared(spaces0: seq<seq<Area>>, tables0: seq<Table>, abs0: AState, i: nat, lo: nat, n: nat)
      requires i < |spaces0| == |tables0|
      reads this
    {
      && spaces == spaces0[i := Carve(spaces0[i], lo, lo + n)]
      && tables == tables0[i := Flush(tables0[i], spaces0[i], lo, lo + n)]
      && abs == Step(abs0, Unmap(i, lo, lo + n))
    }

    lemma AlreadyClear(i: nat, lo: nat, n: nat)
      requires Valid() && i < |spaces| && n > 0 && Unmapped(spaces[i], lo, lo + n)
      ensures Cleared(spaces, tables, abs, i, lo, n)
    {
      hide Balanced, TopsFree, Exclusive, KindOk, StoreShows, AllObjs, Unmapped, Carve, Flushed, LinksOk;
      UnmappedIffDisjoint(spaces[i], lo, lo + n);
      CarveFree(spaces[i], lo, lo + n);
      NothingFlushed(tables[i], spaces[i], lo, lo + n);
      NothingShown(abs.spaces[i], spaces[i], mem.M(), lo, lo + n);
    }

    // A new area has taken the place of whatever was in its range.
    ghost predicate Placed(spaces0: seq<seq<Area>>, tables0: seq<Table>, links0: seq<set<nat>>, abs0: AState, i: nat,
                           a: Area, bottom: ObjId, file: bool)
      requires i < |spaces0| == |tables0| == |links0| && a.start <= a.end
      reads this
    {
      && abs == Step(abs0, Map(i, a.start, a.end - a.start, a.prot, a.flags, bottom, file, a.off))
      && spaces == spaces0[i := Inserted(Carve(spaces0[i], a.start, a.end), a)]
      && tables == tables0[i := Flush(tables0[i], spaces0[i], a.start, a.end)]
      && links == links0[i := Cut(spaces0[i], links0[i], a.start, a.end) + AreaPages(a)]
    }

    method PlaceArea(i: nat, file: Option<ObjId>, lopage: nat, npages: nat, prot: Prot, flags: MapType, off: nat)
      returns (r: MapResult, obj: ObjId, ghost bottom: ObjId)
      requires i < |spaces| == |tables| == |links| && npages > 0 && off + npages <= OFF_LIMIT && Valid()
      requires file.Some? ==> file.value in mem.objs && mem.objs[file.value].kind == File && file.value in vnodes
      requires lopage == 0 || (USER_LOW <= lopage && lopage + npages <= USER_HIGH)
      modifies this`spaces, this`tables, this`links, this`abs, this`trace, mem, mem.cache
      ensures Valid() && |spaces| == |tables| == |old(spaces)|
      ensures r == NullArea <==> lopage == 0 && old(spaces)[i] == []
      ensures r == NoRoom ==> lopage == 0 && Vmmap.NoneFree(old(spaces)[i], npages)
      ensures !r.Mapped? ==> abs == old(abs) && spaces == old(spaces) && tables == old(tables) && links == old(links)
      ensures r.Mapped? ==> if lopage != 0 then r.start == lopage
                else Vmmap.HighestFree(old(spaces)[i], r.start, npages)
      ensures r.Mapped? ==>
                var a := Area(r.start, r.start + npages, off, prot, flags, obj);
                AreaOk(a) && Placed(old(spaces), old(tables), old(links), old(abs), i, a, bottom, file.Some?)
      ensures r.Mapped? && old(Trusted()) ==>
                (Trusted() <==>
                 StaleByChance(old(spaces)[i], old(tables)[i], r.start, r.start + npages, file, flags, off))
      ensures r.Mapped? && file.Some? ==>
                bottom == file.value && bottom in mem.objs && mem.objs[bottom].kind == File
      ensures r.Mapped? ==> Backs(mem.M(), obj, flags, bottom, file.Some?) && (file.None? ==> old(mem.next) <= obj)
    {
      hide Valid, Part, Inserted, Carve, Flush, Step, Coherent, StaleByChance, WithoutRange, Backs, WellFormed, TableOk,
        Cut, AreaPages, SameOutside;
      ghost var before := mem.M();
      Layout(i);
      if Trusted() {
        GoodTable(i);
      }
      r := MakeRoom(i, lopage, npages);
      obj, bottom := NULL, NULL;
      if r.Mapped? {
        if file.Some? {
          FileStays(file.value, before);
        }
        ghost var good := tables[i := WithoutRange(tables[i], r.start, r.start + npages)];
        ghost var m := mem.M();
        ghost var linked := links[i];
        obj, bottom := AddArea(i, file, Area(r.start, r.start + npages, off, prot, flags, NULL), good);
        if file.Some? {
          FileKept(file.value, m, mem.M());
        }
        CutThenMapped(Cut(old(spaces)[i], old(links)[i], r.start, r.start + npages), linked,
                      Area(r.start, r.start + npages, off, prot, flags, obj));
        if old(Trusted()) {
          AreaShown(old(spaces)[i], Area(r.start, r.start + npages, off, prot, flags, obj));
          MappedCoherent(old(spaces)[i], old(tables)[i], before, m, spaces, tables, mem.M(), i,
                         Area(r.start, r.start + npages, off, prot, flags, obj), file, bottom);
        }
        UnmapThenMap(old(abs), i, r.start, npages, prot, flags, bottom, file.Some?, off);
      }
    }

    /**
     vmmap_map. At a given address the new mapping takes the place of whatever was mapped in its range;
     otherwise it goes to the highest gap. New pages are zeros or show the file.
     */
    method MapArea(i: nat, file: Option<ObjId>, lopage: nat, npages: nat, prot: Prot, flags: MapType, off: nat)
      returns (r: MapResult, obj: ObjId, ghost bottom: ObjId)
      requires i < |spaces| == |tables| && npages > 0 && off + npages <= OFF_LIMIT && Valid()
      requires file.Some? ==> file.value in mem.objs && mem.objs[file.value].kind == File && file.value in vnodes
      requires lopage == 0 || (USER_LOW <= lopage && lopage + npages <= USER_HIGH)
      modifies this`spaces, this`tables, this`links, this`abs, this`trace, mem, mem.cache
      ensures Valid() && |spaces| == |tables| == |old(spaces)|
      ensures r == NullArea <==> lopage == 0 && old(spaces)[i] == []
      ensures r == NoRoom ==> lopage == 0 && Vmmap.NoneFree(old(spaces)[i], npages)
      ensures !r.Mapped? ==> abs == old(abs) && spaces == old(spaces) && tables == old(tables) && links == old(links)
      ensures r.Mapped? ==> if lopage != 0 then r.start == lopage
                else Vmmap.HighestFree(old(spaces)[i], r.start, npages)
      ensures r.Mapped? ==>
                && abs == Step(old(abs), Map(i, r.start, npages, prot, flags, bottom, file.Some?, off))
                && spaces == old(spaces)[i := Inserted(Carve(old(spaces)[i], r.start, r.start + npages),
                                                       Area(r.start, r.start + npages, off, prot, flags, obj))]
                && tables == old(tables)[i := Flush(old(tables)[i], old(spaces)[i], r.start, r.start + npages)]
      ensures r.Mapped? && file.None? ==>
                forall b: nat :: r.start * PAGE_SIZE <= b < (r.start + npages) * PAGE_SIZE ==> ByteAt(abs, i, b) == 0
      ensures r.Mapped? && file.Some? ==>
                forall v :: r.start <= v < r.start + npages ==>
                              PageData(abs, i, v) == Stored(old(abs).store, Key(file.value, off + (v - r.start)))
      ensures r.Mapped? && old(Trusted()) ==>
                (Trusted() <==>
                 StaleByChance(old(spaces)[i], old(tables)[i], r.start, r.start + npages, file, flags, off))
      ensures old(Permitted()) ==>
                (Permitted() <==> (r.Mapped? ==>
                                     forall v :: v in old(tables)[i] && r.start <= v < r.start + npages
                                                 && !Flushed(old(spaces)[i], r.start, r.start + npages, v) ==>
                                                   prot.read && (old(tables)[i][v].writable ==> prot.write)))
      ensures |old(links)| == |old(spaces)| == |links|
      ensures r.Mapped? ==>
                links == old(links)[i := Cut(old(spaces)[i], old(links)[i], r.start, r.start + npages) +
                AreaPages(Area(r.start, r.start + npages, off, prot, flags, obj))]
      ensures r.Mapped? ==> forall v :: r.start <= v < r.start + npages ==> v in links[i]
      ensures r.Mapped? && file.Some? ==>
                bottom == file.value && bottom in mem.objs && mem.objs[bottom].kind == File
      ensures r.Mapped? ==> Backs(mem.M(), obj, flags, bottom, file.Some?) && (file.None? ==> old(mem.next) <= obj)
    {
      hide Valid, Trusted, Inserted, Carve, Flush, Step, StaleByChance, Backs, WellFormed, Cut, AreaPages, PermittedIn,
        Flushed, ByteAt, PageData, Stored;
      StoreBelow();
      Layout(i);
      r, obj, bottom := PlaceArea(i, file, lopage, npages, prot, flags, off);
      if r.Mapped? {
        var a := Area(r.start, r.start + npages, off, prot, flags, obj);
        NewBottom0(mem.M(), obj, flags, bottom, file.Some?);
        MappedBytes(old(abs), i, r.start, npages, prot, flags, bottom, file.Some?, off, old(mem.next));
        AreaPagesAre(a);
        if old(Permitted()) {
          PermittedMap(old(spaces), old(tables), i, a);
        }
      }
    }

    lemma StoreBelow()
      requires Valid()
      ensures |abs.spaces| == |spaces| == |links| && forall k :: k in abs.store ==> k.obj < mem.next
    {
      hide Balanced, AllObjs, SpacesOk, LinksOk, Shows, Run;
    }

    lemma FileStays(f: ObjId, before: Mem)
      requires Valid() && f in vnodes && Part(mem.M(), before) && f in before.objs && before.objs[f].kind == File
      ensures f in mem.objs && mem.objs[f].kind == File
    {
      hide TablesOk, NamesBelow, FilesHeld, FilesSaved, ChainsOk, RefsOk, ResidentOk, PinsOk, AllObjs, SpacesOk,
        Refines, LinksOk;
      HeldIsLive(mem.objs, mem.handles);
      assert SameLink(mem.objs[f], before.objs[f]);
    }

    /** The second half of vmmap_map: the object is set up and the area linked in. */
    method AddArea(i: nat, file: Option<ObjId>, shape: Area, ghost good: seq<Table>)
      returns (obj: ObjId, ghost bottom: ObjId)
      requires i < |spaces| == |good| && AreaOk(shape) && Unmapped(spaces[i], shape.start, shape.end) && Valid()
      requires file.Some? ==> file.value in mem.objs && mem.objs[file.value].kind == File
      modifies this`spaces, this`links, this`abs, this`trace, mem
      ensures Valid() && spaces == old(spaces)[i := Inserted(old(spaces)[i], shape.(obj := obj))]
      ensures |old(links)| == |old(spaces)| && links == old(links)[i := old(links)[i] + AreaPages(shape.(obj := obj))]
      ensures abs == Step(old(abs), Map(i, shape.start, shape.end - shape.start, shape.prot, shape.flags, bottom,
                                        file.Some?, shape.off))
      ensures old(Coherent(spaces, good, mem.M())) ==> Coherent(spaces, good, mem.M())
      ensures Part(old(mem.M()), mem.M()) && Backs(mem.M(), obj, shape.flags, bottom, file.Some?)
      ensures if file.Some? then bottom == file.value else old(mem.next) <= obj
    {
      hide Part, Backs, KindsOk, Coherent, Balanced, SpacesOk, Refines, AllObjs, Objs, Unmapped, Inserted, Step,
        WellFormed, Grown, Fits, StoreShows, ChainsOk, RefsOk, MemOk, NamesBelow, LinksOk, AreaPages, Run;
      ghost var m, next := mem.M(), mem.next;
      LayoutOk(spaces, m, i);
      BalancedParts(AllObjs(spaces));
      RefinesStore(abs, spaces, m, next);
      obj, bottom := NewObject(shape.flags, file, AllObjs(spaces));
      var area := shape.(obj := obj);
      MapOk(abs, spaces, m, mem.M(), next, mem.next, i, area, bottom, file.Some?);
      Record(Map(i, area.start, area.end - area.start, area.prot, area.flags, bottom, file.Some?, area.off));
      var areas := Vmmap.Insert(spaces[i], area);
      AllObjsInserted(spaces, i, areas, obj);
      KindsAre(spaces, m);
      GrownPart(m, mem.M());
      if old(Coherent(spaces, good, mem.M())) {
        MapCoherent(spaces, good, m, mem.M(), i, area);
      }
      MapLinks(spaces, links, i, area);
      links := links[i := links[i] + AreaPages(area)];
      spaces := spaces[i := areas];
    }

    lemma Layout(i: nat)
      requires Valid() && i < |spaces|
      ensures WellFormed(spaces[i]) && |tables| == |spaces|
    {
      hide Balanced, AllObjs, Refines, LinksOk, TopsFree, Exclusive, WellFormed;
    }

    // Names given to objects are never given again.
    lemma Names(i: nat)
      requires Valid() && i < |spaces|
      ensures forall a :: a in spaces[i] ==> a.obj < mem.next
    {
      hide Balanced, AllObjs, SpacesOk, Refines, LinksOk, NamesBelow, ChainsOk, RefsOk, MemOk;
      BalancedParts(AllObjs(spaces));
      NamesOfAreas(spaces, mem.M(), mem.next, i);
    }

    lemma GoodTable(i: nat)
      requires Valid() && Trusted() && i < |spaces|
      ensures TableOk(spaces[i], tables[i], mem.M())
    {
      hide Balanced, AllObjs, SpacesOk, Refines, LinksOk, TableOk;
    }

    // ----- do_brk -----

    /**
     The end of an area is moved: down to a page of the area, or up over free pages if it is a private area whose
     object no other area of the process has. No translation is dropped.
     */
    method ResizeArea(i: nat, a: Area, end: nat)
      requires Valid() && i < |spaces| && a in spaces[i] && AreaOk(a) && AreaOk(a.(end := end))
      requires a.end < end ==> a.flags == Private && Alone(spaces[i], a) && Unmapped(spaces[i], a.end, end)
      modifies this`spaces, this`links, this`abs, this`trace
      ensures Valid() && spaces == old(spaces)[i := Resized(old(spaces)[i], a, end)]
      ensures abs == Step(old(abs), if a.end < end then Extend(i, Added(mem.M(), a, a.end, end))
                          else Unmap(i, end, a.end))
      ensures |old(links)| == |old(spaces)| && links == old(links)[i := ResizedLinks(old(links)[i], a, end)]
      ensures i < |tables| && (old(Trusted()) ==> (Trusted() <==> forall v :: v in tables[i] ==> !(end <= v < a.end)))
      ensures old(Permitted()) ==>
                (Permitted() <==> forall v :: v in tables[i] && a.end <= v < end ==>
                                                a.prot.read && (tables[i][v].writable ==> a.prot.write))
    {
      hide Balanced, SpacesOk, Refines, AllObjs, Step, Coherent, Run, LinksOk, Resized, Alone, Unmapped, Added, AreaOk,
        ResizedLinks, KindsOk, WellFormed, PermittedIn;
      LayoutOk(spaces, mem.M(), i);
      KindsAre(spaces, mem.M());
      ResizedRefs(spaces, i, a, end);
      LinksResized(spaces, links, i, a, end);
      if Trusted() {
        ResizedCoherent(spaces, tables, mem.M(), i, a, end);
      }
      if Permitted() {
        PermittedResize(spaces, tables, i, a, end);
      }
      AreaBounds(a, end);
      if a.end < end {
        GrowOk(abs, spaces, mem.M(), mem.next, i, a, end);
        Record(Extend(i, Added(mem.M(), a, a.end, end)));
      } else {
        ShrinkOk(abs, spaces, mem.M(), mem.next, i, a, end);
        Record(Unmap(i, end, a.end));
      }
      links := links[i := ResizedLinks(links[i], a, end)];
      spaces := spaces[i := Resized(spaces[i], a, end)];
    }

    // ----- do_fork -----

    /** Two new shadow objects over o, whose reference they share out between parent and child. */
    method SplitObject(o: ObjId, ghost others: multiset<ObjId>) returns (c: ObjId, p: ObjId)
      requires Balanced(others + multiset{o})
      modifies mem
      ensures Balanced(others + multiset{c} + multiset{p}) && o in old(mem.objs)
      ensures c == old(mem.next) && p == c + 1 && mem.next == p + 1
      ensures mem.M() == Shadowed(Shadowed(WithRefs(old(mem.M()), o, 1), o, c), o, p)
    {
      hide Balanced;
      ghost var refs := others + multiset{o};
      HeldByArea(refs, o);
      RefFile(o, refs);
      c := NewShadowOver(o, refs);
      assert refs + multiset{c} == others + multiset{c} + multiset{o};
      p := NewShadowOver(o, others + multiset{c});
    }

    lemma HeldByArea(refs: multiset<ObjId>, o: ObjId)
      requires Balanced(refs) && o in refs
      ensures o in mem.objs
    {
      hide TablesOk, NamesBelow, FilesHeld, FilesSaved, ChainsOk, RefsOk, ResidentOk, PinsOk;
      HeldIsLive(mem.objs, mem.handles);
    }

    /**
     do_fork: the child's memory is the parent's, page by page, and every later write in either is its own.
     The parent's translations are all dropped, so that its next write to any page faults.
     */
    method ForkSpace(i: nat) returns (child: nat)
      requires i < |spaces| == |tables| && Valid()
      modifies this`spaces, this`tables, this`links, this`abs, this`trace, mem
      ensures Valid() && child == |old(spaces)| && |spaces| == |tables| == child + 1
      ensures abs == Step(old(abs), Fork(i))
      ensures tables == old(tables)[i := map[]] + [map[]]
      ensures forall j :: 0 <= j < |old(spaces)| && j != i ==> spaces[j] == old(spaces)[j]
      ensures Relabelled(old(spaces)[i], spaces[i]) && Relabelled(old(spaces)[i], spaces[child])
              && SharedKept(old(spaces)[i], spaces[child]) && Part(old(mem.M()), mem.M())
      ensures PrivateAlone(spaces[i]) && PrivateAlone(spaces[child])
      ensures |old(links)| == |old(spaces)|
              && links == old(links)[i := old(links)[i] + PrivatePages(spaces[i])] + [PrivatePages(spaces[child])]
      ensures (old(Trusted()) ==> Trusted()) && (old(Permitted()) ==> Permitted())
    {
      hide Coherent, KindsOk, TopsFree, Exclusive, Part, Balanced, SpacesOk, Refines, AllObjs, MemOk, NamesBelow,
        ChainsOk, RefsOk, Step, WellFormed, LinksOk, PrivatePages, Relabelled, SharedKept, PrivateAlone, Run, Objs,
        PermittedIn;
      child := |spaces|;
      ghost var m, before := mem.M(), spaces;
      var copy := CopySpace(i);
      AllObjsAppend(spaces, copy);
      if old(Trusted()) {
        ForkCoherent(before, tables, m, mem.M(), i, spaces[i], copy);
      }
      if old(Permitted()) {
        PermittedFork(before, tables, i, spaces[i], copy);
      }
      ForkLinks(before, links, i, spaces, copy);
      links := links[i := links[i] + PrivatePages(spaces[i])] + [PrivatePages(copy)];
      spaces := spaces + [copy];
      tables := tables[i := map[]] + [map[]];
      Record(Fork(i));
    }

    // The parent's areas are cloned, and the areas of both are given their objects.
    method CopySpace(i: nat) returns (copy: seq<Area>)
      requires i < |spaces| && Valid()
      modifies this`spaces, mem
      ensures |spaces| == |old(spaces)| && spaces == old(spaces)[i := spaces[i]]
              && Balanced(AllObjs(spaces) + Objs(copy))
      ensures var spaces' := Forked(old(spaces), i, spaces[i], copy);
              SpacesOk(spaces', mem.M()) && Refines(Step(abs, Fork(i)), spaces', mem.M(), mem.next)
      ensures ChainsOk(old(mem.objs)) && KindsOk(old(spaces), old(mem.M())) && Part(old(mem.M()), mem.M())
      ensures WellFormed(old(spaces)[i]) && Relabelled(old(spaces)[i], spaces[i]) && Relabelled(old(spaces)[i], copy)
              && SharedKept(old(spaces)[i], copy) && PrivateAlone(spaces[i]) && PrivateAlone(copy)
    {
      hide KindsOk, Part, Balanced, SpacesOk, Refines, AllObjs, MemOk, NamesBelow, StoreShows, ForkInv, ChainsOk,
        RefsOk, Step, WellFormed, LinksOk, Relabelled, SharedKept, PrivateAlone, Run, Objs, Forked;
      ghost var m, low := mem.M(), mem.next;
      LayoutOk(spaces, m, i);
      BalancedParts(AllObjs(spaces));
      RefinesStore(abs, spaces, m, low);
      copy := Vmmap.Clone(spaces[i]);
      ForkStart(m, low, spaces[i], copy);
      NamesOfAreas(spaces, m, low, i);
      copy := ForkAreas(i, copy, m, low);
      ForkOk(abs, old(spaces), m, old(mem.handles), mem.M(), low, mem.next, i, spaces[i], copy);
    }

    // The loop over the areas of parent and child.
    method ForkAreas(i: nat, copy: seq<Area>, ghost m0: Mem, ghost low: ObjId) returns (child: seq<Area>)
      requires i < |spaces| && Balanced(AllObjs(spaces)) && m0 == mem.M() && low == mem.next
      requires ForkInv(m0, m0, low, low, spaces[i], spaces[i], copy, 0) && StoreShows(abs.store, m0, low)
      requires forall x :: 0 <= x < |spaces[i]| ==> spaces[i][x].obj < low
      modifies this`spaces, mem
      ensures |spaces| == |old(spaces)| && spaces == old(spaces)[i := spaces[i]]
      ensures Balanced(AllObjs(spaces) + Objs(child)) && StoreShows(abs.store, mem.M(), mem.next)
      ensures ForkInv(m0, mem.M(), low, mem.next, old(spaces)[i], spaces[i], child, |old(spaces)[i]|)
    {
      hide Balanced, AllObjs, Objs, NamesBelow, StoreShows, ForkMem, Ordered, Split;
      ghost var orig := spaces[i];
      child := copy;
      var k := 0;
      assert child[..0] == [] && AllObjs(spaces) + multiset{} == AllObjs(spaces);
      ObjsNone();
      while k < |child|
        invariant 0 <= k <= |child| == |orig| && |spaces| == |old(spaces)| && spaces == old(spaces)[i := spaces[i]]
        invariant ForkInv(m0, mem.M(), low, mem.next, orig, spaces[i], child, k)
        invariant Balanced(AllObjs(spaces) + Objs(child[..k])) && StoreShows(abs.store, mem.M(), mem.next)
      {
        child := ForkArea(i, k, child, m0, low, orig);
        k := k + 1;
      }
      assert child[..k] == child;
    }

    /** One turn of the loop of do_fork. */
    method ForkArea(i: nat, k: nat, child: seq<Area>, ghost m0: Mem, ghost low: ObjId,
                    ghost orig: seq<Area>) returns (child': seq<Area>)
      requires i < |spaces| && k < |child| == |orig| && ForkInv(m0, mem.M(), low, mem.next, orig, spaces[i], child, k)
      requires Balanced(AllObjs(spaces) + Objs(child[..k])) && StoreShows(abs.store, mem.M(), mem.next)
               && orig[k].obj < low
      modifies this`spaces, mem
      ensures |spaces| == |old(spaces)| && spaces == old(spaces)[i := spaces[i]] && |child'| == |child|
      ensures ForkInv(m0, mem.M(), low, mem.next, orig, spaces[i], child', k + 1)
      ensures Balanced(AllObjs(spaces) + Objs(child'[..k + 1])) && StoreShows(abs.store, mem.M(), mem.next)
    {
      hide Balanced, AllObjs, Objs, ForkMem, Ordered, Split, StoreShows, NamesBelow, MemOk, ChainsOk, RefsOk, Shadowed,
        WithRefs;
      ghost var m, next, refs := mem.M(), mem.next, AllObjs(spaces) + Objs(child[..k]);
      var o := spaces[i][k].obj;
      AreaHeld(spaces, i, k);
      HeldByArea(refs, o);
      BalancedParts(refs);
      ghost var all, some := AllObjs(spaces), Objs(child[..k]);
      if spaces[i][k].flags == Private {
        PrivateMem(m0, m, mem.handles, orig, k, next, abs.store);
        PrivateStep(m0, m, low, next, orig, spaces[i], child, k);
        assert refs == refs - multiset{o} + multiset{o};
        var c, p := SplitObject(o, refs - multiset{o});
        RelinkRefs(spaces, i, k, p);
        child' := child[k := child[k].(obj := c)];
        spaces := spaces[i := spaces[i][k := spaces[i][k].(obj := p)]];
        CopyRefs(child, k, c);
        SharedOut(all, some, o, c, p);
      } else {
        SharedStep(m0, m, low, next, orig, spaces[i], child, k);
        StoreRef(abs.store, m, o, next);
        RefFile(o, refs);
        child' := child[k := child[k].(obj := o)];
        CopyRefs(child, k, o);
        assert all + some + multiset{o} == all + (some + multiset{o});
      }
    }

    // ----- vmmap_destroy -----

    // The loop of vmmap_destroy.
    method PutAreas(i: nat)
      requires i < |spaces| && Balanced(AllObjs(spaces))
      modifies this`spaces, mem`objs, mem`handles, mem`loose, mem.cache
      ensures spaces == old(spaces)[i := []] && Balanced(AllObjs(spaces)) && Part(mem.M(), old(mem.M()))
    {
      hide Balanced, AllObjs, Part;
      ghost var m, before := mem.M(), spaces;
      PartSelf(m);
      assert spaces == spaces[i := spaces[i]];
      while spaces[i] != []
        invariant |spaces| == |before| && spaces == before[i := spaces[i]]
        invariant Balanced(AllObjs(spaces)) && Part(mem.M(), m)
        decreases |spaces[i]|
      {
        ReplacedRefs(spaces, i, 0, []);
        AreaHeld(spaces, i, 0);
        ReplacedIn(before, spaces, i, 0, []);
        PutArea(spaces[i][0].obj, AllObjs(spaces), m);
        NoRefs(AllObjs(spaces) - multiset{spaces[i][0].obj});
        assert spaces[i][..0] + [] + spaces[i][1..] == spaces[i][1..];
        spaces := spaces[i := spaces[i][1..]];
      }
    }

    /**
     vmmap_destroy, when process i exits: every area gives up its reference. The page table, which the
     process never uses again, is dropped with the areas.
     */
    method DestroySpace(i: nat)
      requires i < |spaces| == |tables| && Valid()
      modifies this`spaces, this`tables, this`links, this`abs, this`trace, mem`objs, mem`handles, mem`loose, mem.cache
      ensures Valid() && abs == Step(old(abs), Exit(i)) && |links| == |old(links)| && links == old(links)[i := {}]
      ensures spaces == old(spaces)[i := []] && tables == old(tables)[i := map[]]
      ensures Part(mem.M(), old(mem.M())) && (old(Trusted()) ==> Trusted()) && (old(Permitted()) ==> Permitted())
    {
      hide Balanced, SpacesOk, Refines, AllObjs, Part, Step, Coherent, ChainsOk, RefsOk, MemOk, NamesBelow, KindsOk,
        Whole, PermittedIn;
      ghost var m, before := mem.M(), spaces;
      LinksSet(spaces, links, i, [], {});
      PutAreas(i);
      BalancedParts(AllObjs(spaces));
      ExitOk(abs, before, m, mem.M(), mem.handles, mem.next, i);
      KindsAre(spaces, mem.M());
      if old(Trusted()) {
        ExitCoherent(before, tables, m, mem.M(), i);
      }
      if old(Permitted()) {
        PermittedExit(before, tables, i);
      }
      tables := tables[i := map[]];
      links := links[i := {}];
      Record(Exit(i));
    }

    // ----- Looking up pages -----

    /** A page of an object as a reader finds it. */
    method ReadObject(o: ObjId, p: nat) returns (data: Page)
      requires Valid() && o in mem.objs
      modifies mem`objs, mem`loose, mem.cache
      ensures Valid() && data == View(old(mem.M()), o, p)
      ensures mem.objs.Keys == old(mem.objs.Keys) && SameViews(old(mem.M()), mem.M())
      ensures old(Trusted()) ==> Trusted()
    {
      hide SpacesOk, Refines, LinksOk, AllObjs, Coherent, ChainsOk, RefsOk, MemOk, NamesBelow, View, FirstAt, Fills,
        FilesHeld, FilesSaved, TablesOk;
      ghost var m := mem.M();
      BalancedParts(AllObjs(spaces));
      Chained(m, mem.handles, {}, o);
      var pf, k := mem.LookupPage(o, p, false);
      data := mem.cache.Data(pf, k);
      ReadRefines(abs, spaces, m, mem.M(), mem.next, m.objs[o].bottom, p);
      FilledFiles(m, mem.M(), {Key(m.objs[o].bottom, p)}, vnodes, unmarked);
      ViewsKept(m, mem.M(), {Key(m.objs[o].bottom, p)});
      if old(Trusted()) {
        ReadCoherent(spaces, tables, m, mem.M(), m.objs[o].bottom, p);
      }
    }

    /**
     Page v of process i looked up for writing: its contents become the page's own, if private. Translations
     `good` stay good, but v's own only if it already led to the frame that was found.
     */
    method TouchPage(i: nat, v: nat, o: ObjId, p: nat, ghost good: seq<Table>) returns (pf: FrameId)
      requires i < |spaces| == |tables| == |good| && Valid()
      requires PageAt(spaces[i], v).Some? && PageAt(spaces[i], v).value.obj == o && PageAt(spaces[i], v).value.page == p
      modifies this`abs, this`trace, mem`objs, mem`loose, mem.cache
      ensures Valid() && abs == Step(old(abs), Touch(i, v)) && SameKinds(old(mem.objs), mem.objs)
      ensures mem.cache.Holds(pf, Key(o, p)) && Key(o, p) in mem.cache.view
              && mem.cache.view[Key(o, p)].data == View(old(mem.M()), o, p)
      ensures o in old(mem.objs) && o in mem.objs && FirstAt(mem.M(), o, p) == o
              && old(mem.cache.view).Keys <= mem.cache.view.Keys
      ensures old(Coherent(spaces, good, mem.M())) ==>
                && Coherent(spaces, good[i := good[i] - {v}], mem.M())
                && (Coherent(spaces, good, mem.M()) <==> (v in good[i] ==> good[i][v].frame == Key(o, p)))
    {
      hide SameKinds, SpacesOk, Refines, LinksOk, AllObjs, Coherent, ChainsOk, RefsOk, MemOk, NamesBelow, View,
        FirstAt, Fills, FilesHeld, FilesSaved, TablesOk, Step;
      ghost var m := mem.M();
      BalancedParts(AllObjs(spaces));
      TopUnobserved(spaces, m, i, v);
      ghost var k;
      pf, k := mem.LookupPage(o, p, true);
      ghost var n := mem.M();
      TouchRefines(abs, spaces, m, n, mem.next, i, v);
      FilledFiles(m, n, {Key(o, p), Key(m.objs[o].bottom, p)}, vnodes, unmarked);
      FillsKinds(m, n, {Key(o, p), Key(m.objs[o].bottom, p)});
      Chained(n, mem.handles, {}, o);
      WalkStep(n, o, p);
      if old(Coherent(spaces, good, mem.M())) {
        TouchCoherent(spaces, good, m, n, i, v);
      }
      Record(Touch(i, v));
    }

    /**
     A store into the frame of a page that has one: the whole page is given, as it is after the store.
     The kernel marks the page dirty; a store by the process itself does not.
     */
    method StorePage(i: nat, v: nat, pf: FrameId, data: Page, marked: bool, k: Key, ghost good: seq<Table>)
      requires i < |spaces| == |tables| == |good| && Valid() && mem.cache.Holds(pf, k) && k in mem.cache.view
               && k.obj in mem.objs
      requires PageAt(spaces[i], v).Some? && k == Key(PageAt(spaces[i], v).value.obj, PageAt(spaces[i], v).value.page)
      modifies this`abs, this`trace, this`unmarked, mem.cache
      ensures Valid() && abs == Step(old(abs), Write(i, v, data)) && mem.cache.view.Keys == old(mem.cache.view).Keys
      ensures k in old(mem.cache.view)
      ensures unmarked == if marked then old(unmarked) - {k}
                          else if old(mem.cache.view)[k].dirty then old(unmarked) else old(unmarked) + {k}
      ensures old(Coherent(spaces, good, mem.M())) ==> Coherent(spaces, good, mem.M())
    {
      hide SpacesOk, Refines, LinksOk, AllObjs, Coherent, ChainsOk, RefsOk, MemOk, NamesBelow, FilesHeld, FilesSaved,
        TablesOk, Step, Wrote;
      ghost var m := mem.M();
      BalancedParts(AllObjs(spaces));
      mem.WritePage(pf, data, marked, k);
      WroteIs(m, mem.M(), k, data);
      SavedStore(m, k, mem.cache.view[k], marked, unmarked);
      unmarked := if marked then unmarked - {k} else if m.frames[k].dirty then unmarked else unmarked + {k};
      WriteRefines(abs, spaces, m, mem.M(), mem.next, i, v, data);
      if old(Coherent(spaces, good, mem.M())) {
        WriteCoherent(spaces, good, m, mem.M(), k, data);
      }
      Record(Write(i, v, data));
    }

    /** Page v of process i looked up for reading: the frame that the walk down the chain finds. */
    method FindPage(i: nat, v: nat, o: ObjId, p: nat) returns (k: Key)
      requires i < |spaces| == |tables| && Valid()
      requires PageAt(spaces[i], v).Some? && PageAt(spaces[i], v).value.obj == o && PageAt(spaces[i], v).value.page == p
      modifies mem`objs, mem`loose, mem.cache
      ensures Valid() && (old(Trusted()) ==> Trusted()) && SameKinds(old(mem.objs), mem.objs)
      ensures k == Key(FirstAt(mem.M(), o, p), p) && k in mem.cache.view
    {
      hide SameKinds, SpacesOk, Refines, LinksOk, AllObjs, Coherent, ChainsOk, RefsOk, MemOk, NamesBelow, View, Fills,
        FilesHeld, FilesSaved, TablesOk;
      ghost var m := mem.M();
      BalancedParts(AllObjs(spaces));
      TopUnobserved(spaces, m, i, v);
      Chained(m, mem.handles, {}, o);
      var pf, g := mem.LookupPage(o, p, false);
      var b := m.objs[o].bottom;
      ReadRefines(abs, spaces, m, mem.M(), mem.next, b, p);
      FilledFiles(m, mem.M(), {Key(b, p)}, vnodes, unmarked);
      FirstAtRead(m, mem.M(), b, p, o, p);
      FillsKinds(m, mem.M(), {Key(b, p)});
      if old(Trusted()) {
        ReadCoherent(spaces, tables, m, mem.M(), b, p);
      }
      mem.cache.Framed(pf, g);
      k := mem.cache.t.frames[pf].Id();
    }

    method InstallPte(i: nat, v: nat, e: Pte)
      requires i < |spaces| == |tables| && PageAt(spaces[i], v).Some?
      modifies this`tables
      ensures tables == old(tables)[i := Install(old(tables)[i], v, e)]
      ensures (Coherent(spaces, old(tables)[i := old(tables)[i] - {v}], mem.M()) &&
               PteOk(mem.M(), PageAt(spaces[i], v).value, e)) ==> Trusted()
    {
      hide Coherent, PteOk;
      if Coherent(spaces, tables[i := tables[i] - {v}], mem.M()) && PteOk(mem.M(), PageAt(spaces[i], v).value, e) {
        PteInstalled(spaces, tables, mem.M(), i, v, e);
      }
      tables := tables[i := Install(tables[i], v, e)];
    }

    // ----- handle_pagefault -----

    /**
     handle_pagefault: the process is killed exactly when the page is unmapped or the area does not allow
     the access; otherwise the page gets a translation, which is writable only after a write fault and
     then leads to the mapped object's own frame.
     */
    method Fault(i: nat, v: nat, write: bool) returns (killed: bool)
      requires i < |spaces| == |tables| && Valid()
      modifies this`spaces, this`tables, this`links, this`abs, this`trace, mem`objs, mem`handles, mem`loose, mem.cache
      ensures Valid() && (old(Trusted()) ==> Trusted())
      ensures !killed ==> links == old(links) && SameKinds(old(mem.objs), mem.objs)
      ensures forall a :: a in old(spaces)[i] && Covers(a, v) ==> (killed <==> !a.prot.read || (write && !a.prot.write))
      ensures PageAt(old(spaces)[i], v) == None ==> killed
      ensures old(Permitted()) ==> Permitted()
      ensures killed ==> abs == Step(old(abs), Exit(i)) && spaces == old(spaces)[i := []]
      ensures !killed ==>
                && spaces == old(spaces) && abs == (if write then Step(old(abs), Touch(i, v)) else old(abs))
                && |tables| == |old(tables)| && v in tables[i]
                && tables == old(tables)[i := Install(old(tables)[i], v, tables[i][v])]
                && (forall u :: u != v ==> (u in tables[i] <==> u in old(tables)[i])
                                           && (u in tables[i] ==> tables[i][u] == old(tables)[i][u]))
                && tables[i][v].writable == write
                && PteOk(mem.M(), PageAt(spaces[i], v).value, tables[i][v])
    {
      hide SpacesOk, Refines, LinksOk, AllObjs, Coherent, Step, WellFormed, PteOk, Balanced, SameKinds, PermittedIn;
      LayoutOk(spaces, mem.M(), i);
      AreasAt(spaces[i], v);
      var r := Vmmap.Lookup(spaces[i], v);
      if r.None? || !r.value.prot.read || (write && !r.value.prot.write) {
        DestroySpace(i);
        return true;
      }
      killed := false;
      var pn := ObjPage(r.value, v);
      if write {
        var pf := TouchPage(i, v, r.value.obj, pn, tables);
        PteFound(mem.M(), PageAt(spaces[i], v).value, Pte(Key(r.value.obj, pn), true));
        InstallPte(i, v, Pte(Key(r.value.obj, pn), true));
      } else {
        var k := FindPage(i, v, r.value.obj, pn);
        PteFound(mem.M(), PageAt(spaces[i], v).value, Pte(k, false));
        if old(Trusted()) {
          TableWithout(spaces, tables, mem.M(), i, v);
        }
        InstallPte(i, v, Pte(k, false));
      }
      if old(Permitted()) {
        PermittedInstall(spaces, old(tables), i, v, tables[i][v]);
      }
    }

    // ----- Memory accesses by the process itself -----

    lemma TrustedPte(i: nat, v: nat)
      requires i < |spaces| == |tables| && Valid() && Trusted() && v in tables[i]
      ensures PageAt(spaces[i], v).Some? && PteOk(mem.M(), PageAt(spaces[i], v).value, tables[i][v])
      ensures PageAt(spaces[i], v).value.obj in mem.objs
      ensures View(mem.M(), PageAt(spaces[i], v).value.obj, PageAt(spaces[i], v).value.page) == PageData(abs, i, v)
    {
      hide Balanced, PteOk, View, CellOf, TopsFree, Exclusive, StoreShows, WellFormed, ChainsOk, RefsOk, MemOk,
        NamesBelow;
      BalancedParts(AllObjs(spaces));
      assert TableOk(spaces[i], tables[i], mem.M());
      assert KindOk(mem.M(), PageAt(spaces[i], v).value);
      PageShown(abs, spaces, mem.M(), mem.next, i, v);
      ContentsAre(abs, mem.M(), mem.next, PageAt(spaces[i], v).value);
    }

    /** Through a trusted translation a process reads its page. */
    method UserLoad(i: nat, v: nat) returns (data: Page)
      requires i < |spaces| == |tables| && Valid() && Trusted() && v in tables[i]
      ensures data == PageData(abs, i, v)
    {
      hide Balanced, SpacesOk, Refines, LinksOk, AllObjs, Coherent, View, FirstAt, PageData;
      TrustedPte(i, v);
      TrustedReads(mem.M(), PageAt(spaces[i], v).value, tables[i][v]);
      data := LoadFrame(tables[i][v].frame);
    }

    method LoadFrame(k: Key) returns (data: Page)
      requires Valid() && k in mem.cache.view
      ensures data == mem.cache.view[k].data
    {
      hide SpacesOk, Refines, LinksOk, AllObjs, MemOk, NamesBelow, FilesHeld, FilesSaved, TablesOk;
      var pf := mem.PageFrame(k);
      data := mem.cache.Data(pf, k);
    }

    /** A store through a trusted, writable translation is a write to that page of that process and nothing else. */
    method UserStore(i: nat, v: nat, data: Page)
      requires i < |spaces| == |tables| && v in tables[i] && tables[i][v].writable && Valid() && Trusted()
      modifies this`abs, this`trace, this`unmarked, mem.cache
      ensures unmarked <= old(unmarked + {tables[i][v].frame}) && abs == Step(old(abs), Write(i, v, data))
      ensures Valid() && Trusted()
    {
      hide SpacesOk, Refines, LinksOk, AllObjs, MemOk, NamesBelow, FilesHeld, FilesSaved, TablesOk, Coherent, View,
        FirstAt, Step;
      TrustedPte(i, v);
      var pf := mem.PageFrame(tables[i][v].frame);
      StorePage(i, v, pf, data, false, tables[i][v].frame, tables);
    }

    // ----- vmmap_write -----

    /** One turn of the loop of vmmap_write: bytes that fall into one page. */
    method WriteChunk(i: nat, addr: nat, bytes: seq<Byte>, ghost good: seq<Table>)
      requires i < |spaces| == |tables| == |good| && Valid()
      requires addr % PAGE_SIZE + |bytes| <= PAGE_SIZE && PageAt(spaces[i], addr / PAGE_SIZE).Some?
      modifies this`abs, this`trace, this`unmarked, mem`objs, mem`loose, mem.cache
      ensures Valid()
      ensures var v := addr / PAGE_SIZE;
              && abs == Step(old(abs), Write(i, v, Patched(PageData(old(abs), i, v), addr % PAGE_SIZE, bytes)))
              && old(mem.cache.view).Keys <= mem.cache.view.Keys && OwnKey(spaces[i], v) in mem.cache.view
              && unmarked <= old(unmarked)
              && (old(Coherent(spaces, good, mem.M())) ==> Coherent(spaces, good[i := good[i] - {v}], mem.M()))
    {
      hide Balanced, SpacesOk, Refines, LinksOk, AllObjs, Coherent, Step, View, FirstAt, PageData, Patched, WellFormed;
      var v := addr / PAGE_SIZE;
      ghost var before := abs;
      LayoutOk(spaces, mem.M(), i);
      PageReads(i, v);
      var r := Vmmap.Lookup(spaces[i], v);
      var k := Key(r.value.obj, ObjPage(r.value, v));
      var pf := TouchPage(i, v, k.obj, k.page, good);
      var page := FrameData(pf, k);
      StorePage(i, v, pf, Patched(page, addr % PAGE_SIZE, bytes), true, k, good[i := good[i] - {v}]);
      TouchThenWrite(before, i, v, Patched(page, addr % PAGE_SIZE, bytes));
    }

    method FrameData(pf: FrameId, ghost k: Key) returns (data: Page)
      requires Valid() && mem.cache.Holds(pf, k) && k in mem.cache.view
      ensures data == mem.cache.view[k].data
    {
      hide SpacesOk, Refines, LinksOk, AllObjs, MemOk, NamesBelow, FilesHeld, FilesSaved, TablesOk;
      data := mem.cache.Data(pf, k);
    }

    lemma PageReads(i: nat, v: nat)
      requires i < |spaces| && Valid() && PageAt(spaces[i], v).Some?
      ensures View(mem.M(), PageAt(spaces[i], v).value.obj, PageAt(spaces[i], v).value.page) == PageData(abs, i, v)
      ensures PageAt(spaces[i], v).value.obj in mem.objs
    {
      hide Balanced, View, CellOf, TopsFree, Exclusive, StoreShows, WellFormed, ChainsOk, RefsOk, MemOk, NamesBelow;
      BalancedParts(AllObjs(spaces));
      assert KindOk(mem.M(), PageAt(spaces[i], v).value);
      PageShown(abs, spaces, mem.M(), mem.next, i, v);
      ContentsAre(abs, mem.M(), mem.next, PageAt(spaces[i], v).value);
    }

    /**
     vmmap_write stores buf at addr, whatever areas the range falls into. The process's translations stay
     good if and only if each one of a written page already led to the mapped object's own frame.
     */
    method VmWrite(i: nat, addr: nat, buf: seq<Byte>)
      requires i < |spaces| == |tables| && Valid() && MappedFrom(spaces[i], addr, |buf|)
      modifies this`abs, this`trace, this`unmarked, mem`objs, mem`loose, mem.cache
      ensures Valid() && abs == WriteBytes(old(abs), i, addr, buf) && unmarked <= old(unmarked)
      ensures old(Trusted()) ==> (Trusted() <==> OwnFrames(spaces[i], tables[i], addr, |buf|))
    {
      hide Balanced, SpacesOk, Refines, LinksOk, AllObjs, Coherent, Step, PageData, Patched, WithoutRange, Touched,
        TouchedPages, MappedFrom, OwnFrames, Chunk, WriteBytes, Valid;
      var done := 0;
      ghost var v0 := addr / PAGE_SIZE;
      ghost var e := v0;
      EmptyRange(tables, i, v0);
      NothingTouched(addr, v0);
      assert buf[0..] == buf;
      while done < |buf|
        invariant unmarked <= old(unmarked)
        invariant 0 <= done <= |buf| && v0 <= e && (done < |buf| ==> (addr + done) / PAGE_SIZE == e)
        invariant TouchedPages(addr, done, v0, e)
        invariant forall v: nat :: v0 <= v < e ==> PageAt(spaces[i], v).Some? && OwnKey(spaces[i], v) in mem.cache.view
        invariant Valid() && WriteBytes(abs, i, addr + done, buf[done..]) == WriteBytes(old(abs), i, addr, buf)
        invariant old(Trusted()) ==> Coherent(spaces, tables[i := WithoutRange(tables[i], v0, e)], mem.M())
      {
        var n := Chunk(addr + done, |buf| - done);
        NextPage(addr, done, |buf|, v0, e);
        MappedAt(spaces[i], addr, |buf|, e);
        assert buf[done..][..n] == buf[done..done + n] && buf[done..][n..] == buf[done + n..];
        WriteBytesStep(abs, i, addr + done, buf[done..], n, e);
        WriteChunk(i, addr + done, buf[done..done + n], tables[i := WithoutRange(tables[i], v0, e)]);
        WithoutNext(tables, i, v0, e);
        done := done + n;
        e := e + 1;
      }
      assert buf[done..] == [];
      WriteNothing(abs, i, addr + done);
      if old(Trusted()) {
        WrittenCoherent(spaces, tables, mem.M(), i, v0, e);
        OwnFramesAre(spaces[i], tables[i], addr, |buf|, v0, e);
      }
    }

    // ----- vmmap_read -----

    /** vmmap_read: each byte is the one found at the object page that the code computes. */
    method VmRead(i: nat, addr: nat, count: nat) returns (buf: seq<Byte>)
      requires i < |spaces| == |tables| && Valid() && MappedFrom(spaces[i], addr, count)
      modifies mem`objs, mem`loose, mem.cache
      ensures Valid() && (old(Trusted()) ==> Trusted()) && buf == ReadBytes(old(mem.M()), spaces[i], addr, count)
    {
      hide Balanced, SpacesOk, Refines, LinksOk, AllObjs, Coherent, View, WellFormed, Chunk, Touched, MappedFrom,
        ReadNumber, ReadBytes, SameViews;
      ghost var m := mem.M();
      LayoutOk(spaces, m, i);
      buf := [];
      NoBytes(m, spaces[i], addr);
      SameViewsSelf(m);
      while |buf| < count
        invariant |buf| <= count && Valid() && (old(Trusted()) ==> Trusted())
        invariant mem.objs.Keys == m.objs.Keys && SameViews(m, mem.M())
        invariant buf == ReadBytes(m, spaces[i], addr, |buf|)
      {
        var at := addr + |buf|;
        var n := Chunk(at, count - |buf|);
        StillMapped(spaces[i], addr, |buf|, count);
        var r := Vmmap.Lookup(spaces[i], at / PAGE_SIZE);
        OnlyArea(spaces[i], at / PAGE_SIZE, r.value);
        PageReads(i, at / PAGE_SIZE);
        ghost var l := mem.M();
        var page := ReadObject(r.value.obj, ReadNumber(r.value, at / PAGE_SIZE));
        SameView(m, l, r.value.obj, ReadNumber(r.value, at / PAGE_SIZE));
        SameViewsTransitive(m, l, mem.M());
        ChunkRead(m, spaces[i], at, n, page);
        ReadBytesConcat(m, spaces[i], addr, |buf|, n);
        buf := buf + page[at % PAGE_SIZE..at % PAGE_SIZE + n];
      }
    }

    /** Where the area's offset is zero vmmap_read finds the byte the process has there. */
    lemma ReadsOwnByte(i: nat, addr: nat)
      requires i < |spaces| && Valid() && AreaOf(spaces[i], addr / PAGE_SIZE).Some?
               && AreaOf(spaces[i], addr / PAGE_SIZE).value.off == 0
      ensures ReadByte(mem.M(), spaces[i], addr) == ByteAt(abs, i, addr)
    {
      hide Balanced, SpacesOk, Refines, LinksOk, AllObjs, View, WellFormed, PageData;
      LayoutOk(spaces, mem.M(), i);
      AreaOfPage(spaces[i], addr / PAGE_SIZE);
      var a := AreaOf(spaces[i], addr / PAGE_SIZE).value;
      AreaIn(spaces[i], a);
      ReadNumberExact(a, addr / PAGE_SIZE);
      PageReads(i, addr / PAGE_SIZE);
    }

    lemma PlainReads()
      requires Valid()
      ensures ReadsAs(mem.M(), spaces, abs)
    {
      hide Balanced, SpacesOk, Shows, StoreShows, AllObjs, ReadByte, ByteAt, Run;
      forall j: nat, b: nat | j < |spaces| && Plain(spaces[j], b)
        ensures ReadByte(mem.M(), spaces[j], b) == ByteAt(abs, j, b)
      {
        ReadsOwnByte(j, b);
      }
    }

    lemma MappedPages(i: nat, addr: nat, count: nat)
      requires i < |spaces| && Valid() && MappedFrom(spaces[i], addr, count)
      ensures MappedFor(abs, i, addr, count)
    {
      hide Balanced, SpacesOk, StoreShows, AllObjs, Touched, CellOf, Run;
      forall v: nat | Touched(addr, count, v) ensures v in abs.spaces[i] {
        assert Get(abs.spaces[i], v) == Meaning(mem.M(), spaces[i], v);
      }
    }

    /**
     vmmap_write and then vmmap_read of the same range, for any start, length and division into areas that start
     at their objects' first pages, no two written pages sharing an object page: the bytes come back, and every
     other byte of every process that does not share an object page with the range reads as before.
     */
    method CopyInAndOut(i: nat, addr: nat, buf: seq<Byte>) returns (got: seq<Byte>)
      requires i < |spaces| == |tables| && Valid() && MappedFrom(spaces[i], addr, |buf|)
      requires PlainRange(spaces[i], addr, |buf|) && Unaliased(abs, i, addr, |buf|)
      modifies this`abs, this`trace, this`unmarked, mem`objs, mem`loose, mem.cache
      ensures Valid() && got == buf && OthersRead(old(abs), i, addr, |buf|, spaces, old(mem.M()), mem.M())
    {
      hide Valid, ReadsAs, MappedFrom, PlainRange, Unaliased, OthersRead, WriteBytes, ReadBytes;
      ghost var a, m := abs, mem.M();
      PlainReads();
      MappedPages(i, addr, |buf|);
      VmWrite(i, addr, buf);
      PlainReads();
      CameBack(a, abs, spaces, mem.M(), i, addr, buf);
      got := VmRead(i, addr, |buf|);
      PlainReads();
      OthersSame(a, abs, spaces, m, mem.M(), i, addr, buf);
    }

    // ----- The pageout daemon -----

    /** pframe_remove_from_pts: the translations of page p in the areas on the list of its bottom object o. */
    method RemoveFromTables(o: ObjId, p: nat)
      requires |tables| == |spaces| && LinksOk(spaces, links)
      modifies this`tables
      ensures tables == Unlisted(old(tables), ListOf(spaces, links, owned, mem.objs, o), p)
      ensures Fewer(old(tables), tables, links, owned) && (old(Trusted()) ==> Trusted())
      ensures old(Permitted()) ==> Permitted()
    {
      hide Coherent, Unlisted, ShownAt, ListOf, Uniform, Fewer, PermittedIn;
      var listed := ListOf(spaces, links, owned, mem.objs, o);
      ListedProcs(spaces, links, owned, mem.objs, o);
      UnlistedFewer(spaces, links, owned, mem.objs, tables, o, p);
      if Trusted() {
        UnlistedCoherent(spaces, tables, listed, p, mem.M());
      }
      UnlistedNone(tables, p);
      var x := 0;
      assert listed[..0] == [];
      while x < |listed|
        invariant 0 <= x <= |listed| && tables == Unlisted(old(tables), listed[..x], p)
      {
        UnlistedNext(old(tables), listed, x, p);
        var l := listed[x];
        var v := ShownAt(l.area, p);
        if v.Some? {
          tables := tables[l.proc := tables[l.proc] - {v.value}];
        }
        x := x + 1;
      }
      assert listed[..x] == listed;
      if old(Permitted()) {
        FewerAllowed(spaces, old(tables), tables, links, owned);
      }
    }

    /** pframe_clean: nothing that a process can see changes, and translations are only dropped. */
    method CleanPage(pf: FrameId, k: Key, ok: bool)
      requires Valid() && mem.cache.Holds(pf, k) && k in mem.cache.view && mem.cache.view[k].dirty
               && mem.cache.view[k].pins == 0
      modifies this`tables, this`unmarked, mem.cache`t, mem.cache`view
      ensures Valid() && (old(Trusted()) ==> Trusted()) && |links| == |spaces|
      ensures tables == Unlisted(old(tables), ListOf(spaces, links, owned, mem.objs, k.obj), k.page)
      ensures Fewer(old(tables), tables, links, owned) && (old(Permitted()) ==> Permitted())
      ensures k in old(mem.cache.view) && mem.M() == if ok then Cleaned(old(mem.M()), k) else old(mem.M())
      ensures unmarked == (if ok then old(unmarked) - {k} else old(unmarked))
              && mem.cache.t.alloc == old(mem.cache.t.alloc)
    {
      hide TablesOk, MemOk, NamesBelow, FilesHeld, FilesSaved, AllObjs, SpacesOk, Refines, LinksOk, Coherent, Alike,
        Cleaned, Unlisted, ChainsOk, RefsOk, ListOf, Fewer, Uniform;
      RemoveFromTables(k.obj, k.page);
      UnlistedLength(old(tables), ListOf(spaces, links, owned, mem.objs, k.obj), k.page);
      ghost var m := mem.M();
      BalancedParts(AllObjs(spaces));
      UnpinnedIsFile(m, mem.handles, k);
      CleanedAlike(m, k);
      AlikeRefines(abs, spaces, m, Cleaned(m, k), mem.next);
      SavedCleaned(m, k, unmarked);
      CleanedObjs(m, k);
      if Trusted() {
        AlikeCoherent(spaces, tables, m, Cleaned(m, k));
      }
      mem.WriteBack(pf, k, ok);
      if ok {
        unmarked := unmarked - {k};
      }
    }

    // Whether pframe_remove_from_pts leaves a translation of a file's page.
    lemma NoneLeft(k: Key)
      requires Valid() && Trusted() && k.obj in mem.objs && mem.objs[k.obj].kind == File
      ensures NoneLeadsTo(Unlisted(tables, ListOf(spaces, links, owned, mem.objs, k.obj), k.page), k) <==>
              AllReached(tables, links, owned, k)
    {
      hide SpacesOk, Refines, LinksOk, AllObjs, MemOk, NamesBelow, FilesHeld, FilesSaved, TablesOk, Coherent, Unlisted,
        ChainsOk, RefsOk, KindsOk, NoneLeadsTo, ListOf, AllReached, AllListed, Run;
      BalancedParts(AllObjs(spaces));
      KindsAre(spaces, mem.M());
      UnlistedLeads(tables, ListOf(spaces, links, owned, mem.objs, k.obj), k);
      ListedExactly(spaces, links, owned, tables, mem.M(), k);
    }

    /**
     pframe_free of any page the pageout daemon may take: unpinned, not busy, not dirty. What processes see
     does not change unless the page was stored into through a translation while clean; then it falls back to
     what the backing store has. Translations stay good if and only if each that led to the frame was in an
     area on its bottom object's list and in a map that names its process.
     */
    method EvictPage(pf: FrameId, k: Key)
      requires Valid() && mem.cache.Holds(pf, k) && k in mem.cache.view
      requires mem.cache.view[k].pins == 0 && !mem.cache.view[k].busy && !mem.cache.view[k].dirty
      modifies this`tables, this`abs, this`trace, this`unmarked, mem`objs, mem`handles, mem`loose, mem.cache
      ensures Valid() && Evicted(old(mem.M()), mem.M(), k) && mem.cache.t.alloc == Without(old(mem.cache.t.alloc), pf)
              && mem.cache.uses == old(mem.cache.uses)
      ensures |links| == |spaces| && unmarked == old(unmarked) - {k}
      ensures tables == Unlisted(old(tables), ListOf(spaces, links, owned, old(mem.objs), k.obj), k.page)
      ensures Fewer(old(tables), tables, links, owned) && (old(Permitted()) ==> Permitted())
      ensures abs == if Stores(old(mem.M()), k) then old(abs)
                     else Step(old(abs), Revert(k, Stored(old(mem.M()).disk, k)))
      ensures k !in old(unmarked) ==> abs == old(abs) && Stores(old(mem.M()), k)
      ensures old(Trusted()) ==> (Trusted() <==> AllReached(old(tables), links, owned, k))
    {
      hide TablesOk, MemOk, NamesBelow, FilesHeld, FilesSaved, AllObjs, SpacesOk, Refines, LinksOk, Coherent,
        ChainsOk, RefsOk, KindsOk, NoneLeadsTo, Unlisted, Stores, Step, ListOf, Fewer, LinksOk, AllReached, Run,
        PermittedIn;
      ghost var m := mem.M();
      BalancedParts(AllObjs(spaces));
      UnpinnedIsFile(m, mem.handles, k);
      if Trusted() {
        NoneLeft(k);
      }
      RemoveFromTables(k.obj, k.page);
      UnlistedLength(old(tables), ListOf(spaces, links, owned, mem.objs, k.obj), k.page);
      FilesMoreHeld(mem.objs, vnodes, mem.handles);
      mem.Reclaim(pf, k);
      EvictedFiles(m.objs, mem.objs, k.obj, vnodes);
      SavedEvicted(m, mem.M(), k, unmarked);
      unmarked := unmarked - {k};
      BalancedParts(AllObjs(spaces));
      EvictRefines(abs, spaces, m, mem.M(), mem.next, k);
      KindsAre(spaces, mem.M());
      if old(Trusted()) {
        EvictCoherent(spaces, tables, m, mem.M(), k);
      }
      if !Stores(m, k) {
        Record(Revert(k, Stored(m.disk, k)));
      }
    }

    // The frame of a page of a file: nobody pins such a page, and between steps none is busy.
    lemma FileFrame(pf: FrameId, k: Key)
      requires Valid() && mem.cache.Holds(pf, k) && k in mem.cache.view && k.obj in mem.objs
               && mem.objs[k.obj].kind == File
      ensures pf in mem.cache.t.frames && mem.cache.view[k] == mem.cache.t.frames[pf].Seen()
      ensures mem.cache.view[k].pins == 0 && !mem.cache.view[k].busy
    {
      hide TablesOk, NamesBelow, FilesHeld, FilesSaved, AllObjs, SpacesOk, Refines, LinksOk, ChainsOk, RefsOk, MemOk;
      mem.cache.Framed(pf, k);
      BalancedParts(AllObjs(spaces));
      FileUnpinned(mem.M(), mem.handles, k);
    }

    // A frame on the allocated list: that of a page of a file, which nobody is reading or writing.
    lemma Reclaimable(pf: FrameId)
      requires Valid() && pf in mem.cache.t.alloc
      ensures pf in mem.cache.t.frames
      ensures var k := mem.cache.t.frames[pf].Id();
              && mem.cache.Holds(pf, k) && k in mem.cache.view && mem.cache.view[k] == mem.cache.t.frames[pf].Seen()
              && mem.cache.view[k].pins == 0 && !mem.cache.view[k].busy && k.obj in mem.objs
              && mem.objs[k.obj].kind == File
              && forall j :: mem.cache.Holds(pf, j) ==> j == k
    {
      hide TablesOk, NamesBelow, FilesHeld, FilesSaved, AllObjs, SpacesOk, Refines, LinksOk, ChainsOk, RefsOk, MemOk;
      mem.cache.Allocated(pf);
      mem.cache.Indexed(pf);
      BalancedParts(AllObjs(spaces));
      UnpinnedIsFile(mem.M(), mem.handles, mem.cache.t.frames[pf].Id());
      NotBusy(mem.M(), mem.handles, mem.cache.t.frames[pf].Id());
      forall j | mem.cache.Holds(pf, j) ensures j == mem.cache.t.frames[pf].Id() {
        mem.cache.Framed(pf, j);
      }
    }

    /** A page of a file is written if it has to be, and reclaimed. */
    method ReclaimPage(k: Key)
      requires Valid() && k in mem.cache.view && k.obj in mem.objs && mem.objs[k.obj].kind == File
      modifies this`tables, this`abs, this`trace, this`unmarked, mem`objs, mem`handles, mem`loose, mem.cache
      ensures Valid() && k !in mem.cache.view && Fewer(old(tables), tables, links, owned)
              && (old(Permitted()) ==> Permitted())
      ensures old(Trusted()) ==> (Trusted() <==> AllReached(old(tables), links, owned, k))
    {
      hide SpacesOk, Refines, LinksOk, AllObjs, MemOk, NamesBelow, FilesHeld, FilesSaved, TablesOk, Coherent, Step,
        Run, Fewer, AllReached, Unlisted, ListOf, Cleaned, ChainsOk, RefsOk;
      var pf := mem.PageFrame(k);
      FileFrame(pf, k);
      if mem.cache.t.frames[pf].dirty {
        ghost var m := mem.M();
        CleanPage(pf, k, true);
        CleanedView(m, k);
        CleanedObjs(m, k);
        assert mem.cache.view == mem.M().frames;
        FewerReached(old(tables), tables, links, owned, k);
        FileFrame(pf, k);
      }
      ghost var before := tables;
      EvictPage(pf, k);
      if before != old(tables) {
        FewerTransitive(old(tables), before, tables, links, owned);
      }
    }

    // One turn of the loop of pageoutd_run: the frame is written, or taken if it is clean.
    method PageoutTurn(pf: FrameId) returns (taken: bool, ghost k: Key, ghost lost: seq<Event>)
      requires Valid() && mem.cache.t.alloc != [] && pf == mem.cache.t.alloc[0]
      modifies this`tables, this`abs, this`trace, this`unmarked, mem`objs, mem`handles, mem`loose, mem.cache
      ensures Valid() && Fewer(old(tables), tables, links, owned) && unmarked <= old(unmarked)
              && (old(Permitted()) ==> Permitted()) && mem.cache.uses == old(mem.cache.uses)
      ensures (lost == [] && abs == old(abs)) ||
              (exists e: Event :: lost == [e] && abs == Step(old(abs), e) && e.Revert? && e.key in old(unmarked))
      ensures mem.cache.t.alloc == if taken then old(mem.cache.t.alloc)[1..] else old(mem.cache.t.alloc)
      ensures !taken ==> old(HeadDirty(mem.cache.t)) == 1 && HeadDirty(mem.cache.t) == 0
      ensures k in old(mem.cache.view)
              && mem.cache.view.Keys == if taken then old(mem.cache.view).Keys - {k} else old(mem.cache.view).Keys
      ensures old(Trusted()) && (taken ==> AllReached(old(tables), links, owned, k)) ==> Trusted()
    {
      hide Valid, Trusted, Step, Fewer, Unlisted, AllReached, Stores, Cleaned;
      Reclaimable(pf);
      var key := mem.cache.t.frames[pf].Id();
      k := key;
      ghost var m := mem.M();
      lost := [];
      if mem.cache.t.frames[pf].dirty {
        CleanPage(pf, key, true);
        CleanedView(m, k);
        Reclaimable(pf);
        assert mem.cache.Holds(pf, k) && mem.cache.view == mem.M().frames;
        taken := false;
      } else {
        assert Without(mem.cache.t.alloc, pf) == mem.cache.t.alloc[1..];
        EvictPage(pf, key);
        if !Stores(m, k) {
          lost := [Revert(k, Stored(m.disk, k))];
        }
        assert mem.cache.view == mem.M().frames == m.frames - {k};
        taken := true;
      }
    }

    /**
     The inner loop of pageoutd_run, its writes succeeding. Processes see nothing of it but the loss of what was
     stored through translations into clean pages. The frames it takes are the least recently requested ones,
     until the target is met or none is left. Translations stay good if and only if each that led to a page it
     took was in an area on its bottom object's list and in a map that names its process.
     */
    method Pageout(free: nat, target: nat) returns (free': nat, ghost lost: seq<Event>)
      requires Valid()
      modifies this`tables, this`abs, this`trace, this`unmarked, mem`objs, mem`handles, mem`loose, mem.cache
      ensures Valid() && unmarked <= old(unmarked) && (old(Permitted()) ==> Permitted())
      ensures abs == Run(old(abs), lost) && OnlyReverts(lost, old(unmarked))
      ensures old(unmarked) == {} ==> abs == old(abs)
      ensures free' >= target || mem.cache.t.alloc == []
      ensures |mem.cache.t.alloc| + free' == |old(mem.cache.t.alloc)| + free
      ensures Ends(mem.cache.t.alloc, old(mem.cache.t.alloc)) && mem.cache.view.Keys <= old(mem.cache.view).Keys
      ensures forall p, q :: p in old(mem.cache.t.alloc) && p !in mem.cache.t.alloc && q in mem.cache.t.alloc ==>
                               LastUse(mem.cache.uses, p) < LastUse(mem.cache.uses, q)
      ensures old(Trusted()) ==>
                (Trusted() <==>
                 KeysReached(old(tables), links, owned, old(mem.cache.view).Keys - mem.cache.view.Keys))
    {
      hide Valid, Trusted, Permitted, Run, Step, Fewer, HeadDirty, AllReached, LastUse;
      free', lost := free, [];
      RunNothing(abs);
      NoneDropped(tables, links, owned);
      UsedInOrder();
      ghost var keys := mem.cache.view.Keys;
      while free' < target && mem.cache.t.alloc != []
        invariant Valid() && Fewer(old(tables), tables, links, owned) && unmarked <= old(unmarked)
        invariant abs == Run(old(abs), lost) && OnlyReverts(lost, old(unmarked))
        invariant |mem.cache.t.alloc| + free' == |old(mem.cache.t.alloc)| + free
        invariant Ends(mem.cache.t.alloc, old(mem.cache.t.alloc)) && mem.cache.view.Keys <= keys
        invariant (old(Permitted()) ==> Permitted()) && mem.cache.uses == old(mem.cache.uses)
        invariant old(Trusted()) && KeysReached(old(tables), links, owned, keys - mem.cache.view.Keys) ==> Trusted()
        decreases |mem.cache.t.alloc|, HeadDirty(mem.cache.t)
      {
        var taken;
        ghost var k, l;
        ghost var before := tables;
        taken, k, l := PageoutTurn(mem.cache.t.alloc[0]);
        FewerTransitive(old(tables), before, tables, links, owned);
        FewerReached(old(tables), before, links, owned, k);
        if l == [] {
          assert lost + l == lost;
        } else {
          RunSnoc(old(abs), lost, l[0]);
        }
        lost := lost + l;
        free' := if taken then free' + 1 else free';
      }
      StillReached(old(tables), keys);
      forall p, q | p in old(mem.cache.t.alloc) && p !in mem.cache.t.alloc && q in mem.cache.t.alloc
        ensures LastUse(mem.cache.uses, p) < LastUse(mem.cache.uses, q)
      {
        HeadIsOldest(old(mem.cache.t.alloc), mem.cache.t.alloc, mem.cache.uses, p, q);
      }
      if lost != [] {
        assert lost[0] in lost;
      }
    }

    lemma UsedInOrder()
      requires Valid()
      ensures InOrder(mem.cache.t.alloc, mem.cache.uses)
    {
      hide SpacesOk, Refines, LinksOk, AllObjs, MemOk, NamesBelow, FilesHeld, FilesSaved, TablesOk, InOrder;
      mem.cache.Ordered();
    }

    lemma StillReached(before: seq<Table>, keys: set<Key>)
      requires Fewer(before, tables, links, owned)
      ensures Trusted() ==> KeysReached(before, links, owned, keys - mem.cache.view.Keys)
    {
      hide Fewer, Coherent, KeysReached;
      if Trusted() {
        GoneReached(spaces, tables, mem.M(), links, owned, before, keys - mem.cache.view.Keys);
      }
    }

    // ----- What holds in every reachable state -----

    /** Each count is the areas on the object, plus its vnode, plus shadow objects on top, plus resident pages. */
    lemma CountExact(o: ObjId)
      requires Valid() && o in mem.objs
      ensures mem.objs[o].refcount == AllObjs(spaces)[o] + vnodes[o] + |Shadowers(mem.objs,
                                                                                  o)| + |PagesOf(mem.cache.view, o)|
    {
      hide SpacesOk, Refines, LinksOk, ChainsOk, PinsOk, TablesOk, NamesBelow, FilesHeld, FilesSaved, AllObjs,
        Shadowers, PagesOf, Lists;
      assert Lists(mem.objs[o].respages, PagesOf(mem.cache.view, o));
      ListsMembers(mem.objs[o].respages, PagesOf(mem.cache.view, o));
    }

    /** An object exists if and only if the chain of some area's object, or some vnode, leads to it. */
    lemma AliveIffReachable(o: ObjId)
      requires Valid()
      ensures o in mem.objs <==> exists t :: (t in AllObjs(spaces) || t in vnodes) && OnChain(mem.objs, t, o)
    {
      hide SpacesOk, Refines, LinksOk, ChainsOk, RefsOk, MemOk, TablesOk, FilesHeld, FilesSaved, AllObjs;
      BalancedParts(AllObjs(spaces));
      LiveIffReachable(mem.objs, mem.handles, o, mem.next);
      forall t ensures t in mem.handles <==> t in AllObjs(spaces) || t in vnodes {
        assert mem.handles[t] == AllObjs(spaces)[t] + vnodes[t];
      }
    }

    /**
     The translation discipline: a writable translation leads to the frame of the mapped object's own page, and
     under a private mapping that object is a shadow object that no other shadows.
     */
    lemma WritableIsOwn(i: nat, v: nat)
      requires i < |spaces| == |tables| && Valid() && Trusted() && v in tables[i] && tables[i][v].writable
      ensures PageAt(spaces[i], v).Some? && tables[i][v].frame == OwnKey(spaces[i], v)
              && OwnKey(spaces[i], v) in mem.cache.view
      ensures var mp := PageAt(spaces[i], v).value;
              mp.flags == Private ==>
                mp.obj in mem.objs && mem.objs[mp.obj].kind == Shadow && Shadowers(mem.objs, mp.obj) == {}
    {
      hide Balanced, Refines, LinksOk, AllObjs, WellFormed, Exclusive;
      assert TableOk(spaces[i], tables[i], mem.M());
      TopFree(spaces, mem.M(), i, v);
    }

    /**
     Fork isolation over whole runs. If process p forked when its private page v held d, then after any
     events of all processes, among which j, the parent or the child, did not unmap or remap the page,
     the page reads in j as d overlaid with j's own writes.
     */
    lemma ForkIsolated(before: seq<Event>, p: nat, after: seq<Event>, j: nat, v: nat, d: Page)
      requires Valid() && trace == before + ([Fork(p)] + after)
      requires var s := Run(BOOT, before);
               && p < |s.spaces| && v in s.spaces[p] && s.spaces[p][v].flags == Private && s.spaces[p][v].cell == Own(d)
               && (j == p || j == |s.spaces|)
      requires forall x :: 0 <= x < |after| ==> !Remaps(after[x], j, v)
      ensures j < |spaces| && PageAt(spaces[j], v).Some?
      ensures View(mem.M(), PageAt(spaces[j], v).value.obj, PageAt(spaces[j], v).value.page) == Overlaid(d, after, j, v)
    {
      hide Balanced, SpacesOk, StoreShows, AllObjs, View, CellOf, Run, Step, Overlaid, Remaps;
      RunConcat(BOOT, before, [Fork(p)] + after);
      ForkIsolation(Run(BOOT, before), p, after, j, v, d);
      assert Get(abs.spaces[j], v) == Meaning(mem.M(), spaces[j], v);
      PageReads(j, v);
    }
  }

  lemma BootOk(m: Mem, next: ObjId)
    requires m.objs == map[]
    ensures SpacesOk([[]], m) && Refines(BOOT, [[]], m, next) && AllObjs([[]]) == multiset{} && Run(BOOT, []) == BOOT
  {
    assert Shows(map[], [], m);
  }

  lemma SameCoherent(spaces: seq<seq<Area>>, tables: seq<Table>, m: Mem, n: Mem)
    requires KindsOk(spaces, m) && Coherent(spaces, tables, m) && Part(m, n) && ChainsOk(m.objs)
    ensures Coherent(spaces, tables, n)
  {
    hide Part, ChainsOk, TableOk, WellFormed;
    forall j | 0 <= j < |spaces| ensures TableOk(spaces[j], tables[j], n) {
      forall v: nat | PageAt(spaces[j], v).Some? ensures PageAt(spaces[j], v).value.obj in m.objs {
        assert KindOk(m, PageAt(spaces[j], v).value);
      }
      TableGrown(spaces[j], spaces[j], tables[j], m, n);
    }
  }

  lemma RunNothing(a: AState)
    ensures Run(a, []) == a
  {
  }

  lemma FewerAllowed(spaces: seq<seq<Area>>, tables: seq<Table>, tables': seq<Table>, links: seq<set<nat>>,
                     owned: set<nat>)
    requires PermittedIn(spaces, tables) && Fewer(tables, tables', links, owned)
    ensures PermittedIn(spaces, tables')
  {
    hide PermittedIn, Reached;
    FewerPermitted(spaces, tables, tables');
  }

  lemma NoneDropped(tables: seq<Table>, links: seq<set<nat>>, owned: set<nat>)
    ensures Fewer(tables, tables, links, owned)
  {
  }

  // Nothing but pages in ks falling back to the backing store.
  ghost predicate OnlyReverts(es: seq<Event>, ks: set<Key>) {
    forall e :: e in es ==> e.Revert? && e.key in ks
  }

  ghost predicate Ends<T(!new)>(s: seq<T>, t: seq<T>) {
    |s| <= |t| && s == t[|t| - |s|..]
  }

  // 1 if the frame the daemon would take next has to be written first.
  function HeadDirty(t: Tables): nat {
    if t.alloc != [] && t.alloc[0] in t.frames && t.frames[t.alloc[0]].dirty then 1 else 0
  }

  lemma CleanedView(m: Mem, k: Key)
    requires k in m.frames
    ensures k in Cleaned(m, k).frames && !Cleaned(m, k).frames[k].dirty && Cleaned(m, k).frames.Keys == m.frames.Keys
  {
  }

  lemma UnlistedLength(tables: seq<Table>, listed: seq<Listing>, p: nat)
    ensures |Unlisted(tables, listed, p)| == |tables|
  {
  }

  // Pages of anonymous and shadow objects are pinned.
  lemma UnpinnedIsFile(m: Mem, h: multiset<ObjId>, k: Key)
    requires MemOk(m, h, {}) && k in m.frames && m.frames[k].pins == 0
    ensures k.obj in m.objs && m.objs[k.obj].kind == File
  {
  }

  lemma CleanedObjs(m: Mem, k: Key)
    requires k in m.frames
    ensures Cleaned(m, k).objs == m.objs
  {
  }

  lemma Unnamed(objs: map<ObjId, MmObj>, next: ObjId)
    requires NamesBelow(objs, next)
    ensures next !in objs
  {
  }

  lemma EvictedFiles(objs: map<ObjId, MmObj>, objs': map<ObjId, MmObj>, o: ObjId, h: multiset<ObjId>)
    requires FilesHeld(objs, h) && o in objs && o in objs' && objs' == objs[o := objs'[o]]
             && objs'[o].kind == objs[o].kind
    ensures FilesHeld(objs', h)
  {
  }

  lemma FilesOpened(objs: map<ObjId, MmObj>, h: multiset<ObjId>, f: ObjId)
    requires FilesHeld(objs, h)
    ensures FilesHeld(objs[f := NewBottom(File, f)], h + multiset{f})
  {
  }

  // The byte at an address lies in an area that starts at its object's first page.
  predicate Plain(areas: seq<Area>, b: nat) {
    AreaOf(areas, b / PAGE_SIZE).Some? && AreaOf(areas, b / PAGE_SIZE).value.off == 0
  }

  ghost predicate PlainRange(areas: seq<Area>, addr: nat, count: nat) {
    forall b: nat :: addr <= b < addr + count ==> Plain(areas, b)
  }

  // Where areas are plain, vmmap_read finds what the process has.
  ghost predicate ReadsAs(m: Mem, spaces: seq<seq<Area>>, a: AState) {
    |a.spaces| == |spaces| &&
    forall j: nat, b: nat :: j < |spaces| && Plain(spaces[j], b) ==> ReadByte(m, spaces[j], b) == ByteAt(a, j, b)
  }

  // A byte of process j that shares no object page with another page of the range of process i.
  ghost predicate Sole(s: AState, i: nat, addr: nat, count: nat, j: nat, b: nat) {
    && MappedFor(s, i, addr, count) && j < |s.spaces| && b / PAGE_SIZE in s.spaces[j]
    && AllSeparate(s, i, addr, count, j, b / PAGE_SIZE)
  }

  ghost predicate Unaliased(s: AState, i: nat, addr: nat, count: nat) {
    forall b: nat :: addr <= b < addr + count ==> Sole(s, i, addr, count, i, b)
  }

  // Bytes outside the range read as before.
  ghost predicate OthersRead(s: AState, i: nat, addr: nat, count: nat, spaces: seq<seq<Area>>, m: Mem, n: Mem) {
    forall j: nat, b: nat :: j < |spaces| && Plain(spaces[j], b) && Sole(s, i, addr, count, j, b)
                             && !(j == i && addr <= b < addr + count) ==>
                               ReadByte(n, spaces[j], b) == ReadByte(m, spaces[j], b)
  }

  /** In the state a copy into plain areas leaves, vmmap_read finds the bytes that were copied. */
  lemma CameBack(a: AState, a': AState, spaces: seq<seq<Area>>, n: Mem, i: nat, addr: nat, buf: seq<Byte>)
    requires i < |spaces| && a' == WriteBytes(a, i, addr, buf) && ReadsAs(n, spaces, a')
    requires PlainRange(spaces[i], addr, |buf|) && Unaliased(a, i, addr, |buf|)
    ensures ReadBytes(n, spaces[i], addr, |buf|) == buf
  {
    hide ReadByte, ByteAt, AllSeparate, MappedFor, WriteBytes, Plain;
    forall x: nat | x < |buf| ensures ReadByte(n, spaces[i], addr + x) == buf[x] {
      var b := addr + x;
      assert Plain(spaces[i], b) && Sole(a, i, addr, |buf|, i, b);
      WriteBytesAt(a, i, addr, buf, i, b);
    }
    assert forall x: nat :: x < |buf| ==> ReadBytes(n, spaces[i], addr, |buf|)[x] == ReadByte(n, spaces[i], addr + x);
  }

  lemma OthersSame(a: AState, a': AState, spaces: seq<seq<Area>>, m: Mem, n: Mem, i: nat, addr: nat, buf: seq<Byte>)
    requires i < |spaces| && a' == WriteBytes(a, i, addr, buf) && ReadsAs(m, spaces, a) && ReadsAs(n, spaces, a')
    ensures OthersRead(a, i, addr, |buf|, spaces, m, n)
  {
    hide ReadByte, ByteAt, AllSeparate, MappedFor, WriteBytes, Plain;
    forall j: nat, b: nat | j < |spaces| && Plain(spaces[j], b) && Sole(a, i, addr, |buf|, j, b)
                            && !(j == i && addr <= b < addr + |buf|)
      ensures ReadByte(n, spaces[j], b) == ReadByte(m, spaces[j], b)
    {
      WriteBytesAt(a, i, addr, buf, j, b);
    }
  }

  // The page of the mapped object that belongs under page v.
  function OwnKey(areas: seq<Area>, v: nat): Key
    requires PageAt(areas, v).Some?
  {
    Key(PageAt(areas, v).value.obj, PageAt(areas, v).value.page)
  }

  // Every page of [addr, addr + count) is mapped.
  ghost predicate MappedFrom(areas: seq<Area>, addr: nat, count: nat) {
    forall v: nat :: Touched(addr, count, v) ==> PageAt(areas, v).Some?
  }

  // Every translation of a page of [addr, addr + count) leads to the mapped object's own frame.
  ghost predicate OwnFrames(areas: seq<Area>, table: Table, addr: nat, count: nat) {
    forall v :: v in table && Touched(addr, count, v) ==> PageAt(areas, v).Some? && table[v].frame == OwnKey(areas, v)
  }

  // Every page of every object reads the same.
  ghost predicate SameViews(m: Mem, n: Mem) {
    forall o: ObjId, q: nat :: o in m.objs ==> View(n, o, q) == View(m, o, q)
  }

  lemma SameView(m: Mem, n: Mem, o: ObjId, q: nat)
    requires SameViews(m, n) && o in m.objs
    ensures View(n, o, q) == View(m, o, q)
  {
  }

  lemma SameViewsSelf(m: Mem)
    ensures SameViews(m, m)
  {
  }

  lemma NoBytes(m: Mem, areas: seq<Area>, addr: nat)
    ensures ReadBytes(m, areas, addr, 0) == []
  {
  }

  lemma SameViewsTransitive(l: Mem, m: Mem, n: Mem)
    requires SameViews(l, m) && SameViews(m, n) && l.objs.Keys == m.objs.Keys
    ensures SameViews(l, n)
  {
    hide View;
  }

  lemma StillMapped(areas: seq<Area>, addr: nat, done: nat, count: nat)
    requires MappedFrom(areas, addr, count) && done < count
    ensures PageAt(areas, (addr + done) / PAGE_SIZE).Some?
  {
    assert Touched(addr, count, (addr + done) / PAGE_SIZE);
  }

  lemma OwnFramesAre(areas: seq<Area>, table: Table, addr: nat, count: nat, lo: nat, hi: nat)
    requires TouchedPages(addr, count, lo, hi) && forall v: nat :: lo <= v < hi ==> PageAt(areas, v).Some?
    ensures OwnFrames(areas, table, addr, count) <==> forall v :: v in table && lo <= v < hi ==>
                                                                    table[v].frame == OwnKey(areas, v)
  {
  }

  lemma WriteNothing(s: AState, i: nat, addr: nat)
    ensures WriteBytes(s, i, addr, []) == s
  {
  }

  lemma NothingTouched(addr: nat, v: nat)
    ensures TouchedPages(addr, 0, v, v)
  {
  }

  lemma MappedAt(areas: seq<Area>, addr: nat, count: nat, v: nat)
    requires MappedFrom(areas, addr, count) && Touched(addr, count, v)
    ensures PageAt(areas, v).Some?
  {
  }

  lemma EmptyRange(tables: seq<Table>, i: nat, v: nat)
    requires i < |tables|
    ensures tables[i := WithoutRange(tables[i], v, v)] == tables
  {
    assert WithoutRange(tables[i], v, v) == tables[i];
  }

  lemma WithoutNext(tables: seq<Table>, i: nat, v0: nat, e: nat)
    requires i < |tables| && v0 <= e
    ensures var t := tables[i := WithoutRange(tables[i], v0, e)];
            t[i := t[i] - {e}] == tables[i := WithoutRange(tables[i], v0, e + 1)]
  {
    assert WithoutRange(tables[i], v0, e) - {e} == WithoutRange(tables[i], v0, e + 1);
  }

  // The chunk of a copy that comes after the first `done` bytes fills exactly one more page.
  lemma NextPage(addr: nat, done: nat, count: nat, v0: nat, e: nat)
    requires done < count && v0 == addr / PAGE_SIZE && v0 <= e && (addr + done) / PAGE_SIZE == e
    requires TouchedPages(addr, done, v0, e)
    ensures var n := Chunk(addr + done, count - done);
            && Touched(addr, count, e) && (done + n < count ==> (addr + done + n) / PAGE_SIZE == e + 1)
            && TouchedPages(addr, done + n, v0, e + 1)
  {
  }

  lemma WrittenCoherent(spaces: seq<seq<Area>>, tables: seq<Table>, m: Mem, i: nat, v0: nat, e: nat)
    requires i < |spaces| == |tables| && Coherent(spaces, tables[i := WithoutRange(tables[i], v0, e)], m)
    requires forall v: nat :: v0 <= v < e ==> PageAt(spaces[i], v).Some? && OwnKey(spaces[i], v) in m.frames
    ensures Coherent(spaces, tables, m) <==> forall v :: v in tables[i] && v0 <= v < e ==>
                                                           tables[i][v].frame == OwnKey(spaces[i], v)
  {
    hide Coherent, WithoutRange;
    RangeCoherent(spaces, tables, m, i, v0, e);
    forall v | v in tables[i] && v0 <= v < e
      ensures PteOk(m, PageAt(spaces[i], v).value, tables[i][v]) <==> tables[i][v].frame == OwnKey(spaces[i], v)
    {
      assert FirstAt(m, OwnKey(spaces[i], v).obj, OwnKey(spaces[i], v).page) == OwnKey(spaces[i], v).obj;
    }
  }

  // An old translation that suits the new mapping: it leads to the very page of the file, read-only if private.
  predicate ByChance(e: Pte, file: Option<ObjId>, flags: MapType, p: nat) {
    file.Some? && e.frame == Key(file.value, p) && (flags == Private ==> !e.writable)
  }

  /** Every translation in the range that vmmap_remove leaves behind suits the new mapping by chance. */
  ghost predicate StaleByChance(areas: seq<Area>, table: Table, lo: nat, hi: nat, file: Option<ObjId>, flags: MapType,
                                off: nat) {
    forall v :: v in table && lo <= v < hi && !Flushed(areas, lo, hi, v) ==>
                  ByChance(table[v], file, flags, off + (v - lo))
  }

  lemma NewPte(n: Mem, mp: Mapping, e: Pte, bottom: ObjId, file: bool)
    requires Backs(n, mp.obj, mp.flags, bottom, file)
    ensures PteOk(n, mp, e) <==>
            file && e.frame == Key(bottom, mp.page) && e.frame in n.frames && (mp.flags == Private ==> !e.writable)
  {
    hide FirstAt;
    assert FirstAt(n, mp.obj, mp.page) == bottom;
  }

  lemma ForkLinks(before: seq<seq<Area>>, links: seq<set<nat>>, i: nat, spaces: seq<seq<Area>>, copy: seq<Area>)
    requires LinksOk(before, links) && i < |before| == |spaces| && spaces == before[i := spaces[i]]
    requires WellFormed(before[i]) && Relabelled(before[i], spaces[i]) && Relabelled(before[i], copy)
    ensures LinksOk(spaces + [copy], links[i := links[i] + PrivatePages(spaces[i])] + [PrivatePages(copy)])
  {
    hide Uniform, WellFormed, Relabelled, PrivatePages;
    LinksAt(before, links, i);
    ForkUniform(before[i], spaces[i], links[i]);
    NoneLinked(before[i]);
    ForkUniform(before[i], copy, {});
    assert {} + PrivatePages(copy) == PrivatePages(copy);
    LinksSet(before, links, i, spaces[i], links[i] + PrivatePages(spaces[i]));
    LinksAdded(spaces, links[i := links[i] + PrivatePages(spaces[i])], copy, PrivatePages(copy));
  }

  lemma MapLinks(spaces: seq<seq<Area>>, links: seq<set<nat>>, i: nat, a: Area)
    requires LinksOk(spaces, links) && i < |spaces| == |links| && WellFormed(spaces[i]) && AreaOk(a)
             && Unmapped(spaces[i], a.start, a.end)
    ensures LinksOk(spaces[i := Inserted(spaces[i], a)], links[i := links[i] + AreaPages(a)])
  {
    hide Uniform, WellFormed, Unmapped, Inserted, AreaPages;
    LinksAt(spaces, links, i);
    MapUniform(spaces[i], links[i], a);
    LinksSet(spaces, links, i, Inserted(spaces[i], a), links[i] + AreaPages(a));
  }

  lemma AreaBounds(a: Area, end: nat)
    requires AreaOk(a) && AreaOk(a.(end := end))
    ensures a.start < a.end && a.start < end
  {
  }

  lemma ResizedRefs(spaces: seq<seq<Area>>, i: nat, a: Area, end: nat)
    requires i < |spaces| && a in spaces[i]
    ensures AllObjs(spaces[i := Resized(spaces[i], a, end)]) == AllObjs(spaces)
  {
    hide AllObjs, Resized, Objs;
    var k := ResizedElements(spaces[i], a, end);
    var areas := spaces[i][k := a.(end := end)];
    assert areas == spaces[i][..k] + [a.(end := end)] + spaces[i][k + 1..];
    ReplacedRefs(spaces, i, k, [a.(end := end)]);
    ObjsOf(a.(end := end));
    AreaHeld(spaces, i, k);
  }

  lemma LinksResized(spaces: seq<seq<Area>>, links: seq<set<nat>>, i: nat, a: Area, end: nat)
    requires LinksOk(spaces, links) && i < |spaces| == |links| && WellFormed(spaces[i]) && a in spaces[i]
             && AreaOk(a.(end := end)) && (a.end < end ==> Unmapped(spaces[i], a.end, end))
    ensures LinksOk(spaces[i := Resized(spaces[i], a, end)], links[i := ResizedLinks(links[i], a, end)])
  {
    hide Uniform, WellFormed, Unmapped, Resized, ResizedLinks;
    LinksAt(spaces, links, i);
    ResizedUniform(spaces[i], links[i], a, end);
    LinksSet(spaces, links, i, Resized(spaces[i], a, end), ResizedLinks(links[i], a, end));
  }

  ghost predicate SameKinds(objs: map<ObjId, MmObj>, objs': map<ObjId, MmObj>) {
    objs'.Keys == objs.Keys && forall o :: o in objs ==> objs'[o].kind == objs[o].kind
  }

  lemma FillsKinds(m: Mem, n: Mem, ks: set<Key>)
    requires Fills(m, n, ks)
    ensures SameKinds(m.objs, n.objs)
  {
    forall o | o in m.objs ensures o in n.objs && n.objs[o].kind == m.objs[o].kind {
      assert SameLink(m.objs[o], n.objs[o]);
    }
  }

  lemma FileKept(f: ObjId, m: Mem, n: Mem)
    requires Part(m, n) && f in m.objs && m.objs[f].kind == File
    ensures f in n.objs && n.objs[f].kind == File
  {
    assert SameLink(m.objs[f], n.objs[f]);
  }

  lemma NoneLinked(areas: seq<Area>)
    ensures Uniform(areas, {})
  {
  }

  lemma AreaShown(areas: seq<Area>, ar: Area)
    requires WellFormed(areas) && AreaOk(ar)
    ensures forall v: nat :: ar.start <= v < ar.end ==>
                               PageAt(Inserted(Carve(areas, ar.start, ar.end), ar), v) == Some(MappingOf(ar, v))
  {
    hide WellFormed, Carve, Inserted, Unmapped;
    CarveWellFormed(areas, ar.start, ar.end);
    CarvedIsFree(areas, ar.start, ar.end);
    forall v: nat | ar.start <= v < ar.end
      ensures PageAt(Inserted(Carve(areas, ar.start, ar.end), ar), v) == Some(MappingOf(ar, v))
    {
      InsertedPageAt(Carve(areas, ar.start, ar.end), ar, v);
    }
  }

  // Pages of a file stay resident through the removal and the new mapping.
  lemma FrameStays(before: Mem, m: Mem, n: Mem, k: Key)
    requires Part(m, before) && Part(m, n) && k in before.frames && k.obj in m.objs
    ensures k in n.frames
  {
  }

  /** After a mapping, translations are good if and only if those that were left behind suit it by chance. */
  lemma MappedCoherent(areas: seq<Area>, table: Table, before: Mem, m: Mem, spaces: seq<seq<Area>>, tables: seq<Table>,
                       n: Mem, i: nat, ar: Area, file: Option<ObjId>, bottom: ObjId)
    requires i < |spaces| == |tables| && tables[i] == Flush(table, areas, ar.start, ar.end)
    requires Coherent(spaces, tables[i := WithoutRange(tables[i], ar.start, ar.end)], n)
    requires forall v: nat :: ar.start <= v < ar.end ==> PageAt(spaces[i], v) == Some(MappingOf(ar, v))
    requires Backs(n, ar.obj, ar.flags, bottom, file.Some?) && (file.Some? ==> bottom == file.value && bottom in m.objs)
    requires Part(m, before) && Part(m, n) && TableOk(areas, table, before)
    ensures Coherent(spaces, tables, n) <==> StaleByChance(areas, table, ar.start, ar.end, file, ar.flags, ar.off)
  {
    hide Coherent, WithoutRange, Backs, Part, Flushed;
    RangeCoherent(spaces, tables, n, i, ar.start, ar.end);
    forall v | v in tables[i] && ar.start <= v < ar.end
      ensures v in table && tables[i][v] == table[v]
      ensures PteOk(n, PageAt(spaces[i], v).value, tables[i][v]) <==>
              ByChance(table[v], file, ar.flags, ar.off + (v - ar.start))
    {
      NewPte(n, MappingOf(ar, v), table[v], bottom, file.Some?);
      if file.Some? && table[v].frame.obj == bottom {
        FrameStays(before, m, n, table[v].frame);
      }
    }
  }

  lemma PteFound(m: Mem, mp: Mapping, e: Pte)
    requires e.frame == Key(FirstAt(m, mp.obj, mp.page), mp.page) && e.frame in m.frames
             && (e.writable ==> e.frame.obj == mp.obj)
    ensures PteOk(m, mp, e)
  {
  }

  lemma AreasAt(areas: seq<Area>, v: nat)
    requires WellFormed(areas)
    ensures forall a :: a in areas && Covers(a, v) ==> PageAt(areas, v) == Some(MappingOf(a, v))
  {
    hide WellFormed;
    forall a | a in areas && Covers(a, v) ensures PageAt(areas, v) == Some(MappingOf(a, v)) {
      var x :| 0 <= x < |areas| && areas[x] == a;
      PageAtIndex(areas, x, v);
    }
  }

  // ----- What areas allow -----

  lemma PermittedCut(spaces: seq<seq<Area>>, tables: seq<Table>, i: nat, lo: nat, hi: nat)
    requires PermittedIn(spaces, tables) && i < |spaces| && lo <= hi
    ensures i < |tables| && PermittedIn(spaces[i := Carve(spaces[i], lo, hi)],
                                        tables[i := Flush(tables[i], spaces[i], lo, hi)])
  {
    hide Carve, Flush, Permits;
    RemovePermits(spaces[i], tables[i], lo, hi);
    PermittedSet(spaces, tables, i, Carve(spaces[i], lo, hi), Flush(tables[i], spaces[i], lo, hi));
  }

  lemma PermittedMap(spaces: seq<seq<Area>>, tables: seq<Table>, i: nat, a: Area)
    requires PermittedIn(spaces, tables) && i < |spaces| && WellFormed(spaces[i]) && AreaOk(a)
    ensures i < |tables|
    ensures PermittedIn(spaces[i := Inserted(Carve(spaces[i], a.start, a.end), a)],
                        tables[i := Flush(tables[i], spaces[i], a.start, a.end)]) <==>
            forall v :: v in tables[i] && a.start <= v < a.end && !Flushed(spaces[i], a.start, a.end, v) ==>
                          a.prot.read && (tables[i][v].writable ==> a.prot.write)
  {
    hide Carve, Flush, Permits, Inserted, WellFormed, Flushed;
    MapPermits(spaces[i], tables[i], a);
    PermittedSet(spaces, tables, i, Inserted(Carve(spaces[i], a.start, a.end), a),
                 Flush(tables[i], spaces[i], a.start, a.end));
  }

  lemma PermittedResize(spaces: seq<seq<Area>>, tables: seq<Table>, i: nat, a: Area, end: nat)
    requires PermittedIn(spaces, tables) && i < |spaces| && WellFormed(spaces[i]) && a in spaces[i]
             && AreaOk(a.(end := end)) && (a.end < end ==> Unmapped(spaces[i], a.end, end))
    ensures i < |tables|
    ensures PermittedIn(spaces[i := Resized(spaces[i], a, end)], tables) <==>
            forall v :: v in tables[i] && a.end <= v < end ==> a.prot.read && (tables[i][v].writable ==> a.prot.write)
  {
    hide Permits, Resized, WellFormed, Unmapped;
    ResizePermits(spaces[i], tables[i], a, end);
    PermittedSet(spaces, tables, i, Resized(spaces[i], a, end), tables[i]);
    assert tables[i := tables[i]] == tables;
  }

  lemma PermittedFork(spaces: seq<seq<Area>>, tables: seq<Table>, i: nat, parent: seq<Area>, child: seq<Area>)
    requires PermittedIn(spaces, tables) && i < |spaces|
    ensures i < |tables| && PermittedIn(spaces[i := parent] + [child], tables[i := map[]] + [map[]])
  {
    hide PermittedIn;
    NoEntries(parent);
    NoEntries(child);
    SameLength(spaces, tables);
    PermittedSet(spaces, tables, i, parent, map[]);
    PermittedAdded(spaces[i := parent], tables[i := map[]], child, map[]);
  }

  lemma PermittedExit(spaces: seq<seq<Area>>, tables: seq<Table>, i: nat)
    requires PermittedIn(spaces, tables) && i < |spaces|
    ensures i < |tables| && PermittedIn(spaces[i := []], tables[i := map[]])
  {
    hide PermittedIn;
    NoEntries([]);
    SameLength(spaces, tables);
    PermittedSet(spaces, tables, i, [], map[]);
  }

  lemma PermittedInstall(spaces: seq<seq<Area>>, tables: seq<Table>, i: nat, v: nat, e: Pte)
    requires PermittedIn(spaces, tables) && i < |spaces| && PageAt(spaces[i], v).Some?
             && Allows(PageAt(spaces[i], v).value.prot, e)
    ensures i < |tables| && PermittedIn(spaces, tables[i := Install(tables[i], v, e)])
  {
    hide Permits, Install, Allows;
    InstallPermits(spaces[i], tables[i], v, e);
    PermittedSet(spaces, tables, i, spaces[i], Install(tables[i], v, e));
    assert spaces[i := spaces[i]] == spaces;
  }

  lemma NoEntries(areas: seq<Area>)
    ensures Permits(areas, map[])
  {
  }

  lemma SameLength(spaces: seq<seq<Area>>, tables: seq<Table>)
    requires PermittedIn(spaces, tables)
    ensures |tables| == |spaces|
  {
  }

  // ----- What new pages hold -----

  lemma OpenedPages(s: AState, f: ObjId, pages: map<nat, Page>)
    ensures var t := Step(s, Open(f, pages));
            && (forall p :: p in pages ==> Stored(t.store, Key(f, p)) == pages[p])
            && (forall k: Key :: k.obj != f ==> Stored(t.store, k) == Stored(s.store, k))
  {
  }

  lemma NewBottom0(m: Mem, obj: ObjId, flags: MapType, bottom: ObjId, file: bool)
    requires Backs(m, obj, flags, bottom, file)
    ensures flags == Shared ==> bottom == obj
  {
  }

  /** A new mapping without a file reads as bytes 0 throughout; one of a file shows the file from the given page on. */
  lemma MappedBytes(s: AState, i: nat, lo: nat, n: nat, prot: Prot, flags: MapType, bottom: ObjId, file: bool, off: nat,
                    next: ObjId)
    requires i < |s.spaces| && (forall k :: k in s.store ==> k.obj < next)
    requires !file && flags == Shared ==> next <= bottom
    ensures var t := Step(s, Map(i, lo, n, prot, flags, bottom, file, off));
            && (!file ==> forall b: nat :: lo * PAGE_SIZE <= b < (lo + n) * PAGE_SIZE ==> ByteAt(t, i, b) == 0)
            && (file ==> forall v :: lo <= v < lo + n ==>
                                       PageData(t, i, v) == Stored(s.store, Key(bottom, off + (v - lo))))
  {
    var t := Step(s, Map(i, lo, n, prot, flags, bottom, file, off));
    if file {
      forall v | lo <= v < lo + n ensures PageData(t, i, v) == Stored(s.store, Key(bottom, off + (v - lo))) {
        assert From(lo, v);
      }
    } else {
      forall b: nat | lo * PAGE_SIZE <= b < (lo + n) * PAGE_SIZE ensures ByteAt(t, i, b) == 0 {
        var v := b / PAGE_SIZE;
        assert From(lo, v) && v < lo + n;
      }
    }
  }

  lemma WroteIs(m: Mem, n: Mem, k: Key, data: Page)
    requires k in m.frames && k in n.frames && n.frames[k].data == data && n == m.(frames := m.frames[k := n.frames[k]])
    ensures Wrote(m, n, k, data)
  {
  }

  lemma NoRefs(x: multiset<ObjId>)
    ensures x + Objs([]) == x
  {
  }

  lemma ExitWithin(spaces: seq<seq<Area>>, m: Mem, i: nat)
    requires SpacesOk(spaces, m) && i < |spaces|
    ensures Within(spaces[i := []], spaces)
  {
  }

  lemma ExitRefines(a: AState, spaces: seq<seq<Area>>, m: Mem, next: ObjId, i: nat)
    requires Refines(a, spaces, m, next) && i < |spaces|
    ensures Refines(Step(a, Exit(i)), spaces[i := []], m, next)
  {
    hide StoreShows;
    assert Shows(map[], [], m);
  }

  lemma ExitOk(a: AState, spaces: seq<seq<Area>>, m: Mem, n: Mem, h: multiset<ObjId>, next: ObjId, i: nat)
    requires SpacesOk(spaces, m) && Refines(a, spaces, m, next) && i < |spaces|
    requires Part(n, m) && ChainsOk(n.objs) && RefsOk(n.objs, h) && AllObjs(spaces[i := []]) <= h
    ensures SpacesOk(spaces[i := []], n) && Refines(Step(a, Exit(i)), spaces[i := []], n, next)
  {
    hide KindsOk, TopsFree, Exclusive, Refines, Part, ChainsOk, RefsOk, AllObjs, Step, Within;
    ExitWithin(spaces, m, i);
    WithinOk(spaces[i := []], spaces, m);
    SpacesPart(spaces[i := []], m, n, h);
    ExitRefines(a, spaces, m, next, i);
    RefinesPart(Step(a, Exit(i)), spaces[i := []], m, n, next);
  }

  lemma ExitCoherent(spaces: seq<seq<Area>>, tables: seq<Table>, m: Mem, n: Mem, i: nat)
    requires SpacesOk(spaces, m) && Coherent(spaces, tables, m) && Part(n, m) && ChainsOk(n.objs) && i < |spaces|
             && KindsOk(spaces[i := []], n)
    ensures Coherent(spaces[i := []], tables[i := map[]], n)
  {
    hide Part, ChainsOk, TableOk, KindsOk, TopsFree, Exclusive, Within;
    ExitWithin(spaces, m, i);
    CoherentPart(spaces, spaces[i := []], tables, tables[i := map[]], m, n, i);
  }

  lemma FilledFiles(m: Mem, n: Mem, ks: set<Key>, h: multiset<ObjId>, unmarked: set<Key>)
    requires Fills(m, n, ks) && FilesHeld(m.objs, h) && FilesSaved(m, unmarked)
    ensures FilesHeld(n.objs, h) && n.objs.Keys == m.objs.Keys && m.frames.Keys <= n.frames.Keys
    ensures FilesSaved(n, unmarked)
  {
    hide FilesSaved;
    forall f | f in n.objs && n.objs[f].kind == File ensures f in h {
      assert SameLink(m.objs[f], n.objs[f]);
    }
    SavedFilled(m, n, unmarked);
  }

  lemma ViewsKept(m: Mem, n: Mem, ks: set<Key>)
    requires ChainsOk(m.objs) && Fills(m, n, ks)
    ensures SameViews(m, n)
  {
    hide ChainsOk, View;
    forall x: ObjId, q: nat | x in m.objs ensures View(n, x, q) == View(m, x, q) {
      FilledView(m, n, x, q);
    }
  }

  lemma RelinkRefs(spaces: seq<seq<Area>>, i: nat, k: nat, o: ObjId)
    requires i < |spaces| && k < |spaces[i]|
    ensures AllObjs(spaces[i := spaces[i][k := spaces[i][k].(obj := o)]]) ==
            AllObjs(spaces) - multiset{spaces[i][k].obj} + multiset{o}
  {
    hide AllObjs, Objs;
    var a := spaces[i][k].(obj := o);
    ReplacedRefs(spaces, i, k, [a]);
    ObjsOf(a);
    assert spaces[i][..k] + [a] + spaces[i][k + 1..] == spaces[i][k := a];
  }

  lemma CopyRefs(child: seq<Area>, k: nat, o: ObjId)
    requires k < |child|
    ensures Objs(child[k := child[k].(obj := o)][..k + 1]) == Objs(child[..k]) + multiset{o}
  {
    hide Objs;
    var a := child[k].(obj := o);
    assert child[k := a][..k + 1] == child[..k] + [a];
    ObjsConcat(child[..k], [a]);
    ObjsOf(a);
  }

  lemma SharedOut(x: multiset<ObjId>, y: multiset<ObjId>, o: ObjId, c: ObjId, p: ObjId)
    requires o in x
    ensures x + y - multiset{o} + multiset{c} + multiset{p} == (x - multiset{o} + multiset{p}) + (y + multiset{c})
  {
  }

  // Every name in use is below the next one to be given out.
  lemma NamesOfAreas(spaces: seq<seq<Area>>, m: Mem, low: ObjId, i: nat)
    requires SpacesOk(spaces, m) && NamesBelow(m.objs, low) && i < |spaces|
    ensures forall x :: 0 <= x < |spaces[i]| ==> spaces[i][x].obj < low
  {
    hide WellFormed, TopsFree, Exclusive;
    forall x | 0 <= x < |spaces[i]| ensures spaces[i][x].obj < low {
      AreaMapping(spaces, m, i, x);
    }
  }

  lemma ObjsNone()
    ensures Objs([]) == multiset{}
  {
  }

  lemma KindsAre(spaces: seq<seq<Area>>, m: Mem)
    requires SpacesOk(spaces, m)
    ensures KindsOk(spaces, m)
  {
  }

  lemma SpacesAre(spaces: seq<seq<Area>>, m: Mem)
    requires KindsOk(spaces, m) && TopsFree(spaces, m.objs) && Exclusive(spaces)
    ensures SpacesOk(spaces, m)
  {
  }

  lemma ForkOk(a: AState, spaces: seq<seq<Area>>, m0: Mem, h: multiset<ObjId>, m: Mem, low: ObjId, next: ObjId,
               i: nat, parent: seq<Area>, child: seq<Area>)
    requires SpacesOk(spaces, m0) && NamesBelow(m0.objs, low) && MemOk(m0, h, {}) && i < |spaces|
             && Refines(a, spaces, m0, low)
    requires ForkInv(m0, m, low, next, spaces[i], parent, child, |spaces[i]|) && StoreShows(a.store, m, next)
    ensures SpacesOk(Forked(spaces, i, parent, child), m)
    ensures Refines(Step(a, Fork(i)), Forked(spaces, i, parent, child), m, next)
    ensures ChainsOk(m0.objs) && KindsOk(spaces, m0) && Part(m0, m) && WellFormed(spaces[i])
    ensures Relabelled(spaces[i], parent) && Relabelled(spaces[i], child) && SharedKept(spaces[i], child)
    ensures PrivateAlone(parent) && PrivateAlone(child)
  {
    hide SpacesOk, NamesBelow, MemOk, Refines, ForkInv, StoreShows, ChainsOk, KindsOk, TopsFree, Exclusive, Part,
      WellFormed, Relabelled, SharedKept, PrivateAlone, Step;
    ForkFacts(spaces, m0, h, m, low, next, i, parent, child);
    ForkKinds(spaces, m0, m, low, next, i, parent, child);
    ForkExclusive(spaces, m0, m, low, next, i, parent, child);
    ForkRefines(a, spaces, m0, h, m, low, next, i, parent, child);
    SpacesAre(Forked(spaces, i, parent, child), m);
  }

  lemma ForkStart(m: Mem, low: ObjId, areas: seq<Area>, copy: seq<Area>)
    requires copy == Vmmap.Layout(areas)
    ensures ForkInv(m, m, low, low, areas, areas, copy, 0)
  {
    PartSelf(m);
  }

  lemma GrownPart(m: Mem, n: Mem)
    requires Grown(m, n)
    ensures Part(m, n)
  {
  }

  lemma RefinesStore(a: AState, spaces: seq<seq<Area>>, m: Mem, next: ObjId)
    requires Refines(a, spaces, m, next)
    ensures StoreShows(a.store, m, next)
  {
  }

  lemma AllObjsInserted(spaces: seq<seq<Area>>, i: nat, areas: seq<Area>, o: ObjId)
    requires i < |spaces| && Objs(areas) == Objs(spaces[i]) + multiset{o}
    ensures AllObjs(spaces[i := areas]) == AllObjs(spaces) + multiset{o}
  {
    hide AllObjs, Objs;
    AllObjsUpdate(spaces, i, areas);
    Removed(AllObjs(spaces[i := areas]), Objs(spaces[i]), AllObjs(spaces), multiset{o});
  }

  lemma Removed(x: multiset<ObjId>, q: multiset<ObjId>, y: multiset<ObjId>, b: multiset<ObjId>)
    requires x + q == y + (q + b)
    ensures x == y + b
  {
    forall o: ObjId ensures x[o] == (y + b)[o] {
      assert (x + q)[o] == (y + (q + b))[o];
    }
  }

  lemma NothingShown(a: map<nat, APage>, areas: seq<Area>, m: Mem, lo: nat, hi: nat)
    requires Shows(a, areas, m) && Unmapped(areas, lo, hi)
    ensures UnmapRange(a, lo, hi) == a
  {
    forall v | v in a ensures !(lo <= v < hi) {
      assert Get(a, v) == Meaning(m, areas, v);
    }
  }

  lemma FilesNew(objs: map<ObjId, MmObj>, h: multiset<ObjId>, o: ObjId, x: MmObj)
    requires FilesHeld(objs, h) && x.kind != File
    ensures FilesHeld(objs[o := x], h)
  {
  }

  lemma ReplacedSame(spaces: seq<seq<Area>>, i: nat, pos: nat)
    requires i < |spaces| && pos < |spaces[i]|
    ensures Replaced(spaces, i, pos, [spaces[i][pos]]) == spaces
  {
    assert spaces[i][..pos] + [spaces[i][pos]] + spaces[i][pos + 1..] == spaces[i];
  }

  lemma ReplacedIn(base: seq<seq<Area>>, spaces: seq<seq<Area>>, i: nat, pos: nat, mid: seq<Area>)
    requires i < |base| && |spaces| == |base| && spaces == base[i := spaces[i]] && pos < |spaces[i]|
    ensures Replaced(spaces, i, pos, mid) == base[i := spaces[i][..pos] + mid + spaces[i][pos + 1..]]
    ensures |Replaced(spaces, i, pos, mid)[i]| == |spaces[i]| + |mid| - 1
  {
  }

  lemma AreaAt(areas: seq<Area>, j: nat)
    requires WellFormed(areas)
    ensures j < |areas| ==> AreaOk(areas[j])
  {
  }

  lemma LayoutOk(spaces: seq<seq<Area>>, m: Mem, i: nat)
    requires SpacesOk(spaces, m) && i < |spaces|
    ensures WellFormed(spaces[i])
  {
  }

  lemma PartSelf(m: Mem)
    ensures Part(m, m)
  {
  }

  lemma CarveNone(table: Table, areas: seq<Area>, lo: nat, hi: nat)
    requires lo <= hi
    ensures Flush(table, areas[..0], lo, hi) == table && Carve(areas[..0], lo, hi) + areas[0..] == areas
    ensures |Carve(areas[..0], lo, hi)| == 0
  {
  }

  lemma RemoveOk(a: AState, spaces: seq<seq<Area>>, m: Mem, n: Mem, h: multiset<ObjId>, next: ObjId, i: nat, lo: nat,
                 hi: nat)
    requires SpacesOk(spaces, m) && Refines(a, spaces, m, next) && i < |spaces| && lo <= hi
    requires Part(n, m) && ChainsOk(n.objs) && RefsOk(n.objs, h) && AllObjs(spaces[i := Carve(spaces[i], lo, hi)]) <= h
    ensures var spaces' := spaces[i := Carve(spaces[i], lo, hi)];
            SpacesOk(spaces', n) && Refines(Step(a, Unmap(i, lo, hi)), spaces', n, next)
  {
    hide KindsOk, TopsFree, Exclusive, Refines, Part, ChainsOk, RefsOk, AllObjs, Step, Within, Carve;
    var spaces' := spaces[i := Carve(spaces[i], lo, hi)];
    CarveWithinSpaces(spaces, m, i, lo, hi);
    WithinOk(spaces', spaces, m);
    SpacesPart(spaces', m, n, h);
    CarveRefines(a, spaces, m, next, i, lo, hi);
    RefinesPart(Step(a, Unmap(i, lo, hi)), spaces', m, n, next);
  }

  function Replaced(spaces: seq<seq<Area>>, i: nat, pos: nat, mid: seq<Area>): seq<seq<Area>>
    requires i < |spaces| && pos < |spaces[i]|
  {
    spaces[i := spaces[i][..pos] + mid + spaces[i][pos + 1..]]
  }

  lemma Held(base: multiset<ObjId>, o: ObjId)
    requires o in base
    ensures base + multiset{o} == base - multiset{o} + multiset{o} + multiset{o}
  {
  }

  lemma Carried(x: multiset<ObjId>, y: multiset<ObjId>, z: multiset<ObjId>)
    ensures x + z + y == x + y + z
  {
  }

  lemma ObjsOf(a: Area)
    ensures Objs([a]) == multiset{a.obj} && Objs([]) == multiset{}
  {
  }

  lemma ReplacedRefs(spaces: seq<seq<Area>>, i: nat, pos: nat, mid: seq<Area>)
    requires i < |spaces| && pos < |spaces[i]|
    ensures AllObjs(Replaced(spaces, i, pos, mid)) == AllObjs(spaces) - multiset{spaces[i][pos].obj} + Objs(mid)
  {
    hide AllObjs, Objs;
    var a := spaces[i][pos];
    assert spaces[i] == spaces[i][..pos] + [a] + spaces[i][pos + 1..];
    assert spaces == spaces[i := spaces[i][..pos] + [a] + spaces[i][pos + 1..]];
    AllObjsReplace(spaces, i, spaces[i][..pos], a, mid, spaces[i][pos + 1..]);
    Subtracted(AllObjs(spaces[i := spaces[i][..pos] + mid + spaces[i][pos + 1..]]), a.obj, AllObjs(spaces), Objs(mid));
  }

  lemma Subtracted(x: multiset<ObjId>, o: ObjId, y: multiset<ObjId>, z: multiset<ObjId>)
    requires x + multiset{o} == y + z && o in y
    ensures x == y - multiset{o} + z
  {
    assert x == x + multiset{o} - multiset{o};
    assert y + z - multiset{o} == y - multiset{o} + z;
  }

  lemma AreaHeld(spaces: seq<seq<Area>>, i: nat, pos: nat)
    requires i < |spaces| && pos < |spaces[i]|
    ensures spaces[i][pos].obj in AllObjs(spaces)
  {
    ObjsContains(spaces[i], pos);
    AllObjsContains(spaces, i);
  }

  lemma FilesMoreHeld(objs: map<ObjId, MmObj>, h: multiset<ObjId>, h': multiset<ObjId>)
    requires FilesHeld(objs, h) && h <= h'
    ensures FilesHeld(objs, h')
  {
  }

  lemma PartFiles(m: Mem, n: Mem, h: multiset<ObjId>)
    requires FilesHeld(m.objs, h) && Part(n, m)
    ensures FilesHeld(n.objs, h)
  {
    forall f | f in n.objs && n.objs[f].kind == File ensures f in h {
      assert SameLink(n.objs[f], m.objs[f]);
    }
  }

  /** A new mapping over the end of an area: the translation of a page it takes over is left, and is not its own. */
  lemma MapStaleExample(o: ObjId, e: Pte)
    ensures var areas := [Area(USER_LOW, USER_LOW + 2, 0, Prot(true, true, false), Private, o)];
            !StaleByChance(areas, map[USER_LOW + 1 := e], USER_LOW + 1, USER_LOW + 3, None, Private, 0)
  {
    var areas := [Area(USER_LOW, USER_LOW + 2, 0, Prot(true, true, false), Private, o)];
    var table := map[USER_LOW + 1 := e];
    assert !FlushedBy(areas[0], USER_LOW + 1, USER_LOW + 3, USER_LOW + 1);
    assert USER_LOW + 1 in table && !Flushed(areas, USER_LOW + 1, USER_LOW + 3, USER_LOW + 1);
  }

  // ----- A reclaim that leaves a translation behind -----

  /** A page unmapped in the middle of an area: the page below is then in an area on no list. */
  lemma SplitOffExample(o: ObjId)
    ensures var areas := [Area(USER_LOW, USER_LOW + 3, 0, Prot(true, true, false), Shared, o)];
            Cut(areas, {USER_LOW, USER_LOW + 1, USER_LOW + 2}, USER_LOW + 1, USER_LOW + 2) == {USER_LOW + 2}
  {
    var areas := [Area(USER_LOW, USER_LOW + 3, 0, Prot(true, true, false), Shared, o)];
    assert Covers(areas[0], USER_LOW);
  }

  // The list that the first process of the example maps, and what its only page is.
  lemma OneShared(a: Area)
    requires AreaOk(a)
    ensures WellFormed([]) && Inserted(Carve([], a.start, a.end), a) == [a]
    ensures PageAt([a], a.start) == Some(MappingOf(a, a.start))
  {
  }

  lemma SharedIsBottom(m: Mem, obj: ObjId, bottom: ObjId)
    requires Backs(m, obj, Shared, bottom, true)
    ensures obj == bottom
  {
  }

  lemma LeadsToFile(m: Mem, a: Area, e: Pte)
    requires a.obj in m.objs && m.objs[a.obj].kind == File && PteOk(m, MappingOf(a, a.start), e)
    ensures e.frame in m.frames && e.frame.obj == a.obj
  {
  }

  lemma ForkedShared(a: Area, areas: seq<Area>)
    requires SharedKept([a], areas) && a.flags == Shared
    ensures areas == [a]
  {
  }

  // A file's page is mapped shared, the process forks, and the child reads the page.
  method SharedReader() returns (vm: Vm)
    ensures fresh(vm) && fresh(vm.mem) && fresh(vm.mem.cache)
    ensures vm.Valid() && vm.Trusted() && |vm.tables| == 2 && vm.owned == {0} && USER_LOW in vm.tables[1]
    ensures var k := vm.tables[1][USER_LOW].frame;
            k in vm.mem.cache.view && k.obj in vm.mem.objs && vm.mem.objs[k.obj].kind == File
  {
    hide Vm.Valid, Vm.Trusted, Step, Part, Backs, Cut, Carve, Inserted, AreaPages, PrivatePages, SharedKept, WellFormed,
      PteOk, Relabelled;
    vm := new Vm(1);
    var f := vm.OpenVnode(map[]);
    var prot := Prot(true, true, false);
    var r, obj, bottom := vm.MapArea(0, Some(f), USER_LOW, 1, prot, Shared, 0);
    var a := Area(USER_LOW, USER_LOW + 1, 0, prot, Shared, obj);
    OneShared(a);
    assert vm.spaces == [[a]];
    SharedIsBottom(vm.mem.M(), obj, bottom);
    ghost var m := vm.mem.M();
    var child := vm.ForkSpace(0);
    FileKept(f, m, vm.mem.M());
    ForkedShared(a, vm.spaces[1]);
    var killed := vm.Fault(1, USER_LOW, false);
    LeadsToFile(vm.mem.M(), a, vm.tables[1][USER_LOW]);
  }

  /**
   The child's map names no process, so the reclaim of the page does not reach the child's translation, which
   goes on leading to the freed frame.
   */
  method StaleReclaimExample() returns (vm: Vm)
    ensures vm.Valid() && !vm.Trusted() && |vm.tables| == 2 && USER_LOW in vm.tables[1]
    ensures vm.tables[1][USER_LOW].frame !in vm.mem.cache.view
  {
    hide Vm.Valid, Vm.Trusted, Fewer;
    vm := SharedReader();
    ghost var before := vm.tables;
    vm.ReclaimPage(vm.tables[1][USER_LOW].frame);
    UnreachedStays(before, vm.tables, vm.links, vm.owned, 1, USER_LOW);
  }

  // A file is mapped for reading and writing, and its second page is written to.
  method WrittenPage() returns (vm: Vm, f: ObjId, a: Area)
    ensures fresh(vm) && fresh(vm.mem) && fresh(vm.mem.cache)
    ensures a == Area(USER_LOW, USER_LOW + 2, 0, Prot(true, true, false), Shared, a.obj) && vm.spaces == [[a]]
    ensures |vm.tables| == 1 && USER_LOW + 1 in vm.tables[0] && vm.tables[0][USER_LOW + 1].writable
    ensures f in vm.mem.objs && vm.mem.objs[f].kind == File && f in vm.vnodes && vm.Valid() && vm.Permitted()
  {
    hide Vm.Valid, Vm.Trusted, Vm.Permitted, Step, Backs, Cut, Carve, Inserted, AreaPages, WellFormed, PteOk, Flushed,
      StaleByChance, PageAt, ByteAt, PageData, Flush;
    vm := new Vm(1);
    f := vm.OpenVnode(map[]);
    var rw := Prot(true, true, false);
    var r, obj, bottom := vm.MapArea(0, Some(f), USER_LOW, 2, rw, Shared, 0);
    a := Area(USER_LOW, USER_LOW + 2, 0, rw, Shared, obj);
    OneShared(a);
    FlushNothing([], USER_LOW, USER_LOW + 2);
    var killed := vm.Fault(0, USER_LOW + 1, true);
  }

  /**
   A file mapped for reading and writing, a write fault, and a mapping for reading only over the end of the area: the
   process keeps a translation through which it can store into a page that its areas let it only read.
   */
  method WritableReadOnlyExample() returns (vm: Vm)
    ensures |vm.spaces| == |vm.tables| == 1 && USER_LOW + 1 in vm.tables[0] && vm.tables[0][USER_LOW + 1].writable
    ensures PageAt(vm.spaces[0], USER_LOW + 1).Some? && !PageAt(vm.spaces[0], USER_LOW + 1).value.prot.write
    ensures vm.Valid() && !vm.Permitted()
  {
    hide Vm.Valid, Vm.Trusted, Vm.Permitted, Step, Backs, Cut, Carve, Inserted, AreaPages, WellFormed, Flushed,
      StaleByChance, PageAt, ByteAt, PageData, Flush, Stored;
    var f, a;
    vm, f, a := WrittenPage();
    LeftWritable(a, vm.tables[0]);
    var r, obj, bottom := vm.MapArea(0, Some(f), USER_LOW + 1, 2, Prot(true, false, false), Shared, 1);
    MappedOver(a, obj);
  }

  lemma FlushNothing(areas: seq<Area>, lo: nat, hi: nat)
    ensures Flush(map[], areas, lo, hi) == map[]
  {
  }

  // A range that overlaps the end of the area takes none of its translations away.
  lemma LeftWritable(a: Area, table: Table)
    requires a.start == USER_LOW && a.end == USER_LOW + 2 && USER_LOW + 1 in table
    ensures !Flushed([a], USER_LOW + 1, USER_LOW + 3, USER_LOW + 1)
    ensures var t := Flush(table, [a], USER_LOW + 1, USER_LOW + 3);
            USER_LOW + 1 in t && t[USER_LOW + 1] == table[USER_LOW + 1]
  {
    FlushExactly(table, [a], USER_LOW + 1, USER_LOW + 3, USER_LOW + 1);
  }

  lemma MappedOver(a: Area, obj: ObjId)
    requires a == Area(USER_LOW, USER_LOW + 2, 0, Prot(true, true, false), Shared, a.obj)
    ensures var b := Area(USER_LOW + 1, USER_LOW + 3, 1, Prot(true, false, false), Shared, obj);
            PageAt(Inserted(Carve([a], b.start, b.end), b), b.start) == Some(MappingOf(b, b.start))
  {
    var b := Area(USER_LOW + 1, USER_LOW + 3, 1, Prot(true, false, false), Shared, obj);
    CarveWellFormed([a], b.start, b.end);
    CarvedIsFree([a], b.start, b.end);
    InsertedPageAt(Carve([a], b.start, b.end), b, b.start);
  }
}
