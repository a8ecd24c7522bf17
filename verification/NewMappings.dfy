/** A new area over a new or existing object: what vmmap_map adds to the address spaces. */
module NewMappings {
  import opened PageTypes
  import opened AreaList
  import opened MemObjects
  import opened References
  import opened Memory
  import opened EagerCopy
  import opened Spaces

  /** n is m with new objects; no mapped object has become shadowed. */
  ghost predicate Grown(m: Mem, n: Mem) {
    Part(m, n) && forall o :: Free(m.objs, o) ==> Free(n.objs, o)
  }

  /** Object o can be put under a new mapping, whose pages will read as fresh ones. */
  ghost predicate Fits(m: Mem, n: Mem, o: ObjId, flags: MapType, bottom: ObjId, file: bool) {
    && Free(n.objs, o) && (flags == Private <==> n.objs[o].kind == Shadow)
    && (flags == Private ==> o !in m.objs)
    && (forall p: nat :: ObjCell(n, o, flags, p) == FreshCell(flags, bottom, file, p))
  }

  /** Every page of object o is found at `bottom`, which is a file or has no page resident. */
  ghost predicate Backs(n: Mem, o: ObjId, flags: MapType, bottom: ObjId, file: bool) {
    && (forall p: nat :: FirstAt(n, o, p) == bottom) && (flags == Private <==> o != bottom)
    && (!file ==> forall p: nat :: Key(bottom, p) !in n.frames)
  }

  // ----- The area joins the address spaces -----

  lemma InsertKinds(spaces: seq<seq<Area>>, m: Mem, n: Mem, i: nat, ar: Area, bottom: ObjId, file: bool)
    requires KindsOk(spaces, m) && TopsFree(spaces, m.objs) && Grown(m, n) && Fits(m, n, ar.obj, ar.flags, bottom, file)
    requires i < |spaces| && AreaOk(ar) && Unmapped(spaces[i], ar.start, ar.end)
    ensures KindsOk(spaces[i := Inserted(spaces[i], ar)], n) && TopsFree(spaces[i := Inserted(spaces[i], ar)], n.objs)
  {
    hide WellFormed, Free, ObjCell, FreshCell, Inserted, Unmapped;
    var t := spaces[i := Inserted(spaces[i], ar)];
    InsertedWellFormed(spaces[i], ar);
    forall j, v: nat | 0 <= j < |t| && PageAt(t[j], v).Some?
      ensures KindOk(n, PageAt(t[j], v).value) && Free(n.objs, PageAt(t[j], v).value.obj)
    {
      FreeIsLive(n.objs, ar.obj);
      if j == i {
        InsertedPageAt(spaces[i], ar, v);
      }
      if PageAt(t[j], v) == PageAt(spaces[j], v) {
        var o := PageAt(spaces[j], v).value.obj;
        assert SameLink(m.objs[o], n.objs[o]);
      }
    }
  }

  lemma FreeIsLive(objs: map<ObjId, MmObj>, o: ObjId)
    requires Free(objs, o)
    ensures o in objs
  {
  }

  lemma InsertExclusive(spaces: seq<seq<Area>>, m: Mem, n: Mem, i: nat, ar: Area, bottom: ObjId, file: bool)
    requires KindsOk(spaces, m) && Exclusive(spaces) && Part(m, n) && Fits(m, n, ar.obj, ar.flags, bottom, file)
    requires i < |spaces| && AreaOk(ar) && Unmapped(spaces[i], ar.start, ar.end)
    ensures Exclusive(spaces[i := Inserted(spaces[i], ar)])
  {
    hide WellFormed, ObjCell, FreshCell, Inserted, Unmapped;
    var t := spaces[i := Inserted(spaces[i], ar)];
    forall j, v: nat, k, w: nat | 0 <= j < |t| && 0 <= k < |t| && PageAt(t[j], v).Some? && PageAt(t[k], w).Some?
      ensures Apart(j, v, PageAt(t[j], v).value, k, w, PageAt(t[k], w).value)
    {
      if j == i {
        InsertedPageAt(spaces[i], ar, v);
      }
      if k == i {
        InsertedPageAt(spaces[i], ar, w);
      }
      OldOrNew(spaces, m, n, i, ar, j, v);
      OldOrNew(spaces, m, n, i, ar, k, w);
      if j == i && Covers(ar, v) {
        assert PageAt(t[j], v) == Some(MappingOf(ar, v));
      } else if k == i && Covers(ar, w) {
        assert PageAt(t[k], w) == Some(MappingOf(ar, w));
      } else {
        assert PageAt(t[j], v) == PageAt(spaces[j], v) && PageAt(t[k], w) == PageAt(spaces[k], w);
        assert Apart(j, v, PageAt(spaces[j], v).value, k, w, PageAt(spaces[k], w).value);
      }
    }
  }

  // A page of an older mapping is on an object that was there before, and of the same kind.
  lemma OldOrNew(spaces: seq<seq<Area>>, m: Mem, n: Mem, i: nat, ar: Area, j: int, v: nat)
    requires KindsOk(spaces, m) && Part(m, n) && 0 <= j < |spaces| && i < |spaces|
    ensures PageAt(spaces[j], v).Some? ==>
              var mp := PageAt(spaces[j], v).value;
              mp.obj in m.objs && mp.obj in n.objs && (mp.flags == Private <==> n.objs[mp.obj].kind == Shadow)
  {
    hide WellFormed;
    if PageAt(spaces[j], v).Some? {
      assert KindOk(m, PageAt(spaces[j], v).value);
    }
  }

  lemma InsertShows(a: map<nat, APage>, areas: seq<Area>, n: Mem, ar: Area, bottom: ObjId, file: bool)
    requires Shows(a, areas, n) && WellFormed(areas) && AreaOk(ar) && Unmapped(areas, ar.start, ar.end)
    requires forall p: nat :: ObjCell(n, ar.obj, ar.flags, p) == FreshCell(ar.flags, bottom, file, p)
    ensures Shows(MapRange(a, ar.start, ar.end - ar.start, ar.prot, ar.flags, bottom, file, ar.off),
                  Inserted(areas, ar), n)
  {
    hide WellFormed, ObjCell, FreshCell, Inserted, Unmapped;
    var b := MapRange(a, ar.start, ar.end - ar.start, ar.prot, ar.flags, bottom, file, ar.off);
    forall v: nat ensures Get(b, v) == Meaning(n, Inserted(areas, ar), v) {
      InsertedPageAt(areas, ar, v);
      assert Get(a, v) == Meaning(n, areas, v);
    }
  }

  lemma InsertRefines(a: AState, spaces: seq<seq<Area>>, m: Mem, n: Mem, next: ObjId, next': ObjId, i: nat, ar: Area,
                      bottom: ObjId, file: bool)
    requires KindsOk(spaces, m) && Refines(a, spaces, m, next) && Part(m, n) && ChainsOk(m.objs)
             && StoreShows(a.store, n, next')
    requires i < |spaces| && AreaOk(ar) && Unmapped(spaces[i], ar.start, ar.end)
    requires forall p: nat :: ObjCell(n, ar.obj, ar.flags, p) == FreshCell(ar.flags, bottom, file, p)
    ensures Refines(Step(a, Map(i, ar.start, ar.end - ar.start, ar.prot, ar.flags, bottom, file, ar.off)),
                    spaces[i := Inserted(spaces[i], ar)], n, next')
  {
    hide Shows, StoreShows, Part, ChainsOk, Inserted, MapRange, ObjCell, FreshCell, WellFormed, KindOk, Unmapped;
    RefinesGrown(a, spaces, m, n, next, next');
    InsertShows(a.spaces[i], spaces[i], n, ar, bottom, file);
  }

  lemma MapOk(a: AState, spaces: seq<seq<Area>>, m: Mem, n: Mem, next: ObjId, next': ObjId, i: nat, ar: Area,
              bottom: ObjId, file: bool)
    requires SpacesOk(spaces, m) && Refines(a, spaces, m, next) && ChainsOk(m.objs) && StoreShows(a.store, n, next')
    requires Grown(m, n) && Fits(m, n, ar.obj, ar.flags, bottom, file)
    requires i < |spaces| && AreaOk(ar) && Unmapped(spaces[i], ar.start, ar.end)
    ensures SpacesOk(spaces[i := Inserted(spaces[i], ar)], n)
    ensures Refines(Step(a, Map(i, ar.start, ar.end - ar.start, ar.prot, ar.flags, bottom, file, ar.off)),
                    spaces[i := Inserted(spaces[i], ar)], n, next')
  {
    hide KindsOk, TopsFree, Exclusive, Refines, ChainsOk, StoreShows, Unmapped, Inserted, Step, Free, Part, ObjCell,
      FreshCell;
    InsertKinds(spaces, m, n, i, ar, bottom, file);
    InsertExclusive(spaces, m, n, i, ar, bottom, file);
    InsertRefines(a, spaces, m, n, next, next', i, ar, bottom, file);
  }

  // ----- The four ways to get the object -----

  lemma AnonGrown(m: Mem, h: multiset<ObjId>, a: ObjId, store: map<Key, Page>)
    requires MemOk(m, h, {}) && NamesBelow(m.objs, a) && StoreShows(store, m, a)
    ensures var n := m.(objs := m.objs[a := NewAnon(a)]);
            && Grown(m, n) && Fits(m, n, a, Shared, a, false) && StoreShows(store, n, a + 1)
            && Backs(n, a, Shared, a, false)
            && a !in m.objs && Shadowers(n.objs, a) == {} && forall p: nat :: Key(a, p) !in m.frames
  {
    hide RefsOk, PinsOk, Lists, PagesOf, Shadowers;
    var n := m.(objs := m.objs[a := NewAnon(a)]);
    assert Part(m, n);
    BottomChains(m.objs, a, Anon);
    NotShadowed(m.objs, a, NewAnon(a));
  }

  // m with a shadow object s over o.
  function Shadowed(m: Mem, o: ObjId, s: ObjId): Mem
    requires o in m.objs
  {
    m.(objs := m.objs[s := NewShadow(o, m.objs[o].bottom)])
  }

  function WithAnon(m: Mem, a: ObjId): Mem {
    m.(objs := m.objs[a := NewAnon(a)])
  }

  lemma ShadowPart(m: Mem, h: multiset<ObjId>, o: ObjId, s: ObjId, store: map<Key, Page>)
    requires MemOk(m, h, {}) && NamesBelow(m.objs, s) && StoreShows(store, m, s) && o in m.objs
    ensures Part(m, Shadowed(m, o, s)) && StoreShows(store, Shadowed(m, o, s), s + 1) && s !in m.objs
    ensures Shadowers(Shadowed(m, o, s).objs, s) == {}
    ensures forall p: nat :: Key(s, p) !in m.frames
  {
    hide RefsOk, PinsOk, Lists, PagesOf;
    NotShadowed(m.objs, s, NewShadow(o, m.objs[o].bottom));
  }

  lemma ShadowReads(m: Mem, o: ObjId, s: ObjId, p: nat)
    requires ChainsOk(m.objs) && o in m.objs && Part(m, Shadowed(m, o, s)) && o < s && Key(s, p) !in m.frames
    ensures FirstAt(Shadowed(m, o, s), s, p) == FirstAt(m, o, p) && View(Shadowed(m, o, s), s, p) == View(m, o, p)
  {
    PartView(m, Shadowed(m, o, s), o, p);
  }

  lemma ShadowFree(m: Mem, o: ObjId, s: ObjId, x: ObjId)
    requires ChainsOk(m.objs) && o in m.objs && s !in m.objs && Free(m.objs, x) && (x != o || m.objs[o].kind == File)
    ensures Free(Shadowed(m, o, s).objs, x)
  {
    if m.objs[x].kind != File {
      assert Shadowers(Shadowed(m, o, s).objs, x) == Shadowers(m.objs, x);
    }
  }

  lemma AnonPrivate(m: Mem, h: multiset<ObjId>, a: ObjId, store: map<Key, Page>)
    requires MemOk(m, h, {}) && NamesBelow(m.objs, a) && StoreShows(store, m, a)
    ensures var s := a + 1;
            var n := Shadowed(WithAnon(m, a), a, s);
            Grown(m, n) && Fits(m, n, s, Private, a, false) && StoreShows(store, n, a + 2)
            && Backs(n, s, Private, a, false)
            && forall p: nat, b :: 0 <= b < PAGE_SIZE ==> View(n, s, p)[b] == 0
  {
    hide MemOk, NamesBelow, StoreShows, Part, ChainsOk, Fits, View, FirstAt, Shadowers;
    var m1 := WithAnon(m, a);
    var s := a + 1;
    var n := Shadowed(m1, a, s);
    AnonGrown(m, h, a, store);
    BottomCreated(m, h, a, Anon);
    ShadowPart(m1, h + multiset{a}, a, s, store);
    PartTransitive(m, m1, n);
    Chained(m1, h + multiset{a}, {}, a);
    forall x | Free(m.objs, x) ensures Free(n.objs, x) {
      ShadowFree(m1, a, s, x);
    }
    forall p: nat ensures ObjCell(n, s, Private, p) == Own(ZeroPage()) && FirstAt(n, s, p) == a
                          && View(n, s, p) == ZeroPage() {
      ShadowReads(m1, a, s, p);
      AnonReads(m1, a, p);
    }
    FitsFrom(m, n, s, Private, a, false);
  }

  lemma AnonReads(m: Mem, a: ObjId, p: nat)
    requires a in m.objs && m.objs[a].kind == Anon && Key(a, p) !in m.frames
    ensures FirstAt(m, a, p) == a && View(m, a, p) == ZeroPage()
  {
  }

  lemma FileReads(m: Mem, f: ObjId, p: nat)
    requires f in m.objs && m.objs[f].kind == File
    ensures FirstAt(m, f, p) == f
  {
  }

  lemma FitsFrom(m: Mem, n: Mem, o: ObjId, flags: MapType, bottom: ObjId, file: bool)
    requires o in n.objs && (n.objs[o].kind == File || Shadowers(n.objs, o) == {})
             && (flags == Private <==> n.objs[o].kind == Shadow)
    requires flags == Private ==> o !in m.objs
    requires forall p: nat :: ObjCell(n, o, flags, p) == FreshCell(flags, bottom, file, p)
    ensures Fits(m, n, o, flags, bottom, file)
  {
  }

  lemma FileShared(m: Mem, f: ObjId, store: map<Key, Page>, next: ObjId)
    requires f in m.objs && m.objs[f].kind == File && StoreShows(store, m, next)
    ensures var n := WithRefs(m, f, 1);
            Grown(m, n) && Fits(m, n, f, Shared, f, true) && StoreShows(store, n, next) && Backs(n, f, Shared, f, true)
  {
    hide PrivateCell;
    var n := WithRefs(m, f, 1);
    forall x | Free(m.objs, x) ensures Free(n.objs, x) {
      assert Shadowers(n.objs, x) == Shadowers(m.objs, x);
    }
  }

  lemma FilePrivate(m: Mem, h: multiset<ObjId>, f: ObjId, s: ObjId, store: map<Key, Page>)
    requires MemOk(m, h, {}) && NamesBelow(m.objs, s) && StoreShows(store, m, s) && f in m.objs
             && m.objs[f].kind == File
    ensures var n := Shadowed(WithRefs(m, f, 1), f, s);
            Grown(m, n) && Fits(m, n, s, Private, f, true) && StoreShows(store, n, s + 1)
            && Backs(n, s, Private, f, true)
  {
    hide MemOk, NamesBelow, StoreShows, Part, ChainsOk, Fits, View, FirstAt, Shadowers;
    var m1 := WithRefs(m, f, 1);
    var n := Shadowed(m1, f, s);
    FileShared(m, f, store, s);
    Referenced(m, h, f);
    NamesSame(m.objs, m1.objs, s);
    ShadowPart(m1, h + multiset{f}, f, s, store);
    PartTransitive(m, m1, n);
    Chained(m1, h + multiset{f}, {}, f);
    NamedBelow(m1.objs, s, f);
    forall x | Free(m.objs, x) ensures Free(n.objs, x) {
      ShadowFree(m1, f, s, x);
    }
    forall p: nat ensures ObjCell(n, s, Private, p) == Alias(Key(f, p)) && FirstAt(n, s, p) == f {
      ShadowReads(m1, f, s, p);
      FileReads(m1, f, p);
    }
    FitsFrom(m, n, s, Private, f, true);
  }

  lemma NamedBelow(objs: map<ObjId, MmObj>, next: ObjId, o: ObjId)
    requires NamesBelow(objs, next) && o in objs
    ensures o < next
  {
  }

  // ----- A file that becomes available -----

  function WithOpened(m: Mem, f: ObjId, pages: map<nat, Page>): Mem {
    Mem(m.objs[f := NewBottom(File, f)], m.frames, WithFile(m.disk, f, pages))
  }

  lemma OpenContent(store: map<Key, Page>, m: Mem, next: ObjId, pages: map<nat, Page>, o: ObjId, p: nat)
    requires (forall k :: k in store ==> k.obj < next) && (forall k :: k in m.frames ==> k.obj < next)
    requires o != next ==> Stored(store, Key(o, p)) == Content(m, o, p)
    ensures Stored(OpenFile(store, next, pages), Key(o, p)) == Content(WithOpened(m, next, pages), o, p)
  {
    hide WithFile;
    OpenDisk(m.disk, next, pages, Key(o, p));
  }

  lemma OpenStore(store: map<Key, Page>, m: Mem, next: ObjId, pages: map<nat, Page>)
    requires StoreShows(store, m, next) && NamesBelow(m.objs, next) && (forall k :: k in m.frames ==> k.obj in m.objs)
    ensures StoreShows(OpenFile(store, next, pages), WithOpened(m, next, pages), next + 1)
  {
    hide WithFile, Stored, Content;
    var n := WithOpened(m, next, pages);
    forall o, p: nat | o in n.objs && n.objs[o].kind != Shadow
      ensures Stored(OpenFile(store, next, pages), Key(o, p)) == Content(n, o, p)
    {
      OpenContent(store, m, next, pages, o, p);
    }
  }

  lemma OpenDisk(disk: map<Key, Page>, next: ObjId, pages: map<nat, Page>, k: Key)
    ensures Stored(WithFile(disk, next, pages), k) ==
            if k.obj != next then Stored(disk, k) else if k.page in pages then pages[k.page] else ZeroPage()
  {
  }

  lemma OpenGrown(m: Mem, h: multiset<ObjId>, next: ObjId, pages: map<nat, Page>)
    requires MemOk(m, h, {}) && NamesBelow(m.objs, next)
    ensures Grown(m, WithOpened(m, next, pages)) && (forall k :: k in m.frames ==> k.obj in m.objs)
  {
    hide RefsOk, PinsOk, Lists, PagesOf, Stored, WithFile, Shadowers;
    var n := WithOpened(m, next, pages);
    forall k: Key | k.obj in m.objs ensures Stored(m.disk, k) == Stored(n.disk, k) {
      OpenDisk(m.disk, next, pages, k);
    }
    BottomChains(m.objs, next, File);
  }

  lemma SpacesGrown(spaces: seq<seq<Area>>, m: Mem, n: Mem)
    requires SpacesOk(spaces, m) && Grown(m, n)
    ensures SpacesOk(spaces, n)
  {
    hide WellFormed, Free, Exclusive;
    forall i, v: nat | 0 <= i < |spaces| && PageAt(spaces[i], v).Some?
      ensures KindOk(n, PageAt(spaces[i], v).value) && Free(n.objs, PageAt(spaces[i], v).value.obj)
    {
      var o := PageAt(spaces[i], v).value.obj;
      assert KindOk(m, PageAt(spaces[i], v).value);
      assert SameLink(m.objs[o], n.objs[o]);
    }
  }

  lemma OpenRefines(a: AState, spaces: seq<seq<Area>>, m: Mem, h: multiset<ObjId>, next: ObjId, pages: map<nat, Page>)
    requires MemOk(m, h, {}) && NamesBelow(m.objs, next) && KindsOk(spaces, m) && Refines(a, spaces, m, next)
    ensures Refines(Step(a, Open(next, pages)), spaces, WithOpened(m, next, pages), next + 1)
  {
    hide Shows, StoreShows, Part, ResidentOk, RefsOk, PinsOk, ChainsOk, WellFormed, KindOk, OpenFile;
    var n := WithOpened(m, next, pages);
    OpenGrown(m, h, next, pages);
    OpenStore(a.store, m, next, pages);
    forall i | 0 <= i < |spaces| ensures Shows(a.spaces[i], spaces[i], n) {
      forall v: nat | PageAt(spaces[i], v).Some? ensures PageAt(spaces[i], v).value.obj in m.objs {
        KindLives(m, PageAt(spaces[i], v).value);
      }
      ShowsGrown(a.spaces[i], spaces[i], m, n);
    }
  }

  lemma KindLives(m: Mem, mp: Mapping)
    requires KindOk(m, mp)
    ensures mp.obj in m.objs
  {
  }

  lemma OpenOk(a: AState, spaces: seq<seq<Area>>, m: Mem, h: multiset<ObjId>, next: ObjId, pages: map<nat, Page>)
    requires MemOk(m, h, {}) && NamesBelow(m.objs, next) && SpacesOk(spaces, m) && Refines(a, spaces, m, next)
    ensures SpacesOk(spaces, WithOpened(m, next, pages)) && Part(m, WithOpened(m, next, pages))
    ensures Refines(Step(a, Open(next, pages)), spaces, WithOpened(m, next, pages), next + 1)
  {
    hide MemOk, NamesBelow, Refines, Part, KindsOk, TopsFree, Exclusive;
    OpenGrown(m, h, next, pages);
    SpacesGrown(spaces, m, WithOpened(m, next, pages));
    OpenRefines(a, spaces, m, h, next, pages);
  }
}
