/** Anonymous and shadow objects at work: anon.c, shadow.c and the object half of pframe.c. */
module Memory {
  import opened PageTypes
  import opened MemObjects
  import opened References
  import opened PageCache

  /** The invariant of the memory objects. Pages in `loose` are being filled or freed. */
  ghost predicate MemOk(m: Mem, h: multiset<ObjId>, loose: set<Key>) {
    ChainsOk(m.objs) && ResidentOk(m.objs, m.frames) && RefsOk(m.objs, h) && PinsOk(m.objs, m.frames, loose)
  }

  /** Every file object is referenced from outside the address spaces: its vnode holds it. */
  ghost predicate FilesHeld(objs: map<ObjId, MmObj>, h: multiset<ObjId>) {
    forall f :: f in objs && objs[f].kind == File ==> f in h
  }

  ghost predicate NamesBelow(objs: map<ObjId, MmObj>, next: ObjId) {
    next != NULL && forall o :: o in objs ==> o < next
  }

  function WithRefs(m: Mem, o: ObjId, d: int): Mem
    requires o in m.objs
  {
    m.(objs := m.objs[o := m.objs[o].(refcount := m.objs[o].refcount + d)])
  }

  lemma ObjectListed(objs: map<ObjId, MmObj>, frames: map<Key, Frame>, o: ObjId, x: MmObj)
    requires ResidentOk(objs, frames) && PinsOk(objs, frames, {})
    requires o !in objs && x.respages == [] && x.nrespages == 0
    ensures ResidentOk(objs[o := x], frames) && PinsOk(objs[o := x], frames, {})
  {
    assert PagesOf(frames, o) == {};
  }

  lemma CountChanged(objs: map<ObjId, MmObj>, frames: map<Key, Frame>, loose: set<Key>, o: ObjId, x: MmObj)
    requires ResidentOk(objs, frames) && PinsOk(objs, frames, loose)
    requires o in objs && SameLink(objs[o], x) && x.respages == objs[o].respages && x.nrespages == objs[o].nrespages
    ensures ResidentOk(objs[o := x], frames) && PinsOk(objs[o := x], frames, loose)
  {
  }

  lemma FilesKept(objs: map<ObjId, MmObj>, objs': map<ObjId, MmObj>, h: multiset<ObjId>)
    requires FilesHeld(objs, h)
    requires forall o :: o in objs' ==> o in objs && SameLink(objs[o], objs'[o])
    ensures FilesHeld(objs', h)
  {
  }

  // ----- Creating objects and taking references -----

  lemma BottomCreated(m: Mem, h: multiset<ObjId>, next: ObjId, kind: Kind)
    requires MemOk(m, h, {}) && NamesBelow(m.objs, next) && kind != Shadow
    ensures MemOk(m.(objs := m.objs[next := NewBottom(kind, next)]), h + multiset{next}, {})
    ensures NamesBelow(m.objs[next := NewBottom(kind, next)], next + 1) && next !in m.objs
  {
    hide ChainsOk, ResidentOk, RefsOk, PinsOk;
    BottomAdded(m.objs, h, next, kind);
    ObjectListed(m.objs, m.frames, next, NewBottom(kind, next));
  }

  // The backing store once it holds the given pages of file o.
  function WithFile(disk: map<Key, Page>, o: ObjId, pages: map<nat, Page>): map<Key, Page> {
    (map k | k in disk && k.obj != o :: disk[k]) + map p | p in pages :: Key(o, p) := pages[p]
  }

  lemma DiskIrrelevant(m: Mem, h: multiset<ObjId>, disk: map<Key, Page>)
    requires MemOk(m, h, {})
    ensures MemOk(m.(disk := disk), h, {})
  {
  }

  lemma ShadowCreated(m: Mem, h: multiset<ObjId>, o: ObjId, next: ObjId)
    requires MemOk(m, h, {}) && NamesBelow(m.objs, next) && o in h
    ensures o in m.objs && next !in m.objs
    ensures var objs' := m.objs[next := NewShadow(o, m.objs[o].bottom)];
            MemOk(m.(objs := objs'), h - multiset{o} + multiset{next}, {}) && NamesBelow(objs', next + 1)
  {
    hide ChainsOk, ResidentOk, RefsOk, PinsOk;
    HeldIsLive(m.objs, h);
    ShadowAdded(m.objs, h, o, next);
    ObjectListed(m.objs, m.frames, next, NewShadow(o, m.objs[o].bottom));
  }

  lemma Referenced(m: Mem, h: multiset<ObjId>, o: ObjId)
    requires MemOk(m, h, {}) && o in m.objs
    ensures MemOk(WithRefs(m, o, 1), h + multiset{o}, {})
  {
    hide ChainsOk, ResidentOk, RefsOk, PinsOk;
    RefTaken(m.objs, h, o);
    CountChanged(m.objs, m.frames, {}, o, m.objs[o].(refcount := m.objs[o].refcount + 1));
  }

  // ----- Dropping references -----

  lemma HeldLive(m: Mem, h: multiset<ObjId>, loose: set<Key>, o: ObjId)
    requires MemOk(m, h, loose) && o in h
    ensures o in m.objs
    ensures m.objs[o].refcount - 1 == m.objs[o].nrespages <==> Users(m.objs, h, o) == 1
    ensures Users(m.objs, h, o) == 1 ==> h[o] == 1
    ensures Users(m.objs, h, o) >= 1
  {
    LastUser(m.objs, h, o);
  }

  lemma RefsOnly(m: Mem, h: multiset<ObjId>, o: ObjId, d: int)
    requires o in m.objs && FilesHeld(m.objs, h)
    ensures Part(WithRefs(m, o, d), m) && Part(m, WithRefs(m, o, d)) && FilesHeld(WithRefs(m, o, d).objs, h)
  {
  }

  lemma Released(m: Mem, h: multiset<ObjId>, o: ObjId)
    requires MemOk(m, h, {}) && o in h && o in m.objs && Users(m.objs, h, o) > 1 && FilesHeld(m.objs, h - multiset{o})
    ensures MemOk(WithRefs(m, o, -1), h - multiset{o}, {}) && Part(WithRefs(m, o, -1), m)
    ensures FilesHeld(WithRefs(m, o, -1).objs, h - multiset{o})
  {
    hide ChainsOk, ResidentOk, RefsOk, PinsOk, FilesHeld, Users, Part;
    RefDropped(m.objs, h, o);
    CountChanged(m.objs, m.frames, {}, o, m.objs[o].(refcount := m.objs[o].refcount - 1));
    RefsOnly(m, h - multiset{o}, o, -1);
  }

  lemma NotAFile(m: Mem, h: multiset<ObjId>, o: ObjId)
    requires FilesHeld(m.objs, h - multiset{o}) && o in m.objs && h[o] == 1
    ensures m.objs[o].kind != File
  {
  }

  // Pages of every object but o.
  ghost function OffObject(frames: map<Key, Frame>, o: ObjId): map<Key, Frame> {
    map k | k in frames && k.obj != o :: frames[k]
  }

  /** n is m with all pages of o freed and o itself about to go. */
  ghost predicate Emptied(m: Mem, n: Mem, o: ObjId) {
    && o in m.objs && o in n.objs && n.objs == m.objs[o := n.objs[o]] && SameLink(m.objs[o], n.objs[o])
    && OffObject(n.frames, o) == OffObject(m.frames, o) && n.disk == m.disk
  }

  lemma NoPagesLeft(objs: map<ObjId, MmObj>, frames: map<Key, Frame>, o: ObjId)
    requires ResidentOk(objs, frames) && o in objs && objs[o].respages == []
    ensures PagesOf(frames, o) == {} && forall k :: k in frames ==> k.obj != o
  {
    ListsMembers(objs[o].respages, PagesOf(frames, o));
    forall k | k in frames ensures k.obj != o {
      assert k.obj == o ==> k.page in PagesOf(frames, o);
    }
  }

  lemma EmptiedPart(m: Mem, n: Mem, o: ObjId)
    requires Emptied(m, n, o) && forall k :: k in n.frames ==> k.obj != o
    ensures Part(n.(objs := n.objs - {o}), m)
  {
    forall k | k in n.frames ensures k in m.frames && n.frames[k] == m.frames[k] {
      assert k in OffObject(n.frames, o);
    }
    forall k | k in m.frames && k.obj in n.objs - {o} ensures k in n.frames {
      assert k in OffObject(m.frames, o);
    }
  }

  lemma PinsWithout(objs: map<ObjId, MmObj>, frames: map<Key, Frame>, o: ObjId)
    requires PinsOk(objs, frames, {})
    ensures PinsOk(objs - {o}, frames, {})
  {
  }

  lemma AnonDestroyed(m: Mem, n: Mem, h: multiset<ObjId>, o: ObjId)
    requires MemOk(n, h, {}) && Emptied(m, n, o) && o in n.objs && n.objs[o].respages == [] && n.objs[o].kind != Shadow
    requires h[o] == 1 && Users(n.objs, h, o) == 1 && FilesHeld(n.objs, h - multiset{o})
    ensures var n' := n.(objs := n.objs - {o});
            MemOk(n', h - multiset{o}, {}) && Part(n', m) && FilesHeld(n'.objs, h - multiset{o})
  {
    hide ChainsOk, ResidentOk, RefsOk, PinsOk, FilesHeld, Users, PagesOf, Emptied, Part;
    NoPagesLeft(n.objs, n.frames, o);
    AnonRemoved(n.objs, n.frames, h, o);
    PinsWithout(n.objs, n.frames, o);
    EmptiedPart(m, n, o);
    FilesKept(n.objs, n.objs - {o}, h - multiset{o});
  }

  lemma ShadowDestroyed(m: Mem, n: Mem, h: multiset<ObjId>, o: ObjId)
    requires MemOk(n, h, {}) && Emptied(m, n, o) && o in n.objs && n.objs[o].respages == [] && n.objs[o].kind == Shadow
    requires h[o] == 1 && Users(n.objs, h, o) == 1 && FilesHeld(n.objs, h - multiset{o})
    ensures var n' := n.(objs := n.objs - {o}); var below := n.objs[o].shadowed;
                                                && below < o && below in n'.objs
                                                && MemOk(n', h - multiset{o} + multiset{below}, {}) && Part(n', m)
                                                && FilesHeld(n'.objs, h - multiset{o} + multiset{below} - multiset{below})
  {
    hide ChainsOk, ResidentOk, RefsOk, PinsOk, FilesHeld, Users, PagesOf, Emptied, Part;
    NoPagesLeft(n.objs, n.frames, o);
    LinkedIsLive(n.objs, o);
    ShadowRemoved(n.objs, n.frames, h, o);
    PinsWithout(n.objs, n.frames, o);
    EmptiedPart(m, n, o);
    FilesKept(n.objs, n.objs - {o}, h - multiset{o});
    assert h - multiset{o} + multiset{n.objs[o].shadowed} - multiset{n.objs[o].shadowed} == h - multiset{o};
  }

  // ----- Freeing pages -----

  lemma HeadIsResident(m: Mem, h: multiset<ObjId>, o: ObjId)
    requires MemOk(m, h, {}) && o in m.objs && m.objs[o].respages != [] && m.objs[o].kind != File
    ensures var k := Key(o, m.objs[o].respages[0]);
            k in m.frames && m.frames[k].pins == 1 && !m.frames[k].busy
  {
    ListsMembers(m.objs[o].respages, PagesOf(m.frames, o));
    assert m.objs[o].respages[0] in m.objs[o].respages;
  }

  lemma PinsLoosened(objs: map<ObjId, MmObj>, frames: map<Key, Frame>, loose: set<Key>, k: Key, fr: Frame)
    requires PinsOk(objs, frames, loose)
    ensures PinsOk(objs, frames[k := fr], loose + {k})
  {
  }

  lemma FrameLoosened(m: Mem, h: multiset<ObjId>, loose: set<Key>, k: Key, fr: Frame)
    requires MemOk(m, h, loose) && k in m.frames
    ensures MemOk(m.(frames := m.frames[k := fr]), h, loose + {k})
  {
    hide ChainsOk, ResidentOk, RefsOk, PinsOk;
    PageRewritten(m.objs, m.frames, k, fr);
    PinsLoosened(m.objs, m.frames, loose, k, fr);
  }

  lemma PinsAfterFree(objs: map<ObjId, MmObj>, objs': map<ObjId, MmObj>, frames: map<Key, Frame>, k: Key)
    requires PinsOk(objs, frames, {k}) && SameLinks(objs, objs')
    ensures PinsOk(objs', frames - {k}, {})
  {
  }

  lemma StillUsed(objs: map<ObjId, MmObj>, objs': map<ObjId, MmObj>, h: multiset<ObjId>, o: ObjId)
    requires ChainsOk(objs) && RefsOk(objs, h) && SameLinks(objs, objs') && o in objs
    ensures Users(objs', h + multiset{o}, o) > 1
  {
    LinksKept(objs, objs');
  }

  lemma Unlinked(m: Mem, h: multiset<ObjId>, k: Key)
    requires MemOk(m, h, {k}) && k in m.frames && FilesHeld(m.objs, h)
    ensures k.obj in m.objs
    ensures var m' := m.(objs := m.objs[k.obj := WithoutPage(m.objs[k.obj], k.page)], frames := m.frames - {k});
            && MemOk(m', h + multiset{k.obj}, {}) && Users(m'.objs, h + multiset{k.obj}, k.obj) > 1
            && FilesHeld(m'.objs, h + multiset{k.obj} - multiset{k.obj})
            && |m'.objs[k.obj].respages| == |m.objs[k.obj].respages| - 1
  {
    hide ChainsOk, RefsOk, PinsOk, FilesHeld, Users, Lists;
    assert k.obj in m.objs;
    var objs' := m.objs[k.obj := WithoutPage(m.objs[k.obj], k.page)];
    PageRemoved(m.objs, m.frames, h, k.obj, k.page);
    PinsAfterFree(m.objs, objs', m.frames, k);
    StillUsed(m.objs, objs', h, k.obj);
    FilesKept(m.objs, objs', h);
    assert h + multiset{k.obj} - multiset{k.obj} == h;
  }

  lemma EmptiedStep(m: Mem, n: Mem, o: ObjId, k: Key, x: MmObj)
    requires Emptied(m, n, o) && k.obj == o && SameLink(n.objs[o], x)
    ensures Emptied(m, n.(objs := n.objs[o := x], frames := n.frames - {k}), o)
  {
    assert OffObject(n.frames - {k}, o) == OffObject(n.frames, o);
  }

  lemma UsersKept(m: Mem, h: multiset<ObjId>, loose: set<Key>, objs': map<ObjId, MmObj>, o: ObjId)
    requires MemOk(m, h, loose) && SameLinks(m.objs, objs')
    ensures Users(objs', h, o) == Users(m.objs, h, o)
  {
    LinksKept(m.objs, objs');
  }

  // ----- Making pages resident -----

  lemma Linked(m: Mem, h: multiset<ObjId>, loose: set<Key>, k: Key, fr: Frame)
    requires MemOk(m, h, loose) && k !in m.frames && k.obj in m.objs
    ensures MemOk(m.(objs := m.objs[k.obj := WithPage(m.objs[k.obj], k.page)], frames := m.frames[k := fr]), h,
                  loose + {k})
  {
    hide ChainsOk, ResidentOk, RefsOk, PinsOk;
    PageAdded(m.objs, m.frames, h, k.obj, k.page, fr);
    PinsAllocated(m.objs, m.objs[k.obj := WithPage(m.objs[k.obj], k.page)], m.frames, loose, k, fr);
  }

  lemma PinsAllocated(objs: map<ObjId, MmObj>, objs': map<ObjId, MmObj>, frames: map<Key, Frame>, loose: set<Key>,
                      k: Key, fr: Frame)
    requires PinsOk(objs, frames, loose) && SameLinks(objs, objs')
    ensures PinsOk(objs', frames[k := fr], loose + {k})
  {
  }

  lemma PinsSettled(objs: map<ObjId, MmObj>, frames: map<Key, Frame>, loose: set<Key>, k: Key, fr: Frame)
    requires PinsOk(objs, frames, loose) && k.obj in objs && !fr.busy
             && fr.pins == if objs[k.obj].kind == File then 0 else 1
    ensures PinsOk(objs, frames[k := fr], loose - {k})
  {
  }

  lemma FrameSettled(m: Mem, h: multiset<ObjId>, loose: set<Key>, k: Key, fr: Frame)
    requires MemOk(m, h, loose) && k in m.frames && k.obj in m.objs
    requires !fr.busy && fr.pins == if m.objs[k.obj].kind == File then 0 else 1
    ensures MemOk(m.(frames := m.frames[k := fr]), h, loose - {k})
  {
    hide ChainsOk, ResidentOk, RefsOk, PinsOk;
    PageRewritten(m.objs, m.frames, k, fr);
    PinsSettled(m.objs, m.frames, loose, k, fr);
  }

  lemma FillsSelf(m: Mem, ks: set<Key>)
    ensures Fills(m, m, ks)
  {
  }

  lemma AllocFills(m: Mem, k: Key, fr: Frame)
    requires k !in m.frames && k.obj in m.objs
    ensures Fills(m, Minus(m.(objs := m.objs[k.obj := WithPage(m.objs[k.obj], k.page)], frames := m.frames[k := fr]),
                           k), {})
  {
  }

  lemma Chained(m: Mem, h: multiset<ObjId>, loose: set<Key>, o: ObjId)
    requires MemOk(m, h, loose) && o in m.objs
    ensures ChainsOk(m.objs)
    ensures m.objs[o].bottom in m.objs && m.objs[o].bottom <= o && m.objs[m.objs[o].bottom].kind != Shadow
    ensures m.objs[m.objs[o].bottom].bottom == m.objs[o].bottom
    ensures m.objs[o].kind == Shadow ==>
              && m.objs[o].bottom < o && m.objs[o].shadowed in m.objs && m.objs[o].shadowed < o
              && m.objs[m.objs[o].shadowed].bottom == m.objs[o].bottom && m.objs[o].shadowed != NULL
    ensures m.objs[o].kind != Shadow ==> m.objs[o].bottom == o && m.objs[o].shadowed == NULL
  {
    BottomBelow(m.objs, o);
  }

  /** One step of a walk down a chain. */
  lemma WalkStep(m: Mem, o: ObjId, p: nat)
    requires ChainsOk(m.objs) && o in m.objs
    ensures m.objs[o].kind == Shadow && Key(o, p) !in m.frames ==>
              FirstAt(m, o, p) == FirstAt(m, m.objs[o].shadowed, p) && View(m, o, p) == View(m, m.objs[o].shadowed, p)
    ensures m.objs[o].kind != Shadow || Key(o, p) in m.frames ==> FirstAt(m, o, p) == o
    ensures Key(o, p) in m.frames ==> View(m, o, p) == m.frames[Key(o, p)].data
  {
  }

  lemma SameNames(m: Mem, n: Mem, ks: set<Key>, next: ObjId)
    requires Fills(m, n, ks) && NamesBelow(m.objs, next)
    ensures NamesBelow(n.objs, next) && m.objs.Keys == n.objs.Keys && m.disk == n.disk
    ensures forall o :: o in m.objs ==> SameLink(m.objs[o], n.objs[o])
  {
  }

  class Objects {
    const cache: Cache
    var objs: map<ObjId, MmObj>
    var next: ObjId
    // References held by address spaces, vnodes and the code in progress.
    ghost var handles: multiset<ObjId>
    // Pages being filled or freed, which may be busy or not yet pinned.
    ghost var loose: set<Key>

    ghost function M(): Mem
      reads this, cache
    {
      Mem(objs, cache.view, cache.t.disk)
    }

    ghost predicate Valid()
      reads this, cache
    {
      cache.Valid() && MemOk(M(), handles, loose) && NamesBelow(objs, next)
    }

    constructor (hashSize: nat)
      requires hashSize > 0
      ensures Valid() && objs == map[] && handles == multiset{} && loose == {} && fresh(cache)
    {
      var c := new Cache(hashSize);
      cache, objs, next, handles, loose := c, map[], 1, multiset{}, {};
    }

    lemma HeldIsThere(o: ObjId)
      requires Valid() && o in handles
      ensures o in objs
    {
      HeldLive(M(), handles, loose, o);
    }

    method AnonCreate() returns (o: ObjId)
      requires Valid() && loose == {}
      modifies this
      ensures Valid() && loose == {} && o == old(next) && next == old(next) + 1
      ensures objs == old(objs)[o := NewAnon(o)] && handles == old(handles) + multiset{o}
    {
      hide TablesOk, MemOk, NamesBelow;
      BottomCreated(M(), handles, next, Anon);
      o := next;
      objs := objs[o := NewAnon(o)];
      next := next + 1;
      handles := handles + multiset{o};
    }

    /** The object of a file that becomes available, held by its vnode; its pages are in the backing store. */
    method FileCreate(pages: map<nat, Page>) returns (o: ObjId)
      requires Valid() && loose == {}
      modifies this, cache`t
      ensures Valid() && loose == {} && o == old(next) && next == old(next) + 1
      ensures handles == old(handles) + multiset{o}
      ensures M() == Mem(old(objs)[o := NewBottom(File, o)], old(cache.view), WithFile(old(cache.t.disk), o, pages))
    {
      hide TablesOk, MemOk, NamesBelow;
      BottomCreated(M(), handles, next, File);
      o := next;
      cache.Provide(WithFile(cache.t.disk, o, pages));
      DiskIrrelevant(Mem(objs[o := NewBottom(File, o)], cache.view, old(cache.t.disk)), handles + multiset{o},
                     cache.t.disk);
      objs := objs[o := NewBottom(File, o)];
      next := next + 1;
      handles := handles + multiset{o};
    }

    /** shadow_create, with the new object put on top of o: the caller's reference on o passes to it. */
    method ShadowOver(o: ObjId) returns (s: ObjId)
      requires Valid() && o in handles && loose == {}
      modifies this
      ensures Valid() && loose == {} && s == old(next) && next == old(next) + 1 && o in old(objs)
      ensures objs == old(objs)[s := NewShadow(o, old(objs)[o].bottom)]
      ensures handles == old(handles) - multiset{o} + multiset{s}
    {
      hide TablesOk, MemOk, NamesBelow;
      ShadowCreated(M(), handles, o, next);
      s := next;
      objs := objs[s := NewShadow(o, objs[o].bottom)];
      next := next + 1;
      handles := handles - multiset{o} + multiset{s};
    }

    method Ref(o: ObjId)
      requires Valid() && o in objs && loose == {}
      modifies this`objs, this`handles
      ensures Valid() && M() == WithRefs(old(M()), o, 1)
      ensures handles == old(handles) + multiset{o}
    {
      hide TablesOk, MemOk;
      Referenced(M(), handles, o);
      objs := objs[o := objs[o].(refcount := objs[o].refcount + 1)];
      handles := handles + multiset{o};
    }

    /**
     anon_put and shadow_put. Dropping the last reference frees the object's pages and then the object;
     each page freed drops one more reference, which never is the last. A shadow object then drops its
     reference on the object below, so the destruction may run down a chain of any length.
     */
    method Put(o: ObjId)
      requires Valid() && o in handles && loose == {} && FilesHeld(objs, handles - multiset{o})
      modifies this`objs, this`handles, this`loose, cache
      ensures Valid() && loose == {} && handles == old(handles) - multiset{o} && FilesHeld(objs, handles)
      ensures Part(M(), old(M())) && o in old(objs)
      ensures old(Users(objs, handles, o)) > 1 ==> M() == WithRefs(old(M()), o, -1) && cache.t == old(cache.t)
                                                    && cache.uses == old(cache.uses)
      ensures old(Users(objs, handles, o)) == 1 ==> o !in objs
      decreases o, |if o in objs then objs[o].respages else []|, 3
    {
      hide TablesOk, MemOk, NamesBelow, FilesHeld, Part, Users;
      ghost var m := M();
      HeldLive(m, handles, {}, o);
      if objs[o].refcount - 1 == objs[o].nrespages {
        Destroy(o);
      } else {
        Released(m, handles, o);
        NamesSame(objs, WithRefs(m, o, -1).objs, next);
        objs := objs[o := objs[o].(refcount := objs[o].refcount - 1)];
        handles := handles - multiset{o};
      }
    }

    /** The branch of the two put operations that takes an unused object apart. */
    method Destroy(o: ObjId)
      requires Valid() && o in objs && loose == {} && FilesHeld(objs, handles - multiset{o})
      requires Users(objs, handles, o) == 1 && handles[o] == 1
      modifies this`objs, this`handles, this`loose, cache
      ensures Valid() && loose == {} && handles == old(handles) - multiset{o} && FilesHeld(objs, handles)
      ensures Part(M(), old(M())) && o !in objs
      decreases o, |objs[o].respages|, 2
    {
      hide TablesOk, MemOk, NamesBelow, FilesHeld, Part, Users, Emptied;
      ghost var m := M();
      NotAFile(m, handles, o);
      FreePages(o);
      NamesKept(objs, next, o);
      if objs[o].kind == Shadow {
        var below := objs[o].shadowed;
        ShadowDestroyed(m, M(), handles, o);
        objs := objs - {o};
        handles := handles - multiset{o} + multiset{below};
        ghost var n := M();
        Put(below);
        PartTransitive(M(), n, m);
        PartAbsent(M(), n, o);
      } else {
        AnonDestroyed(m, M(), handles, o);
        objs := objs - {o};
        handles := handles - multiset{o};
      }
    }

    /** The loop over the resident pages of an object whose last reference is being dropped. */
    method FreePages(o: ObjId)
      requires Valid() && loose == {} && o in objs && objs[o].kind != File
      requires Users(objs, handles, o) == 1 && handles[o] == 1 && FilesHeld(objs, handles - multiset{o})
      modifies this`objs, this`handles, this`loose, cache
      ensures Valid() && loose == {} && handles == old(handles) && Emptied(old(M()), M(), o)
      ensures o in objs && objs[o].respages == [] && objs[o].kind == old(objs)[o].kind
      ensures Users(objs, handles, o) == 1 && FilesHeld(objs, handles - multiset{o})
      decreases o, |objs[o].respages|, 1
    {
      hide TablesOk, MemOk, NamesBelow, FilesHeld, Users, OffObject;
      while objs[o].respages != []
        invariant Valid() && loose == {} && handles == old(handles) && Emptied(old(M()), M(), o)
        invariant |objs[o].respages| <= |old(objs)[o].respages|
        invariant Users(objs, handles, o) == 1 && FilesHeld(objs, handles - multiset{o})
        decreases |objs[o].respages|
      {
        var k := Key(o, objs[o].respages[0]);
        HeadIsResident(M(), handles, o);
        var pf := PageFrame(k);
        ghost var m := M();
        FrameLoosened(m, handles, {}, k, cache.view[k].(pins := 0));
        assert {} + {k} == {k};
        cache.Unpin(pf, k);
        loose := {k};
        FilesMore(objs, handles, o);
        PframeFree(pf, k);
        EmptiedStep(old(M()), m, o, k, objs[o]);
        assert M().frames == m.frames - {k};
        UsersKept(m, handles, {}, objs, o);
        FilesKept(m.objs, objs, handles - multiset{o});
      }
    }

    // The frame a resident-page link leads to.
    method PageFrame(k: Key) returns (pf: FrameId)
      requires Valid() && k in cache.view
      ensures cache.Holds(pf, k)
    {
      hide TablesOk, MemOk;
      cache.ViewIndexed(k);
      var r := cache.Find(k.obj, k.page);
      pf := r.value;
    }

    /**
     pframe_free. The page's reference on its object is dropped last; as the object still has a user,
     this never destroys it.
     */
    method PframeFree(pf: FrameId, k: Key)
      requires Valid() && cache.Holds(pf, k) && k in cache.view && loose == {k} && k.obj in objs
      requires cache.view[k].pins == 0 && !cache.view[k].busy && FilesHeld(objs, handles)
      modifies this`objs, this`handles, this`loose, cache
      ensures Valid() && loose == {} && handles == old(handles) && FilesHeld(objs, handles)
      ensures cache.view == old(cache.view) - {k} && cache.t.disk == old(cache.t.disk)
      ensures cache.t.alloc == Without(old(cache.t.alloc), pf) && cache.uses == old(cache.uses)
      ensures k.obj in objs && objs == old(objs)[k.obj := objs[k.obj]] && SameLink(objs[k.obj], old(objs)[k.obj])
      ensures |objs[k.obj].respages| == |old(objs)[k.obj].respages| - 1
      decreases k.obj, |objs[k.obj].respages|, 0
    {
      hide TablesOk, MemOk, NamesBelow, FilesHeld, Part, Users;
      var o := k.obj;
      Unlinked(M(), handles, k);
      NamesSame(objs, objs[o := WithoutPage(objs[o], k.page)], next);
      cache.Drop(pf, k);
      objs := objs[o := WithoutPage(objs[o], k.page)];
      loose := {};
      handles := handles + multiset{o};
      Put(o);
    }

    /** pframe_alloc: a frame for a page that is not resident, its contents unspecified. */
    method PframeAlloc(o: ObjId, p: nat) returns (pf: FrameId)
      requires Valid() && o in objs && Key(o, p) !in cache.view
      modifies this`objs, this`loose, cache
      ensures Valid() && loose == old(loose) + {Key(o, p)} && cache.Holds(pf, Key(o, p))
      ensures Key(o, p) in cache.view && cache.view[Key(o, p)].pins == 0
      ensures M() == old(M()).(objs := old(objs)[o := WithPage(old(objs)[o], p)],
                     frames := old(cache.view)[Key(o, p) := cache.view[Key(o, p)]])
      ensures pf !in old(cache.t.frames)
      ensures cache.t.alloc == old(cache.t.alloc) + [pf] && cache.uses == old(cache.uses) + [pf]
      ensures IndexGrows(old(cache.index), cache.index)
    {
      hide TablesOk, MemOk, NamesBelow;
      ghost var m := M();
      cache.ViewIndexed(Key(o, p));
      pf := cache.AllocFrame(o, p);
      Linked(m, handles, loose, Key(o, p), cache.view[Key(o, p)]);
      NamesSame(objs, objs[o := WithPage(objs[o], p)], next);
      objs := objs[o := WithPage(objs[o], p)];
      loose := loose + {Key(o, p)};
    }

    /** anon_fillpage, shadow_fillpage, or reading the file: the frame gets what the page read as without it. */
    method FillPage(o: ObjId, pf: FrameId, k: Key)
      requires Valid() && o in objs && k.obj == o && cache.Holds(pf, k) && k in loose && k in cache.view
      requires forall q :: q in loose ==> q == k || q.obj > o
      requires cache.view[k].busy && cache.view[k].pins == 0
      modifies this`objs, this`loose, cache
      ensures Valid() && loose == old(loose) && cache.Holds(pf, k) && k in cache.view && o in objs
      ensures Fills(Minus(old(M()), k), Minus(M(), k), {Key(old(objs)[o].bottom, k.page)})
      ensures objs[o].kind == old(objs)[o].kind
      ensures cache.view[k].data == View(Minus(old(M()), k), o, k.page)
      ensures cache.view[k].pins == if objs[o].kind == File then 0 else 1
      ensures old(objs)[o].kind == Anon ==> forall b :: 0 <= b < PAGE_SIZE ==> cache.view[k].data[b] == 0
      ensures old(objs)[o].kind == File ==> cache.t.alloc == old(cache.t.alloc) && cache.uses == old(cache.uses)
      ensures IndexGrows(old(cache.index), cache.index) && old(cache.uses) <= cache.uses
      decreases o, 0
    {
      hide TablesOk, MemOk, NamesBelow, Fills, ChainsOk;
      ghost var m := M();
      ghost var b := objs[o].bottom;
      Chained(m, handles, loose, o);
      var data: Page;
      match objs[o].kind {
        case Anon =>
          data := ZeroPage();
          FillsSelf(Minus(m, k), {Key(b, k.page)});
          OwnContent(m, k);
        case File =>
          data := Stored(cache.t.disk, k);
          FillsSelf(Minus(m, k), {Key(b, k.page)});
          OwnContent(m, k);
        case Shadow =>
          data := CopySource(o, k);
      }
      ghost var n := M();
      if objs[o].kind != File {
        BusyKept(n, handles, loose, k, cache.view[k].(pins := 1));
        cache.Pin(pf, k);
      }
      ghost var l := M();
      BusyKept(l, handles, loose, k, cache.view[k].(data := data));
      cache.SetData(pf, data, k);
    }

    /** The walk of shadow_fillpage: the first copy below o, else the page of the bottom object. */
    method CopySource(o: ObjId, k: Key) returns (data: Page)
      requires Valid() && o in objs && objs[o].kind == Shadow && k.obj == o && k in loose && k in cache.view
      requires forall q :: q in loose ==> q == k || q.obj > o
      modifies this`objs, this`loose, cache
      ensures Valid() && loose == old(loose) && k in cache.view && cache.view[k] == old(cache.view)[k] && o in objs
      ensures Fills(Minus(old(M()), k), Minus(M(), k), {Key(old(objs)[o].bottom, k.page)})
      ensures objs[o].kind == Shadow
      ensures data == View(Minus(old(M()), k), o, k.page)
      ensures IndexGrows(old(cache.index), cache.index) && old(cache.uses) <= cache.uses
      decreases o, 0, 0
    {
      hide TablesOk, MemOk, NamesBelow, Fills, ChainsOk, View, Minus;
      ghost var m := M();
      Chained(m, handles, loose, o);
      var found, cur, at := FirstCopyBelow(o, k);
      if found == None {
        var pf := PframeGet(cur, k.page);
        assert {Key(cur, k.page), Key(cur, k.page)} == {Key(cur, k.page)};
        SameNames(m, M(), {Key(cur, k.page)}, next);
        BottomCopied(m, M(), k, cur);
        data := cache.Data(pf, Key(cur, k.page));
      } else {
        FillsSelf(Minus(m, k), {Key(objs[o].bottom, k.page)});
        data := cache.Data(found.value, Key(at, k.page));
      }
    }

    // The loop of the walk; if no copy is found it ends at the bottom object.
    method FirstCopyBelow(o: ObjId, k: Key) returns (found: Option<FrameId>, cur: ObjId, ghost at: ObjId)
      requires Valid() && o in objs && objs[o].kind == Shadow && k.obj == o
      modifies cache`t, cache`uses
      ensures Valid() && M() == old(M()) && old(cache.uses) <= cache.uses
      ensures found == None ==> cur == objs[o].bottom && View(Minus(M(), k), cur, k.page) ==
                                                         View(Minus(M(), k), o, k.page)
      ensures found.Some? ==> cache.Holds(found.value, Key(at, k.page)) && Key(at, k.page) in cache.view && at < o
      ensures found.Some? ==> cache.view[Key(at, k.page)].data == View(Minus(M(), k), o, k.page)
    {
      hide TablesOk, MemOk, NamesBelow, ChainsOk, View, FirstAt;
      var p := k.page;
      ghost var m := Minus(M(), k);
      Chained(M(), handles, loose, o);
      WalkStep(m, o, p);
      found, cur, at := None, objs[o].shadowed, NULL;
      while found == None && objs[o].bottom != cur
        invariant Valid() && M() == old(M()) && old(cache.uses) <= cache.uses
        invariant found == None ==>
                    cur in objs && cur < o && objs[cur].bottom == objs[o].bottom && View(m, cur, p) == View(m, o, p)
        invariant found.Some? ==> cache.Holds(found.value, Key(at, p)) && Key(at, p) in m.frames && at < o
        invariant found.Some? ==> m.frames[Key(at, p)].data == View(m, o, p)
        decreases found == None, cur
      {
        Chained(M(), handles, loose, cur);
        WalkStep(m, cur, p);
        cache.ViewIndexed(Key(cur, p));
        found := cache.GetResident(cur, p);
        at := cur;
        cur := objs[cur].shadowed;
      }
    }

    /**
     pframe_get: the frame of a page, allocated and filled if need be. No page of any object reads
     differently afterwards.
     */
    method PframeGet(o: ObjId, p: nat) returns (pf: FrameId)
      requires Valid() && o in objs && (forall q :: q in loose ==> q.obj > o)
      modifies this`objs, this`loose, cache
      ensures Valid() && loose == old(loose) && cache.Holds(pf, Key(o, p)) && Key(o, p) in cache.view
      ensures Fills(old(M()), M(), {Key(o, p), Key(old(objs)[o].bottom, p)})
      ensures IndexGrows(old(cache.index), cache.index) && old(cache.uses) <= cache.uses
      ensures LastUse(cache.uses, pf) >= |old(cache.uses)|
      ensures old(objs)[o].kind == File ==>
                cache.t.alloc == Without(old(cache.t.alloc), pf) + [pf] && cache.uses == old(cache.uses) + [pf]
      decreases o, 2
    {
      hide TablesOk, MemOk, NamesBelow, Fills;
      cache.ViewIndexed(Key(o, p));
      ResidentFile(o, p);
      ghost var before := cache.t;
      cache.AllocatedFrames();
      var r := cache.GetResident(o, p);
      if r.Some? {
        UsedNow(old(cache.uses), r.value, r.value);
        FillsSelf(M(), {Key(o, p), Key(objs[o].bottom, p)});
        return r.value;
      }
      pf := NewPage(o, p);
      NotThere(before.alloc, pf);
    }

    // A resident page of a file is not pinned.
    lemma ResidentFile(o: ObjId, p: nat)
      requires Valid() && o in objs && (forall q :: q in loose ==> q.obj > o)
      ensures objs[o].kind == File && Key(o, p) in cache.index ==>
                var pf := cache.index[Key(o, p)]; pf in cache.t.frames && cache.t.frames[pf].pins == 0
    {
      hide TablesOk, ChainsOk, ResidentOk, RefsOk, NamesBelow;
      if Key(o, p) in cache.index {
        cache.Framed(cache.index[Key(o, p)], Key(o, p));
      }
    }

    /**
     pframe_get when the fillpage operation of the object fails: the new frame is freed again, and what is
     resident, all counts and all links are as before.
     */
    method FailedGet(o: ObjId, p: nat)
      requires Valid() && loose == {} && o in objs && Key(o, p) !in cache.view && FilesHeld(objs, handles)
      modifies this`objs, this`handles, this`loose, cache
      ensures Valid() && loose == {} && handles == old(handles) && FilesHeld(objs, handles)
      ensures cache.view == old(cache.view) && cache.t.disk == old(cache.t.disk)
      ensures o in objs && objs == old(objs)[o := objs[o]] && SameLink(objs[o], old(objs)[o])
      ensures objs[o].nrespages == old(objs)[o].nrespages && objs[o].refcount == old(objs)[o].refcount
    {
      hide TablesOk, MemOk, NamesBelow, FilesHeld, Users, Part, IndexGrows;
      var k := Key(o, p);
      ghost var m := M();
      var pf := AllocBusy(o, p);
      ghost var a := M();
      MinusFrames(m, a, k);
      FilesPaged(m.objs, o, p, handles);
      BusyKept(a, handles, loose, k, a.frames[k].(busy := false));
      cache.SetBusy(pf, false, k);
      assert {} + {k} == {k};
      PframeFree(pf, k);
      assert cache.view == a.frames - {k};
      SameCounts(m, M(), handles, o);
    }

    // pframe_alloc, and the frame is made busy for pframe_fill.
    method AllocBusy(o: ObjId, p: nat) returns (pf: FrameId)
      requires Valid() && o in objs && Key(o, p) !in cache.view
      modifies this`objs, this`loose, cache
      ensures Valid() && loose == old(loose) + {Key(o, p)} && cache.Holds(pf, Key(o, p)) && Key(o, p) in cache.view
      ensures cache.view[Key(o, p)].busy && cache.view[Key(o, p)].pins == 0
      ensures objs == old(objs)[o := WithPage(old(objs)[o], p)] && Fills(old(M()), Minus(M(), Key(o, p)), {})
      ensures pf !in old(cache.t.frames)
      ensures cache.t.alloc == old(cache.t.alloc) + [pf] && cache.uses == old(cache.uses) + [pf]
      ensures IndexGrows(old(cache.index), cache.index)
    {
      hide TablesOk, MemOk, NamesBelow, Fills, Minus;
      var k := Key(o, p);
      ghost var m := M();
      pf := PframeAlloc(o, p);
      AllocFills(m, k, cache.view[k]);
      BusyKept(M(), handles, loose, k, cache.view[k].(busy := true));
      cache.SetBusy(pf, true, k);
    }

    /** The part of pframe_get for a page that is not resident: pframe_alloc, then pframe_fill. */
    method NewPage(o: ObjId, p: nat) returns (pf: FrameId)
      requires Valid() && o in objs && Key(o, p) !in cache.view && (forall q :: q in loose ==> q.obj > o)
      modifies this`objs, this`loose, cache
      ensures Valid() && loose == old(loose) && cache.Holds(pf, Key(o, p)) && Key(o, p) in cache.view
      ensures Fills(old(M()), M(), {Key(o, p), Key(old(objs)[o].bottom, p)})
      ensures IndexGrows(old(cache.index), cache.index) && old(cache.uses) <= cache.uses
      ensures LastUse(cache.uses, pf) >= |old(cache.uses)| && pf !in old(cache.t.frames)
      ensures old(objs)[o].kind == File ==>
                cache.t.alloc == old(cache.t.alloc) + [pf] && cache.uses == old(cache.uses) + [pf]
      decreases o, 1
    {
      hide TablesOk, MemOk, NamesBelow, Fills, ChainsOk, View, Minus, LastUse;
      var k := Key(o, p);
      ghost var m := M();
      Chained(m, handles, loose, o);
      pf := AllocBusy(o, p);
      UsedNow(old(cache.uses), pf, pf);
      ghost var used, a := cache.uses, M();
      FillPage(o, pf, k);
      ghost var f := M();
      LastUseGrows(used, cache.uses, pf);
      FrameSettled(f, handles, loose, k, cache.view[k].(busy := false));
      FillsDone(m, a, f, k, cache.view[k].(busy := false));
      cache.SetBusy(pf, false, k);
      assert old(loose) + {k} - {k} == old(loose);
      loose := loose - {k};
    }

    /**
     The lookuppage operation of the three kinds of object. For writing, the page becomes resident in o
     itself; for reading, the walk of shadow_lookuppage finds the first copy in the chain, else the
     bottom object's page. Either way the frame holds what the page read as.
     */
    method LookupPage(o: ObjId, p: nat, forwrite: bool) returns (pf: FrameId, ghost k: Key)
      requires Valid() && o in objs && loose == {}
      modifies this`objs, this`loose, cache
      ensures Valid() && loose == {} && cache.Holds(pf, k) && k in cache.view
      ensures k == Key(if forwrite then o else FirstAt(old(M()), o, p), p)
      ensures cache.view[k].data == View(old(M()), o, p)
      ensures Fills(old(M()), M(), if forwrite then {Key(o, p), Key(old(objs)[o].bottom, p)}
                    else {Key(old(objs)[o].bottom, p)})
    {
      hide TablesOk, MemOk, NamesBelow, Fills, ChainsOk, View, FirstAt;
      ghost var m := M();
      Chained(m, handles, {}, o);
      if forwrite || objs[o].kind != Shadow {
        k := Key(o, p);
        WalkStep(m, o, p);
        assert {Key(objs[o].bottom, p), Key(objs[o].bottom, p)} == {Key(objs[o].bottom, p)};
        pf := PframeGet(o, p);
        Copied(m, M(), {k, Key(m.objs[o].bottom, p)}, o, p);
      } else {
        var found, cur, at := FirstCopy(o, p);
        k := Key(at, p);
        if found == None {
          Chained(m, handles, {}, cur);
          assert {Key(cur, p), Key(cur, p)} == {Key(cur, p)};
          pf := PframeGet(cur, p);
          Copied(m, M(), {Key(cur, p)}, cur, p);
        } else {
          pf := found.value;
          FillsSelf(m, {Key(objs[o].bottom, p)});
        }
      }
    }

    // The loop of shadow_lookuppage.
    method FirstCopy(o: ObjId, p: nat) returns (found: Option<FrameId>, cur: ObjId, ghost at: ObjId)
      requires Valid() && o in objs
      modifies cache`t, cache`uses
      ensures Valid() && M() == old(M()) && at == FirstAt(M(), o, p)
      ensures found == None ==> cur == at == objs[o].bottom && View(M(), cur, p) == View(M(), o, p)
      ensures found.Some? ==> cache.Holds(found.value, Key(at, p)) && Key(at, p) in cache.view
      ensures found.Some? ==> cache.view[Key(at, p)].data == View(M(), o, p)
    {
      hide TablesOk, MemOk, NamesBelow, ChainsOk, View, FirstAt;
      ghost var m := M();
      Chained(m, handles, loose, o);
      found, cur, at := None, o, o;
      while objs[cur].shadowed != NULL && found == None
        invariant Valid() && M() == m && cur in objs && cur <= o && objs[cur].bottom == objs[o].bottom
        invariant found == None ==> at == cur && View(m, cur, p) == View(m, o, p)
                                    && FirstAt(m, cur, p) == FirstAt(m, o, p)
        invariant found.Some? ==> cache.Holds(found.value, Key(at, p)) && Key(at, p) in m.frames
        invariant found.Some? ==> at == FirstAt(m, o, p) && m.frames[Key(at, p)].data == View(m, o, p)
        decreases cur
      {
        Chained(m, handles, loose, cur);
        WalkStep(m, cur, p);
        cache.ViewIndexed(Key(cur, p));
        found := cache.GetResident(cur, p);
        at := cur;
        cur := objs[cur].shadowed;
        if found == None {
          at := cur;
        }
      }
      Chained(m, handles, loose, cur);
      WalkStep(m, cur, p);
    }

    /** pframe_clean of a dirty page, whose write to the backing store succeeds (`ok`) or leaves it dirty. */
    method WriteBack(pf: FrameId, k: Key, ok: bool)
      requires Valid() && loose == {} && cache.Holds(pf, k) && k in cache.view && k.obj in objs
      requires cache.view[k].dirty && cache.view[k].pins == 0
      modifies cache`t, cache`view
      ensures Valid() && k in old(cache.view) && cache.t.alloc == old(cache.t.alloc)
      ensures M() == if ok then Cleaned(old(M()), k) else old(M())
    {
      hide TablesOk, MemOk, NamesBelow, Did;
      NotBusy(M(), handles, k);
      FrameWritten(M(), handles, k, cache.view[k].(dirty := false));
      DiskIrrelevant(M().(frames := cache.view[k := cache.view[k].(dirty := false)]), handles,
                     cache.t.disk[k := cache.view[k].data]);
      cache.CleanBegin(pf, k);
      cache.CleanEnd(pf, ok, k);
      assert cache.view == if ok then old(cache.view)[k := old(cache.view)[k].(dirty := false)] else old(cache.view);
    }

    /** pframe_free of a page of a file, as the pageout daemon does it: such a page is not pinned. */
    method Reclaim(pf: FrameId, k: Key)
      requires Valid() && loose == {} && cache.Holds(pf, k) && k in cache.view && k.obj in objs
               && objs[k.obj].kind == File
      requires FilesHeld(objs, handles)
      modifies this`objs, this`handles, this`loose, cache
      ensures Valid() && loose == {} && handles == old(handles) && FilesHeld(objs, handles)
      ensures cache.view == old(cache.view) - {k} && cache.t.disk == old(cache.t.disk)
      ensures cache.t.alloc == Without(old(cache.t.alloc), pf) && cache.uses == old(cache.uses)
      ensures k.obj in objs && objs == old(objs)[k.obj := objs[k.obj]] && SameLink(objs[k.obj], old(objs)[k.obj])
    {
      hide TablesOk, MemOk, NamesBelow, FilesHeld;
      FileUnpinned(M(), handles, k);
      FrameLoosened(M(), handles, {}, k, cache.view[k]);
      assert cache.view[k := cache.view[k]] == cache.view && {} + {k} == {k};
      loose := {k};
      PframeFree(pf, k);
    }

    /**
     A store into a resident page. The kernel calls pframe_dirty with it (`marked`), which marks the page unless
     the object's dirtypage operation refuses, as that of anonymous objects does.
     */
    method WritePage(pf: FrameId, data: Page, marked: bool, k: Key)
      requires Valid() && loose == {} && cache.Holds(pf, k) && k in cache.view && k.obj in objs
      modifies cache
      ensures Valid() && k in old(cache.view) && k in cache.view
      ensures cache.view[k] == old(cache.view)[k].(data := data,
                  dirty := old(cache.view)[k].dirty || (marked && objs[k.obj].kind != Anon))
      ensures M() == old(M()).(frames := old(cache.view)[k := cache.view[k]])
    {
      hide TablesOk, MemOk, Altered;
      FrameWritten(M(), handles, k, cache.view[k].(data := data));
      cache.SetData(pf, data, k);
      if marked && objs[k.obj].kind != Anon {
        FrameWritten(M(), handles, k, cache.view[k].(dirty := true));
        cache.SetDirty(pf, k);
      }
    }
  }

  // m once page k has been written to the backing store.
  function Cleaned(m: Mem, k: Key): Mem
    requires k in m.frames
  {
    m.(frames := m.frames[k := m.frames[k].(dirty := false)], disk := m.disk[k := m.frames[k].data])
  }

  lemma NotBusy(m: Mem, h: multiset<ObjId>, k: Key)
    requires MemOk(m, h, {}) && k in m.frames && k.obj in m.objs
    ensures !m.frames[k].busy
  {
  }

  lemma FileUnpinned(m: Mem, h: multiset<ObjId>, k: Key)
    requires MemOk(m, h, {}) && k in m.frames && k.obj in m.objs && m.objs[k.obj].kind == File
    ensures m.frames[k].pins == 0 && !m.frames[k].busy
  {
  }

  lemma FrameWritten(m: Mem, h: multiset<ObjId>, k: Key, fr: Frame)
    requires MemOk(m, h, {}) && k in m.frames && fr.pins == m.frames[k].pins && fr.busy == m.frames[k].busy
    ensures MemOk(m.(frames := m.frames[k := fr]), h, {})
  {
    PageRewritten(m.objs, m.frames, k, fr);
  }

  lemma Copied(m: Mem, n: Mem, ks: set<Key>, o: ObjId, p: nat)
    requires ChainsOk(m.objs) && Fills(m, n, ks) && Key(o, p) in n.frames && o in m.objs
    ensures n.frames[Key(o, p)].data == View(m, o, p)
  {
  }

  lemma FillsDone(m: Mem, a: Mem, f: Mem, k: Key, fr: Frame)
    requires ChainsOk(m.objs) && k.obj in m.objs && k !in m.frames && k in f.frames
    requires Fills(m, Minus(a, k), {}) && Fills(Minus(a, k), Minus(f, k), {Key(m.objs[k.obj].bottom, k.page)})
    requires fr.data == View(Minus(a, k), k.obj, k.page)
    ensures Fills(m, f.(frames := f.frames[k := fr]), {k, Key(m.objs[k.obj].bottom, k.page)})
  {
    hide Fills, ChainsOk, View;
    var b := Key(m.objs[k.obj].bottom, k.page);
    var n := f.(frames := f.frames[k := fr]);
    FillsTransitive(m, Minus(a, k), Minus(f, k), {}, {b});
    ViewSameLinks(m, Minus(a, k), k.obj, k.page);
    assert Minus(n, k) == Minus(f, k);
    assert {} + {b} == {b};
    FillsPlus(m, n, k, {b});
    assert {b} + {k} == {k, b};
  }

  lemma OwnContent(m: Mem, k: Key)
    requires k.obj in m.objs && m.objs[k.obj].kind != Shadow
    ensures View(Minus(m, k), k.obj, k.page) == if m.objs[k.obj].kind == File then Stored(m.disk, k) else ZeroPage()
  {
  }

  lemma BottomCopied(m: Mem, n: Mem, k: Key, b: ObjId)
    requires ChainsOk(m.objs) && Fills(m, n, {Key(b, k.page)}) && k in m.frames && b in m.objs && b < k.obj
    requires Key(b, k.page) in n.frames && View(Minus(m, k), b, k.page) == View(Minus(m, k), k.obj, k.page)
    ensures Fills(Minus(m, k), Minus(n, k), {Key(b, k.page)})
    ensures k in n.frames && n.frames[k] == m.frames[k]
    ensures n.frames[Key(b, k.page)].data == View(Minus(m, k), k.obj, k.page)
  {
    hide Fills, ChainsOk, View;
    FillsMinus(m, n, k, b);
    GotPage(Minus(m, k), Minus(n, k), b, k.page);
  }

  lemma GotPage(m: Mem, n: Mem, b: ObjId, p: nat)
    requires ChainsOk(m.objs) && Fills(m, n, {Key(b, p)}) && Key(b, p) in n.frames && b in m.objs
    ensures n.frames[Key(b, p)].data == View(m, b, p)
  {
  }

  lemma MinusFrames(m: Mem, a: Mem, k: Key)
    requires Fills(m, Minus(a, k), {}) && k !in m.frames && k in a.frames
    ensures a.frames - {k} == m.frames && a.disk == m.disk
  {
  }

  lemma FilesPaged(objs: map<ObjId, MmObj>, o: ObjId, p: nat, h: multiset<ObjId>)
    requires FilesHeld(objs, h) && o in objs
    ensures FilesHeld(objs[o := WithPage(objs[o], p)], h)
  {
  }

  // Counts are exact, so with the same holders, links and pages they are the same.
  lemma SameCounts(m: Mem, n: Mem, h: multiset<ObjId>, o: ObjId)
    requires MemOk(m, h, {}) && MemOk(n, h, {}) && o in m.objs && o in n.objs && n.frames == m.frames
    requires n.objs == m.objs[o := n.objs[o]] && SameLink(n.objs[o], m.objs[o])
    ensures n.objs[o].nrespages == m.objs[o].nrespages && n.objs[o].refcount == m.objs[o].refcount
  {
    hide MemOk, PagesOf;
    Counted(m, h, o);
    Counted(n, h, o);
    assert Shadowers(n.objs, o) == Shadowers(m.objs, o);
  }

  lemma Counted(m: Mem, h: multiset<ObjId>, o: ObjId)
    requires MemOk(m, h, {}) && o in m.objs
    ensures m.objs[o].nrespages == |PagesOf(m.frames, o)|
    ensures m.objs[o].refcount == Users(m.objs, h, o) + m.objs[o].nrespages
  {
    hide ChainsOk, PinsOk, Lists, PagesOf, Users;
    assert Lists(m.objs[o].respages, PagesOf(m.frames, o));
    ListsMembers(m.objs[o].respages, PagesOf(m.frames, o));
  }

  lemma BusyKept(m: Mem, h: multiset<ObjId>, loose: set<Key>, k: Key, fr: Frame)
    requires MemOk(m, h, loose) && k in m.frames && k in loose
    ensures MemOk(m.(frames := m.frames[k := fr]), h, loose)
    ensures Minus(m.(frames := m.frames[k := fr]), k) == Minus(m, k)
  {
    hide MemOk;
    FrameLoosened(m, h, loose, k, fr);
    assert loose + {k} == loose;
  }

  lemma ViewSameLinks(m: Mem, n: Mem, o: ObjId, p: nat)
    requires ChainsOk(m.objs) && Fills(m, n, {}) && o in m.objs
    ensures View(n, o, p) == View(m, o, p)
  {
    hide View;
    FilledView(m, n, o, p);
  }

  lemma NamesKept(objs: map<ObjId, MmObj>, next: ObjId, o: ObjId)
    requires NamesBelow(objs, next)
    ensures NamesBelow(objs - {o}, next)
  {
  }

  lemma NamesSame(objs: map<ObjId, MmObj>, objs': map<ObjId, MmObj>, next: ObjId)
    requires NamesBelow(objs, next) && objs.Keys == objs'.Keys
    ensures NamesBelow(objs', next)
  {
  }

  lemma PartAbsent(m: Mem, n: Mem, o: ObjId)
    requires Part(m, n) && o !in n.objs
    ensures o !in m.objs
  {
  }

  lemma FilesMore(objs: map<ObjId, MmObj>, h: multiset<ObjId>, o: ObjId)
    requires FilesHeld(objs, h - multiset{o})
    ensures FilesHeld(objs, h)
  {
  }
}