/**
 Memory objects as values: anonymous objects, shadow objects and file objects, the pages of them
 that are resident, and what a page of an object reads as. A shadow object is created on top of an
 existing object, so the name of the object it shadows is smaller than its own.
 */
module MemObjects {
  import opened PageTypes

  datatype Kind = Anon | Shadow | File

  datatype MmObj = MmObj(
    kind: Kind,
    refcount: int,
    nrespages: int,
    respages: seq<nat>,
    shadowed: ObjId,
    bottom: ObjId)

  datatype Mem = Mem(objs: map<ObjId, MmObj>, frames: map<Key, Frame>, disk: map<Key, Page>)

  // ----- Invariants -----

  /** Every chain goes down through live objects to the bottom object its members record. */
  ghost predicate ChainsOk(objs: map<ObjId, MmObj>) {
    forall o :: o in objs ==>
                  && o != NULL
                  && if objs[o].kind == Shadow then
                       && objs[o].shadowed in objs && objs[o].shadowed < o
                       && objs[o].bottom == objs[objs[o].shadowed].bottom
                     else
                       objs[o].shadowed == NULL && objs[o].bottom == o
  }

  ghost function PagesOf(frames: map<Key, Frame>, o: ObjId): set<nat> {
    set k | k in frames && k.obj == o :: k.page
  }

  /** Each object lists its resident pages, once each, and counts them. */
  ghost predicate ResidentOk(objs: map<ObjId, MmObj>, frames: map<Key, Frame>) {
    && (forall k :: k in frames ==> k.obj in objs)
    && (forall o :: o in objs ==> Lists(objs[o].respages, PagesOf(frames, o))
                                  && objs[o].nrespages == |objs[o].respages|)
  }

  ghost function Shadowers(objs: map<ObjId, MmObj>, o: ObjId): set<ObjId> {
    set s | s in objs && objs[s].shadowed == o
  }

  // References to an object other than those of its own pages.
  ghost function Users(objs: map<ObjId, MmObj>, h: multiset<ObjId>, o: ObjId): nat {
    h[o] + |Shadowers(objs, o)|
  }

  /**
   Reference conservation: with `h` the references held from outside, each count is the number of outside
   references, plus shadow objects on top, plus resident pages; and no object outlives its last user.
   */
  ghost predicate RefsOk(objs: map<ObjId, MmObj>, h: multiset<ObjId>) {
    && (forall o :: o in h ==> o in objs)
    && (forall o :: o in objs ==> objs[o].refcount == Users(objs, h, o) + objs[o].nrespages && Users(objs, h, o) > 0)
  }

  /** Pages of anonymous and shadow objects are pinned exactly once; file pages are not pinned. */
  ghost predicate PinsOk(objs: map<ObjId, MmObj>, frames: map<Key, Frame>, loose: set<Key>) {
    forall k :: k in frames && k !in loose && k.obj in objs ==>
                  !frames[k].busy && frames[k].pins == if objs[k.obj].kind == File then 0 else 1
  }

  // ----- What a page reads as -----

  /** The object at which a walk down the chain finds page p: the first with a copy, else the bottom. */
  function FirstAt(m: Mem, o: ObjId, p: nat): ObjId {
    if o in m.objs && m.objs[o].kind == Shadow && Key(o, p) !in m.frames && m.objs[o].shadowed < o
    then FirstAt(m, m.objs[o].shadowed, p)
    else o
  }

  // Contents of a page in one object, without looking below it.
  function Content(m: Mem, o: ObjId, p: nat): Page {
    if Key(o, p) in m.frames then m.frames[Key(o, p)].data
    else if o in m.objs && m.objs[o].kind == File then Stored(m.disk, Key(o, p))
    else ZeroPage()
  }

  function View(m: Mem, o: ObjId, p: nat): Page {
    Content(m, FirstAt(m, o, p), p)
  }

  lemma {:induction false} BottomBelow(objs: map<ObjId, MmObj>, o: ObjId)
    requires ChainsOk(objs) && o in objs
    ensures objs[o].bottom in objs && objs[o].bottom <= o && objs[objs[o].bottom].kind != Shadow
    ensures objs[o].kind == Shadow ==> objs[o].bottom < o
  {
    if objs[o].kind == Shadow {
      BottomBelow(objs, objs[o].shadowed);
    }
  }

  lemma {:induction false} FirstAtLive(m: Mem, o: ObjId, p: nat)
    requires ChainsOk(m.objs) && o in m.objs
    ensures var f := FirstAt(m, o, p);
            && f in m.objs && f <= o && m.objs[f].bottom == m.objs[o].bottom
            && (m.objs[f].kind == Shadow ==> Key(f, p) in m.frames)
            && (Key(f, p) !in m.frames ==> f == m.objs[o].bottom)
            && (m.objs[f].kind != Shadow ==> f == m.objs[o].bottom)
  {
    if m.objs[o].kind == Shadow && Key(o, p) !in m.frames {
      FirstAtLive(m, m.objs[o].shadowed, p);
    }
  }

  // ----- Parts of a memory -----

  predicate SameLink(x: MmObj, y: MmObj) {
    x.kind == y.kind && x.shadowed == y.shadowed && x.bottom == y.bottom
  }

  /** m is what remains of n when only the objects of m are kept, with all their pages. */
  ghost predicate Part(m: Mem, n: Mem) {
    && (forall o :: o in m.objs ==> o in n.objs && SameLink(m.objs[o], n.objs[o]))
    && (forall k :: k in m.frames ==> k in n.frames && m.frames[k] == n.frames[k])
    && (forall k :: k in n.frames && k.obj in m.objs ==> k in m.frames)
    && (forall k: Key :: k.obj in m.objs ==> Stored(m.disk, k) == Stored(n.disk, k))
  }

  lemma PartTransitive(l: Mem, m: Mem, n: Mem)
    requires Part(l, m) && Part(m, n)
    ensures Part(l, n)
  {
  }

  /** Objects that survive, or that were there before, read the same. */
  lemma {:induction false} PartView(m: Mem, n: Mem, o: ObjId, p: nat)
    requires ChainsOk(m.objs) && Part(m, n) && o in m.objs
    ensures FirstAt(m, o, p) == FirstAt(n, o, p) && View(m, o, p) == View(n, o, p)
  {
    assert SameLink(m.objs[o], n.objs[o]);
    if m.objs[o].kind == Shadow && Key(o, p) !in m.frames {
      PartView(m, n, m.objs[o].shadowed, p);
    }
  }

  /** n is m with some pages made resident, each with the contents it already read as. */
  ghost predicate Filled(m: Mem, n: Mem) {
    && m.objs.Keys == n.objs.Keys && m.disk == n.disk
    && (forall o :: o in m.objs ==> SameLink(m.objs[o], n.objs[o]))
    && (forall k :: k in m.frames ==> k in n.frames && n.frames[k] == m.frames[k])
    && (forall k :: k in n.frames && k !in m.frames ==> k.obj in m.objs && n.frames[k].data == View(m, k.obj, k.page))
  }

  lemma {:induction false} FilledView(m: Mem, n: Mem, o: ObjId, p: nat)
    requires ChainsOk(m.objs) && Filled(m, n) && o in m.objs
    ensures View(n, o, p) == View(m, o, p)
  {
    assert SameLink(m.objs[o], n.objs[o]);
    if m.objs[o].kind == Shadow && Key(o, p) !in n.frames {
      FilledView(m, n, m.objs[o].shadowed, p);
    }
  }

  lemma FilledTransitive(l: Mem, m: Mem, n: Mem)
    requires ChainsOk(l.objs) && Filled(l, m) && Filled(m, n)
    ensures Filled(l, n)
  {
    forall k | k in n.frames && k !in l.frames ensures k.obj in l.objs && n.frames[k].data == View(l, k.obj, k.page) {
      if k !in m.frames {
        FilledView(l, m, k.obj, k.page);
      }
    }
  }

  /** As Filled, with the pages that may have become resident named. */
  ghost predicate Fills(m: Mem, n: Mem, ks: set<Key>) {
    Filled(m, n) && forall k :: k in n.frames ==> k in m.frames || k in ks
  }

  function Minus(m: Mem, k: Key): Mem {
    m.(frames := m.frames - {k})
  }

  // A page of an object does not matter to the objects below it.
  lemma {:induction false} ViewBelow(m: Mem, k: Key, o: ObjId, p: nat)
    requires ChainsOk(m.objs) && o in m.objs && o < k.obj
    ensures FirstAt(Minus(m, k), o, p) == FirstAt(m, o, p) && View(Minus(m, k), o, p) == View(m, o, p)
  {
    FirstAtLive(m, o, p);
    if m.objs[o].kind == Shadow && Key(o, p) !in m.frames {
      ViewBelow(m, k, m.objs[o].shadowed, p);
    }
  }

  lemma FillsMinus(m: Mem, n: Mem, k: Key, b: ObjId)
    requires ChainsOk(m.objs) && Fills(m, n, {Key(b, k.page)}) && k in m.frames && b in m.objs && b < k.obj
    ensures Fills(Minus(m, k), Minus(n, k), {Key(b, k.page)}) && k in n.frames && n.frames[k] == m.frames[k]
  {
    ViewBelow(m, k, b, k.page);
  }

  lemma FillsPlus(m: Mem, n: Mem, k: Key, ks: set<Key>)
    requires Fills(m, Minus(n, k), ks) && k !in m.frames && k in n.frames && k.obj in m.objs
    requires n.frames[k].data == View(m, k.obj, k.page)
    ensures Fills(m, n, ks + {k})
  {
    forall q | q in m.frames ensures q in n.frames && n.frames[q] == m.frames[q] {
      assert q in Minus(n, k).frames;
    }
    forall q | q in n.frames ensures q in m.frames || q in ks + {k} {
      assert q != k ==> q in Minus(n, k).frames;
    }
    forall q | q in n.frames && q !in m.frames ensures q.obj in m.objs && n.frames[q].data == View(m, q.obj, q.page) {
      assert q != k ==> q in Minus(n, k).frames;
    }
  }

  lemma FillsTransitive(l: Mem, m: Mem, n: Mem, ks: set<Key>, js: set<Key>)
    requires ChainsOk(l.objs) && Fills(l, m, ks) && Fills(m, n, js)
    ensures Fills(l, n, ks + js)
  {
    hide View;
    FilledTransitive(l, m, n);
  }
}
