/** How each change of the object table keeps the reference counts exact. */
module References {
  import opened PageTypes
  import opened MemObjects

  /** The tables differ only in counts and lists of resident pages. */
  ghost predicate SameLinks(objs: map<ObjId, MmObj>, objs': map<ObjId, MmObj>) {
    objs'.Keys == objs.Keys && forall o :: o in objs ==> SameLink(objs[o], objs'[o])
  }

  lemma LinksKept(objs: map<ObjId, MmObj>, objs': map<ObjId, MmObj>)
    requires ChainsOk(objs) && SameLinks(objs, objs')
    ensures ChainsOk(objs')
    ensures forall o :: Shadowers(objs', o) == Shadowers(objs, o)
  {
  }

  // ----- One more or one fewer reference -----

  /** Counts and outside references that move together keep the counts exact. */
  lemma RefsMoved(objs: map<ObjId, MmObj>, objs': map<ObjId, MmObj>, h: multiset<ObjId>, h': multiset<ObjId>)
    requires ChainsOk(objs) && RefsOk(objs, h) && SameLinks(objs, objs')
    requires forall o :: o in h' ==> o in objs
    requires forall o :: o in objs ==>
                           && objs'[o].refcount - objs'[o].nrespages - h'[o] ==
                              objs[o].refcount - objs[o].nrespages - h[o]
                           && objs'[o].refcount > objs'[o].nrespages
    ensures ChainsOk(objs') && RefsOk(objs', h')
  {
    LinksKept(objs, objs');
  }

  lemma RefTaken(objs: map<ObjId, MmObj>, h: multiset<ObjId>, o: ObjId)
    requires ChainsOk(objs) && RefsOk(objs, h) && o in objs
    ensures var objs' := objs[o := objs[o].(refcount := objs[o].refcount + 1)];
            SameLinks(objs, objs') && ChainsOk(objs') && RefsOk(objs', h + multiset{o})
  {
    RefsMoved(objs, objs[o := objs[o].(refcount := objs[o].refcount + 1)], h, h + multiset{o});
  }

  lemma RefDropped(objs: map<ObjId, MmObj>, h: multiset<ObjId>, o: ObjId)
    requires ChainsOk(objs) && RefsOk(objs, h) && o in h && Users(objs, h, o) > 1
    ensures var objs' := objs[o := objs[o].(refcount := objs[o].refcount - 1)];
            SameLinks(objs, objs') && ChainsOk(objs') && RefsOk(objs', h - multiset{o})
  {
    RefsMoved(objs, objs[o := objs[o].(refcount := objs[o].refcount - 1)], h, h - multiset{o});
  }

  // ----- New objects -----

  function NewBottom(kind: Kind, o: ObjId): MmObj { MmObj(kind, 1, 0, [], NULL, o) }

  function NewAnon(o: ObjId): MmObj { NewBottom(Anon, o) }

  function NewShadow(o: ObjId, bottom: ObjId): MmObj { MmObj(Shadow, 1, 0, [], o, bottom) }

  lemma ObjectAdded(objs: map<ObjId, MmObj>, h: multiset<ObjId>, h': multiset<ObjId>, a: ObjId, x: MmObj)
    requires RefsOk(objs, h) && a !in objs && x.refcount == 1 && x.nrespages == 0 && Users(objs[a := x], h', a) == 1
    requires forall o :: o in h' ==> o in objs || o == a
    requires forall o :: o in objs ==> Users(objs[a := x], h', o) == Users(objs, h, o)
    ensures RefsOk(objs[a := x], h')
  {
    hide Users;
  }

  lemma HeldIsLive(objs: map<ObjId, MmObj>, h: multiset<ObjId>)
    requires RefsOk(objs, h)
    ensures forall o :: o in h ==> o in objs
  {
  }

  lemma LinkedIsLive(objs: map<ObjId, MmObj>, o: ObjId)
    requires ChainsOk(objs) && o in objs
    ensures o != NULL && (objs[o].kind == Shadow ==> objs[o].shadowed in objs && objs[o].shadowed < o)
    ensures objs[o].kind != Shadow ==> objs[o].shadowed == NULL && objs[o].bottom == o
  {
  }

  lemma NotShadowed(objs: map<ObjId, MmObj>, a: ObjId, x: MmObj)
    requires ChainsOk(objs) && a !in objs && a != NULL && x.shadowed != a
    ensures Shadowers(objs[a := x], a) == {}
  {
  }

  lemma BottomChains(objs: map<ObjId, MmObj>, a: ObjId, kind: Kind)
    requires ChainsOk(objs) && a !in objs && a != NULL && kind != Shadow
    ensures ChainsOk(objs[a := NewBottom(kind, a)])
    ensures forall o :: o in objs ==> Shadowers(objs[a := NewBottom(kind, a)], o) == Shadowers(objs, o)
  {
  }

  lemma BottomAdded(objs: map<ObjId, MmObj>, h: multiset<ObjId>, a: ObjId, kind: Kind)
    requires ChainsOk(objs) && RefsOk(objs, h) && a !in objs && a != NULL && kind != Shadow
    ensures ChainsOk(objs[a := NewBottom(kind, a)]) && RefsOk(objs[a := NewBottom(kind, a)], h + multiset{a})
  {
    hide ChainsOk, RefsOk;
    HeldIsLive(objs, h);
    BottomChains(objs, a, kind);
    NotShadowed(objs, a, NewBottom(kind, a));
    ObjectAdded(objs, h, h + multiset{a}, a, NewBottom(kind, a));
  }

  lemma ShadowChains(objs: map<ObjId, MmObj>, o: ObjId, s: ObjId)
    requires ChainsOk(objs) && o in objs && s !in objs && o < s
    ensures ChainsOk(objs[s := NewShadow(o, objs[o].bottom)])
  {
  }

  lemma ShadowCounted(objs: map<ObjId, MmObj>, h: multiset<ObjId>, o: ObjId, s: ObjId, x: ObjId)
    requires ChainsOk(objs) && o in h && o in objs && s !in objs && x in objs
    ensures var objs' := objs[s := NewShadow(o, objs[o].bottom)];
            Users(objs', h - multiset{o} + multiset{s}, x) == Users(objs, h, x)
  {
    var objs' := objs[s := NewShadow(o, objs[o].bottom)];
    if x == o {
      assert Shadowers(objs', o) == Shadowers(objs, o) + {s};
    } else {
      assert Shadowers(objs', x) == Shadowers(objs, x);
    }
  }

  /** The new shadow object takes over the reference its creator held on the object below. */
  lemma ShadowAdded(objs: map<ObjId, MmObj>, h: multiset<ObjId>, o: ObjId, s: ObjId)
    requires ChainsOk(objs) && RefsOk(objs, h) && o in h && s !in objs && o < s
    ensures o in objs && ChainsOk(objs[s := NewShadow(o, objs[o].bottom)])
    ensures RefsOk(objs[s := NewShadow(o, objs[o].bottom)], h - multiset{o} + multiset{s})
  {
    hide ChainsOk, RefsOk, Shadowers;
    HeldIsLive(objs, h);
    ShadowChains(objs, o, s);
    var x := NewShadow(o, objs[o].bottom);
    NotShadowed(objs, s, x);
    forall y | y in objs ensures Users(objs[s := x], h - multiset{o} + multiset{s}, y) == Users(objs, h, y) {
      ShadowCounted(objs, h, o, s, y);
    }
    ObjectAdded(objs, h, h - multiset{o} + multiset{s}, s, x);
  }

  // ----- Objects going away -----

  lemma LastUser(objs: map<ObjId, MmObj>, h: multiset<ObjId>, o: ObjId)
    requires RefsOk(objs, h) && o in h
    ensures objs[o].refcount - 1 == objs[o].nrespages <==> Users(objs, h, o) == 1
    ensures Users(objs, h, o) == 1 ==> Shadowers(objs, o) == {} && h[o] == 1
  {
  }

  lemma AnonRemoved(objs: map<ObjId, MmObj>, frames: map<Key, Frame>, h: multiset<ObjId>, o: ObjId)
    requires ChainsOk(objs) && ResidentOk(objs, frames) && RefsOk(objs, h)
    requires o in objs && objs[o].kind != Shadow && Users(objs, h, o) == 1 && h[o] == 1 && PagesOf(frames, o) == {}
    ensures ChainsOk(objs - {o}) && ResidentOk(objs - {o}, frames) && RefsOk(objs - {o}, h - multiset{o})
  {
    var objs' := objs - {o};
    assert forall s :: s in objs ==> s !in Shadowers(objs, o);
    forall k | k in frames ensures k.obj in objs' {
      assert k.obj == o ==> k.page in PagesOf(frames, o);
    }
    forall x | x in objs' ensures Users(objs', h - multiset{o}, x) == Users(objs, h, x) {
      assert Shadowers(objs', x) == Shadowers(objs, x);
    }
  }

  lemma ShadowUncounted(objs: map<ObjId, MmObj>, h: multiset<ObjId>, o: ObjId, x: ObjId)
    requires ChainsOk(objs) && o in objs && objs[o].kind == Shadow && h[o] == 1 && x in objs && x != o
    ensures Users(objs - {o}, h - multiset{o} + multiset{objs[o].shadowed}, x) == Users(objs, h, x)
  {
    if x == objs[o].shadowed {
      assert Shadowers(objs - {o}, x) == Shadowers(objs, x) - {o};
    } else {
      assert Shadowers(objs - {o}, x) == Shadowers(objs, x);
    }
  }

  lemma ObjectForgotten(objs: map<ObjId, MmObj>, frames: map<Key, Frame>, h: multiset<ObjId>, o: ObjId)
    requires ChainsOk(objs) && ResidentOk(objs, frames) && o in objs && Shadowers(objs, o) == {}
             && PagesOf(frames, o) == {}
    ensures ChainsOk(objs - {o}) && ResidentOk(objs - {o}, frames)
  {
    assert forall s :: s in objs ==> s !in Shadowers(objs, o);
    forall k | k in frames ensures k.obj in objs - {o} {
      assert k.obj == o ==> k.page in PagesOf(frames, o);
    }
  }

  /** A dying shadow object's reference on the object below passes to whoever destroys it. */
  lemma ShadowRemoved(objs: map<ObjId, MmObj>, frames: map<Key, Frame>, h: multiset<ObjId>, o: ObjId)
    requires ChainsOk(objs) && ResidentOk(objs, frames) && RefsOk(objs, h)
    requires o in objs && objs[o].kind == Shadow && Users(objs, h, o) == 1 && h[o] == 1 && PagesOf(frames, o) == {}
    ensures objs[o].shadowed in objs && objs[o].shadowed != o
    ensures ChainsOk(objs - {o}) && ResidentOk(objs - {o}, frames)
    ensures RefsOk(objs - {o}, h - multiset{o} + multiset{objs[o].shadowed})
    ensures Users(objs - {o}, h - multiset{o} + multiset{objs[o].shadowed}, objs[o].shadowed) ==
            Users(objs, h, objs[o].shadowed)
  {
    hide ChainsOk, ResidentOk, Shadowers;
    LinkedIsLive(objs, o);
    ObjectForgotten(objs, frames, h, o);
    forall x | x in objs && x != o
      ensures Users(objs - {o}, h - multiset{o} + multiset{objs[o].shadowed}, x) == Users(objs, h, x)
    {
      ShadowUncounted(objs, h, o, x);
    }
  }

  // ----- Pages coming and going -----

  function WithPage(x: MmObj, p: nat): MmObj {
    x.(refcount := x.refcount + 1, nrespages := x.nrespages + 1, respages := [p] + x.respages)
  }

  function WithoutPage(x: MmObj, p: nat): MmObj {
    x.(nrespages := x.nrespages - 1, respages := Without(x.respages, p))
  }

  lemma PagesElsewhere(frames: map<Key, Frame>, frames': map<Key, Frame>, x: ObjId)
    requires forall k: Key :: k.obj == x ==> (k in frames' <==> k in frames)
    ensures PagesOf(frames', x) == PagesOf(frames, x)
  {
    forall p ensures p in PagesOf(frames', x) <==> p in PagesOf(frames, x) {
      assert p in PagesOf(frames', x) <==> Key(x, p) in frames';
      assert p in PagesOf(frames, x) <==> Key(x, p) in frames;
    }
  }

  lemma PageListed(objs: map<ObjId, MmObj>, frames: map<Key, Frame>, o: ObjId, p: nat, fr: Frame)
    requires ResidentOk(objs, frames) && o in objs && Key(o, p) !in frames
    ensures ResidentOk(objs[o := WithPage(objs[o], p)], frames[Key(o, p) := fr])
  {
    var frames' := frames[Key(o, p) := fr];
    assert PagesOf(frames', o) == PagesOf(frames, o) + {p} by {
      assert Key(o, p) in frames';
    }
    hide Lists;
    ListsAdd(objs[o].respages, PagesOf(frames, o), p);
    forall x | x in objs && x != o ensures PagesOf(frames', x) == PagesOf(frames, x) {
      PagesElsewhere(frames, frames', x);
    }
  }

  lemma PageUnlisted(objs: map<ObjId, MmObj>, frames: map<Key, Frame>, o: ObjId, p: nat)
    requires ResidentOk(objs, frames) && Key(o, p) in frames
    ensures ResidentOk(objs[o := WithoutPage(objs[o], p)], frames - {Key(o, p)}) && p in objs[o].respages
    ensures |Without(objs[o].respages, p)| == |objs[o].respages| - 1
  {
    hide Lists;
    var frames' := frames - {Key(o, p)};
    assert p in PagesOf(frames, o);
    ListsMembers(objs[o].respages, PagesOf(frames, o));
    ListsRemove(objs[o].respages, PagesOf(frames, o), p);
    assert PagesOf(frames', o) == PagesOf(frames, o) - {p};
    forall x | x in objs && x != o ensures PagesOf(frames', x) == PagesOf(frames, x) {
      PagesElsewhere(frames, frames', x);
    }
  }

  lemma PageAdded(objs: map<ObjId, MmObj>, frames: map<Key, Frame>, h: multiset<ObjId>, o: ObjId, p: nat, fr: Frame)
    requires ChainsOk(objs) && ResidentOk(objs, frames) && RefsOk(objs, h) && o in objs && Key(o, p) !in frames
    ensures var objs' := objs[o := WithPage(objs[o], p)];
            && SameLinks(objs, objs') && ChainsOk(objs') && RefsOk(objs', h)
            && ResidentOk(objs', frames[Key(o, p) := fr])
  {
    hide ResidentOk;
    PageListed(objs, frames, o, p, fr);
    RefsMoved(objs, objs[o := WithPage(objs[o], p)], h, h);
  }

  /** The reference of a page that goes away is left with whoever removed the page. */
  lemma PageRemoved(objs: map<ObjId, MmObj>, frames: map<Key, Frame>, h: multiset<ObjId>, o: ObjId, p: nat)
    requires ChainsOk(objs) && ResidentOk(objs, frames) && RefsOk(objs, h) && Key(o, p) in frames && o in objs
    ensures var objs' := objs[o := WithoutPage(objs[o], p)];
            && SameLinks(objs, objs') && ChainsOk(objs') && RefsOk(objs', h + multiset{o})
            && ResidentOk(objs', frames - {Key(o, p)}) && p in objs[o].respages
            && |objs'[o].respages| == |objs[o].respages| - 1
  {
    hide ResidentOk;
    PageUnlisted(objs, frames, o, p);
    RefsMoved(objs, objs[o := WithoutPage(objs[o], p)], h, h + multiset{o});
  }

  lemma PageRewritten(objs: map<ObjId, MmObj>, frames: map<Key, Frame>, k: Key, fr: Frame)
    requires ResidentOk(objs, frames) && k in frames
    ensures ResidentOk(objs, frames[k := fr])
  {
    forall x | x in objs ensures PagesOf(frames[k := fr], x) == PagesOf(frames, x) {
      PagesElsewhere(frames, frames[k := fr], x);
    }
  }

  // ----- Exactly the reachable objects are alive -----

  /** o lies on the chain that starts at t. */
  predicate OnChain(objs: map<ObjId, MmObj>, t: ObjId, o: ObjId) {
    t == o || (t in objs && objs[t].kind == Shadow && objs[t].shadowed < t && OnChain(objs, objs[t].shadowed, o))
  }

  lemma {:induction false} OnChainStep(objs: map<ObjId, MmObj>, t: ObjId, s: ObjId)
    requires ChainsOk(objs) && t in objs && OnChain(objs, t, s) && s in objs && objs[s].kind == Shadow
    ensures OnChain(objs, t, objs[s].shadowed)
  {
    if t != s {
      OnChainStep(objs, objs[t].shadowed, s);
    }
  }

  lemma {:induction false} OnChainLive(objs: map<ObjId, MmObj>, t: ObjId, o: ObjId)
    requires ChainsOk(objs) && t in objs && OnChain(objs, t, o)
    ensures o in objs
  {
    if t != o {
      OnChainLive(objs, objs[t].shadowed, o);
    }
  }

  lemma {:induction false} UserAbove(objs: map<ObjId, MmObj>, h: multiset<ObjId>, o: ObjId,
                                     limit: nat) returns (t: ObjId)
    requires ChainsOk(objs) && RefsOk(objs, h) && o in objs
    requires forall x :: x in objs ==> x < limit
    ensures t in h && OnChain(objs, t, o)
    decreases limit - o
  {
    if o in h {
      t := o;
    } else {
      assert Shadowers(objs, o) != {};
      var s :| s in Shadowers(objs, o);
      t := UserAbove(objs, h, s, limit);
      OnChainStep(objs, t, s);
    }
  }

  /** No leak and no dangling reference: an object exists if and only if a held reference leads to it. */
  lemma LiveIffReachable(objs: map<ObjId, MmObj>, h: multiset<ObjId>, o: ObjId, limit: nat)
    requires ChainsOk(objs) && RefsOk(objs, h)
    requires forall x :: x in objs ==> x < limit
    ensures o in objs <==> exists t :: t in h && OnChain(objs, t, o)
  {
    if o in objs {
      var t := UserAbove(objs, h, o, limit);
    } else if exists t :: t in h && OnChain(objs, t, o) {
      var t :| t in h && OnChain(objs, t, o);
      OnChainLive(objs, t, o);
    }
  }
}
