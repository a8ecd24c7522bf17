/** The cache of resident pages: pframe.c without its calls into memory objects. */
module PageCache {
  import opened PageTypes
  import opened PageLife

  type FrameId = nat

  datatype Pframe = Pframe(obj: ObjId, pagenum: nat, data: Page, pins: nat, busy: bool, dirty: bool) {
    function Id(): Key { Key(obj, pagenum) }

    function Seen(): Frame { Frame(data, pins, busy, dirty) }
  }

  /** One frame per identity, and the ghost index finds it. */
  ghost predicate IndexOk(frames: map<FrameId, Pframe>, index: map<Key, FrameId>) {
    && (forall k :: k in index ==> index[k] in frames && frames[index[k]].Id() == k)
    && (forall f :: f in frames ==> frames[f].Id() in index && index[frames[f].Id()] == f)
  }

  ghost function InBucket(frames: map<FrameId, Pframe>, h: Key -> nat, b: nat): set<FrameId> {
    set f | f in frames && h(frames[f].Id()) == b
  }

  ghost function Unpinned(frames: map<FrameId, Pframe>): set<FrameId> {
    set f | f in frames && frames[f].pins == 0
  }

  ghost function Pinned(frames: map<FrameId, Pframe>): set<FrameId> {
    set f | f in frames && frames[f].pins > 0
  }

  /** Each hash chain holds exactly the frames whose identity hashes to it, once. */
  ghost predicate HashOk(chains: seq<seq<FrameId>>, frames: map<FrameId, Pframe>, h: Key -> nat) {
    && (forall k :: h(k) < |chains|)
    && (forall b :: 0 <= b < |chains| ==> Lists(chains[b], InBucket(frames, h, b)))
  }

  ghost predicate ViewOk(view: map<Key, Frame>, frames: map<FrameId, Pframe>, index: map<Key, FrameId>)
    requires IndexOk(frames, index)
  {
    view.Keys == index.Keys && forall k :: k in view ==> view[k] == frames[index[k]].Seen()
  }

  // Unpinned frames still to be written back, or being written back.
  ghost function Unclean(frames: map<FrameId, Pframe>): set<FrameId> {
    set f | f in frames && frames[f].pins == 0 && (frames[f].dirty || frames[f].busy)
  }

  // ----- How each update keeps the structure -----

  lemma HashInsert(chains: seq<seq<FrameId>>, frames: map<FrameId, Pframe>, h: Key -> nat, pf: FrameId, fr: Pframe)
    requires HashOk(chains, frames, h) && pf !in frames
    ensures var b := h(fr.Id());
            HashOk(chains[b := [pf] + chains[b]], frames[pf := fr], h)
  {
    var b := h(fr.Id());
    ListsAdd(chains[b], InBucket(frames, h, b), pf);
    assert InBucket(frames[pf := fr], h, b) == InBucket(frames, h, b) + {pf};
    forall c | 0 <= c < |chains| && c != b ensures InBucket(frames[pf := fr], h, c) == InBucket(frames, h, c) {}
  }

  lemma HashRemove(chains: seq<seq<FrameId>>, frames: map<FrameId, Pframe>, h: Key -> nat, pf: FrameId)
    requires HashOk(chains, frames, h) && pf in frames
    ensures var b := h(frames[pf].Id());
            HashOk(chains[b := Without(chains[b], pf)], frames - {pf}, h)
  {
    var b := h(frames[pf].Id());
    ListsRemove(chains[b], InBucket(frames, h, b), pf);
    assert InBucket(frames - {pf}, h, b) == InBucket(frames, h, b) - {pf};
    forall c | 0 <= c < |chains| && c != b ensures InBucket(frames - {pf}, h, c) == InBucket(frames, h, c) {}
  }

  lemma HashKept(chains: seq<seq<FrameId>>, frames: map<FrameId, Pframe>, h: Key -> nat, pf: FrameId, fr: Pframe)
    requires HashOk(chains, frames, h) && pf in frames && fr.Id() == frames[pf].Id()
    ensures HashOk(chains, frames[pf := fr], h)
  {
    forall c | 0 <= c < |chains| ensures InBucket(frames[pf := fr], h, c) == InBucket(frames, h, c) {}
  }

  lemma IndexKept(view: map<Key, Frame>, frames: map<FrameId, Pframe>, index: map<Key, FrameId>, pf: FrameId,
                  fr: Pframe)
    requires IndexOk(frames, index) && ViewOk(view, frames, index)
    requires pf in frames && fr.Id() == frames[pf].Id()
    ensures IndexOk(frames[pf := fr], index) && ViewOk(view[fr.Id() := fr.Seen()], frames[pf := fr], index)
    ensures fr.Id() in view && view[fr.Id()] == frames[pf].Seen()
  {
  }

  lemma IndexInsert(view: map<Key, Frame>, frames: map<FrameId, Pframe>, index: map<Key, FrameId>, pf: FrameId,
                    fr: Pframe)
    requires IndexOk(frames, index) && ViewOk(view, frames, index)
    requires pf !in frames && fr.Id() !in index
    ensures IndexOk(frames[pf := fr], index[fr.Id() := pf])
    ensures ViewOk(view[fr.Id() := fr.Seen()], frames[pf := fr], index[fr.Id() := pf])
  {
  }

  lemma IndexRemove(view: map<Key, Frame>, frames: map<FrameId, Pframe>, index: map<Key, FrameId>, pf: FrameId)
    requires IndexOk(frames, index) && ViewOk(view, frames, index) && pf in frames
    ensures var k := frames[pf].Id();
            IndexOk(frames - {pf}, index - {k}) && ViewOk(view - {k}, frames - {pf}, index - {k})
  {
  }

  /** The two paging lists partition the frames by pin count. */
  ghost predicate PagingOk(frames: map<FrameId, Pframe>, alloc: seq<FrameId>, pinned: seq<FrameId>) {
    Lists(alloc, Unpinned(frames)) && Lists(pinned, Pinned(frames))
  }

  lemma PinsKept(frames: map<FrameId, Pframe>, alloc: seq<FrameId>, pinned: seq<FrameId>, pf: FrameId, fr: Pframe)
    requires PagingOk(frames, alloc, pinned)
    requires pf in frames && (fr.pins == 0 <==> frames[pf].pins == 0)
    ensures PagingOk(frames[pf := fr], alloc, pinned)
  {
    assert Unpinned(frames[pf := fr]) == Unpinned(frames);
    assert Pinned(frames[pf := fr]) == Pinned(frames);
  }

  lemma PagingMoved(frames: map<FrameId, Pframe>, alloc: seq<FrameId>, pinned: seq<FrameId>, pf: FrameId)
    requires PagingOk(frames, alloc, pinned) && pf in frames && frames[pf].pins == 0
    ensures PagingOk(frames, Without(alloc, pf) + [pf], pinned) && |Without(alloc, pf) + [pf]| == |alloc|
  {
    var s := Unpinned(frames);
    ListsRemove(alloc, s, pf);
    ListsAdd(Without(alloc, pf), s - {pf}, pf);
    assert s - {pf} + {pf} == s;
  }

  lemma BecomesPinned(frames: map<FrameId, Pframe>, alloc: seq<FrameId>, pinned: seq<FrameId>, pf: FrameId, fr: Pframe)
    requires PagingOk(frames, alloc, pinned) && pf in frames && frames[pf].pins == 0 && fr.pins > 0
    ensures PagingOk(frames[pf := fr], Without(alloc, pf), pinned + [pf]) && |Without(alloc, pf)| == |alloc| - 1
  {
    ListsRemove(alloc, Unpinned(frames), pf);
    ListsAdd(pinned, Pinned(frames), pf);
    assert Unpinned(frames[pf := fr]) == Unpinned(frames) - {pf};
    assert Pinned(frames[pf := fr]) == Pinned(frames) + {pf};
  }

  lemma BecomesUnpinned(frames: map<FrameId, Pframe>, alloc: seq<FrameId>, pinned: seq<FrameId>, pf: FrameId,
                        fr: Pframe)
    requires PagingOk(frames, alloc, pinned) && pf in frames && frames[pf].pins > 0 && fr.pins == 0
    ensures PagingOk(frames[pf := fr], alloc + [pf], Without(pinned, pf)) && |Without(pinned, pf)| == |pinned| - 1
  {
    ListsRemove(pinned, Pinned(frames), pf);
    ListsAdd(alloc, Unpinned(frames), pf);
    assert Unpinned(frames[pf := fr]) == Unpinned(frames) + {pf};
    assert Pinned(frames[pf := fr]) == Pinned(frames) - {pf};
  }

  lemma BecomesAllocated(frames: map<FrameId, Pframe>, alloc: seq<FrameId>, pinned: seq<FrameId>, pf: FrameId,
                         fr: Pframe)
    requires PagingOk(frames, alloc, pinned) && pf !in frames && fr.pins == 0
    ensures PagingOk(frames[pf := fr], alloc + [pf], pinned)
  {
    ListsAdd(alloc, Unpinned(frames), pf);
    assert Unpinned(frames[pf := fr]) == Unpinned(frames) + {pf};
    assert Pinned(frames[pf := fr]) == Pinned(frames);
  }

  lemma BecomesFree(frames: map<FrameId, Pframe>, alloc: seq<FrameId>, pinned: seq<FrameId>, pf: FrameId)
    requires PagingOk(frames, alloc, pinned) && pf in frames && frames[pf].pins == 0
    ensures PagingOk(frames - {pf}, Without(alloc, pf), pinned) && |Without(alloc, pf)| == |alloc| - 1
  {
    ListsRemove(alloc, Unpinned(frames), pf);
    assert Unpinned(frames - {pf}) == Unpinned(frames) - {pf};
    assert Pinned(frames - {pf}) == Pinned(frames);
  }

  // Frames found before are found still.
  ghost predicate IndexGrows(i: map<Key, FrameId>, j: map<Key, FrameId>) {
    forall k :: k in i ==> k in j && j[k] == i[k]
  }

  // The static variables of pframe.c, with the frames they link, the backing store, and the data given to the
  // device for pages being written out.
  datatype Tables = Tables(
    hash: seq<seq<FrameId>>,
    frames: map<FrameId, Pframe>,
    alloc: seq<FrameId>,
    pinned: seq<FrameId>,
    nallocated: int,
    npinned: int,
    next: FrameId,
    disk: map<Key, Page>,
    handed: map<Key, Page>)

  ghost predicate TablesOk(t: Tables, h: Key -> nat, index: map<Key, FrameId>, view: map<Key, Frame>,
                           uses: seq<FrameId>) {
    && IndexOk(t.frames, index)
    && ViewOk(view, t.frames, index)
    && HashOk(t.hash, t.frames, h)
    && PagingOk(t.frames, t.alloc, t.pinned)
    && t.nallocated == |t.alloc| && t.npinned == |t.pinned|
    && (forall f :: f in t.frames ==> f < t.next)
    && InOrder(t.alloc, uses)
  }

  // ----- The order of the allocated list -----

  /** When a frame was last requested or unpinned for good, as a place in the history of both; -1 if it never was. */
  function LastUse(uses: seq<FrameId>, f: FrameId): int {
    if uses == [] then -1 else if uses[|uses| - 1] == f then |uses| - 1 else LastUse(uses[..|uses| - 1], f)
  }

  /** The list runs from the frame whose last use is longest ago to the one used last. */
  ghost predicate InOrder(alloc: seq<FrameId>, uses: seq<FrameId>) {
    forall i, j :: 0 <= i < j < |alloc| ==> LastUse(uses, alloc[i]) < LastUse(uses, alloc[j])
  }

  /** The last use is a place where the frame is used, and after it the frame is not. */
  lemma {:induction false} LastUseExact(uses: seq<FrameId>, f: FrameId)
    ensures -1 <= LastUse(uses, f) < |uses|
    ensures LastUse(uses, f) == -1 <==> f !in uses
    ensures LastUse(uses, f) >= 0 ==> uses[LastUse(uses, f)] == f
    ensures forall i :: LastUse(uses, f) < i < |uses| ==> uses[i] != f
  {
    if uses != [] {
      var pre := uses[..|uses| - 1];
      LastUseExact(pre, f);
      assert uses == pre + [uses[|uses| - 1]];
    }
  }

  // Later uses only move the last use on.
  lemma {:induction false} LastUseGrows(uses: seq<FrameId>, uses': seq<FrameId>, f: FrameId)
    requires uses <= uses'
    ensures LastUse(uses, f) <= LastUse(uses', f)
  {
    LastUseExact(uses, f);
    LastUseExact(uses', f);
    if LastUse(uses, f) >= 0 {
      assert uses'[LastUse(uses, f)] == f;
    }
  }

  lemma UsedNow(uses: seq<FrameId>, pf: FrameId, f: FrameId)
    ensures LastUse(uses + [pf], f) == if f == pf then |uses| else LastUse(uses, f)
  {
    assert (uses + [pf])[..|uses|] == uses;
  }

  lemma {:induction false} WithoutInOrder(alloc: seq<FrameId>, uses: seq<FrameId>, pf: FrameId)
    requires InOrder(alloc, uses)
    ensures InOrder(Without(alloc, pf), uses) && pf !in Without(alloc, pf)
    ensures forall f :: f in Without(alloc, pf) ==> f in alloc
  {
    hide LastUse, InOrder;
    if alloc != [] {
      RestInOrder(alloc, uses);
      WithoutInOrder(alloc[1..], uses, pf);
      if alloc[0] != pf {
        FrontInOrder(alloc[0], Without(alloc[1..], pf), uses);
      }
    }
  }

  lemma RestInOrder(alloc: seq<FrameId>, uses: seq<FrameId>)
    requires alloc != [] && InOrder(alloc, uses)
    ensures InOrder(alloc[1..], uses) && forall f :: f in alloc[1..] ==> LastUse(uses, alloc[0]) < LastUse(uses, f)
  {
    hide LastUse;
    var rest := alloc[1..];
    assert forall i :: 0 <= i < |rest| ==> rest[i] == alloc[i + 1];
    forall f | f in rest ensures LastUse(uses, alloc[0]) < LastUse(uses, f) {
      var i :| 0 <= i < |rest| && rest[i] == f;
    }
  }

  lemma FrontInOrder(f: FrameId, l: seq<FrameId>, uses: seq<FrameId>)
    requires InOrder(l, uses) && forall g :: g in l ==> LastUse(uses, f) < LastUse(uses, g)
    ensures InOrder([f] + l, uses)
  {
    hide LastUse;
  }

  lemma BackInOrder(alloc: seq<FrameId>, uses: seq<FrameId>, pf: FrameId)
    requires InOrder(alloc, uses) && pf !in alloc
    ensures InOrder(alloc + [pf], uses + [pf])
  {
    var l := alloc + [pf];
    forall i, j | 0 <= i < j < |l| ensures LastUse(uses + [pf], l[i]) < LastUse(uses + [pf], l[j]) {
      assert l[i] in alloc;
      UsedNow(uses, pf, l[i]);
      UsedNow(uses, pf, l[j]);
      LastUseExact(uses, l[i]);
    }
  }

  lemma MovedInOrder(alloc: seq<FrameId>, uses: seq<FrameId>, pf: FrameId)
    requires InOrder(alloc, uses)
    ensures InOrder(Without(alloc, pf) + [pf], uses + [pf])
  {
    WithoutInOrder(alloc, uses, pf);
    BackInOrder(Without(alloc, pf), uses, pf);
  }

  // A frame that is on no list may be used: nothing changes its place then.
  lemma OtherInOrder(alloc: seq<FrameId>, uses: seq<FrameId>, pf: FrameId)
    requires InOrder(alloc, uses) && pf !in alloc
    ensures InOrder(alloc, uses + [pf])
  {
    forall i, j | 0 <= i < j < |alloc| ensures LastUse(uses + [pf], alloc[i]) < LastUse(uses + [pf], alloc[j]) {
      UsedNow(uses, pf, alloc[i]);
      UsedNow(uses, pf, alloc[j]);
    }
  }

  /** Whatever is taken off the head of the list was last used before everything that stays. */
  lemma HeadIsOldest(alloc: seq<FrameId>, rest: seq<FrameId>, uses: seq<FrameId>, p: FrameId, q: FrameId)
    requires InOrder(alloc, uses) && |rest| <= |alloc| && rest == alloc[|alloc| - |rest|..]
    requires p in alloc && p !in rest && q in rest
    ensures LastUse(uses, p) < LastUse(uses, q)
  {
    hide LastUse;
    var n := |alloc| - |rest|;
    assert alloc == alloc[..n] + rest;
    var i :| 0 <= i < n && alloc[..n][i] == p;
    var j :| 0 <= j < |rest| && rest[j] == q;
    assert alloc[i] == p && alloc[n + j] == q;
  }

  // ----- Pages between frame and backing store -----

  ghost function LifeOf(t: Tables, view: map<Key, Frame>, k: Key): Life {
    Life(if k !in view then None
         else Some(Held(view[k], if view[k].busy && k in t.handed then Some(t.handed[k]) else None)),
         Stored(t.disk, k))
  }

  /** Page k has changed to l, and no other page has changed. */
  ghost predicate Altered(t: Tables, view: map<Key, Frame>, t': Tables, view': map<Key, Frame>, k: Key, l: Life) {
    forall j: Key :: LifeOf(t', view', j) == if j == k then l else LifeOf(t, view, j)
  }

  ghost predicate Did(t: Tables, view: map<Key, Frame>, t': Tables, view': map<Key, Frame>, k: Key, op: LifeOp) {
    Allowed(LifeOf(t, view, k), op) && Altered(t, view, t', view', k, Apply(LifeOf(t, view, k), op))
  }

  /** The resident pages whose contents nothing would write back. */
  ghost function Unsaved(t: Tables, view: map<Key, Frame>): set<Key> {
    set k | k in view && !Saved(LifeOf(t, view, k))
  }

  /** No page's contents are lost, unless they were unsaved, and no more pages are unsaved than before. */
  ghost predicate Kept(t: Tables, view: map<Key, Frame>, t': Tables, view': map<Key, Frame>) {
    && Unsaved(t', view') <= Unsaved(t, view)
    && forall k :: k !in Unsaved(t, view) ==> Contents(LifeOf(t', view', k)) == Contents(LifeOf(t, view, k))
  }

  ghost predicate SameContents(t: Tables, view: map<Key, Frame>, t': Tables, view': map<Key, Frame>) {
    forall k: Key :: Contents(LifeOf(t', view', k)) == Contents(LifeOf(t, view, k))
  }

  // No page is being filled: a busy page is being written out, and is not marked again meanwhile.
  ghost predicate NoFills(t: Tables, view: map<Key, Frame>) {
    forall k :: k in view && view[k].busy ==> k in t.handed && !view[k].dirty
  }

  lemma UnsavedIs(t: Tables, view: map<Key, Frame>, k: Key)
    ensures k in Unsaved(t, view) <==> !Saved(LifeOf(t, view, k))
  {
  }

  lemma DidKeeps(t: Tables, view: map<Key, Frame>, t': Tables, view': map<Key, Frame>, k: Key, op: LifeOp)
    requires Did(t, view, t', view', k, op)
    ensures Kept(t, view, t', view')
  {
    hide Unsaved, LifeOf, Saved, Allowed, Apply;
    forall j: Key
      ensures j in Unsaved(t', view') ==> j in Unsaved(t, view)
      ensures j !in Unsaved(t, view) ==> Contents(LifeOf(t', view', j)) == Contents(LifeOf(t, view, j))
    {
      UnsavedIs(t, view, j);
      UnsavedIs(t', view', j);
      if j == k && Saved(LifeOf(t, view, k)) {
        SavedKept(LifeOf(t, view, k), op);
      }
    }
  }

  lemma KeptTransitive(t: Tables, view: map<Key, Frame>, t': Tables, view': map<Key, Frame>, t'': Tables,
                       view'': map<Key, Frame>)
    requires Kept(t, view, t', view') && Kept(t', view', t'', view'')
    ensures Kept(t, view, t'', view'')
  {
    hide Unsaved, LifeOf;
  }

  // Cleaning never touches the frame's data.
  lemma CleaningSame(t: Tables, view: map<Key, Frame>, t': Tables, view': map<Key, Frame>, k: Key, op: LifeOp)
    requires Did(t, view, t', view', k, op) && (op.CleanBegin? || op.CleanEnd?)
    ensures SameContents(t, view, t', view')
  {
    hide LifeOf;
    forall j: Key ensures Contents(LifeOf(t', view', j)) == Contents(LifeOf(t, view, j)) {
      assert LifeOf(t', view', j) == if j == k then Apply(LifeOf(t, view, k), op) else LifeOf(t, view, j);
    }
  }

  class Cache {
    const hashPage: Key -> nat
    var t: Tables
    ghost var index: map<Key, FrameId>
    ghost var view: map<Key, Frame>
    // The frames requested, or unpinned for good, one after another.
    ghost var uses: seq<FrameId>

    ghost predicate Valid()
      reads this
    {
      TablesOk(t, hashPage, index, view, uses)
    }

    /** pf points at the resident frame of page k. */
    ghost predicate Holds(pf: FrameId, k: Key)
      reads this
    {
      k in index && index[k] == pf
    }

    lemma Allocated(pf: FrameId)
      requires Valid() && pf in t.alloc
      ensures pf in t.frames && t.frames[pf].pins == 0
      ensures pf in Unclean(t.frames) <==> t.frames[pf].busy || t.frames[pf].dirty
    {
      hide HashOk, IndexOk, ViewOk, Lists;
      ListsMembers(t.alloc, Unpinned(t.frames));
      assert pf in Unpinned(t.frames);
    }

    lemma AllocatedFrames()
      requires Valid()
      ensures forall f :: f in t.alloc ==> f in t.frames
    {
      hide HashOk, IndexOk, ViewOk, Lists, InOrder;
      ListsMembers(t.alloc, Unpinned(t.frames));
    }

    lemma NotAllocated(pf: FrameId)
      requires Valid() && pf in t.frames && t.frames[pf].pins > 0
      ensures pf !in t.alloc
    {
      hide HashOk, IndexOk, ViewOk, Lists, InOrder;
      ListsMembers(t.alloc, Unpinned(t.frames));
    }

    lemma Framed(pf: FrameId, k: Key)
      requires Valid() && Holds(pf, k)
      ensures pf in t.frames && t.frames[pf].Id() == k && k in view && view[k] == t.frames[pf].Seen()
    {
    }

    lemma ViewIndexed(k: Key)
      requires Valid()
      ensures k in view <==> k in index
    {
    }

    lemma Indexed(pf: FrameId)
      requires Valid() && pf in t.frames
      ensures Holds(pf, t.frames[pf].Id()) && t.frames[pf].Id() in view
              && view[t.frames[pf].Id()] == t.frames[pf].Seen()
    {
    }

    constructor (size: nat)
      requires size > 0
      ensures Valid() && view == map[] && t.disk == map[] && Unsaved(t, view) == {} && t.alloc == [] && uses == []
    {
      hashPage := (k: Key) => (k.obj + k.page) % WORD % size;
      t := Tables(seq(size, _ => []), map[], [], [], 0, 0, 0, map[], map[]);
      index, view, uses := map[], map[], [];
    }

    /** The search of a hash chain agrees with the index, whatever the chains look like. */
    method Find(o: ObjId, pagenum: nat) returns (r: Option<FrameId>)
      requires Valid()
      ensures r == if Key(o, pagenum) in index then Some(index[Key(o, pagenum)]) else None
    {
      hide InOrder;
      var b := hashPage(Key(o, pagenum));
      var chain := t.hash[b];
      assert Key(o, pagenum) in index ==> index[Key(o, pagenum)] in InBucket(t.frames, hashPage, b);
      ListsMembers(chain, InBucket(t.frames, hashPage, b));
      var i := 0;
      while i < |chain|
        invariant 0 <= i <= |chain|
        invariant forall j :: 0 <= j < i ==> chain[j] in t.frames && t.frames[chain[j]].Id() != Key(o, pagenum)
      {
        var pf := chain[i];
        assert pf in chain;
        if t.frames[pf].obj == o && t.frames[pf].pagenum == pagenum {
          return Some(pf);
        }
        i := i + 1;
      }
      return None;
    }

    /** pframe_get_resident: a request for the page. An unpinned frame goes to the back of the allocated list. */
    method GetResident(o: ObjId, pagenum: nat) returns (r: Option<FrameId>)
      requires Valid()
      modifies this`t, this`uses
      ensures Valid() && t == old(t).(alloc := t.alloc)
      ensures r == if Key(o, pagenum) in index then Some(index[Key(o, pagenum)]) else None
      ensures t.alloc == if r.Some? && r.value in t.frames && t.frames[r.value].pins == 0
                         then Without(old(t.alloc), r.value) + [r.value] else old(t.alloc)
      ensures uses == if r.Some? then old(uses) + [r.value] else old(uses)
    {
      hide TablesOk;
      r := Find(o, pagenum);
      if r.Some? {
        Framed(r.value, Key(o, pagenum));
        if t.frames[r.value].pins == 0 {
          MoveToBack(r.value);
        } else {
          PinnedUse(r.value);
        }
      }
    }

    method MoveToBack(pf: FrameId)
      requires Valid() && pf in t.frames && t.frames[pf].pins == 0
      modifies this`t, this`uses
      ensures Valid() && t == old(t).(alloc := Without(old(t.alloc), pf) + [pf]) && uses == old(uses) + [pf]
    {
      hide IndexOk, ViewOk, HashOk, InOrder, PagingOk;
      PagingMoved(t.frames, t.alloc, t.pinned, pf);
      MovedInOrder(t.alloc, uses, pf);
      t := t.(alloc := Without(t.alloc, pf) + [pf]);
      uses := uses + [pf];
    }

    ghost method PinnedUse(pf: FrameId)
      requires Valid() && pf in t.frames && t.frames[pf].pins > 0
      modifies this`uses
      ensures Valid() && uses == old(uses) + [pf]
    {
      hide IndexOk, ViewOk, HashOk, InOrder;
      ListsMembers(t.alloc, Unpinned(t.frames));
      OtherInOrder(t.alloc, uses, pf);
      uses := uses + [pf];
    }

    /** The cache half of pframe_alloc: a new frame with unspecified contents. */
    method AllocFrame(o: ObjId, pagenum: nat) returns (pf: FrameId)
      requires Valid() && Key(o, pagenum) !in view
      modifies this
      ensures Valid() && t.disk == old(t.disk) && t.handed == old(t.handed)
      ensures pf !in old(t.frames) && pf in t.frames && index == old(index)[Key(o, pagenum) := pf]
      ensures Key(o, pagenum) in view && view == old(view)[Key(o, pagenum) := view[Key(o, pagenum)]]
      ensures var fr := view[Key(o, pagenum)]; fr.pins == 0 && !fr.busy && !fr.dirty
      ensures t.alloc == old(t.alloc) + [pf] && t.pinned == old(t.pinned) && uses == old(uses) + [pf]
    {
      hide InOrder;
      var garbage: Page := *;
      var fr := Pframe(o, pagenum, garbage, 0, false, false);
      pf := t.next;
      ListsMembers(t.alloc, Unpinned(t.frames));
      BackInOrder(t.alloc, uses, pf);
      BecomesAllocated(t.frames, t.alloc, t.pinned, pf, fr);
      HashInsert(t.hash, t.frames, hashPage, pf, fr);
      IndexInsert(view, t.frames, index, pf, fr);
      var b := hashPage(fr.Id());
      t := t.(nallocated := t.nallocated + 1, alloc := t.alloc + [pf], next := t.next + 1,
      frames := t.frames[pf := fr], hash := t.hash[b := [pf] + t.hash[b]]);
      index := index[fr.Id() := pf];
      view := view[fr.Id() := fr.Seen()];
      uses := uses + [pf];
    }

    // Change of the fields that no list or chain depends on.
    method Update(pf: FrameId, data: Page, busy: bool, dirty: bool, ghost k: Key)
      requires Valid() && Holds(pf, k)
      modifies this`t, this`view
      ensures Valid() && pf in t.frames && t.frames[pf].Id() == k && pf in old(t.frames)
      ensures t == old(t).(frames := old(t.frames)[pf := old(t.frames)[pf].(data := data, busy := busy,
                   dirty := dirty)])
      ensures k in old(view) && view == old(view)[k := Frame(data, old(view)[k].pins, busy, dirty)]
    {
      hide IndexOk, ViewOk, HashOk, PagingOk, InOrder;
      Framed(pf, k);
      var fr := t.frames[pf].(data := data, busy := busy, dirty := dirty);
      HashKept(t.hash, t.frames, hashPage, pf, fr);
      IndexKept(view, t.frames, index, pf, fr);
      PinsKept(t.frames, t.alloc, t.pinned, pf, fr);
      t := t.(frames := t.frames[pf := fr]);
      view := view[fr.Id() := fr.Seen()];
    }

    method SetBusy(pf: FrameId, busy: bool, ghost k: Key)
      requires Valid() && Holds(pf, k)
      modifies this`t, this`view
      ensures Valid() && t.disk == old(t.disk) && t.handed == old(t.handed)
      ensures k in old(view) && view == old(view)[k := old(view)[k].(busy := busy)] && t.alloc == old(t.alloc)
    {
      hide TablesOk;
      Framed(pf, k);
      Update(pf, t.frames[pf].data, busy, t.frames[pf].dirty, k);
    }

    method SetData(pf: FrameId, data: Page, ghost k: Key)
      requires Valid() && Holds(pf, k)
      modifies this`t, this`view
      ensures Valid() && t.disk == old(t.disk) && t.handed == old(t.handed)
      ensures k in old(view) && view == old(view)[k := old(view)[k].(data := data)] && t.alloc == old(t.alloc)
      ensures Altered(old(t), old(view), t, view, k, Poked(LifeOf(old(t), old(view), k), data))
    {
      hide TablesOk;
      Framed(pf, k);
      Update(pf, data, t.frames[pf].busy, t.frames[pf].dirty, k);
    }

    method SetDirty(pf: FrameId, ghost k: Key)
      requires Valid() && Holds(pf, k)
      modifies this`t, this`view
      ensures Valid() && t.disk == old(t.disk) && t.handed == old(t.handed)
      ensures k in old(view) && view == old(view)[k := old(view)[k].(dirty := true)] && t.alloc == old(t.alloc)
    {
      hide TablesOk;
      Framed(pf, k);
      Update(pf, t.frames[pf].data, t.frames[pf].busy, true, k);
    }

    method Data(pf: FrameId, ghost k: Key) returns (data: Page)
      requires Valid() && Holds(pf, k)
      ensures k in view && data == view[k].data
    {
      hide TablesOk;
      Framed(pf, k);
      data := t.frames[pf].data;
    }

    method Pin(pf: FrameId, ghost k: Key)
      requires Valid() && Holds(pf, k)
      modifies this`t, this`view
      ensures Valid() && t.disk == old(t.disk) && t.handed == old(t.handed)
      ensures k in old(view) && view == old(view)[k := old(view)[k].(pins := old(view)[k].pins + 1)]
      ensures Did(old(t), old(view), t, view, k, LifeOp.Pin)
      ensures if old(view)[k].pins == 0 then t.alloc == Without(old(t.alloc), pf) && t.pinned == old(t.pinned) + [pf]
              else t.alloc == old(t.alloc) && t.pinned == old(t.pinned)
    {
      hide IndexOk, ViewOk, HashOk, PagingOk, InOrder;
      Framed(pf, k);
      var fr := t.frames[pf].(pins := t.frames[pf].pins + 1);
      HashKept(t.hash, t.frames, hashPage, pf, fr);
      IndexKept(view, t.frames, index, pf, fr);
      view := view[fr.Id() := fr.Seen()];
      if t.frames[pf].pins == 0 {
        BecomesPinned(t.frames, t.alloc, t.pinned, pf, fr);
        WithoutInOrder(t.alloc, uses, pf);
        t := t.(alloc := Without(t.alloc, pf), pinned := t.pinned + [pf], npinned := t.npinned + 1,
        nallocated := t.nallocated - 1, frames := t.frames[pf := fr]);
      } else {
        PinsKept(t.frames, t.alloc, t.pinned, pf, fr);
        t := t.(frames := t.frames[pf := fr]);
      }
    }

    method Unpin(pf: FrameId, ghost k: Key)
      requires Valid() && Holds(pf, k) && k in view && view[k].pins > 0
      modifies this`t, this`view, this`uses
      ensures Valid() && t.disk == old(t.disk) && t.handed == old(t.handed)
      ensures view == old(view)[k := old(view)[k].(pins := old(view)[k].pins - 1)]
      ensures Did(old(t), old(view), t, view, k, LifeOp.Unpin)
      ensures if old(view)[k].pins == 1
              then t.alloc == old(t.alloc) + [pf] && t.pinned == Without(old(t.pinned), pf) && uses == old(uses) + [pf]
              else t.alloc == old(t.alloc) && t.pinned == old(t.pinned) && uses == old(uses)
    {
      hide IndexOk, ViewOk, HashOk, PagingOk, InOrder;
      Framed(pf, k);
      NotAllocated(pf);
      var fr := t.frames[pf].(pins := t.frames[pf].pins - 1);
      HashKept(t.hash, t.frames, hashPage, pf, fr);
      IndexKept(view, t.frames, index, pf, fr);
      view := view[fr.Id() := fr.Seen()];
      if fr.pins == 0 {
        BecomesUnpinned(t.frames, t.alloc, t.pinned, pf, fr);
        BackInOrder(t.alloc, uses, pf);
        uses := uses + [pf];
        t := t.(pinned := Without(t.pinned, pf), alloc := t.alloc + [pf], npinned := t.npinned - 1,
        nallocated := t.nallocated + 1, frames := t.frames[pf := fr]);
      } else {
        PinsKept(t.frames, t.alloc, t.pinned, pf, fr);
        t := t.(frames := t.frames[pf := fr]);
      }
    }

    /** The cache half of pframe_free: the frame leaves its hash chain and the allocated list. */
    method Drop(pf: FrameId, ghost k: Key)
      requires Valid() && Holds(pf, k) && k in view && view[k].pins == 0 && !view[k].busy
      modifies this
      ensures Valid() && t.disk == old(t.disk) && t.handed == old(t.handed)
      ensures t.alloc == Without(old(t.alloc), pf) && t.pinned == old(t.pinned)
      ensures t.frames == old(t.frames) - {pf} && index == old(index) - {k} && view == old(view) - {k}
      ensures uses == old(uses)
    {
      hide IndexOk, ViewOk, PagingOk, InOrder;
      Framed(pf, k);
      WithoutInOrder(t.alloc, uses, pf);
      var b := hashPage(t.frames[pf].Id());
      HashRemove(t.hash, t.frames, hashPage, pf);
      IndexRemove(view, t.frames, index, pf);
      BecomesFree(t.frames, t.alloc, t.pinned, pf);
      t := t.(hash := t.hash[b := Without(t.hash[b], pf)], nallocated := t.nallocated - 1,
      alloc := Without(t.alloc, pf), frames := t.frames - {pf});
      index := index - {k};
      view := view - {k};
    }

    // The backing store gains pages that nothing has cached.
    method Provide(disk: map<Key, Page>)
      requires Valid()
      modifies this`t
      ensures Valid() && t == old(t).(disk := disk)
    {
      hide IndexOk, ViewOk, HashOk, PagingOk;
      t := t.(disk := disk);
    }

    /** pframe_alloc and pframe_fill of a page that comes from the backing store: its contents stay as they were. */
    method Fill(o: ObjId, pagenum: nat) returns (pf: FrameId)
      requires Valid() && Key(o, pagenum) !in view
      modifies this
      ensures Valid() && Holds(pf, Key(o, pagenum)) && Did(old(t), old(view), t, view, Key(o, pagenum), LifeOp.Fill)
      ensures Kept(old(t), old(view), t, view) && SameContents(old(t), old(view), t, view)
    {
      hide TablesOk, Kept, Altered;
      var k := Key(o, pagenum);
      pf := AllocFrame(o, pagenum);
      SetBusy(pf, true, k);
      SetData(pf, Stored(t.disk, k), k);
      SetBusy(pf, false, k);
      FilledLife(old(t), old(view), t, view, k);
      DidKeeps(old(t), old(view), t, view, k, LifeOp.Fill);
    }

    /** pframe_dirty and a store: the page is marked, so its new contents are safe. */
    method Write(pf: FrameId, data: Page, ghost k: Key)
      requires Valid() && Holds(pf, k) && k in view && !view[k].busy
      modifies this`t, this`view
      ensures Valid() && t.disk == old(t.disk) && t.handed == old(t.handed)
      ensures Altered(old(t), old(view), t, view, k, Marked(LifeOf(old(t), old(view), k), data))
      ensures Unsaved(t, view) == Unsaved(old(t), old(view)) - {k}
    {
      hide TablesOk;
      Update(pf, data, false, true, k);
    }

    /**
     pframe_clean up to the point where it may block: the dirty bit goes first, then the frame is busy and its
     data is with the device.
     */
    method CleanBegin(pf: FrameId, ghost k: Key)
      requires Valid() && Holds(pf, k) && k in view && view[k].dirty && view[k].pins == 0 && !view[k].busy
      modifies this`t, this`view
      ensures Valid() && Did(old(t), old(view), t, view, k, LifeOp.CleanBegin)
      ensures pf in old(t.frames) && k in old(view)
      ensures t == old(t).(frames := old(t.frames)[pf := old(t.frames)[pf].(busy := true, dirty := false)],
                           handed := old(t.handed)[k := old(view)[k].data])
      ensures view == old(view)[k := old(view)[k].(busy := true, dirty := false)]
    {
      hide IndexOk, ViewOk, HashOk, PagingOk;
      Framed(pf, k);
      var fr := t.frames[pf];
      Update(pf, fr.data, true, false, k);
      t := t.(handed := t.handed[fr.Id() := fr.data]);
    }

    /** The rest of pframe_clean, once the device has written what it was given (`ok`) or failed to. */
    method CleanEnd(pf: FrameId, ok: bool, ghost k: Key)
      requires Valid() && Holds(pf, k) && k in view && view[k].busy && k in t.handed
      modifies this`t, this`view
      ensures Valid() && Did(old(t), old(view), t, view, k, LifeOp.CleanEnd(ok))
      ensures pf in old(t.frames) && k in old(view)
      ensures var fr := old(t.frames)[pf];
              t == old(t).(frames := old(t.frames)[pf := fr.(busy := false, dirty := fr.dirty || !ok)],
                           disk := if ok then old(t.disk)[k := old(t.handed)[k]] else old(t.disk),
                           handed := old(t.handed) - {k})
      ensures view == old(view)[k := old(view)[k].(busy := false, dirty := old(view)[k].dirty || !ok)]
    {
      hide IndexOk, ViewOk, HashOk, PagingOk;
      Framed(pf, k);
      var fr := t.frames[pf];
      var data := t.handed[fr.Id()];
      Update(pf, fr.data, false, fr.dirty || !ok, k);
      t := t.(disk := if ok then t.disk[fr.Id() := data] else t.disk, handed := t.handed - {fr.Id()});
    }

    /**
     pframe_free by the pageout daemon, of any frame that is unpinned, not busy and not dirty. The page reads
     as the backing store has it afterwards, which is no change if and only if its contents were saved.
     */
    method Evict(pf: FrameId, ghost k: Key)
      requires Valid() && Holds(pf, k) && k in view && view[k].pins == 0 && !view[k].busy && !view[k].dirty
      modifies this
      ensures Valid() && Did(old(t), old(view), t, view, k, LifeOp.Evict) && Kept(old(t), old(view), t, view)
      ensures SameContents(old(t), old(view), t, view) <==> k !in Unsaved(old(t), old(view))
      ensures t.frames == old(t.frames) - {pf} && t.alloc == Without(old(t.alloc), pf) && t.pinned == old(t.pinned)
      ensures view == old(view) - {k} && t.handed == old(t.handed) && uses == old(uses)
    {
      hide TablesOk, Kept, Altered, SameContents;
      Drop(pf, k);
      EvictedLife(old(t), old(view), t, view, k);
      DidKeeps(old(t), old(view), t, view, k, LifeOp.Evict);
    }

    // Whatever keeps an unpinned frame unclean comes to an end: the write in progress ends, or it is written here.
    method Settle(pf: FrameId)
      requires Valid() && pf in t.alloc && pf in Unclean(t.frames) && NoFills(t, view)
      modifies this`t, this`view
      ensures Valid() && NoFills(t, view) && Kept(old(t), old(view), t, view)
              && SameContents(old(t), old(view), t, view)
      ensures Unclean(t.frames) == Unclean(old(t.frames)) - {pf}
      ensures t.alloc == old(t.alloc) && t.pinned == old(t.pinned) && t.frames.Keys == old(t.frames).Keys
    {
      hide TablesOk, Kept, Did, SameContents;
      Indexed(pf);
      ghost var k := t.frames[pf].Id();
      if !t.frames[pf].busy {
        CleanBegin(pf, k);
        CleaningSame(old(t), old(view), t, view, k, LifeOp.CleanBegin);
        DidKeeps(old(t), old(view), t, view, k, LifeOp.CleanBegin);
      } else {
        KeptSelf(t, view);
      }
      ghost var t1, view1 := t, view;
      CleanEnd(pf, true, k);
      CleaningSame(t1, view1, t, view, k, LifeOp.CleanEnd(true));
      DidKeeps(t1, view1, t, view, k, LifeOp.CleanEnd(true));
      KeptTransitive(old(t), old(view), t1, view1, t, view);
      SameTransitive(old(t), old(view), t1, view1, t, view);
    }

    /**
     With writes that succeed and nobody else writing, the scan of pframe_clean_all, which starts over
     whenever it may have blocked, ends with every unpinned frame clean and no contents changed.
     */
    method CleanAll()
      requires Valid() && NoFills(t, view)
      modifies this`t, this`view
      ensures Valid() && NoFills(t, view) && Kept(old(t), old(view), t, view)
              && SameContents(old(t), old(view), t, view)
      ensures t.alloc == old(t.alloc) && t.pinned == old(t.pinned)
      ensures Unclean(t.frames) == {}
    {
      hide HashOk, IndexOk, ViewOk, Lists, Kept, SameContents, NoFills;
      var i := 0;
      KeptSelf(t, view);
      while i < |t.alloc|
        invariant Valid() && NoFills(t, view)
        invariant Kept(old(t), old(view), t, view) && SameContents(old(t), old(view), t, view)
        invariant t.alloc == old(t.alloc) && t.pinned == old(t.pinned) && 0 <= i <= |t.alloc|
        invariant forall j :: 0 <= j < i ==> t.alloc[j] !in Unclean(t.frames)
        decreases Unclean(t.frames), |t.alloc| - i
      {
        var pf := t.alloc[i];
        ListsMembers(t.alloc, Unpinned(t.frames));
        assert pf in Unpinned(t.frames);
        if t.frames[pf].busy || t.frames[pf].dirty {
          ghost var t1, view1 := t, view;
          Settle(pf);
          KeptTransitive(old(t), old(view), t1, view1, t, view);
          SameTransitive(old(t), old(view), t1, view1, t, view);
          i := 0;
        } else {
          i := i + 1;
        }
      }
      NoneUnclean(t.frames, t.alloc);
    }

    /**
     The inner loop of pageoutd_run. It reclaims from the head of the allocated list, so the frames it takes are
     exactly the least recently requested ones; pinned frames stay, and no saved contents are lost.
     */
    method Pageout(free: nat, target: nat) returns (free': nat)
      requires Valid() && NoFills(t, view)
      modifies this
      ensures Valid() && NoFills(t, view) && Kept(old(t), old(view), t, view)
      ensures free' >= target || t.alloc == []
      ensures |t.alloc| + free' == |old(t.alloc)| + free && t.pinned == old(t.pinned)
      ensures |t.alloc| <= |old(t.alloc)| && t.alloc == old(t.alloc)[|old(t.alloc)| - |t.alloc|..]
      ensures free' <= Max(free, target) && uses == old(uses)
      ensures forall p, q :: p in old(t.alloc) && p !in t.alloc && q in t.alloc ==> LastUse(uses, p) < LastUse(uses, q)
    {
      hide TablesOk, Kept, SameContents, NoFills, Did, Unclean, LastUse;
      Ordered();
      free' := free;
      KeptSelf(t, view);
      while free' < target && t.alloc != []
        invariant Valid() && NoFills(t, view) && Kept(old(t), old(view), t, view)
        invariant |t.alloc| + free' == |old(t.alloc)| + free && t.pinned == old(t.pinned)
        invariant |t.alloc| <= |old(t.alloc)| && t.alloc == old(t.alloc)[|old(t.alloc)| - |t.alloc|..]
        invariant free' <= Max(free, target) && uses == old(uses)
        decreases |t.alloc|, Unclean(t.frames)
      {
        var pf := t.alloc[0];
        ghost var t1, view1 := t, view;
        Allocated(pf);
        if t.frames[pf].busy || t.frames[pf].dirty {
          Settle(pf);
        } else {
          assert Without(t.alloc, pf) == t.alloc[1..];
          Indexed(pf);
          Evict(pf, t.frames[pf].Id());
          StillNoFills(t1, view1, t, view);
          free' := free' + 1;
        }
        KeptTransitive(old(t), old(view), t1, view1, t, view);
      }
      forall p, q | p in old(t.alloc) && p !in t.alloc && q in t.alloc ensures LastUse(uses, p) < LastUse(uses, q) {
        HeadIsOldest(old(t.alloc), t.alloc, uses, p, q);
      }
    }

    lemma Ordered()
      requires Valid()
      ensures InOrder(t.alloc, uses)
    {
      hide IndexOk, ViewOk, HashOk, PagingOk, InOrder;
    }
  }

  lemma StillNoFills(t: Tables, view: map<Key, Frame>, t': Tables, view': map<Key, Frame>)
    requires NoFills(t, view) && t'.handed == t.handed && forall k :: k in view' ==> k in view && view'[k] == view[k]
    ensures NoFills(t', view')
  {
  }

  lemma KeptSelf(t: Tables, view: map<Key, Frame>)
    ensures Kept(t, view, t, view) && SameContents(t, view, t, view)
  {
  }

  lemma SameTransitive(t: Tables, view: map<Key, Frame>, t': Tables, view': map<Key, Frame>, t'': Tables,
                       view'': map<Key, Frame>)
    requires SameContents(t, view, t', view') && SameContents(t', view', t'', view'')
    ensures SameContents(t, view, t'', view'')
  {
    hide LifeOf;
  }

  lemma FilledLife(t: Tables, view: map<Key, Frame>, t': Tables, view': map<Key, Frame>, k: Key)
    requires k !in view && t'.disk == t.disk && t'.handed == t.handed
    requires view' == view[k := Frame(Stored(t.disk, k), 0, false, false)]
    ensures Did(t, view, t', view', k, LifeOp.Fill) && SameContents(t, view, t', view')
  {
  }

  lemma EvictedLife(t: Tables, view: map<Key, Frame>, t': Tables, view': map<Key, Frame>, k: Key)
    requires k in view && view[k].pins == 0 && !view[k].busy && !view[k].dirty
    requires t'.disk == t.disk && t'.handed == t.handed && view' == view - {k}
    ensures Did(t, view, t', view', k, LifeOp.Evict)
    ensures SameContents(t, view, t', view') <==> k !in Unsaved(t, view)
  {
    assert Contents(LifeOf(t', view', k)) == Stored(t.disk, k);
    if k !in Unsaved(t, view) {
      forall j: Key ensures Contents(LifeOf(t', view', j)) == Contents(LifeOf(t, view, j)) {
        assert LifeOf(t', view', j) == if j == k then Apply(LifeOf(t, view, k), LifeOp.Evict) else LifeOf(t, view, j);
      }
    }
  }

  lemma NoneUnclean(frames: map<FrameId, Pframe>, alloc: seq<FrameId>)
    requires Lists(alloc, Unpinned(frames))
    requires forall j :: 0 <= j < |alloc| ==> alloc[j] !in Unclean(frames)
    ensures Unclean(frames) == {}
  {
    ListsMembers(alloc, Unpinned(frames));
    assert Unclean(frames) <= Unpinned(frames);
  }
}
