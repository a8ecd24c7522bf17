/**
 The meaning of private and shared memory without any sharing tricks: a private page holds its own
 contents and fork copies it at once. Copy-on-write is correct when it cannot be told from this.
 A private mapping of a file still shows the file on pages that were never written.
 */
module EagerCopy {
  import opened PageTypes

  datatype Cell = Own(data: Page) | Alias(key: Key)

  datatype APage = APage(cell: Cell, prot: Prot, flags: MapType)

  // One page map per process, and the contents of everything that can be shared.
  datatype AState = AState(spaces: seq<map<nat, APage>>, store: map<Key, Page>)

  function Contents(s: AState, c: Cell): Page {
    match c
    case Own(d) => d
    case Alias(k) => Stored(s.store, k)
  }

  function Get(space: map<nat, APage>, v: nat): Option<APage> {
    if v in space then Some(space[v]) else None
  }

  datatype Event =
    | Open(bottom: ObjId, pages: map<nat, Page>)
    | Revert(key: Key, stored: Page)
    | Map(i: nat, lo: nat, n: nat, prot: Prot, flags: MapType, bottom: ObjId, file: bool, off: nat)
    | Unmap(i: nat, lo: nat, hi: nat)
    | Extend(i: nat, added: map<nat, APage>)
    | Fork(i: nat)
    | Exit(i: nat)
    | Touch(i: nat, v: nat)
    | Write(i: nat, v: nat, data: Page)

  // A new page: zeros of its own, unless it shows a shared object or a file.
  function FreshCell(flags: MapType, bottom: ObjId, file: bool, page: nat): Cell {
    if flags == Private && !file then Own(ZeroPage()) else Alias(Key(bottom, page))
  }

  predicate From(lo: nat, v: nat) { lo <= v }

  function MapRange(space: map<nat, APage>, lo: nat, n: nat, prot: Prot, flags: MapType, bottom: ObjId, file: bool,
                    off: nat): map<nat, APage> {
    space + map v: nat | v < lo + n && From(lo, v) :: APage(FreshCell(flags, bottom, file, off + (v - lo)), prot, flags)
  }

  function UnmapRange(space: map<nat, APage>, lo: nat, hi: nat): map<nat, APage> {
    map v | v in space && !(lo <= v < hi) :: space[v]
  }

  // A file becomes available under a name nothing uses yet.
  function OpenFile(store: map<Key, Page>, bottom: ObjId, pages: map<nat, Page>): map<Key, Page> {
    store + map p | p in pages :: Key(bottom, p) := pages[p]
  }

  // Process j acts in event e. Files become available, and lose what was never written back, by themselves.
  predicate By(e: Event, j: nat) { !e.Open? && !e.Revert? && e.i == j }

  function Step(s: AState, e: Event): AState {
    if e.Open? then s.(store := OpenFile(s.store, e.bottom, e.pages)) else
    if e.Revert? then s.(store := s.store[e.key := e.stored]) else
    if e.i >= |s.spaces| then s else
    var space := s.spaces[e.i];
    match e
    case Map(i, lo, n, prot, flags, bottom, file, off) =>
      s.(spaces := s.spaces[i := MapRange(space, lo, n, prot, flags, bottom, file, off)])
    case Unmap(i, lo, hi) =>
      s.(spaces := s.spaces[i := UnmapRange(space, lo, hi)])
    case Extend(i, added) =>
      s.(spaces := s.spaces[i := space + added])
    case Fork(i) =>
      s.(spaces := s.spaces + [space])
    case Exit(i) =>
      s.(spaces := s.spaces[i := map[]])
    case Touch(i, v) =>
      if v !in space || space[v].flags == Shared then s
      else s.(spaces := s.spaces[i := space[v := space[v].(cell := Own(Contents(s, space[v].cell)))]])
    case Write(i, v, data) =>
      if v !in space then s
      else if space[v].flags == Private || space[v].cell.Own? then
        s.(spaces := s.spaces[i := space[v := space[v].(cell := Own(data))]])
      else s.(store := s.store[space[v].cell.key := data])
  }

  // Storing into a page makes no difference between making it private first and not.
  lemma TouchThenWrite(s: AState, i: nat, v: nat, data: Page)
    ensures Step(Step(s, Touch(i, v)), Write(i, v, data)) == Step(s, Write(i, v, data))
  {
    if i < |s.spaces| && v in s.spaces[i] && s.spaces[i][v].flags == Private {
      var t := Step(s, Touch(i, v));
      assert t.spaces[i][v := t.spaces[i][v].(cell := Own(data))] ==
             s.spaces[i][v := s.spaces[i][v].(cell := Own(data))];
    }
  }

  // Mapping over a range makes no difference between clearing it first and not.
  lemma UnmapThenMap(s: AState, i: nat, lo: nat, n: nat, prot: Prot, flags: MapType, bottom: ObjId, file: bool,
                     off: nat)
    ensures Step(Step(s, Unmap(i, lo, lo + n)), Map(i, lo, n, prot, flags, bottom, file, off)) ==
            Step(s, Map(i, lo, n, prot, flags, bottom, file, off))
  {
    if i < |s.spaces| {
      var e := Map(i, lo, n, prot, flags, bottom, file, off);
      var t := Step(s, Unmap(i, lo, lo + n));
      assert MapRange(t.spaces[i], lo, n, prot, flags, bottom, file, off) ==
             MapRange(s.spaces[i], lo, n, prot, flags, bottom, file, off);
    }
  }

  function Run(s: AState, es: seq<Event>): AState {
    if es == [] then s else Step(Run(s, es[..|es| - 1]), es[|es| - 1])
  }

  lemma RunSnoc(s: AState, es: seq<Event>, e: Event)
    ensures Run(s, es + [e]) == Step(Run(s, es), e)
  {
    assert (es + [e])[..|es|] == es;
  }

  lemma {:induction false} RunConcat(s: AState, es: seq<Event>, fs: seq<Event>)
    ensures Run(s, es + fs) == Run(Run(s, es), fs)
  {
    if fs == [] {
      assert es + fs == es;
    } else {
      var g := fs[..|fs| - 1];
      assert (es + fs)[..|es + fs| - 1] == es + g;
      RunConcat(s, es, g);
    }
  }

  // ----- One event -----

  /** After an event page v of process j is mapped exactly in these cases, with this protection and in this way. */
  lemma MappedExactly(s: AState, e: Event, j: nat, v: nat)
    requires j < |s.spaces| && (e.Open? || e.Revert? || e.i < |s.spaces|)
    ensures var t := Step(s, e);
            && |t.spaces| == (if e.Fork? then |s.spaces| + 1 else |s.spaces|)
            && (v in t.spaces[j] <==> || (e.Map? && e.i == j && e.lo <= v < e.lo + e.n)
                                      || (e.Extend? && e.i == j && v in e.added)
                                      || (v in s.spaces[j] && e != Exit(j)
                                          && !(e.Unmap? && e.i == j && e.lo <= v < e.hi)))
            && (e.Fork? ==> t.spaces[|s.spaces|] == s.spaces[e.i])
            && (v in t.spaces[j] ==>
                  if e.Map? && e.i == j && e.lo <= v < e.lo + e.n
                  then t.spaces[j][v].prot == e.prot && t.spaces[j][v].flags == e.flags
                  else if e.Extend? && e.i == j && v in e.added then t.spaces[j][v] == e.added[v]
                    else t.spaces[j][v].prot == s.spaces[j][v].prot && t.spaces[j][v].flags == s.spaces[j][v].flags)
  {
    if e.Map? {
      assert forall u: nat :: u in MapRange(s.spaces[e.i], e.lo, e.n, e.prot, e.flags, e.bottom, e.file, e.off) <==>
                              u in s.spaces[e.i] || (From(e.lo, u) && u < e.lo + e.n);
    }
  }

  /**
   A store into a page is read in that page and, if the page is shared, wherever the same page of the same object is
   mapped and has not been copied. Nothing else reads differently.
   */
  lemma StoreSeen(s: AState, i: nat, v: nat, data: Page, j: nat, u: nat)
    requires i < |s.spaces| && v in s.spaces[i] && j < |s.spaces| && u in s.spaces[j]
    ensures var t := Step(s, Write(i, v, data));
            u in t.spaces[j] && Contents(t, t.spaces[j][u].cell) ==
                                if (j == i && u == v) || (s.spaces[i][v].flags == Shared && s.spaces[i][v].cell.Alias?
                                                          && s.spaces[j][u].cell == s.spaces[i][v].cell) then data
                                else Contents(s, s.spaces[j][u].cell)
  {
  }

  // Process j has page v shared, as page k of an object.
  predicate SharesPage(s: AState, j: nat, v: nat, k: Key) {
    j < |s.spaces| && v in s.spaces[j] && s.spaces[j][v].flags == Shared && s.spaces[j][v].cell == Alias(k)
  }

  /** Whatever all processes do, everyone who keeps a page of an object mapped and shared reads the same there. */
  lemma {:induction false} SharedTogether(s: AState, es: seq<Event>, j: nat, v: nat, j': nat, v': nat, k: Key)
    requires SharesPage(s, j, v, k) && SharesPage(s, j', v', k)
    requires forall x :: 0 <= x < |es| ==> !Remaps(es[x], j, v) && !Remaps(es[x], j', v')
    ensures var t := Run(s, es);
            SharesPage(t, j, v, k) && SharesPage(t, j', v', k)
            && Contents(t, t.spaces[j][v].cell) == Contents(t, t.spaces[j'][v'].cell) == Stored(t.store, k)
  {
    hide Step, Remaps, By;
    if es != [] {
      var n := |es| - 1;
      SharedTogether(s, es[..n], j, v, j', v', k);
      SharerKept(Run(s, es[..n]), es[n], j, v, k);
      SharerKept(Run(s, es[..n]), es[n], j', v', k);
    }
  }

  lemma SharerKept(s: AState, e: Event, j: nat, v: nat, k: Key)
    requires SharesPage(s, j, v, k) && !Remaps(e, j, v)
    ensures SharesPage(Step(s, e), j, v, k)
  {
  }

  // ----- Isolation -----

  /** A process's map changes by its own events only. */
  lemma OthersUntouched(s: AState, e: Event, j: nat)
    requires j < |s.spaces| && !By(e, j)
    ensures |Step(s, e).spaces| >= |s.spaces| && Step(s, e).spaces[j] == s.spaces[j]
  {
  }

  // The events of process j that take page v away or put another mapping there.
  predicate Remaps(e: Event, j: nat, v: nat) {
    By(e, j) && match e
                case Map(_, lo, n, _, _, _, _, _) => lo <= v < lo + n
                case Unmap(_, lo, hi) => lo <= v < hi
                case Extend(_, added) => v in added
                case Exit(_) => true
                case _ => false
  }

  // Contents d overlaid with what process j wrote to page v in a run.
  function Overlaid(d: Page, es: seq<Event>, j: nat, v: nat): Page {
    if es == [] then d
    else
      var e := es[|es| - 1];
      if e.Write? && By(e, j) && e.v == v then e.data else Overlaid(d, es[..|es| - 1], j, v)
  }

  // One event of anyone, seen at a private page that process j keeps.
  lemma PageKept(s: AState, e: Event, j: nat, v: nat)
    requires j < |s.spaces| && v in s.spaces[j] && s.spaces[j][v].flags == Private && s.spaces[j][v].cell.Own?
             && !Remaps(e, j, v)
    ensures var t := Step(s, e);
            j < |t.spaces| && v in t.spaces[j] &&
            t.spaces[j][v] == if e.Write? && By(e, j) && e.v == v then s.spaces[j][v].(cell := Own(e.data))
            else s.spaces[j][v]
  {
  }

  /**
   Whatever all processes do, including further forks, a private page that process j keeps mapped
   holds what it held overlaid with j's own writes.
   */
  lemma {:induction false} PrivateIsolation(s: AState, es: seq<Event>, j: nat, v: nat, d: Page)
    requires j < |s.spaces| && v in s.spaces[j] && s.spaces[j][v].flags == Private && s.spaces[j][v].cell == Own(d)
    requires forall x :: 0 <= x < |es| ==> !Remaps(es[x], j, v)
    ensures var t := Run(s, es);
            && j < |t.spaces| && v in t.spaces[j]
            && t.spaces[j][v] == s.spaces[j][v].(cell := Own(Overlaid(d, es, j, v)))
  {
    hide Step, Remaps, By;
    if es != [] {
      PrivateIsolation(s, es[..|es| - 1], j, v, d);
      PageKept(Run(s, es[..|es| - 1]), es[|es| - 1], j, v);
    }
  }

  /**
   After a fork, parent and child each read a private page as it was at the fork, overlaid with
   their own writes and nobody else's.
   */
  lemma ForkIsolation(s: AState, i: nat, es: seq<Event>, j: nat, v: nat, d: Page)
    requires i < |s.spaces| && v in s.spaces[i] && s.spaces[i][v].flags == Private && s.spaces[i][v].cell == Own(d)
    requires j == i || j == |s.spaces|
    requires forall x :: 0 <= x < |es| ==> !Remaps(es[x], j, v)
    ensures var t := Run(s, [Fork(i)] + es);
            && j < |t.spaces| && v in t.spaces[j]
            && Contents(t, t.spaces[j][v].cell) == Overlaid(d, es, j, v)
  {
    hide Overlaid, Remaps;
    RunConcat(s, [Fork(i)], es);
    assert Run(s, [Fork(i)]) == Step(s, Fork(i)) by {
      assert [Fork(i)][..0] == [];
    }
    PrivateIsolation(Step(s, Fork(i)), es, j, v, d);
  }
}
