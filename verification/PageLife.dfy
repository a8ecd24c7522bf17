/**
 One page between its frame and the backing store: what pinning, cleaning, filling and eviction do to its
 contents, and which stores survive them.
 */
module PageLife {
  import opened PageTypes

  // A resident page, and the data given to the device if it is being written out.
  datatype Held = Held(frame: Frame, handed: Option<Page>)

  datatype Life = Life(held: Option<Held>, stored: Page)

  // The page's contents: its frame if resident, otherwise the backing store.
  function Contents(l: Life): Page {
    if l.held.Some? then l.held.value.frame.data else l.stored
  }

  /** What the backing store holds, or will hold once a write in progress succeeds. */
  function Settled(l: Life): Page {
    if l.held.Some? && l.held.value.frame.busy && l.held.value.handed.Some? then l.held.value.handed.value else l.stored
  }

  /** The contents are in the backing store, on their way there, or marked to be written. */
  predicate Saved(l: Life) {
    l.held.None? || l.held.value.frame.dirty || l.held.value.frame.data == Settled(l)
  }

  datatype LifeOp = Fill | Pin | Unpin | CleanBegin | CleanEnd(ok: bool) | Evict

  // The assertions of the code, and what its callers look at first.
  predicate Allowed(l: Life, op: LifeOp) {
    if l.held.None? then op == Fill
    else
      var fr := l.held.value.frame;
      match op
      case Fill => false
      case Pin => true
      case Unpin => fr.pins > 0
      case CleanBegin => fr.dirty && fr.pins == 0 && !fr.busy
      case CleanEnd(_) => fr.busy && l.held.value.handed.Some?
      case Evict => fr.pins == 0 && !fr.busy && !fr.dirty
  }

  function Apply(l: Life, op: LifeOp): Life
    requires Allowed(l, op)
  {
    if op == Fill then l.(held := Some(Held(Frame(l.stored, 0, false, false), None)))
    else
      var h, fr := l.held.value, l.held.value.frame;
      match op
      case Pin => l.(held := Some(h.(frame := fr.(pins := fr.pins + 1))))
      case Unpin => l.(held := Some(h.(frame := fr.(pins := fr.pins - 1))))
      case CleanBegin => l.(held := Some(Held(fr.(busy := true, dirty := false), Some(fr.data))))
      case CleanEnd(ok) =>
        Life(Some(Held(fr.(busy := false, dirty := fr.dirty || !ok), None)), if ok then h.handed.value else l.stored)
      case Evict => l.(held := None)
  }

  // pframe_dirty and a store: the page is marked to be written.
  function Marked(l: Life, data: Page): Life
    requires l.held.Some?
  {
    l.(held := Some(l.held.value.(frame := l.held.value.frame.(data := data, dirty := true))))
  }

  // A store through a translation, which marks nothing.
  function Poked(l: Life, data: Page): Life
    requires l.held.Some?
  {
    l.(held := Some(l.held.value.(frame := l.held.value.frame.(data := data))))
  }

  ghost predicate Lives(l: Life, ops: seq<LifeOp>, l': Life)
    decreases |ops|
  {
    if ops == [] then l == l' else Allowed(l, ops[0]) && Lives(Apply(l, ops[0]), ops[1..], l')
  }

  // ----- Contents that are saved survive -----

  lemma SavedKept(l: Life, op: LifeOp)
    requires Allowed(l, op) && Saved(l)
    ensures Saved(Apply(l, op)) && Contents(Apply(l, op)) == Contents(l)
  {
  }

  /** Whatever is done to a page, its contents survive if they are saved. */
  lemma {:induction false} Survives(l: Life, ops: seq<LifeOp>, l': Life)
    requires Saved(l) && Lives(l, ops, l')
    ensures Saved(l') && Contents(l') == Contents(l)
    decreases |ops|
  {
    if ops != [] {
      SavedKept(l, ops[0]);
      Survives(Apply(l, ops[0]), ops[1..], l');
    }
  }

  lemma MarkedIsSaved(l: Life, data: Page)
    requires l.held.Some?
    ensures Saved(Marked(l, data)) && Contents(Marked(l, data)) == data
  {
  }

  ghost predicate AlwaysHolds(l: Life, data: Page) {
    forall ops, l' :: Lives(l, ops, l') ==> Contents(l') == data
  }

  /** A store that marks the page survives every later run. */
  lemma MarkedStore(l: Life, data: Page)
    requires l.held.Some?
    ensures AlwaysHolds(Marked(l, data), data)
  {
    MarkedIsSaved(l, data);
    forall ops, l' | Lives(Marked(l, data), ops, l') ensures Contents(l') == data {
      Survives(Marked(l, data), ops, l');
    }
  }

  // ----- Contents that are not saved can be lost -----

  // Unpin until nothing pins the page, then evict it.
  function Drain(pins: nat): seq<LifeOp> {
    if pins == 0 then [Evict] else [Unpin] + Drain(pins - 1)
  }

  lemma {:induction false} DrainLoses(l: Life)
    requires l.held.Some? && !l.held.value.frame.busy && !l.held.value.frame.dirty
    ensures Lives(l, Drain(l.held.value.frame.pins), Life(None, l.stored))
    decreases l.held.value.frame.pins
  {
    var pins := l.held.value.frame.pins;
    if pins == 0 {
      assert Lives(Apply(l, Evict), [], Life(None, l.stored));
    } else {
      DrainLoses(Apply(l, Unpin));
      assert ([Unpin] + Drain(pins - 1))[1..] == Drain(pins - 1);
    }
  }

  // A write in progress succeeds first.
  function Ruin(l: Life): seq<LifeOp>
    requires l.held.Some?
  {
    (if l.held.value.frame.busy then [CleanEnd(true)] else []) + Drain(l.held.value.frame.pins)
  }

  lemma RuinLoses(l: Life)
    requires l.held.Some? && !l.held.value.frame.dirty && (l.held.value.frame.busy ==> l.held.value.handed.Some?)
    ensures Lives(l, Ruin(l), Life(None, Settled(l)))
  {
    var pins := l.held.value.frame.pins;
    if l.held.value.frame.busy {
      DrainLoses(Apply(l, CleanEnd(true)));
      assert ([CleanEnd(true)] + Drain(pins))[1..] == Drain(pins);
    } else {
      DrainLoses(l);
      assert [] + Drain(pins) == Drain(pins);
    }
  }

  /**
   An unmarked store into a page whose contents are saved survives every later run of pinning, cleaning and
   eviction if and only if the page was dirty already or the store changed nothing. Being pinned or being
   written out does not help. A busy page is one being written out: one that is being filled has no translation.
   */
  lemma UnmarkedStore(l: Life, data: Page)
    requires l.held.Some? && Saved(l) && (l.held.value.frame.busy ==> l.held.value.handed.Some?)
    ensures AlwaysHolds(Poked(l, data), data) <==> l.held.value.frame.dirty || data == l.held.value.frame.data
  {
    var p := Poked(l, data);
    if l.held.value.frame.dirty || data == l.held.value.frame.data {
      forall ops, l' | Lives(p, ops, l') ensures Contents(l') == data {
        Survives(p, ops, l');
      }
    } else {
      RuinLoses(p);
      assert Contents(Life(None, Settled(p))) != data;
    }
  }

  function OnesPage(): Page { seq(PAGE_SIZE, _ => 1) }

  /** A clean page, pinned once: a store, the unpin and the eviction that follow, and the store is gone. */
  lemma UnmarkedStoreExample()
    ensures var l := Life(Some(Held(Frame(ZeroPage(), 1, false, false), None)), ZeroPage());
            var p := Poked(l, OnesPage());
            && Saved(l) && Lives(p, [Unpin, Evict], Life(None, ZeroPage()))
            && Contents(p) == OnesPage() && Contents(Life(None, ZeroPage())) != OnesPage()
  {
    var l := Life(Some(Held(Frame(ZeroPage(), 1, false, false), None)), ZeroPage());
    var p := Poked(l, OnesPage());
    assert [Unpin, Evict][1..] == [Evict];
    assert Lives(Apply(p, Unpin), [Evict], Life(None, ZeroPage()));
    assert ZeroPage()[0] != OnesPage()[0];
  }
}
