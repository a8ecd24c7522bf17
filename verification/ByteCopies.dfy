/** Kernel copies in and out of an address space, byte by byte: vmmap_read and vmmap_write. */
module ByteCopies {
  import opened PageTypes
  import opened AreaList
  import opened MemObjects
  import opened EagerCopy
  import opened Accesses

  // ----- Bytes of a process -----

  // What process i reads in page v.
  function PageData(s: AState, i: nat, v: nat): Page {
    if i < |s.spaces| && v in s.spaces[i] then Contents(s, s.spaces[i][v].cell) else ZeroPage()
  }

  function ByteAt(s: AState, i: nat, addr: nat): Byte {
    PageData(s, i, addr / PAGE_SIZE)[addr % PAGE_SIZE]
  }

  // A page with some bytes stored at an offset.
  function Patched(page: Page, at: nat, bytes: seq<Byte>): Page
    requires at + |bytes| <= PAGE_SIZE
  {
    page[..at] + bytes + page[at + |bytes|..]
  }

  // How much of a copy falls into its first page.
  function Chunk(addr: nat, count: nat): (n: nat)
    ensures n <= count && addr % PAGE_SIZE + n <= PAGE_SIZE && (count > 0 ==> n > 0)
  {
    Min(count, PAGE_SIZE - addr % PAGE_SIZE)
  }

  // Page v holds some byte of [addr, addr + count).
  predicate Touched(addr: nat, count: nat, v: nat) {
    count > 0 && addr < (v + 1) * PAGE_SIZE && v * PAGE_SIZE < addr + count
  }

  // The pages of [addr, addr + count) are those from lo to hi.
  ghost predicate TouchedPages(addr: nat, count: nat, lo: nat, hi: nat) {
    forall v: nat :: Touched(addr, count, v) <==> lo <= v < hi
  }

  /** Storing buf at addr, one page at a time. */
  function WriteBytes(s: AState, i: nat, addr: nat, buf: seq<Byte>): AState
    decreases |buf|
  {
    if buf == [] then s
    else
      var n := Chunk(addr, |buf|);
      var v := addr / PAGE_SIZE;
      WriteBytes(Step(s, Write(i, v, Patched(PageData(s, i, v), addr % PAGE_SIZE, buf[..n]))), i, addr + n, buf[n..])
  }

  // ----- The round trip -----

  ghost predicate MappedFor(s: AState, i: nat, addr: nat, count: nat) {
    i < |s.spaces| && forall v: nat :: Touched(addr, count, v) ==> v in s.spaces[i]
  }

  // A store to page v of process i does not show in page w of process j.
  predicate Separate(s: AState, i: nat, v: nat, j: nat, w: nat)
    requires i < |s.spaces| && j < |s.spaces| && v in s.spaces[i] && w in s.spaces[j]
  {
    (i == j && v == w) || s.spaces[i][v].flags == Private || s.spaces[i][v].cell.Own?
    || s.spaces[i][v].cell != s.spaces[j][w].cell
  }

  ghost predicate AllSeparate(s: AState, i: nat, addr: nat, count: nat, j: nat, w: nat)
    requires MappedFor(s, i, addr, count) && j < |s.spaces| && w in s.spaces[j]
  {
    forall v: nat :: Touched(addr, count, v) ==> Separate(s, i, v, j, w)
  }

  lemma WritePage(s: AState, i: nat, v: nat, data: Page, j: nat, w: nat)
    requires i < |s.spaces| && j < |s.spaces| && v in s.spaces[i] && w in s.spaces[j] && Separate(s, i, v, j, w)
    ensures var t := Step(s, Write(i, v, data));
            |t.spaces| == |s.spaces| && (forall x :: 0 <= x < |t.spaces| ==> t.spaces[x].Keys == s.spaces[x].Keys) &&
            PageData(t, j, w) == if i == j && v == w then data else PageData(s, j, w)
  {
  }

  lemma StillSeparate(s: AState, i: nat, v: nat, data: Page, u: nat, j: nat, w: nat)
    requires i < |s.spaces| && j < |s.spaces| && v in s.spaces[i] && u in s.spaces[i] && w in s.spaces[j]
             && Separate(s, i, u, j, w)
    ensures var t := Step(s, Write(i, v, data));
            |t.spaces| == |s.spaces| && u in t.spaces[i] && w in t.spaces[j] && Separate(t, i, u, j, w)
  {
  }

  lemma FirstPage(addr: nat, count: nat)
    requires count > 0
    ensures Touched(addr, count, addr / PAGE_SIZE)
    ensures forall v: nat :: Touched(addr + Chunk(addr, count), count - Chunk(addr, count), v) ==>
                               Touched(addr, count, v)
  {
  }

  // An address lies in the first chunk exactly when it is in the first page at an offset that was written.
  lemma InChunk(addr: nat, count: nat, b: nat)
    requires count > 0
    ensures var n, at := Chunk(addr, count), addr % PAGE_SIZE;
            addr <= b < addr + n <==> b / PAGE_SIZE == addr / PAGE_SIZE && at <= b % PAGE_SIZE < at + n
    ensures addr <= b < addr + Chunk(addr, count) ==> b % PAGE_SIZE - addr % PAGE_SIZE == b - addr
  {
    assert addr == addr / PAGE_SIZE * PAGE_SIZE + addr % PAGE_SIZE;
    assert b == b / PAGE_SIZE * PAGE_SIZE + b % PAGE_SIZE;
  }

  // One chunk of the copy, seen at one byte.
  lemma ChunkWritten(s: AState, i: nat, addr: nat, buf: seq<Byte>, j: nat, b: nat)
    requires buf != [] && MappedFor(s, i, addr, |buf|) && j < |s.spaces| && b / PAGE_SIZE in s.spaces[j]
    requires AllSeparate(s, i, addr, |buf|, j, b / PAGE_SIZE)
    ensures var n, v := Chunk(addr, |buf|), addr / PAGE_SIZE;
            var t := Step(s, Write(i, v, Patched(PageData(s, i, v), addr % PAGE_SIZE, buf[..n])));
            && ByteAt(t, j, b) == (if i == j && addr <= b < addr + n then buf[b - addr] else ByteAt(s, j, b))
            && MappedFor(t, i, addr + n, |buf| - n) && j < |t.spaces| && b / PAGE_SIZE in t.spaces[j]
            && AllSeparate(t, i, addr + n, |buf| - n, j, b / PAGE_SIZE)
  {
    hide Step, Chunk;
    var n, v, w := Chunk(addr, |buf|), addr / PAGE_SIZE, b / PAGE_SIZE;
    var data := Patched(PageData(s, i, v), addr % PAGE_SIZE, buf[..n]);
    var t := Step(s, Write(i, v, data));
    FirstPage(addr, |buf|);
    InChunk(addr, |buf|, b);
    WritePage(s, i, v, data, j, w);
    forall u: nat | Touched(addr + n, |buf| - n, u) ensures u in t.spaces[i] && Separate(t, i, u, j, w) {
      StillSeparate(s, i, v, data, u, j, w);
    }
  }

  /**
   After a copy to [addr, addr + |buf|), a byte there reads as written and any other byte, of any
   process, as before, if its page shares no object page with another page of the copy.
   */
  lemma {:induction false} WriteBytesAt(s: AState, i: nat, addr: nat, buf: seq<Byte>, j: nat, b: nat)
    requires MappedFor(s, i, addr, |buf|) && j < |s.spaces| && b / PAGE_SIZE in s.spaces[j]
    requires AllSeparate(s, i, addr, |buf|, j, b / PAGE_SIZE)
    ensures ByteAt(WriteBytes(s, i, addr, buf), j, b) ==
            if i == j && addr <= b < addr + |buf| then buf[b - addr] else ByteAt(s, j, b)
    decreases |buf|
  {
    hide Step, Chunk, Touched, AllSeparate, MappedFor, ByteAt;
    if buf != [] {
      var n, v := Chunk(addr, |buf|), addr / PAGE_SIZE;
      ChunkWritten(s, i, addr, buf, j, b);
      WriteBytesAt(Step(s, Write(i, v, Patched(PageData(s, i, v), addr % PAGE_SIZE, buf[..n]))), i, addr + n, buf[n..],
                   j, b);
    }
  }

  // ----- The reading side -----

  // The area that holds page v.
  function AreaOf(areas: seq<Area>, v: nat): Option<Area> {
    if areas == [] then None else if Covers(areas[0], v) then Some(areas[0]) else AreaOf(areas[1..], v)
  }

  lemma {:induction false} AreaOfPage(areas: seq<Area>, v: nat)
    ensures AreaOf(areas, v).Some? <==> PageAt(areas, v).Some?
    ensures AreaOf(areas, v).Some? ==>
              && AreaOf(areas, v).value in areas && Covers(AreaOf(areas, v).value, v)
              && PageAt(areas, v) == Some(MappingOf(AreaOf(areas, v).value, v))
  {
    if areas != [] && !Covers(areas[0], v) {
      AreaOfPage(areas[1..], v);
    }
  }

  // Areas do not overlap, so any area that holds the page is the one.
  lemma {:induction false} OnlyArea(areas: seq<Area>, v: nat, a: Area)
    requires WellFormed(areas) && a in areas && Covers(a, v)
    ensures AreaOf(areas, v) == Some(a)
  {
    if a == areas[0] {
    } else {
      assert a in areas[1..];
      OnlyArea(areas[1..], v, a);
    }
  }

  /** The object page vmmap_read looks up: the area's offset is taken away, not added, in 32-bit arithmetic. */
  function ReadNumber(a: Area, v: nat): nat {
    (v - (a.start + a.off)) % WORD
  }

  /** vmmap_read looks at the page that is mapped if and only if the area starts at its object's first page. */
  lemma ReadNumberExact(a: Area, v: nat)
    requires AreaOk(a) && Covers(a, v)
    ensures ReadNumber(a, v) == ObjPage(a, v) <==> a.off == 0
  {
    if a.off > v - a.start {
      assert ReadNumber(a, v) == v - (a.start + a.off) + WORD;
    }
  }

  lemma ReadNumberExample()
    ensures var a := Area(USER_LOW, USER_LOW + 1, 1, Prot(true, true, false), Private, 7);
            AreaOk(a) && ObjPage(a, USER_LOW) == 1 && ReadNumber(a, USER_LOW) == WORD - 1
  {
  }

  // The byte vmmap_read finds at an address.
  function ReadByte(m: Mem, areas: seq<Area>, addr: nat): Byte {
    match AreaOf(areas, addr / PAGE_SIZE)
    case None => 0
    case Some(a) => View(m, a.obj, ReadNumber(a, addr / PAGE_SIZE))[addr % PAGE_SIZE]
  }

  function ReadBytes(m: Mem, areas: seq<Area>, addr: nat, count: nat): seq<Byte> {
    seq(count, x requires 0 <= x => ReadByte(m, areas, addr + x))
  }

  lemma ReadBytesConcat(m: Mem, areas: seq<Area>, addr: nat, k: nat, n: nat)
    ensures ReadBytes(m, areas, addr, k) + ReadBytes(m, areas, addr + k, n) == ReadBytes(m, areas, addr, k + n)
  {
    hide ReadByte;
  }

  lemma SamePage(at: nat, x: nat)
    requires at % PAGE_SIZE + x < PAGE_SIZE
    ensures (at + x) / PAGE_SIZE == at / PAGE_SIZE && (at + x) % PAGE_SIZE == at % PAGE_SIZE + x
  {
  }

  // Bytes copied out of one page are the bytes at consecutive addresses.
  lemma ChunkRead(m: Mem, areas: seq<Area>, at: nat, n: nat, page: Page)
    requires at % PAGE_SIZE + n <= PAGE_SIZE && AreaOf(areas, at / PAGE_SIZE).Some?
    requires page == View(m, AreaOf(areas, at / PAGE_SIZE).value.obj,
                          ReadNumber(AreaOf(areas, at / PAGE_SIZE).value, at / PAGE_SIZE))
    ensures page[at % PAGE_SIZE..at % PAGE_SIZE + n] == ReadBytes(m, areas, at, n)
  {
    hide View, ReadNumber, AreaOf;
    var got, want := page[at % PAGE_SIZE..at % PAGE_SIZE + n], ReadBytes(m, areas, at, n);
    forall x | 0 <= x < n ensures got[x] == want[x] {
      SamePage(at, x);
      assert want[x] == ReadByte(m, areas, at + x);
      assert got[x] == page[(at + x) % PAGE_SIZE];
    }
  }

  lemma WriteBytesStep(s: AState, i: nat, addr: nat, buf: seq<Byte>, n: nat, v: nat)
    requires buf != [] && n == Chunk(addr, |buf|) && v == addr / PAGE_SIZE
    ensures WriteBytes(s, i, addr, buf) ==
            WriteBytes(Step(s, Write(i, v, Patched(PageData(s, i, v), addr % PAGE_SIZE, buf[..n]))), i, addr + n,
                       buf[n..])
  {
  }

  /**
   After a store to a mapped page vmmap_read finds the new contents if the area's offset is zero, and
   otherwise finds what it found before, whatever was stored.
   */
  lemma ReadAfterWrite(m: Mem, n: Mem, a: Area, v: nat, data: Page)
    requires AreaOk(a) && Covers(a, v) && a.obj in m.objs && Wrote(m, n, Key(a.obj, ObjPage(a, v)), data)
    ensures View(n, a.obj, ReadNumber(a, v)) == if a.off == 0 then data else View(m, a.obj, ReadNumber(a, v))
  {
    ReadNumberExact(a, v);
    WroteView(m, n, Key(a.obj, ObjPage(a, v)), data, a.obj, ReadNumber(a, v));
  }
}
