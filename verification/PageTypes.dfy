/** Names shared by the address-space, memory-object and page-cache models. */
module PageTypes {
  const PAGE_SIZE: nat := 4096

  // Page numbers of the lowest user page and of the first page above user space.
  const USER_LOW: nat := 0x400
  const USER_HIGH: nat := 0xC0000

  // Modulus of the kernel's unsigned 32-bit arithmetic.
  const WORD: nat := 0x1_0000_0000

  // A file offset is a 32-bit number, so page offsets stay below 2^20 and areas end below page 2^21 of their object.
  const OFF_LIMIT: nat := 0x20_0000

  newtype Byte = x: int | 0 <= x < 256

  type Page = s: seq<Byte> | |s| == PAGE_SIZE witness seq(PAGE_SIZE, _ => 0)

  function ZeroPage(): Page { seq(PAGE_SIZE, _ => 0) }

  // Memory objects are named by numbers handed out in increasing order; 0 is the null pointer.
  type ObjId = nat

  const NULL: ObjId := 0

  // The identity of a page: a memory object and a page number within it.
  datatype Key = Key(obj: ObjId, page: nat)

  datatype Prot = Prot(read: bool, write: bool, exec: bool)

  datatype MapType = Shared | Private

  datatype Option<+T> = None | Some(value: T)

  // A resident page as its users see it.
  datatype Frame = Frame(data: Page, pins: nat, busy: bool, dirty: bool)

  // Page contents of a store that reads as zeros where nothing was written.
  function Stored(store: map<Key, Page>, k: Key): Page {
    if k in store then store[k] else ZeroPage()
  }

  function Min(a: nat, b: nat): nat { if a < b then a else b }

  function Max(a: nat, b: nat): nat { if a < b then b else a }

  /** The list s holds exactly the members of S, each once. */
  ghost predicate Lists<T>(s: seq<T>, S: set<T>) {
    multiset(s) == multiset(S)
  }

  // Unlinking one element from a list.
  function Without<T(==)>(s: seq<T>, x: T): seq<T> {
    if s == [] then [] else if s[0] == x then s[1..] else [s[0]] + Without(s[1..], x)
  }

  lemma {:induction false} NotThere<T>(s: seq<T>, x: T)
    requires x !in s
    ensures Without(s, x) == s
  {
    if s != [] {
      NotThere(s[1..], x);
      assert s == [s[0]] + s[1..];
    }
  }

  lemma ListsMembers<T>(s: seq<T>, S: set<T>)
    requires Lists(s, S)
    ensures forall x :: x in s <==> x in S
    ensures |s| == |S|
  {
    forall x ensures x in s <==> x in S {
      assert x in s <==> x in multiset(s);
      assert x in S <==> x in multiset(S);
    }
    assert |multiset(s)| == |s|;
    assert |multiset(S)| == |S|;
  }

  lemma ListsAdd<T>(s: seq<T>, S: set<T>, x: T)
    requires Lists(s, S) && x !in S
    ensures Lists(s + [x], S + {x}) && Lists([x] + s, S + {x})
  {
  }

  lemma {:induction false} WithoutMultiset<T>(s: seq<T>, x: T)
    requires x in s
    ensures multiset(Without(s, x)) == multiset(s) - multiset{x}
  {
    assert s == [s[0]] + s[1..];
    if s[0] != x {
      WithoutMultiset(s[1..], x);
    }
  }

  lemma ListsRemove<T>(s: seq<T>, S: set<T>, x: T)
    requires Lists(s, S) && x in S
    ensures Lists(Without(s, x), S - {x}) && |Without(s, x)| == |s| - 1
  {
    ListsMembers(s, S);
    WithoutMultiset(s, x);
    ListsMembers(Without(s, x), S - {x});
  }
}
