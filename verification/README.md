# Address spaces, copy-on-write, threads and processes of the Weenix kernel

A Dafny model of two subsystems of the kernel and proofs of what they promise.

**Virtual memory.** `vmmap.c` keeps a sorted list of areas per process; `anon.c` and `shadow.c` are
reference-counted memory objects that form copy-on-write chains; `pframe.c` is the page cache below them;
`fork.c` puts two new shadow objects over every private area and `pagefault.c` installs translations.
The model follows that layering:

| file | what it holds |
|---|---|
| `PageTypes`, `AreaList`, `Vmmap` | pages, the area list and what it means page by page, searching and inserting |
| `PageLife` | one page between its frame and the backing store, and which stores survive |
| `PageCache` | hash index, pinned and allocated lists, counts, cleaning and eviction |
| `MemObjects`, `References`, `Memory` | chains, what a page reads as, reference counts, the mutually recursive teardown, page lookup |
| `EagerCopy` | the memory a user expects: private pages with contents of their own, copied at once by fork |
| `Spaces`, `NewMappings`, `Forking`, `Accesses` | all address spaces over shared objects refine that memory |
| `Translations`, `ByteCopies`, `Eviction` | page tables and when they can be trusted; kernel copies byte by byte; cleaning and reclaiming pages under live address spaces |
| `AreaLinks`, `Resizing`, `Protection` | the lists of areas that bottom objects keep; areas whose end moves; what translations allow beside what areas allow |
| `VirtualMemory` | class `Vm`: the operations in place, each with the event it stands for |
| `Brk` | the process break, over `Vm` |

The central statement is a refinement. `Vm` carries a ghost state `abs` of the eager machine, and `Valid()`
says that `abs` is what the areas, chains and cache show, that `abs` is the outcome of the recorded run
`trace` from boot, that every reference count is exact, and that no object is both mapped and shadowed. Every
operation keeps `Valid()` and equates the new `abs` with one `Step` of the old, pageout with a run of them, so what is proved about runs
of the eager machine (isolation, above all) holds of every state the copy-on-write code reaches.

**Threads and processes.** `Scheduler`, `Mutexes` and `Processes` with `ProcSteps` are transition systems in
which a step runs from one blocking point to the next; interrupts are steps of their own that may wake a
sleeper. `Threads`, `Kmutex` and `ProcTable` are the same operations in place, with the kernel's loops, proved
equal to those steps. A call that blocks is cut where the thread sleeps. `ThreadLaws` and `ProcLaws` say what the
steps do to each field of a thread, a queue and a process, and what follows over whole runs.
`ProcExample` and `MissedChild` are runs from boot that go wrong.

**Where the code does not do what it says.** The code is kept as it is, and the exact condition is proved:

- `vmmap_read` subtracts the area's offset, where the write and fault paths add it: right if and only if the
  offset is zero (`ReadNumberExact`, `ReadAfterWrite`).
- `vmmap_remove` drops no translations when a range overlaps one end of an area: translations stay good if and
  only if each one in the range lay in an area that contains the range or lies strictly inside it
  (`RemoveCoherent`, `StaleExample`).
- `vmmap_write` makes a private copy and keeps an older translation: good if and only if every translation of
  a written page already led to the page's own frame (`Vm.VmWrite`, `TouchCoherent`, `TouchExample`).
- `vmmap_map` over part of an area leaves the translations `vmmap_remove` does not drop: good if and only if each
  of them leads to the very page the new mapping has there (`Vm.MapArea`, `MapStaleExample`).
- The translations it leaves can also allow stores into a page that is now mapped for reading only. As long as this has
  not happened, every operation of every process keeps it from happening, except that `vmmap_map` does so if and only if
  one left in the range allows more than the new area, and moving an area's end if and only if one on the new pages does
  (`Vm.MapArea`, `Vm.ResizeArea`, `MapPermits`, `ReadOnlyExample`, `WritableReadOnlyExample`). A fault for execution is
  not checked by the code, and not modelled.
- `pframe_remove_from_pts` finds the translations of a page through the list of areas its bottom object keeps, and
  that list is incomplete: the part split off below an unmapped range is on no list, fork lists private areas only,
  and a map made by fork names no process. A reclaim leaves translations good if and only if each that led to the
  page was in a listed area of a map that names its process (`ListedExactly`, `Vm.EvictPage`, `Vm.Pageout`,
  `SplitOffExample`, `StaleReclaimExample`).
- A store through a user translation does not mark the page dirty: it survives every later run of pinning, cleaning
  and eviction if and only if the page was dirty already or nothing changed; being pinned or being written out does
  not help (`UnmarkedStore`, `UnmarkedStoreExample`). `Vm` keeps the set of pages so written, and evicting any other
  page cannot be seen (`Vm.EvictPage`, `Vm.Pageout`).
- `vmmap_find_range` follows a null pointer if and only if the map is empty (`FindRange`).
- `do_brk` goes wrong with a break inside the last page of the region: growth out of that page is always refused,
  and giving the region up removes a wrong area. Its outcome is right if and only if the request is neither, or is
  a growth that another mapping is in the way of (`Heap.Move`, `RefusedGrowthExample`). At the starting break it
  reports success and moves nothing (`Heap.DoBrk`). A region that shrinks keeps its object, so growth brings the old
  contents back (`Regrown`), and translations stay good if and only if no page given up had one (`Heap.Move`,
  `ShrunkTable`, `ShrunkExample`).
- `kmutex_lock_cancellable` unlocks after every interruption: the assertion in `kmutex_unlock` fails if and
  only if a thread that was cancelled while queued comes to run (`PanicRuns`, `PanicExactly`, `DoomedExactly`,
  `CancelledWaiterExample`). The mutex theorems are proved both for the code, whose runs end there, and for
  the intended unlock-if-holding.
- `proc_create` does not look whether `_proc_getid` found an id: ids stay distinct if and only if one was free
  or nobody runs under -1 yet (`PidsDistinctExactly`, `SameIdExample`).
- `proc_cleanup` wakes only the parent: init is left asleep over a dead child if and only if that parent is not
  init and the process passes on a dead child (`InitMissesExactly`, `InitMissesExample`).

## Model

| member | source | states |
|---|---|---|
| `Vmmap.Lookup` | kernel/vm/vmmap.c:296-312 | finds an area if and only if the page is mapped, and then the one whose mapping the page has |
| `Vmmap.IsRangeEmpty` | kernel/vm/vmmap.c:667-691 | with its early exit, answers yes if and only if no page of the range is mapped |
| `Vmmap.FindRange` | kernel/vm/vmmap.c:215-250 | on a non-empty map returns the greatest start whose pages are all free in user space, or none when there is none; on the empty map follows a null pointer |
| `Vmmap.Insert` | kernel/vm/vmmap.c:170-205 | the list stays sorted, disjoint and inside user space if and only if the area's pages were free; references grow by the area's one |
| `Vmmap.Clone` | kernel/vm/vmmap.c:323-351 | the copy has the same areas in the same places with no objects, and is well formed |
| `Vmmap.ClonePageAt` | kernel/vm/vmmap.c:323-351 | page by page the clone maps the same object pages with the same protection and flags |
| `AreaList.PageAtIndex` | kernel/vm/vmmap.c:296-312 | in a sorted disjoint list the meaning of a page can be read off any area that covers it |
| `AreaList.CarvePageAt` | kernel/vm/vmmap.c:503-660 | removal restricts the page map to pages outside the range; surviving pages keep object, object page, protection and flags |
| `AreaList.CarveWellFormed` | kernel/vm/vmmap.c:503-660 | removal keeps the list sorted, disjoint, free of empty areas and in user space |
| `AreaList.CarveStop` | kernel/vm/vmmap.c:524-578 | stopping once an area reaches past the range loses nothing: the areas after it are untouched |
| `AreaList.PiecesByCase` | kernel/vm/vmmap.c:524-655 | each of the four cases of the code, and no overlap, gives exactly what is left of an area outside the range |
| `AreaList.InsertedWellFormed` | kernel/vm/vmmap.c:170-205 | insertion keeps a list well formed if and only if the pages were unmapped |
| `AreaList.InsertedPageAt` | kernel/vm/vmmap.c:170-205 | an inserted area overrides the page map on its own pages and nowhere else |
| `PageCache.Cache.GetResident` | kernel/mm/pframe.c:190-212 | the hash chain search finds the frame of the identity if and only if it is resident; an unpinned one moves to the back of the allocated list, the others keep their order, and the request is on record |
| `PageCache.Cache.Find` | kernel/mm/pframe.c:195-208 | the search of the hash chain by itself finds the frame of the identity if and only if it is resident, and moves nothing |
| `PageCache.Cache.AllocFrame` | kernel/mm/pframe.c:227-249 | one new clean unpinned frame for a page that had none, at the back of the allocated list as the frame requested last; index, hash chains, lists and counts stay exact |
| `PageCache.Cache.Pin` | kernel/mm/pframe.c:393-411 | the count rises by one; the first pin takes the frame from the allocated list, whose others keep their order, to the back of the pinned list; both counters stay exact |
| `PageCache.Cache.Unpin` | kernel/mm/pframe.c:424-442 | the count falls by one; at zero the frame leaves the pinned list for the back of the allocated list, and not before |
| `PageCache.Cache.Drop` | kernel/mm/pframe.c:524-549 | the frame leaves hash chain, list and count together and nothing else does |
| `PageCache.Cache.Write` | kernel/mm/pframe.c:457-471 | a write that marks the frame dirty gives the page the new contents, changes no other page, and takes the page out of the set of pages whose contents are not saved |
| `PageLife.Survives` | kernel/mm/pframe.c:393-513 | contents that are in the backing store, on their way there or marked survive every run of fills, pins, cleaning and eviction |
| `PageLife.MarkedStore` | kernel/mm/pframe.c:457-513 | a store that marks the page survives every such run |
| `PageLife.UnmarkedStore` | kernel/vm/pagefault.c:86-105 | a store that marks nothing survives every such run if and only if the page was dirty already or the store changed nothing |
| `PageLife.UnmarkedStoreExample` | kernel/mm/pframe.c:665-686 | a store into a clean pinned page that the unpin and the next eviction lose |
| `PageCache.Cache.Fill` | kernel/mm/pframe.c:339-377 | a page brought in from the backing store keeps its contents and is saved |
| `PageCache.Cache.CleanBegin` | kernel/mm/pframe.c:484-506 | the dirty bit goes before the write starts; the frame is busy and the device has its data of that moment; no other page changes |
| `PageCache.Cache.CleanEnd` | kernel/mm/pframe.c:506-513 | on success the backing store holds the data handed over, on failure the frame is dirty again; a mark set meanwhile stays |
| `PageCache.Cache.Evict` | kernel/mm/pframe.c:682-684 | freeing any unpinned frame that is neither busy nor dirty changes no page's contents if and only if that page's were saved; saved pages stay saved |
| `PageCache.Cache.CleanAll` | kernel/mm/pframe.c:563-593 | with successful writes and no other writer the restarting scan ends with no unclean unpinned frame, all contents kept and saved pages saved |
| `PageCache.Cache.Pageout` | kernel/mm/pframe.c:665-686 | reclaims frames until the target is met or none is left, and takes one before another exactly if its last request or unpin was earlier; pinned frames stay and no saved contents are lost |
| `PageCache.LastUseExact` | kernel/mm/pframe.c:190-249 | the last use of a frame is the last place in the history of requests and final unpins at which it stands |
| `PageCache.Cache.Ordered` | kernel/mm/pframe.c:190-249 | in every valid state, so after every run, the unpinned frames stand in the order of their last request or unpin |
| `PageCache.HeadIsOldest` | kernel/mm/pframe.c:665-686 | whatever is taken off the head of the list was last used before everything that stays |
| `MemObjects.PartView` | kernel/vm/shadow.c:140-171 | an object reads the same when other objects appear or disappear |
| `MemObjects.FilledView` | kernel/mm/pframe.c:339-377 | making pages resident with what they read as changes no object's view of any page |
| `References.LiveIffReachable` | kernel/vm/shadow.c:106-129 | an object exists if and only if some held reference leads to it down a chain: nothing leaks and nothing dangles |
| `References.ShadowRemoved` | kernel/vm/shadow.c:106-129 | when a shadow object goes, every count stays exact with its link turned into a reference of the caller |
| `Memory.Objects.AnonCreate` | kernel/vm/anon.c:55-70 | a new object under a new name with the caller's one reference; all counts stay exact |
| `Memory.Objects.ShadowOver` | kernel/vm/shadow.c:68-80 | a new shadow object over o with o's bottom; the caller's reference on o passes to the new link |
| `Memory.Objects.Ref` | kernel/vm/anon.c:78-82 | exactly one more reference, held by the caller |
| `Memory.Objects.Put` | kernel/vm/anon.c:94-117 | drops one reference; with other users left only the count changes, otherwise the object is gone; every object that remains keeps its pages and reads the same |
| `Memory.Objects.Destroy` | kernel/vm/shadow.c:106-129 | takes an unused object apart and goes on down a chain of any length; terminates and leaves all counts exact |
| `Memory.Objects.FreePages` | kernel/vm/anon.c:98-110 | frees every resident page of the object and nothing else, without ever re-entering the destroy branch for it |
| `Memory.Objects.PframeFree` | kernel/mm/pframe.c:524-556 | meets the pin and busy assertions, uncaches the page and drops its reference without destroying its object |
| `Memory.Objects.PframeAlloc` | kernel/mm/pframe.c:227-256 | the new page takes a reference on its object, is counted and listed there once, and its frame goes to the back of the allocated list |
| `Memory.Objects.FillPage` | kernel/vm/shadow.c:185-217 | the frame gets what the page read as without it, for an anonymous object the byte 0 at every index, and ends pinned once unless it is a file's |
| `Memory.Objects.CopySource` | kernel/vm/shadow.c:185-217 | the loop down the chain finds the first copy below, else the bottom object's page: the recursive view |
| `Memory.Objects.PframeGet` | kernel/mm/pframe.c:339-377 | the page is resident afterwards and no object's view of any page has changed; a file's frame is at the back of the allocated list, the others in their order, and the request is the last one on record |
| `Memory.Objects.FailedGet` | kernel/mm/pframe.c:362-369 | when the object's fillpage fails the new frame is freed again: what is resident, every link and every count is as before |
| `Memory.Objects.LookupPage` | kernel/vm/shadow.c:140-171 | for reading, the frame the recursive view names; for writing, the object's own copy; either holds what the page read as, and no view changes |
| `Memory.Objects.FirstCopy` | kernel/vm/shadow.c:150-165 | the iterative walk stops where the recursive view does |
| `Memory.Objects.WritePage` | kernel/mm/pframe.c:457-471 | the frame holds the data and is dirty if it was or if the store was marked and the object is not anonymous; pins and every other page are as before |
| `Memory.Objects.WriteBack` | kernel/mm/pframe.c:484-513 | on success the backing store holds the page and its frame is clean, on failure the frame is dirty as before; nothing else changes |
| `Memory.Objects.Reclaim` | kernel/mm/pframe.c:524-556 | a file's page is uncached and its object, still held by the vnode, stays; its frame leaves the allocated list; all counts stay exact |
| `EagerCopy.OthersUntouched` | kernel/proc/fork.c:85-122 | no event of another process changes a process's page map |
| `EagerCopy.PrivateIsolation` | kernel/vm/shadow.c:140-217 | over any run of all processes a private page holds what it held overlaid with its owner's writes |
| `EagerCopy.ForkIsolation` | kernel/proc/fork.c:85-122 | after a fork and any run, parent and child read the fork-time contents overlaid with their own writes |
| `EagerCopy.MappedExactly` | kernel/vm/vmmap.c:379-660 | after an event a page is mapped exactly if the event maps it or it was mapped and the event does not take it away, with the protection and the kind of that mapping; a child starts with what its parent has |
| `EagerCopy.StoreSeen` | kernel/vm/shadow.c:140-171 | a store is read in its page and, if that is shared, wherever the same page of the same object is mapped and not yet copied, and nowhere else |
| `EagerCopy.SharedTogether` | kernel/vm/vmmap.c:434-460 | over any run of all processes, all that keep a page of an object mapped and shared read the same there |
| `NewMappings.AnonPrivate` | kernel/vm/vmmap.c:440-460 | a shadow object over a new anonymous one can carry a private mapping whose pages hold the byte 0 at every index |
| `NewMappings.FilePrivate` | kernel/vm/vmmap.c:434-460 | a shadow object over a file can carry a private mapping that shows the file |
| `Forking.ForkKinds` | kernel/proc/fork.c:85-122 | after the area loop every private area has a shadow object, and no object but a file is both mapped and shadowed |
| `Forking.ForkExclusive` | kernel/proc/fork.c:85-122 | after the area loop the object of a private area belongs to one process and no two pages share a page of it |
| `Forking.ForkRefines` | kernel/proc/fork.c:85-122 | the forked spaces show what copying every private page would have given |
| `Accesses.TouchRefines` | kernel/vm/shadow.c:140-171 | a lookup for writing shows as the page's contents becoming its own, and as nothing else |
| `Accesses.ReadRefines` | kernel/vm/shadow.c:140-171 | a lookup for reading shows as nothing at all |
| `Accesses.WriteRefines` | kernel/vm/vmmap.c:764-769 | a store into the mapped object's own frame shows as a write to that page of that process |
| `Translations.TrustedReads` | kernel/vm/pagefault.c:86-105 | through a trusted translation a process reads what its page holds |
| `Translations.RemoveCoherent` | kernel/vm/vmmap.c:575-651 | removal keeps translations trustworthy if and only if each one in the range lay in an area containing the range or strictly inside it |
| `Translations.FlushExactly` | kernel/vm/vmmap.c:575-651 | on the areas: a translation is dropped exactly if it lies in the range and an area contains the range, or in an area strictly inside the range |
| `Translations.StaleExample` | kernel/vm/vmmap.c:579-602 | a range that overlaps the end of an area unmaps a page and keeps its translation |
| `Translations.MapCoherent` | kernel/vm/vmmap.c:425-461 | a new area over free pages keeps every translation good |
| `Translations.ForkCoherent` | kernel/proc/fork.c:130-134 | after a fork parent and child have no translation, so the first store of each to any page faults |
| `Translations.TouchCoherent` | kernel/vm/vmmap.c:762-769 | after a lookup for writing every other translation is good, and the page's own is if and only if it leads to the page's own frame |
| `Translations.TouchExample` | kernel/vm/vmmap.c:762-769 | a private page read through a translation and then looked up for writing by the kernel: the translation is stale |
| `ByteCopies.WriteBytesAt` | kernel/vm/vmmap.c:747-780 | after a copy a byte of the range reads as written and any other byte of any process as before, if its page shares no object page with another page of the copy |
| `ByteCopies.ReadNumberExact` | kernel/vm/vmmap.c:717 | the object page vmmap_read computes is the mapped one if and only if the area's offset is zero |
| `ByteCopies.ReadNumberExample` | kernel/vm/vmmap.c:717 | with offset 1 the computed page number wraps around |
| `ByteCopies.ReadAfterWrite` | kernel/vm/vmmap.c:717 | after a store vmmap_read finds it if the offset is zero, and otherwise finds what was there before whatever was stored |
| `Eviction.AlikeRefines` | kernel/mm/pframe.c:484-513 | cleaning a page shows as nothing at all |
| `Eviction.EvictRefines` | kernel/mm/pframe.c:682-684 | reclaiming any page of a file shows as the page taking the contents of the backing store, and as nothing at all if it had them |
| `Eviction.EvictCoherent` | kernel/mm/pframe.c:537-538 | after a reclaim translations are good if and only if none led to the frame |
| `Eviction.UnlistedLeads` | kernel/mm/pframe.c:600-617 | the walk over the listed areas leaves no translation that leads to the page if and only if each such was in a listed area at the page's place |
| `AreaLinks.CutUniform` | kernel/vm/vmmap.c:524-655 | after a removal each area is on its bottom object's list with all of its pages or none; the part split off below the range is on none |
| `AreaLinks.CutExactly` | kernel/vm/vmmap.c:524-655 | on the area that has the page: what leaves the list is the range and, of an area that contains the range, the part below; an area shortened at one end stays on its list |
| `AreaLinks.PrivateExactly` | kernel/proc/fork.c:93-116 | fork puts the private areas on the lists and no other |
| `AreaLinks.ForkUniform` | kernel/proc/fork.c:93-116 | after a fork the same holds of parent and child, with private areas on their lists and the child's shared ones on none |
| `AreaLinks.ListedExactly` | kernel/mm/pframe.c:600-617 | the walk over the list of a file finds all good translations of a page if and only if each is in a listed area of a map that names its process |
| `Resizing.ResizedOk` | kernel/vm/brk.c:151-170 | moving an area's end maps and unmaps exactly the pages between, if growth is over free pages |
| `Resizing.GrowOk` | kernel/vm/brk.c:157-170 | growth of a private area that alone has its object shows as the new pages appearing with what the object holds there, and as nothing else |
| `Resizing.ShrinkOk` | kernel/vm/brk.c:151-170 | a shrink shows as the pages given up disappearing, and as nothing else |
| `Resizing.ResizedCoherent` | kernel/vm/brk.c:151-170 | translations stay good if and only if no page given up has one |
| `Protection.PermitsExactly` | kernel/vm/pagefault.c:62-105 | translations allow no more than the areas if and only if each one in an area stands for a page that may be read and, if writable, written |
| `Protection.MapPermits` | kernel/vm/vmmap.c:379-471 | a new mapping keeps this if and only if it allows what every translation left in its range allows |
| `Protection.ResizePermits` | kernel/vm/brk.c:149-176 | a moved end keeps this if and only if the area allows what every translation left on the new pages allows |
| `Protection.ReadOnlyExample` | kernel/vm/vmmap.c:413-461 | a page written to and then mapped for reading only, and the translation that still allows stores |
| `VirtualMemory.Vm.constructor` | kernel/vm/vmmap.c:102-115 | boot: one process with nothing mapped, no translation and every translation good, no page stored into unmarked |
| `VirtualMemory.Vm.OpenVnode` | kernel/vm/vmmap.c:434-439 | a file becomes available under a name nothing uses, held by its vnode, with the given pages in the backing store |
| `VirtualMemory.Vm.CutInside` | kernel/vm/vmmap.c:524-578 | case 1 splits the area in two, each part with its own reference, and an empty part gives its reference up |
| `VirtualMemory.Vm.CutArea` | kernel/vm/vmmap.c:513-655 | one turn of the loop cuts the area as its case demands, drops the translations that case drops, and keeps all counts exact |
| `VirtualMemory.Vm.Remove` | kernel/vm/vmmap.c:503-660 | for every overlap with any number of areas the page map is restricted to pages outside the range; counts stay exact; translations stay good if and only if none is left stale |
| `VirtualMemory.Vm.MakeRoom` | kernel/vm/vmmap.c:402-424 | a fixed place is cleared, otherwise the highest gap is taken; no room leaves everything as it was |
| `VirtualMemory.Vm.NewObject` | kernel/vm/vmmap.c:434-460 | the object for a mapping: the file's or a new anonymous one, with a shadow object on top if private |
| `VirtualMemory.Vm.MapArea` | kernel/vm/vmmap.c:379-471 | a mapping overrides the page map on its range; without a file every byte of it reads 0, with one each page reads as the file's; failure changes nothing. Translations stay good if and only if each one left in the range leads to the very file page mapped there, read-only if private, and allow no more than the areas if and only if each one left allows no more than the new area |
| `VirtualMemory.MappedBytes` | kernel/vm/vmmap.c:434-460 | byte by byte: a mapping without a file reads 0 everywhere, and one of a file reads as the file does from its offset on |
| `VirtualMemory.MapStaleExample` | kernel/vm/vmmap.c:413-424 | a new mapping over the end of an area and a translation left in its range that is not its own |
| `VirtualMemory.WritableReadOnlyExample` | kernel/vm/vmmap.c:413-461 | a run from boot: a file mapped for reading and writing, a write fault, and a read-only mapping over the end of the area that leaves a writable translation |
| `VirtualMemory.Vm.ResizeArea` | kernel/vm/brk.c:149-176 | an area's end is moved under live address spaces: one event, exact counts and lists; translations are good if and only if no page given up had one, and allow no more than the areas if and only if none on the new pages does |
| `VirtualMemory.Vm.SplitObject` | kernel/proc/fork.c:90-117 | two new shadow objects share out one object and its references between parent and child |
| `VirtualMemory.Vm.ForkArea` | kernel/proc/fork.c:85-122 | one turn of the loop keeps the relation between old parent, new parent and child, and the counts |
| `VirtualMemory.Vm.ForkSpace` | kernel/proc/fork.c:53-134 | the child's memory is the parent's as if copied, other processes are untouched, neither keeps a translation, shared areas keep their objects and each private area has one of its own |
| `VirtualMemory.Vm.DestroySpace` | kernel/vm/vmmap.c:122-155 | every area gives up its reference; other processes' memory and translations are as before |
| `VirtualMemory.Vm.TouchPage` | kernel/vm/vmmap.c:762 | a lookup for writing gives the page its own frame with the contents it read as; states exactly which translations stay good |
| `VirtualMemory.Vm.FindPage` | kernel/vm/pagefault.c:85-86 | a lookup for reading gives the frame the walk finds and changes nothing that can be seen |
| `VirtualMemory.Vm.Fault` | kernel/vm/pagefault.c:52-107 | on the fields of the area: kills the process if and only if the page is unmapped, the area is not for reading, or a write meets an area not for writing; otherwise installs one translation that is writable only after a write fault and then leads to the page's own frame; translations go on allowing no more than the areas |
| `VirtualMemory.Vm.UserLoad` | kernel/vm/pagefault.c:86-105 | a process reads its own page through a trusted translation |
| `VirtualMemory.Vm.UserStore` | kernel/vm/pagefault.c:86-105 | a store through a trusted writable translation is a write to that page of that process and nothing else |
| `VirtualMemory.Vm.WriteChunk` | kernel/vm/vmmap.c:753-776 | one turn of the loop stores bytes into one page, which is made the page's own first |
| `VirtualMemory.Vm.VmWrite` | kernel/vm/vmmap.c:747-780 | stores the buffer for any start, length and division into areas; translations stay good if and only if those of written pages led to the pages' own frames |
| `VirtualMemory.Vm.VmRead` | kernel/vm/vmmap.c:707-735 | returns for each byte what is at the object page the code computes, and changes nothing that can be seen |
| `VirtualMemory.Vm.ReadsOwnByte` | kernel/vm/vmmap.c:707-735 | where the offset is zero vmmap_read finds the byte the process has |
| `VirtualMemory.Vm.CopyInAndOut` | kernel/vm/vmmap.c:707-780 | vmmap_write and then vmmap_read of the range returns the buffer, and what vmmap_read finds of every other byte of every process is as before, where offsets are zero and no object page is shared with the range |
| `VirtualMemory.Vm.RemoveFromTables` | kernel/mm/pframe.c:600-617 | the loop over the areas on the list of the page's bottom object, in maps that name their process, drops exactly the translations at the page's place in each |
| `VirtualMemory.Vm.CleanPage` | kernel/mm/pframe.c:484-513 | under any address spaces, cleaning a page changes nothing a process can see, drops the translations its object's list leads to and keeps the others good; success saves the page and failure leaves it dirty |
| `VirtualMemory.Vm.EvictPage` | kernel/mm/pframe.c:524-556 | under any address spaces, reclaiming any unpinned frame that is neither busy nor dirty changes nothing a process can see unless it was stored into unmarked, and then puts the stored contents back; translations stay good if and only if each that led to it was in a listed area of a map that names its process |
| `VirtualMemory.SplitOffExample` | kernel/vm/vmmap.c:524-578 | a page unmapped in the middle of an area leaves the page below in an area on no list |
| `VirtualMemory.StaleReclaimExample` | kernel/mm/pframe.c:600-617 | a run from boot: a file mapped shared, a fork, a read by the child, a reclaim, and the child's translation leads to the freed frame |
| `VirtualMemory.Vm.Pageout` | kernel/mm/pframe.c:665-686 | the loop takes frames until the target is met or none is left, one before another exactly if its last request or unpin was earlier; processes see nothing but the loss of unmarked stores; translations stay good if and only if each that led to a page taken was in a listed area of a map that names its process |
| `VirtualMemory.Vm.WritableIsOwn` | kernel/vm/pagefault.c:76-105 | what the operations' contracts on translations come to: wherever they are good, a writable one leads to the page's own frame, and under a private mapping to that of a shadow object nothing shadows |
| `VirtualMemory.Vm.CountExact` | kernel/vm/shadow.c:88-129 | in every valid state a count is areas plus vnode plus shadow objects on top plus resident pages |
| `VirtualMemory.Vm.AliveIffReachable` | kernel/vm/shadow.c:106-129 | in every valid state an object exists if and only if an area's chain or a vnode leads to it |
| `VirtualMemory.Vm.ForkIsolated` | kernel/proc/fork.c:85-134 | over every run of all operations of all processes, parent and child read a private page in real memory as it was at the fork overlaid with their own writes |
| `Brk.Heap.Move` | kernel/vm/brk.c:79-186 | the region ends at the new break with the object it had, or ENOMEM and nothing changes exactly when a mapping is in the way, unless the break lies inside the region's last page and the request leaves it upwards, which is always refused, or gives the region up, which removes a wrong area; so the outcome is right if and only if the request is not one of these or is a growth with a mapping in the way. Every page of the region may be read and written; every byte of a first growth reads 0. Processes see one event: zero pages mapped, pages of the old object shown, or pages gone; translations stay good if and only if a region made smaller had none for the pages it loses |
| `Brk.RefusedGrowthExample` | kernel/vm/brk.c:79-176 | a break one byte into a page and growth by one free page that is refused |
| `Brk.Regrown` | kernel/vm/brk.c:151-176 | a region that shrank and grew again maps the same pages of the same object, so it shows the old contents |
| `Brk.ShrunkTable` | kernel/vm/brk.c:151-176 | after a shrink the process's translations are good if and only if none was for a page given up |
| `Brk.ShrunkExample` | kernel/vm/brk.c:151-176 | a used page given up by a shrink keeps its translation |
| `Brk.BrkStays` | kernel/vm/vmmap.c:379-660 | whatever else is mapped and unmapped, the break stays right as long as the data area and the region are left alone |
| `Brk.BrkForked` | kernel/proc/fork.c:78-128 | after a fork the break, which the child gets too, is right for parent and child |
| `Brk.Heap.DoBrk` | kernel/vm/brk.c:56-186 | over page-aligned requests one area covers the pages from the data area to the break, each may be read and written and a first growth reads 0, growth overlaps nothing, failure changes nothing, and processes see the one event; at the starting break nothing moves |
| `Scheduler.OnExactlyOneQueue` | kernel/proc/sched.c:31-75 | a thread that is not current, new or exited is on exactly one queue, which its wait channel names and its state matches |
| `Scheduler.StepOk` | kernel/proc/sched.c:31-267 | every step keeps that invariant, and queue sizes equal to queue lengths |
| `Scheduler.StepAhead` | kernel/proc/sched.c:221-244 | no step overtakes a runnable thread, and each dispatch brings it one place nearer |
| `Scheduler.Fifo` | kernel/proc/sched.c:221-267 | over any run a runnable thread's place falls by exactly the number of dispatches |
| `Scheduler.RunsInTurn` | kernel/proc/sched.c:221-267 | the dispatch after those ahead of it runs the thread |
| `ThreadLaws.StateExactly` | kernel/proc/sched.c:31-267 | exactly which steps change a thread's state, and to what |
| `ThreadLaws.FlagExactly` | kernel/proc/sched.c:168-183 | a cancellation of the thread sets its flag whatever its state, and nothing else changes it |
| `ThreadLaws.ThreadsExactly` | kernel/proc/kthread.c:67-207 | exactly which steps make and forget threads; a clone has its maker's flag, a new thread none |
| `ThreadLaws.CurrentExactly` | kernel/proc/sched.c:221-244 | only a dispatch changes the current thread, to the oldest runnable one; exactly which steps give up the processor |
| `ThreadLaws.WaitQueueExactly` | kernel/proc/sched_helper.c:23-48 | exactly which steps change a wait queue: sleepers join at one end and leave at the other, or when cancelled |
| `ThreadLaws.RunQueueExactly` | kernel/proc/sched.c:221-267 | exactly which steps change the run queue, and where |
| `ThreadLaws.FlagRuns` | kernel/proc/sched.c:168-183 | over any run a thread is cancelled if and only if it was or the run cancels it, until it is destroyed |
| `ThreadLaws.NoneOversleeps` | kernel/proc/sched.c:133-183 | over any run no cancelled thread is in a cancellable sleep |
| `Threads.Sched.Enqueue` | kernel/proc/sched.c:31-36 | newest entry first, wait channel and size set with it |
| `Threads.Sched.Dequeue` | kernel/proc/sched.c:46-62 | takes the oldest entry, or nothing from an empty queue |
| `Threads.Sched.RemoveFrom` | kernel/proc/sched.c:70-75 | takes one entry out wherever it is |
| `Threads.Sched.StartThread` | kernel/proc/sched.c:258-267 | a new thread goes to the end of the run queue |
| `Threads.Sched.Sleep` | kernel/proc/sched_helper.c:23-28 | the current thread sleeps on the queue and gives up the processor |
| `Threads.Sched.CancellableSleep` | kernel/proc/sched.c:133-151 | a cancelled thread does not sleep and nothing changes; otherwise it sleeps, last in line, so that it can be cancelled |
| `Threads.Sched.Wakeup` | kernel/proc/sched_helper.c:31-42 | the oldest sleeper, if any, becomes runnable |
| `Threads.Sched.Broadcast` | kernel/proc/sched_helper.c:45-48 | the drain loop makes all sleepers runnable in the order they came, behind those already runnable |
| `Threads.WakeOneThenAll` | kernel/proc/sched_helper.c:45-48 | waking one sleeper and then all is waking all |
| `Threads.Sched.CancelThread` | kernel/proc/sched.c:168-183 | the thread is cancelled whatever it is doing, and no other thread's flag changes; a cancellable sleeper is taken off its queue and made runnable, any other thread stays where it is |
| `Threads.Sched.SwitchTo` | kernel/proc/sched.c:233-242 | the oldest runnable thread becomes current and is on no queue |
| `Threads.Sched.CreateThread` | kernel/proc/kthread.c:86-113 | a new thread, in no state and on no queue |
| `Threads.Sched.CloneThread` | kernel/proc/kthread.c:182-207 | a copy of the current thread, made runnable |
| `Threads.Sched.ExitThread` | kernel/proc/kthread.c:161-172 | the current thread is exited and gives up the processor |
| `Threads.Sched.DestroyThread` | kernel/proc/kthread.c:67-75 | an exited thread that is on no queue and not current is forgotten |
| `Mutexes.OneHolder` | kernel/proc/kmutex.c:29-38 | at most one thread is between lock and unlock |
| `Mutexes.LockExactly` | kernel/proc/kmutex.c:29-63 | a lock call takes a free mutex at once, waits last in line for a held one, and does nothing for an interrupted thread that can be cancelled; no other thread is affected |
| `Mutexes.HeldUntilUnlock` | kernel/proc/kmutex.c:29-93 | over any run, from the return of a lock call that acquired until the unlock, that thread is the holder and no other has acquired |
| `Mutexes.InterruptedNeverWaits` | kernel/proc/kmutex.c:45-66 | in every reachable state an interrupted thread among the waiters is in the lock call that cannot be cancelled |
| `Mutexes.MStepOk` | kernel/proc/kmutex.c:29-93 | every step, as coded and as intended, keeps: a thread between lock and unlock is the holder, and no holder means no waiters |
| `Mutexes.MRunsOk` | kernel/proc/kmutex.c:29-93 | the same in every state a run reaches |
| `Mutexes.ResumeHolds` | kernel/proc/kmutex.c:29-63 | a blocked lock call that returns without interruption returns to the holder |
| `Mutexes.WaiterStep` | kernel/proc/kmutex.c:81-93 | a step cancels a waiter that sleeps cancellably, hands it the mutex, or leaves no more threads ahead of it, and one fewer at each unlock |
| `Mutexes.WaiterTurn` | kernel/proc/kmutex.c:81-93 | over any run a waiter with k threads ahead that is not cancelled, or is in the lock call that cannot be, becomes the holder after at most k + 1 unlocks |
| `Mutexes.PanicExactly` | kernel/proc/kmutex.c:53-55 | the assertion of kmutex_unlock fails if and only if a thread taken off the wait queue by a cancellation comes to run |
| `Mutexes.DoomedExactly` | kernel/proc/sched.c:168-183 | a thread gets into that state if and only if it is cancelled while queued, and stays in it until it runs |
| `Mutexes.DoomedRuns` | kernel/proc/sched.c:168-183 | over any run that has not stopped, the threads bound for that assertion are exactly those cancelled while queued in a cancellable lock call |
| `Mutexes.PanicRuns` | kernel/proc/kmutex.c:29-93 | a run of the code ends at that assertion if and only if a thread cancelled while queued then returns from its lock call |
| `Mutexes.CancelledWaiterExample` | kernel/proc/kmutex.c:53-55 | a run of four steps from one holder and one queued waiter to the failed assertion |
| `Kmutex.Mutex.constructor` | kernel/proc/kmutex.c:16-20 | a mutex nobody holds or waits for |
| `Kmutex.Mutex.LockNow` | kernel/proc/kmutex.c:29-38 | acquired: the mutex was free and the caller is now its holder; blocked: the holder is as before and the caller sleeps last in line |
| `Kmutex.Mutex.LockCancellableNow` | kernel/proc/kmutex.c:45-66 | a cancelled thread gets EINTR and holder, phases and queue are as before; otherwise as for lock |
| `Kmutex.Mutex.UnlockNow` | kernel/proc/kmutex.c:81-93 | the new holder is the oldest waiter, or nobody, and never the caller |
| `Kmutex.Mutex.LockReturns` | kernel/proc/kmutex.c:32-34 | when the sleeper runs again it holds the mutex |
| `Kmutex.Mutex.LockCancellableReturns` | kernel/proc/kmutex.c:52-56 | acquired if and only if not interrupted; the assertion fails if and only if interrupted without holding |
| `Processes.ChildListExact` | kernel/proc/proc.c:226-233 | a child list is exactly the processes that name the parent, and a dead process has none |
| `Processes.RootedAtIdle` | kernel/proc/proc.c:226-233 | parent links lead from every process to the idle process |
| `Processes.FirstFreeExact` | kernel/proc/proc.c:174-192 | the id found is the cyclically first free one, and none is found exactly when all are taken |
| `Processes.TreeOrphaned` | kernel/proc/proc.c:313-320 | handing the children of an exiting process to init keeps the tree and every child list |
| `Processes.TreeBuried` | kernel/proc/proc.c:438-462 | disposing of a dead child keeps the tree and every child list |
| `ProcSteps.PStepOk` | kernel/proc/proc.c:174-529 | every step of every process keeps tree, child lists, ids, process list, deliveries, and the absence of lost wake-ups |
| `ProcSteps.NoLostWakeup` | kernel/proc/proc.c:412-529 | over any run a process asleep in waitpid has not missed the child it waits for, nor, unless it is init, any child |
| `ProcSteps.ReapedAtMostOnce` | kernel/proc/proc.c:412-529 | over any run each exit status is delivered at most once and is the one the process exited with |
| `ProcLaws.DeliveredWasGiven` | kernel/proc/proc.c:299-462 | over any run what waitpid delivers is what that child passed to exit, in a step of its own earlier in the run |
| `ProcSteps.FirstDeadExact` | kernel/proc/proc.c:428-467 | the search for a dead child ends at the first in list order, and finds none if and only if none is dead |
| `ProcLaws.CreatedExactly` | kernel/proc/proc.c:203-272 | a new process is the first child of its maker, runs, has no children and an id nobody has, or -1 if and only if all are used; no other process changes |
| `ProcLaws.CreatedThread` | kernel/proc/kthread.c:86-113 | its thread is runnable at once if and only if it is a copy; every other thread and queue is as before |
| `ProcLaws.ExitedExactly` | kernel/proc/proc.c:299-341 | a process that exits is dead with its status, id and parent; its children have init as parent and stand, last one first, before init's others; no other process changes |
| `ProcLaws.ExitedThread` | kernel/proc/proc.c:299-320 | its thread has exited, and its parent is made runnable if and only if it slept; every other thread and queue is as before |
| `ProcLaws.WaitFails` | kernel/proc/proc.c:412-529 | a waitpid call for no child the process has changes nothing |
| `ProcLaws.WaitSleeps` | kernel/proc/proc.c:428-467 | with no dead child among those waited for the process sleeps on its own queue, goes on waiting for the same children, and nothing else changes |
| `ProcLaws.WaitReaps` | kernel/proc/proc.c:428-467 | the first in list order of the dead children waited for leaves table, lists and scheduler, and its status is delivered; no other process changes |
| `ProcSteps.ReapedThreadIsFree` | kernel/proc/proc.c:438-462 | the thread of a dead process is on no queue and not current |
| `ProcSteps.EndedSleeper` | kernel/proc/proc.c:299-320 | an exit leaves no sleeper over what it waits for, init waiting for any child excepted |
| `ProcSteps.PidsDistinctExactly` | kernel/proc/proc.c:203-222 | ids stay distinct if and only if one was free or none is -1 yet |
| `ProcSteps.InitMissesExactly` | kernel/proc/proc.c:308-317 | an exit leaves init asleep over a dead child if and only if the parent is not init and a dead child is passed on |
| `MissedChild.InitMissesExample` | kernel/proc/proc.c:308-317 | a run of thirteen steps from boot after which the next exit does this |
| `ProcExample.SameIdExample` | kernel/proc/proc.c:203-222 | from boot with two ids, two creations after which two processes run under -1 |
| `ProcTable.Table.constructor` | kernel/proc/proc.c:203-272 | after boot: idle runs under id 0 and init, its only child, is runnable under id 1 |
| `ProcTable.Table.GetId` | kernel/proc/proc.c:174-192 | the restarting search ends with the cyclically first free id, or -1, and moves the starting point past it |
| `ProcTable.Table.CreateProcess` | kernel/proc/proc.c:203-272 | a new first child of the current process with an empty wait queue and its own thread; the invariant holds |
| `ProcTable.Table.Reparent` | kernel/proc/proc.c:313-317 | the loop moves every child, last one first, to the front of init's list |
| `ProcTable.Table.ExitProcess` | kernel/proc/proc.c:299-341 | the parent is woken if it waits, children go to init, the process stays behind dead with its status |
| `ProcTable.Table.Dispose` | kernel/proc/proc.c:430-462 | the child leaves every list, its thread is gone, and its id and status are returned |
| `ProcTable.Table.WaitTurn` | kernel/proc/proc.c:428-467 | a dead child that is waited for is disposed of, otherwise the process sleeps on its own queue |
| `ProcTable.Table.DoWaitpid` | kernel/proc/proc.c:412-529 | the error cases exactly, and otherwise the status of a dead child that was asked for, delivered once |
| `ProcTable.Table.WaitpidResumes` | kernel/proc/proc.c:428-516 | after a sleep the search is made again: it sleeps on if and only if no child waited for is dead, and otherwise returns the id and status of such a child, delivered once |

## Left out

- `kernel/api`, `kernel/fs`, `kernel/vm/mmap.c`, `kernel/main` and the drivers: argument copying and checking, vnode operations that are not part of the repository, and the boot sequence.
- Interrupt levels, context switching, stacks, registers and TLB flushes: an interrupt is a step that may wake a sleeper.
- Allocation failure, debug output and the informational listings: allocation always succeeds.
- `ktqueue_contains`, `ktqueue_skipqueue`, `pframe_migrate`, and code under configuration switches that are off.
- A mapping is shared or private: the model has no mapping with both flag bits set.
- The bounds of user space and the page size come from headers that are not part of the repository; the proofs use only that user space is not empty and lies below page 2^20. The number of process ids is a parameter.
- VirtualMemory.Vm.EvictPage: the lists of areas are kept as sets of pages, so their order is not modelled; maps replaced by execve are not part of this model.
- Memory.Objects.PframeGet: waiting for a busy page is not modelled, so neither is the missing second lookup after the wait; between steps no page is busy. `FailedGet` is the failing fill; what its callers do then is not modelled.
- Memory.Objects.Put: the two places where the code touches an object or a frame after freeing it are each one step together with the free.
- VirtualMemory.Vm.Remove: the page table used is that of the process whose map it is; the code uses that of the current process.
- VirtualMemory.Vm.DestroySpace: the page table is dropped with the areas; the kernel frees it when the process is reaped.
- VirtualMemory.Vm.UserStore: a store is given as the whole page after it.
- Brk.Heap.Move: requests above user space fail an assertion in the code and are not callers here.
- Mutexes.MStepOk: one mutex at a time; a thread does not exit while it holds it.
- ProcSteps.PStepOk: one thread per process, cleanup on exit does not block, open files and address spaces are not part of the process table, a process with children exits only while init runs, and no process gets the id of init after boot.
