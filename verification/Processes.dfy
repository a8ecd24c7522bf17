/** The process tree, exit and waitpid, as a transition system over the scheduler: proc.c. */
module Processes {
  import opened PageTypes
  import opened Scheduler

  // Processes are named in the order of their creation; a process's only thread has the same name.
  type ProcId = Tid

  const IDLE: ProcId := 0
  const INIT: ProcId := 1

  datatype ProcState = Running | Dead

  // Whether the process is inside the sleep loop of do_waitpid, and for which child.
  datatype Wait = NotWaiting | ForAny | ForChild(child: ProcId)

  datatype Proc = Proc(pid: int, parent: Option<ProcId>, children: seq<ProcId>, state: ProcState, status: int,
                       wait: Wait)

  // An exit status handed to a parent.
  datatype Delivery = Delivery(child: ProcId, status: int)

  datatype PState = PState(
    sch: SState, procs: map<ProcId, Proc>, list: seq<ProcId>, nextPid: nat, next: ProcId,
    exits: map<ProcId, int>, log: seq<Delivery>)

  // The p_wait queue of a process; queues with odd names are used for other things.
  function WaitQ(p: ProcId): Qid { 2 * p + 2 }

  // ----- The tree -----

  ghost predicate ParentOk(procs: map<ProcId, Proc>, p: ProcId)
    requires p in procs
  {
    procs[p].parent.Some? &&
    var q := procs[p].parent.value;
    q < p && q in procs && procs[q].state == Running && p in procs[q].children
  }

  ghost predicate ChildrenOk(procs: map<ProcId, Proc>, p: ProcId)
    requires p in procs
  {
    NoDups(procs[p].children) && forall c :: c in procs[p].children ==> c in procs && procs[c].parent == Some(p)
  }

  /** Parents are alive and older than their children, and each child list is exact. */
  ghost predicate Tree(procs: map<ProcId, Proc>) {
    && IDLE in procs && procs[IDLE].parent == None && procs[IDLE].state == Running
    && (forall p :: p in procs && p != IDLE ==> ParentOk(procs, p))
    && (forall p :: p in procs ==> ChildrenOk(procs, p))
  }

  /** The child list of a process is exactly the processes that name it as their parent; a dead process has none. */
  lemma ChildListExact(procs: map<ProcId, Proc>, p: ProcId, c: ProcId)
    requires Tree(procs) && p in procs && c in procs
    ensures c in procs[p].children <==> procs[c].parent == Some(p)
    ensures procs[p].state == Dead ==> procs[c].parent != Some(p) && procs[p].children == []
  {
    assert ChildrenOk(procs, p);
    if c != IDLE {
      assert ParentOk(procs, c);
    }
    if procs[p].children != [] {
      var d := procs[p].children[0];
      assert ParentOk(procs, d);
    }
  }

  // The process reached by following parent links n times, as far as they go.
  function Ancestor(procs: map<ProcId, Proc>, p: ProcId, n: nat): ProcId
    decreases n
  {
    if n == 0 || p !in procs || procs[p].parent.None? then p else Ancestor(procs, procs[p].parent.value, n - 1)
  }

  /** Parent links form a tree rooted at the idle process. */
  lemma {:induction false} RootedAtIdle(procs: map<ProcId, Proc>, p: ProcId)
    requires Tree(procs) && p in procs
    ensures exists n: nat :: n <= p && Ancestor(procs, p, n) == IDLE
  {
    if p == IDLE {
      assert Ancestor(procs, p, 0) == IDLE;
    } else {
      assert ParentOk(procs, p);
      var q := procs[p].parent.value;
      RootedAtIdle(procs, q);
      var n: nat :| n <= q && Ancestor(procs, q, n) == IDLE;
      assert Ancestor(procs, p, n + 1) == IDLE;
    }
  }

  // ----- Process ids -----

  // The id k places after `next`.
  function Nth(next: nat, k: nat, max: nat): nat
    requires max > 0
  {
    (next + k) % max
  }

  /** The first free id at or cyclically after `next`, k places on; -1 if there is none. */
  function FirstFree(pids: set<int>, next: nat, max: nat, k: nat): int
    requires max > 0 && k <= max
    decreases max - k
  {
    if k == max then -1
    else if Nth(next, k, max) !in pids then Nth(next, k, max)
    else FirstFree(pids, next, max, k + 1)
  }

  // r is free and k places after next, and the ids in between are taken.
  predicate CyclicallyFirst(pids: set<int>, next: nat, max: nat, k: nat, r: int)
    requires max > 0
  {
    k < max && r == Nth(next, k, max) && r !in pids && forall j: nat :: j < k ==> Nth(next, j, max) in pids
  }

  lemma {:induction false} FirstFreeFrom(pids: set<int>, next: nat, max: nat, k: nat)
    requires max > 0 && k <= max && forall j: nat :: j < k ==> Nth(next, j, max) in pids
    ensures var r := FirstFree(pids, next, max, k);
            if r == -1 then forall j: nat :: j < max ==> Nth(next, j, max) in pids
            else exists i: nat :: CyclicallyFirst(pids, next, max, i, r)
    decreases max - k
  {
    hide Nth;
    if k < max {
      if Nth(next, k, max) !in pids {
        assert CyclicallyFirst(pids, next, max, k, Nth(next, k, max));
      } else {
        FirstFreeFrom(pids, next, max, k + 1);
      }
    }
  }

  lemma EveryId(next: nat, max: nat, x: nat) returns (j: nat)
    requires x < max && next < max
    ensures j < max && Nth(next, j, max) == x
  {
    j := if x >= next then x - next else x + max - next;
  }

  /** _proc_getid finds the cyclically first free id, and none exactly when all are taken. */
  lemma FirstFreeExact(pids: set<int>, next: nat, max: nat)
    requires max > 0 && next < max
    ensures var r := FirstFree(pids, next, max, 0);
            && (r == -1 <==> forall x :: 0 <= x < max ==> x in pids)
            && (r != -1 ==> exists k: nat :: CyclicallyFirst(pids, next, max, k, r))
            && (r != -1 ==> 0 <= r < max && r !in pids)
  {
    FirstFreeFrom(pids, next, max, 0);
    var r := FirstFree(pids, next, max, 0);
    if r == -1 {
      forall x | 0 <= x < max ensures x in pids {
        var j := EveryId(next, max, x);
      }
    } else {
      var k: nat :| CyclicallyFirst(pids, next, max, k, r);
    }
  }

  // ----- Changes to the tree -----

  // proc_create: c becomes the first child of q.
  function WithChild(procs: map<ProcId, Proc>, q: ProcId, c: ProcId, pid: int): map<ProcId, Proc>
    requires q in procs
  {
    procs[c := Proc(pid, Some(q), [], Running, 0, NotWaiting)][q := procs[q].(children := [c] + procs[q].children)]
  }

  lemma ChildAdded(procs: map<ProcId, Proc>, q: ProcId, c: ProcId, pid: int, p: ProcId)
    requires q in procs && procs[q].state == Running && c !in procs && q < c && p in procs && ChildrenOk(procs, p)
    ensures ChildrenOk(WithChild(procs, q, c, pid), p)
            && (p != IDLE && ParentOk(procs, p) ==> ParentOk(WithChild(procs, q, c, pid), p))
  {
  }

  lemma TreeWithChild(procs: map<ProcId, Proc>, q: ProcId, c: ProcId, pid: int)
    requires Tree(procs) && q in procs && procs[q].state == Running && c !in procs && q < c
    ensures Tree(WithChild(procs, q, c, pid))
  {
    hide ParentOk, ChildrenOk;
    var procs' := WithChild(procs, q, c, pid);
    forall p | p in procs' ensures ChildrenOk(procs', p) && (p != IDLE ==> ParentOk(procs', p)) {
      if p == c {
        FirstBorn(procs, q, c, pid);
      } else {
        ChildAdded(procs, q, c, pid, p);
      }
    }
  }

  lemma FirstBorn(procs: map<ProcId, Proc>, q: ProcId, c: ProcId, pid: int)
    requires q in procs && procs[q].state == Running && c !in procs && q < c
    ensures ChildrenOk(WithChild(procs, q, c, pid), c) && ParentOk(WithChild(procs, q, c, pid), c)
  {
  }

  function Reversed(l: seq<ProcId>): seq<ProcId> {
    if l == [] then [] else Reversed(l[1..]) + [l[0]]
  }

  lemma {:induction false} ReversedMembers(l: seq<ProcId>)
    requires NoDups(l)
    ensures NoDups(Reversed(l)) && forall x :: x in Reversed(l) <==> x in l
  {
    if l != [] {
      ReversedMembers(l[1..]);
      NoDupsConcat(Reversed(l[1..]), [l[0]]);
    }
  }

  // proc_cleanup: the children of p go one by one to the front of init's list, and p is dead.
  function Orphan(procs: map<ProcId, Proc>, p: ProcId, x: ProcId, status: int): Proc
    requires p in procs && x in procs
  {
    var ch := procs[p].children;
    var y := if x in ch then procs[x].(parent := Some(INIT)) else procs[x];
    if x == p then y.(children := [], status := status, state := Dead)
    else if x == INIT then y.(children := Reversed(ch) + y.children)
    else y
  }

  function Orphaned(procs: map<ProcId, Proc>, p: ProcId, status: int): map<ProcId, Proc>
    requires p in procs
  {
    map x | x in procs :: Orphan(procs, p, x, status)
  }

  // The process may exit: whatever children it has can go to init.
  predicate HasHeir(procs: map<ProcId, Proc>, p: ProcId)
    requires p in procs
  {
    procs[p].children == [] || (p != INIT && INIT in procs && procs[INIT].state == Running)
  }

  lemma OrphansOf(procs: map<ProcId, Proc>, p: ProcId)
    requires Tree(procs) && p in procs && p != IDLE
    ensures NoDups(procs[p].children)
    ensures forall c :: c in procs[p].children ==> c in procs && c > p && c != INIT && procs[c].parent == Some(p)
    ensures forall c :: c in procs && procs[c].parent == Some(p) ==> c in procs[p].children
    ensures INIT in procs ==> forall c :: c in procs[p].children ==> p != INIT ==> c !in procs[INIT].children
  {
    assert ChildrenOk(procs, p);
    forall c | c in procs[p].children ensures c > p {
      assert ParentOk(procs, c);
    }
    forall c | c in procs && procs[c].parent == Some(p) ensures c in procs[p].children {
      assert c != IDLE ==> ParentOk(procs, c);
    }
    if INIT in procs {
      assert ChildrenOk(procs, INIT);
    }
  }

  lemma TreeOrphaned(procs: map<ProcId, Proc>, p: ProcId, status: int)
    requires Tree(procs) && p in procs && p != IDLE && HasHeir(procs, p)
    ensures Tree(Orphaned(procs, p, status))
  {
    hide ParentOk, ChildrenOk, NoDups, Reversed;
    var procs' := Orphaned(procs, p, status);
    OrphansOf(procs, p);
    forall x | x in procs' ensures ChildrenOk(procs', x) && (x != IDLE ==> ParentOk(procs', x)) {
      OrphanChildren(procs, p, status, x);
      if x != IDLE {
        OrphanParent(procs, p, status, x);
      }
    }
  }

  lemma OrphanParent(procs: map<ProcId, Proc>, p: ProcId, status: int, x: ProcId)
    requires Tree(procs) && p in procs && p != IDLE && HasHeir(procs, p) && x in procs && x != IDLE
    ensures ParentOk(Orphaned(procs, p, status), x)
  {
    hide Tree, NoDups;
    OrphansOf(procs, p);
    ReversedMembers(procs[p].children);
    ParentIs(procs, x);
  }

  lemma ParentIs(procs: map<ProcId, Proc>, x: ProcId)
    requires Tree(procs) && x in procs && x != IDLE
    ensures ParentOk(procs, x)
  {
  }

  lemma OrphanChildren(procs: map<ProcId, Proc>, p: ProcId, status: int, x: ProcId)
    requires Tree(procs) && p in procs && p != IDLE && HasHeir(procs, p) && x in procs
    ensures ChildrenOk(Orphaned(procs, p, status), x)
  {
    assert ChildrenOk(procs, x) && ChildrenOk(procs, p);
    OrphansOf(procs, p);
    ReversedMembers(procs[p].children);
    if x == INIT && x != p {
      NoDupsConcat(Reversed(procs[p].children), procs[x].children);
    }
  }

  // do_waitpid: dead child c of q is disposed of.
  function Buried(procs: map<ProcId, Proc>, q: ProcId, c: ProcId): map<ProcId, Proc>
    requires q in procs
  {
    (procs - {c})[q := procs[q].(children := Without(procs[q].children, c), wait := NotWaiting)]
  }

  lemma ChildBuried(procs: map<ProcId, Proc>, q: ProcId, c: ProcId, p: ProcId)
    requires q in procs && c in procs && procs[c].state == Dead && procs[q].state == Running
             && procs[c].parent == Some(q)
    requires p in procs && p != c && ChildrenOk(procs, p) && ChildrenOk(procs, q) && c in procs[q].children
    ensures ChildrenOk(Buried(procs, q, c), p) && (p != IDLE && ParentOk(procs, p) ==> ParentOk(Buried(procs, q, c), p))
  {
    hide NoDups;
    WithoutMembers(procs[q].children, c);
  }

  lemma TreeBuried(procs: map<ProcId, Proc>, q: ProcId, c: ProcId)
    requires Tree(procs) && q in procs && c in procs[q].children && c in procs && procs[c].state == Dead
             && procs[q].state == Running
    ensures Tree(Buried(procs, q, c)) && q != c
  {
    hide ParentOk, ChildrenOk;
    var procs' := Buried(procs, q, c);
    ChildListExact(procs, q, c);
    forall p | p in procs' ensures ChildrenOk(procs', p) && (p != IDLE ==> ParentOk(procs', p)) {
      ChildBuried(procs, q, c, p);
    }
  }

  // ----- The invariant -----

  ghost predicate Linked(s: PState) {
    && (forall p :: p in s.procs <==> p in s.sch.threads)
    && (forall p :: p in s.procs ==> p < s.next && WaitQ(p) in s.sch.queues)
    && (forall p :: p in s.procs ==> (s.procs[p].state == Dead <==> s.sch.threads[p].state == Exited))
    && (forall p: ProcId :: p >= s.next ==> WaitQ(p) !in s.sch.queues)
    && NoDups(s.list) && (forall p :: p in s.list <==> p in s.procs)
  }

  // What p waits for has not happened.
  ghost predicate NotMissed(procs: map<ProcId, Proc>, p: ProcId)
    requires p in procs
  {
    match procs[p].wait
    case NotWaiting => true
    case ForChild(c) => c in procs && procs[c].state == Running
    case ForAny => p == INIT || forall c :: c in procs[p].children ==> c in procs && procs[c].state == Running
  }

  ghost predicate SleeperOk(s: PState, p: ProcId)
    requires p in s.procs
  {
    var q := WaitQ(p);
    q in s.sch.queues &&
    var l, w := s.sch.queues[q].list, s.procs[p].wait;
    && (l == [] || (l == [p] && w != NotWaiting && p in s.sch.threads && s.sch.threads[p].state == Sleep
                    && NotMissed(s.procs, p)))
    && (w.ForChild? ==> w.child in s.procs && s.procs[w.child].parent == Some(p))
    && (w == ForAny ==> s.procs[p].children != [])
    && (s.procs[p].state == Dead ==> w == NotWaiting)
  }

  ghost predicate PidsOk(s: PState, max: nat) {
    && s.nextPid < max
    && (forall p :: p in s.procs ==> -1 <= s.procs[p].pid < max)
    && (forall p, q :: p in s.procs && q in s.procs && p != q && s.procs[p].pid == s.procs[q].pid ==>
                         s.procs[p].pid == -1)
  }

  ghost predicate LogOk(s: PState) {
    && (forall i :: 0 <= i < |s.log| ==>
                      s.log[i].child !in s.procs && s.log[i].child in s.exits
                      && s.log[i].status == s.exits[s.log[i].child])
    && (forall i, j :: 0 <= i < j < |s.log| ==> s.log[i].child != s.log[j].child)
    && (forall p :: p in s.exits ==> p < s.next)
    && (forall p :: p in s.procs ==> (p in s.exits <==> s.procs[p].state == Dead))
    && (forall p :: p in s.procs && p in s.exits ==> s.procs[p].status == s.exits[p])
  }

  ghost predicate ProcOk(s: PState, max: nat) {
    && SchedOk(s.sch) && Tree(s.procs) && Linked(s) && PidsOk(s, max) && LogOk(s)
    && (forall p :: p in s.procs ==> SleeperOk(s, p))
  }
}
