/** proc.c: the process table as the kernel keeps it. Blocking calls are cut where the process sleeps. */
module ProcTable {
  import opened PageTypes
  import opened Scheduler
  import opened Threads
  import opened Processes
  import opened ProcSteps

  // How do_waitpid ends, or that it sleeps.
  datatype WaitResult = Child(pid: int, status: int) | Echild | Einval | Blocked

  class Table {
    const sched: Sched
    const max: nat
    var procs: map<ProcId, Proc>
    var list: seq<ProcId>
    var nextPid: nat
    var next: ProcId
    ghost var exits: map<ProcId, int>
    ghost var log: seq<Delivery>

    ghost function P(): PState
      reads this, sched
    {
      PState(sched.S(), procs, list, nextPid, next, exits, log)
    }

    ghost predicate Valid()
      reads this, sched
    {
      max > 0 && ProcOk(P(), max)
    }

    /** After boot: the idle process runs, and init, its only child, is runnable. */
    constructor (max: nat)
      requires max >= 2
      ensures Valid() && this.max == max && fresh(sched) && P() == Boot(max)
      ensures sched.cur == IDLE && !sched.switching && sched.queues[RUNQ].list == [INIT]
      ensures procs.Keys == {IDLE, INIT} && procs[IDLE].pid == 0 && procs[INIT].pid == 1
              && procs[INIT].parent == Some(IDLE) && procs[IDLE].children == [INIT] && procs[INIT].children == []
    {
      hide SchedOk, ProcOk, Step, BootQueues;
      this.max := max;
      var s := new Sched(IDLE);
      BootSched();
      s.NewQueue(WaitQ(IDLE));
      s.NewQueue(WaitQ(INIT));
      s.CreateThread(INIT);
      s.StartThread(INIT);
      sched, procs, list, nextPid, next, exits, log := s, BootProcs(), [INIT, IDLE], 2 % max, 2, map[], [];
      new;
      BootOk(max);
      BootRuns();
    }

    /** _proc_getid: ids are tried in cyclic order, each against the whole list, until one is free. */
    method GetId() returns (pid: int)
      requires 0 <= nextPid < max && (forall p :: p in list <==> p in procs)
      modifies this`nextPid
      ensures pid == FirstFree(Pids(procs), old(nextPid), max, 0)
      ensures nextPid == if pid == -1 then old(nextPid) else (pid + 1) % max
    {
      hide FirstFree, Pids;
      var x := nextPid;
      ghost var k := 0;
      NthStart(nextPid, max);
      while true
        invariant 0 <= k < max && x == Nth(nextPid, k, max) && nextPid == old(nextPid)
        invariant FirstFree(Pids(procs), nextPid, max, k) == FirstFree(Pids(procs), nextPid, max, 0)
        decreases max - k
      {
        var taken := Taken(x);
        FirstFreeStep(Pids(procs), nextPid, max, k);
        if !taken {
          nextPid := (x + 1) % max;
          return x;
        }
        NthNext(nextPid, k, max);
        x := (x + 1) % max;
        k := k + 1;
        if x == nextPid {
          return -1;
        }
      }
    }

    // The search through the process list.
    method Taken(x: nat) returns (taken: bool)
      requires forall p :: p in list <==> p in procs
      ensures taken <==> x in Pids(procs)
    {
      var i := 0;
      while i < |list|
        invariant 0 <= i <= |list|
        invariant forall j :: 0 <= j < i ==> procs[list[j]].pid != x
      {
        if procs[list[i]].pid == x {
          return true;
        }
        i := i + 1;
      }
      return false;
    }

    /** proc_create, with the thread that kthread_create or fork gives the new process. */
    method CreateProcess(clone: bool) returns (c: ProcId)
      requires Valid() && PEnabled(P(), NewProc(clone), max)
      modifies this, sched
      ensures Valid() && P() == PStep(old(P()), NewProc(clone), max) && c == old(next)
    {
      hide SchedOk, Tree, Linked, PidsOk, LogOk, SleeperOk, FirstFree, Pids, Born, Step;
      ghost var before := P();
      PStepOk(before, NewProc(clone), max);
      CurrentAlive(before, max);
      BornOk(sched.S(), WaitQ(next), next, clone);
      TableFacts(before, max);
      c := next;
      var pid := GetId();
      procs := procs[c := Proc(pid, Some(sched.cur), [], Running, 0,
                               NotWaiting)][sched.cur := procs[sched.cur].(children := [c] + procs[sched.cur].children)];
      list := [c] + list;
      next := next + 1;
      sched.NewQueue(WaitQ(c));
      if clone {
        sched.CloneThread(c);
      } else {
        sched.CreateThread(c);
      }
    }

    // The loop of proc_cleanup that gives the children of p to init.
    method Reparent(p: ProcId)
      requires p in procs && p != INIT && (procs[p].children != [] ==> INIT in procs) && INIT !in procs[p].children
               && p !in procs[p].children
      requires NoDups(procs[p].children) && forall c :: c in procs[p].children ==> c in procs
      modifies this`procs
      ensures procs == Moved(old(procs), old(procs)[p].children)
    {
      hide NoDups, Reversed;
      var children := procs[p].children;
      var i := 0;
      NothingMoved(procs);
      assert children[..0] == [];
      while i < |children|
        invariant 0 <= i <= |children| && procs == Moved(old(procs), children[..i])
      {
        var child := children[i];
        MovedStep(old(procs), children, i);
        procs := procs[child := procs[child].(parent := Some(INIT))];
        procs := procs[INIT := procs[INIT].(children := [child] + procs[INIT].children)];
        i := i + 1;
      }
      assert children[..i] == children;
    }

    /**
     kthread_exit and proc_cleanup, up to the switch: the parent is woken if it waits, the children go to
     init, and the process stays behind, dead, with its status.
     */
    method ExitProcess(status: int)
      requires Valid() && PEnabled(P(), ExitProc(status), max)
      modifies this, sched
      ensures Valid() && P() == PStep(old(P()), ExitProc(status), max)
    {
      hide SchedOk, Tree, Linked, PidsOk, LogOk, SleeperOk, Reversed, NoDups, Left, Woken, Moved, Orphaned;
      ghost var before := P();
      PStepOk(before, ExitProc(status), max);
      CurrentAlive(before, max);
      var p := sched.cur;
      ParentFact(procs, p);
      OrphansOf(procs, p);
      var parent := procs[p].parent.value;
      QueueOfSleeper(before, parent);
      LeftOk(sched.S(), WaitQ(parent));
      if sched.queues[WaitQ(parent)].list != [] {
        var woken := sched.Wakeup(WaitQ(parent));
      } else {
        NoOneToWake(sched.S(), WaitQ(parent));
      }
      if p != INIT {
        Reparent(p);
      }
      MovedIsOrphaned(before.procs, p, status);
      procs := procs[p := procs[p].(children := [], status := status, state := Dead)];
      exits := exits[p := status];
      sched.ExitThread();
    }

    // ----- do_waitpid -----

    // The search for a dead child.
    method ScanDead(children: seq<ProcId>) returns (r: Option<ProcId>)
      requires forall c :: c in children ==> c in procs
      ensures r == FirstDead(procs, children)
    {
      var i := 0;
      assert children[0..] == children;
      while i < |children|
        invariant 0 <= i <= |children| && FirstDead(procs, children) == FirstDead(procs, children[i..])
      {
        if procs[children[i]].state == Dead {
          return Some(children[i]);
        }
        i := i + 1;
      }
      return None;
    }

    // The search for a child by its id.
    method ScanPid(children: seq<ProcId>, pid: int) returns (r: Option<ProcId>)
      requires forall c :: c in children ==> c in procs
      ensures r == FindPid(procs, children, pid)
    {
      var i := 0;
      assert children[0..] == children;
      while i < |children|
        invariant 0 <= i <= |children| && FindPid(procs, children, pid) == FindPid(procs, children[i..], pid)
      {
        if procs[children[i]].pid == pid {
          return Some(children[i]);
        }
        i := i + 1;
      }
      return None;
    }

    // A dead child is taken out of every list and freed with its thread.
    method Dispose(c: ProcId) returns (r: WaitResult)
      requires Valid() && !sched.switching && sched.cur in procs && c in procs && c in procs[sched.cur].children
               && procs[c].state == Dead
      modifies this, sched`threads
      ensures Valid() && P() == Reaped(old(P()), c) && r == Child(old(procs)[c].pid, old(procs)[c].status)
    {
      hide SchedOk, Tree, Linked, PidsOk, LogOk, SleeperOk, Without;
      var q := sched.cur;
      ReapedKeeps(P(), c, max);
      DeadExited(P(), c);
      CurrentAlive(P(), max);
      r := Child(procs[c].pid, procs[c].status);
      log := log + [Delivery(c, procs[c].status)];
      sched.DestroyThread(c);
      list := Without(list, c);
      procs := procs[q := procs[q].(children := Without(procs[q].children, c), wait := NotWaiting)];
      procs := procs - {c};
      assert procs == Buried(old(procs), q, c);
    }

    /** One turn of the loop of do_waitpid: a dead child is disposed of, or the process sleeps. */
    method WaitTurn(w: Wait) returns (r: WaitResult)
      requires Valid() && !sched.switching && sched.cur in procs && WaitQ(sched.cur) in sched.queues
               && WaitsWell(P(), w)
      modifies this, sched
      ensures Valid() && P() == WaitOn(old(P()), w)
      ensures r == match Ready(old(P()), w)
                   case None => Blocked
                   case Some(c) => if c in old(procs) then Child(old(procs)[c].pid, old(procs)[c].status) else Blocked
    {
      hide SchedOk, Tree, Linked, PidsOk, LogOk, SleeperOk, WaitsWell, Reaped, FirstDead, Asleep;
      ReadyExact(P(), w);
      WaitOnKeeps(P(), w, max);
      WaitKind(P(), w);
      var found: Option<ProcId> := None;
      if w.ForAny? {
        ChildrenThere(procs, sched.cur);
        found := ScanDead(procs[sched.cur].children);
      } else if procs[w.child].state == Dead {
        found := Some(w.child);
      }
      if found.Some? {
        r := Dispose(found.value);
      } else {
        procs := procs[sched.cur := procs[sched.cur].(wait := w)];
        sched.Sleep(WaitQ(sched.cur));
        r := Blocked;
      }
    }

    /** do_waitpid, as far as its first sleep. */
    method DoWaitpid(pid: int, options: int) returns (r: WaitResult)
      requires Valid() && PEnabled(P(), WaitPid(pid), max)
      modifies this, sched
      ensures Valid() && P() == if options == 0 then PStep(old(P()), WaitPid(pid), max) else old(P())
      ensures r == Einval <==> options != 0 || (pid != -1 && pid <= 0)
      ensures r == Echild <==> options == 0 && ((pid == -1 && old(procs)[old(sched.cur)].children == []) ||
                                                (pid > 0 && !HasChildWithPid(old(procs), old(sched.cur), pid)))
      ensures r.Child? ==> |log| == |old(log)| + 1 && log[..|old(log)|] == old(log)
                           && WaitedFor(old(procs), old(sched.cur), log[|old(log)|], r)
                           && (pid == -1 || r.pid == pid)
    {
      hide SchedOk, Tree, Linked, PidsOk, LogOk, SleeperOk, WaitsWell, FindPid, WaitOn;
      ghost var before := P();
      PStepOk(before, WaitPid(pid), max);
      if options != 0 {
        return Einval;
      }
      CurrentQueue(before);
      ChildrenThere(procs, sched.cur);
      var children := procs[sched.cur].children;
      if pid == -1 {
        if children == [] {
          return Echild;
        }
        TargetWell(before, pid);
        Delivered(before, ForAny);
        r := WaitTurn(ForAny);
      } else if pid > 0 {
        FindPidExact(procs, children, pid);
        var child := ScanPid(children, pid);
        if child.None? {
          return Echild;
        }
        TargetWell(before, pid);
        Delivered(before, ForChild(child.value));
        r := WaitTurn(ForChild(child.value));
      } else {
        return Einval;
      }
    }

    /**
     do_waitpid after a sleep: the loop goes round again. It sleeps on exactly when no child that it waits for
     is dead; otherwise it returns the id and status of such a child, which are delivered once.
     */
    method WaitpidResumes() returns (r: WaitResult)
      requires Valid() && PEnabled(P(), WaitAgain, max)
      modifies this, sched
      ensures Valid() && P() == PStep(old(P()), WaitAgain, max)
      ensures r == Blocked || r.Child?
      ensures r == Blocked <==> NoneDead(old(procs), old(sched.cur), old(procs)[old(sched.cur)].wait)
      ensures r == Blocked ==> log == old(log)
      ensures r.Child? ==> |log| == |old(log)| + 1 && log[..|old(log)|] == old(log)
                           && WaitedFor(old(procs), old(sched.cur), log[|old(log)|], r)
                           && old(procs)[old(sched.cur)].wait in {ForAny, ForChild(log[|old(log)|].child)}
    {
      hide SchedOk, Tree, Linked, PidsOk, LogOk, WaitsWell, WaitOn, SleeperOk, NoneDead;
      PStepOk(P(), WaitAgain, max);
      CurrentQueue(P());
      StillWell(P());
      var w := procs[sched.cur].wait;
      Delivered(P(), w);
      r := WaitTurn(w);
    }
  }

  // Process p has a child that runs, or ran, under the id.
  ghost predicate HasChildWithPid(procs: map<ProcId, Proc>, p: ProcId, pid: int) {
    p in procs && exists c :: c in procs[p].children && c in procs && procs[c].pid == pid
  }

  // What was delivered belongs to a dead child of p, and is what the call returned.
  ghost predicate WaitedFor(procs: map<ProcId, Proc>, p: ProcId, d: Delivery, r: WaitResult) {
    && p in procs && d.child in procs[p].children && d.child in procs && procs[d.child].state == Dead
    && d.status == procs[d.child].status && r == Child(procs[d.child].pid, d.status)
  }

  // No child of p that it waits for is dead.
  ghost predicate NoneDead(procs: map<ProcId, Proc>, p: ProcId, w: Wait) {
    p in procs && forall c :: c in procs[p].children && w in {ForAny, ForChild(c)} ==>
                                c in procs && procs[c].state == Running
  }

  lemma ChildrenThere(procs: map<ProcId, Proc>, p: ProcId)
    requires Tree(procs) && p in procs
    ensures forall c :: c in procs[p].children ==> c in procs
  {
    assert ChildrenOk(procs, p);
  }

  lemma Delivered(s: PState, w: Wait)
    requires SchedOk(s.sch) && Tree(s.procs) && s.sch.cur in s.procs && WaitQ(s.sch.cur) in s.sch.queues
    requires WaitsWell(s, w)
    ensures var s' := WaitOn(s, w);
            match Ready(s, w)
            case None => s'.log == s.log && NoneDead(s.procs, s.sch.cur, w)
            case Some(c) =>
              && c in s.procs && s'.log == s.log + [Delivery(c, s.procs[c].status)]
              && WaitedFor(s.procs, s.sch.cur, Delivery(c, s.procs[c].status),
                           Child(s.procs[c].pid, s.procs[c].status))
              && w in {ForAny, ForChild(c)} && !NoneDead(s.procs, s.sch.cur, w)
  {
    hide SchedOk, Tree, WaitsWell, Asleep, FirstDead;
    ReadyExact(s, w);
    WaitKind(s, w);
  }

  function BootProcs(): map<ProcId, Proc> {
    map[IDLE := Proc(0, None, [INIT], Running, 0, NotWaiting), INIT := Proc(1, Some(IDLE), [], Running, 0, NotWaiting)]
  }

  function BootQueues(): SState {
    SState(map[IDLE := Thread(Run, None, false), INIT := Thread(Run, Some(RUNQ), false)],
           map[RUNQ := Queue([INIT], 1), WaitQ(IDLE) := Queue([], 0), WaitQ(INIT) := Queue([], 0)], IDLE, false)
  }

  function Boot(max: nat): PState
    requires max > 0
  {
    PState(BootQueues(), BootProcs(), [INIT, IDLE], 2 % max, 2, map[], [])
  }

  // The scheduler as the four calls at boot leave it, one after another.
  function BootStep(n: nat): SState
    requires n <= 3
  {
    var idle, q := Thread(Run, None, false), Queue([], 0);
    if n == 0 then SState(map[IDLE := idle], map[RUNQ := q], IDLE, false)
    else if n == 1 then SState(map[IDLE := idle], map[RUNQ := q, WaitQ(IDLE) := q], IDLE, false)
    else if n == 2 then SState(map[IDLE := idle], map[RUNQ := q, WaitQ(IDLE) := q, WaitQ(INIT) := q], IDLE, false)
    else SState(map[IDLE := idle, INIT := Thread(NoState, None, false)],
                map[RUNQ := q, WaitQ(IDLE) := q, WaitQ(INIT) := q], IDLE, false)
  }

  lemma BootStart()
    ensures SchedOk(BootStep(0))
  {
    assert ThreadOk(BootStep(0), IDLE) && QueueOk(BootStep(0), RUNQ);
  }

  lemma BootRunq()
    requires SchedOk(BootStep(3))
    ensures Enabled(BootStep(3), MakeRunnable(INIT)) && Step(BootStep(3), MakeRunnable(INIT)) == BootQueues()
  {
    hide SchedOk;
    var s := Step(BootStep(3), MakeRunnable(INIT));
    assert [INIT] + [] == [INIT];
    assert s.threads == BootQueues().threads;
    assert s.queues.Keys == BootQueues().queues.Keys;
    assert s.queues == BootQueues().queues;
  }

  lemma BootSched()
    ensures SchedOk(BootStep(0)) && SchedOk(BootStep(1)) && SchedOk(BootStep(2)) && SchedOk(BootStep(3))
            && SchedOk(BootQueues())
    ensures Enabled(BootStep(0), InitQueue(WaitQ(IDLE))) && Step(BootStep(0), InitQueue(WaitQ(IDLE))) == BootStep(1)
    ensures Enabled(BootStep(1), InitQueue(WaitQ(INIT))) && Step(BootStep(1), InitQueue(WaitQ(INIT))) == BootStep(2)
    ensures Enabled(BootStep(2), Create(INIT)) && Step(BootStep(2), Create(INIT)) == BootStep(3)
    ensures Enabled(BootStep(3), MakeRunnable(INIT)) && Step(BootStep(3), MakeRunnable(INIT)) == BootQueues()
  {
    hide SchedOk;
    BootStart();
    StepOk(BootStep(0), InitQueue(WaitQ(IDLE)));
    StepOk(BootStep(1), InitQueue(WaitQ(INIT)));
    StepOk(BootStep(2), Create(INIT));
    BootRunq();
    StepOk(BootStep(3), MakeRunnable(INIT));
  }

  lemma BootRuns()
    ensures BootQueues().cur == IDLE && !BootQueues().switching && RUNQ in BootQueues().queues
            && BootQueues().queues[RUNQ].list == [INIT]
  {
  }

  lemma BootTree()
    ensures Tree(BootProcs())
  {
    var procs := BootProcs();
    assert ParentOk(procs, INIT) && ChildrenOk(procs, IDLE) && ChildrenOk(procs, INIT);
  }

  lemma BootLink(p: ProcId)
    ensures && (p in BootProcs() <==> p in BootQueues().threads) && (p in [INIT, IDLE] <==> p in BootProcs())
            && (p in BootProcs() ==> p < 2 && WaitQ(p) in BootQueues().queues && BootProcs()[p].state == Running
                                     && BootQueues().threads[p].state == Run)
            && (p >= 2 ==> WaitQ(p) !in BootQueues().queues)
  {
  }

  lemma BootLinked(max: nat)
    requires max >= 2
    ensures Linked(Boot(max))
  {
    hide BootProcs, BootQueues;
    forall p: ProcId
      ensures && (p in BootProcs() <==> p in BootQueues().threads) && (p in [INIT, IDLE] <==> p in BootProcs())
              && (p in BootProcs() ==> p < 2 && WaitQ(p) in BootQueues().queues && BootProcs()[p].state == Running
                                       && BootQueues().threads[p].state == Run)
              && (p >= 2 ==> WaitQ(p) !in BootQueues().queues)
    {
      BootLink(p);
    }
  }

  lemma BootTables(max: nat)
    requires max >= 2
    ensures PidsOk(Boot(max), max) && LogOk(Boot(max))
  {
    hide BootQueues;
  }

  lemma BootSleeper(max: nat, p: ProcId)
    requires max >= 2 && p in BootProcs()
    ensures SleeperOk(Boot(max), p)
  {
  }

  lemma BootOk(max: nat)
    requires max >= 2 && SchedOk(BootQueues())
    ensures ProcOk(Boot(max), max)
  {
    hide SchedOk, Tree, Linked, PidsOk, LogOk, SleeperOk;
    BootTree();
    BootLinked(max);
    BootTables(max);
    forall p | p in BootProcs() ensures SleeperOk(Boot(max), p) {
      BootSleeper(max, p);
    }
  }

  lemma NthStart(next: nat, max: nat)
    requires next < max
    ensures Nth(next, 0, max) == next
  {
  }

  lemma NthNext(next: nat, k: nat, max: nat)
    requires next < max && k < max
    ensures (Nth(next, k, max) + 1) % max == Nth(next, k + 1, max)
    ensures Nth(next, k + 1, max) == next <==> k + 1 == max
  {
    WrapOnce(next + k, max);
    WrapOnce(next + k + 1, max);
    WrapOnce(Nth(next, k, max) + 1, max);
  }

  lemma WrapOnce(x: nat, max: nat)
    requires 0 < max && x < 2 * max
    ensures x % max == if x < max then x else x - max
  {
    if x >= max {
      assert x == max * 1 + (x - max);
    }
  }

  lemma FirstFreeStep(pids: set<int>, next: nat, max: nat, k: nat)
    requires k < max
    ensures FirstFree(pids, next, max, k) == if Nth(next, k, max) !in pids then Nth(next, k, max)
                                             else FirstFree(pids, next, max, k + 1)
    ensures FirstFree(pids, next, max, max) == -1
  {
  }

  lemma TableFacts(s: PState, max: nat)
    requires ProcOk(s, max)
    ensures s.nextPid < max && forall p :: p in s.list <==> p in s.procs
  {
    hide SchedOk, Tree, LogOk, SleeperOk, NoDups;
  }

  lemma NoOneToWake(s: SState, q: Qid)
    requires SchedOk(s) && q in s.queues && q != RUNQ && s.queues[q].list == []
    ensures Woken(s, q) == s
  {
  }

  // The children in l have been given to init, one after another.
  function Moved(procs: map<ProcId, Proc>, l: seq<ProcId>): map<ProcId, Proc> {
    map x | x in procs ::
      var y := if x in l then procs[x].(parent := Some(INIT)) else procs[x];
      if x == INIT then y.(children := Reversed(l) + y.children) else y
  }

  lemma NothingMoved(procs: map<ProcId, Proc>)
    ensures Moved(procs, []) == procs
  {
    forall x | x in procs ensures Moved(procs, [])[x] == procs[x] {
      assert Reversed([]) + procs[x].children == procs[x].children;
    }
  }

  lemma {:induction false} ReversedSnoc(l: seq<ProcId>, x: ProcId)
    ensures Reversed(l + [x]) == [x] + Reversed(l)
  {
    if l == [] {
      assert l + [x] == [x];
      assert [x][1..] == [];
    } else {
      assert (l + [x])[1..] == l[1..] + [x];
      ReversedSnoc(l[1..], x);
    }
  }

  lemma MovedStep(procs: map<ProcId, Proc>, l: seq<ProcId>, i: nat)
    requires i < |l| && INIT in procs && INIT !in l && NoDups(l) && l[i] in procs
    ensures var m := Moved(procs, l[..i]);
            l[i] in m && INIT in m &&
            var m1 := m[l[i] := m[l[i]].(parent := Some(INIT))];
            m1[INIT := m1[INIT].(children := [l[i]] + m1[INIT].children)] == Moved(procs, l[..i + 1])
  {
    hide NoDups, Reversed;
    assert l[..i + 1] == l[..i] + [l[i]];
    ReversedSnoc(l[..i], l[i]);
    var m := Moved(procs, l[..i]);
    var m1 := m[l[i] := m[l[i]].(parent := Some(INIT))];
    var m2 := m1[INIT := m1[INIT].(children := [l[i]] + m1[INIT].children)];
    assert [l[i]] + (Reversed(l[..i]) + procs[INIT].children) == Reversed(l[..i + 1]) + procs[INIT].children;
    forall x | x in procs ensures m2[x] == Moved(procs, l[..i + 1])[x] {
      assert x in l[..i + 1] <==> x in l[..i] || x == l[i];
    }
  }

  lemma MovedIsOrphaned(procs: map<ProcId, Proc>, p: ProcId, status: int)
    requires Tree(procs) && p in procs && p != IDLE && HasHeir(procs, p)
    ensures p != INIT ==>
              p in Moved(procs, procs[p].children) &&
              Moved(procs, procs[p].children)[p := Moved(procs, procs[p].children)[p].(children := [],
              status := status, state := Dead)] == Orphaned(procs, p, status)
    ensures p == INIT ==> procs[p := procs[p].(children := [], status := status, state := Dead)] ==
                          Orphaned(procs, p, status)
  {
    hide Tree, NoDups, Reversed;
    OrphansOf(procs, p);
  }
}
