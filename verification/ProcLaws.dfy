/** What the steps of the process table do, on the fields of the processes, and what follows over whole runs. */
module ProcLaws {
  import opened PageTypes
  import opened Scheduler
  import opened Processes
  import opened ProcSteps
  import M = Mutexes

  // ----- Creation -----

  // A process, alive or dead, has the id.
  ghost predicate Used(procs: map<ProcId, Proc>, pid: int) { exists p :: p in procs && procs[p].pid == pid }

  lemma UsedPids(procs: map<ProcId, Proc>, pid: int)
    ensures pid in Pids(procs) <==> Used(procs, pid)
  {
  }

  lemma CreatedIs(s: PState, clone: bool, max: nat)
    requires ProcOk(s, max) && PEnabled(s, NewProc(clone), max)
    ensures s.sch.cur in s.procs && PStep(s, NewProc(clone), max) == Created(s, clone, max)
    ensures s.next !in s.procs && s.next !in s.sch.threads && WaitQ(s.next) !in s.sch.queues
  {
    hide SchedOk, Tree, Linked, PidsOk, LogOk, SleeperOk, NewPid, Created;
    CurrentAlive(s, max);
    Unused(s);
  }

  /**
   A new process is the first child of its maker and of the list; it runs, has no children and waits for nothing.
   Its id is one that no process has, if there is such an id. No other process changes.
   */
  lemma CreatedExactly(s: PState, clone: bool, max: nat)
    requires ProcOk(s, max) && PEnabled(s, NewProc(clone), max)
    ensures var s', c, q := PStep(s, NewProc(clone), max), s.next, s.sch.cur;
            && c !in s.procs && q in s.procs && s'.procs.Keys == s.procs.Keys + {c}
            && s'.procs[c].parent == Some(q) && s'.procs[c].children == [] && s'.procs[c].state == Running
            && s'.procs[c].wait == NotWaiting
            && s'.procs[q] == s.procs[q].(children := [c] + s.procs[q].children)
            && (forall p :: p in s.procs && p != q ==> s'.procs[p] == s.procs[p])
            && s'.list == [c] + s.list && s'.next == c + 1 && s'.exits == s.exits && s'.log == s.log
    ensures var s', c := PStep(s, NewProc(clone), max), s.next;
            var pid := s'.procs[c].pid;
            && (pid == -1 <==> forall x :: 0 <= x < max ==> Used(s.procs, x))
            && (pid != -1 ==> 0 <= pid < max && !Used(s.procs, pid))
            && s'.nextPid == if pid == -1 then s.nextPid else (pid + 1) % max
  {
    hide SchedOk, Tree, Linked, LogOk, SleeperOk, FirstFree, Born, PStep, Used, Pids, NewPid;
    CreatedIs(s, clone, max);
    NewPidIs(s, max);
  }

  lemma NewPidIs(s: PState, max: nat)
    requires s.nextPid < max
    ensures var pid := NewPid(s, max);
            && (pid == -1 <==> forall x :: 0 <= x < max ==> Used(s.procs, x))
            && (pid != -1 ==> 0 <= pid < max && !Used(s.procs, pid))
  {
    hide FirstFree, Pids, Used;
    FirstFreeExact(Pids(s.procs), s.nextPid, max);
    forall x ensures x in Pids(s.procs) <==> Used(s.procs, x) {
      UsedPids(s.procs, x);
    }
  }

  /** The scheduler's side: an empty p_wait queue, and a thread that is runnable at once only if it is a copy. */
  lemma CreatedThread(s: PState, clone: bool, max: nat)
    requires ProcOk(s, max) && PEnabled(s, NewProc(clone), max)
    ensures var t, t', c := s.sch, PStep(s, NewProc(clone), max).sch, s.next;
            && t'.cur == t.cur && t'.switching == t.switching && c !in t.threads
            && t'.threads.Keys == t.threads.Keys + {c}
            && (forall x :: x in t.threads ==> t'.threads[x] == t.threads[x])
            && t'.threads[c].state == (if clone then Run else NoState)
            && t.cur in t.threads && t'.threads[c].cancelled == (clone && t.threads[t.cur].cancelled)
            && WaitQ(c) in t'.queues && t'.queues[WaitQ(c)].list == [] && RUNQ in t.queues && RUNQ in t'.queues
            && t'.queues[RUNQ].list == (if clone then [c] + t.queues[RUNQ].list else t.queues[RUNQ].list)
            && (forall w :: w in t.queues && w != RUNQ ==> w in t'.queues && t'.queues[w] == t.queues[w])
  {
    hide SchedOk, Tree, Linked, PidsOk, LogOk, SleeperOk, NewPid, PStep, WithChild;
    CreatedIs(s, clone, max);
    QueueThere(s.sch);
  }

  // ----- Exit -----

  lemma EndedIs(s: PState, status: int, max: nat)
    requires ProcOk(s, max) && PEnabled(s, ExitProc(status), max)
    ensures s.sch.cur in s.procs && s.sch.cur != IDLE && PStep(s, ExitProc(status), max) == Ended(s, status)
    ensures s.procs[s.sch.cur].parent.Some?
            && var q := s.procs[s.sch.cur].parent.value;
            q in s.procs && q != s.sch.cur && WaitQ(q) in s.sch.queues && s.sch.queues[WaitQ(q)].list in [[], [q]]
  {
    hide SchedOk, Tree, Linked, PidsOk, LogOk, Ended, SleeperOk;
    CurrentAlive(s, max);
    ParentFact(s.procs, s.sch.cur);
    QueueOfSleeper(s, s.procs[s.sch.cur].parent.value);
  }

  lemma {:induction false} ReversedAt(l: seq<ProcId>, k: nat)
    requires k < |l|
    ensures |Reversed(l)| == |l| && Reversed(l)[k] == l[|l| - 1 - k]
  {
    if |l| > 1 {
      ReversedAt(l[1..], if k < |l| - 1 then k else 0);
    } else {
      assert Reversed(l[1..]) == [];
    }
  }

  /**
   A process that exits stays behind dead, with its status, its id and its parent, but without children: those have
   init as their parent and stand, the last one first, at the front of its list. No other process changes.
   */
  lemma ExitedExactly(s: PState, status: int, max: nat)
    requires ProcOk(s, max) && PEnabled(s, ExitProc(status), max)
    ensures var s', p := PStep(s, ExitProc(status), max), s.sch.cur;
            && p in s.procs && s'.procs.Keys == s.procs.Keys && s'.list == s.list && s'.next == s.next
            && s'.procs[p].state == Dead && s'.procs[p].status == status && s'.procs[p].children == []
            && s'.procs[p].pid == s.procs[p].pid && s'.procs[p].parent == s.procs[p].parent
            && s'.exits == s.exits[p := status] && s'.log == s.log
            && (forall c :: c in s.procs && c != p && c != INIT ==>
                              s'.procs[c] == s.procs[c].(parent := if s.procs[c].parent == Some(p) then Some(INIT)
                              else s.procs[c].parent))
    ensures var s', p := PStep(s, ExitProc(status), max), s.sch.cur;
            INIT in s.procs && INIT != p ==>
              var l, l' := s.procs[p].children, s'.procs[INIT].children;
              && s'.procs[INIT] == s.procs[INIT].(children := l')
              && |l'| == |l| + |s.procs[INIT].children| && l'[|l|..] == s.procs[INIT].children
              && forall k :: 0 <= k < |l| ==> l'[k] == l[|l| - 1 - k]
  {
    hide SchedOk, Tree, Linked, PidsOk, LogOk, SleeperOk, Left, Reversed, NoDups, PStep;
    EndedIs(s, status, max);
    var p := s.sch.cur;
    OrphansOf(s.procs, p);
    ReversedIs(s.procs[p].children);
    forall c | c in s.procs ensures c in s.procs[p].children <==> s.procs[c].parent == Some(p) {
      ChildListExact(s.procs, p, c);
    }
  }

  lemma ReversedIs(l: seq<ProcId>)
    ensures |Reversed(l)| == |l| && forall k :: 0 <= k < |l| ==> Reversed(l)[k] == l[|l| - 1 - k]
  {
    forall k | 0 <= k < |l| ensures |Reversed(l)| == |l| && Reversed(l)[k] == l[|l| - 1 - k] {
      ReversedAt(l, k);
    }
  }

  /**
   The scheduler's side: the thread has exited, and the parent, if it sleeps on its p_wait queue, is runnable, behind
   the threads that were so before. No other thread and no other queue changes.
   */
  lemma ExitedThread(s: PState, status: int, max: nat)
    requires ProcOk(s, max) && PEnabled(s, ExitProc(status), max)
    ensures var t, t', p := s.sch, PStep(s, ExitProc(status), max).sch, s.sch.cur;
            && p in s.procs && s.procs[p].parent.Some? && p in t'.threads && t'.threads[p].state == Exited
            && t'.switching
            && t'.threads.Keys == t.threads.Keys
            && var q := s.procs[p].parent.value;
            && p != q && WaitQ(q) in t.queues && RUNQ in t.queues && t'.queues.Keys == t.queues.Keys
            && t'.queues[WaitQ(q)].list == []
            && (t.queues[WaitQ(q)].list == [] ==> t'.queues[RUNQ].list == t.queues[RUNQ].list)
            && (t.queues[WaitQ(q)].list != [] ==>
                  && t.queues[WaitQ(q)].list == [q] && q in t'.threads && t'.threads[q].state == Run
                  && t'.queues[RUNQ].list == [q] + t.queues[RUNQ].list)
            && (forall x :: x in t.threads && x != p && x != q ==> t'.threads[x] == t.threads[x])
            && (forall w :: w in t.queues && w != RUNQ && w != WaitQ(q) ==> t'.queues[w] == t.queues[w])
  {
    hide SchedOk, Tree, Linked, PidsOk, LogOk, SleeperOk, Orphaned, NoDups, PStep;
    EndedIs(s, status, max);
    QueueThere(s.sch);
    M.Members(s.sch, WaitQ(s.procs[s.sch.cur].parent.value));
  }

  // ----- Waiting -----

  // A child that the call, or the call that goes on, waits for.
  ghost predicate Wanted(s: PState, op: POp, c: ProcId) {
    && s.sch.cur in s.procs && c in s.procs && s.procs[c].parent == Some(s.sch.cur)
    && match op
       case WaitPid(pid) => pid == -1 || (pid > 0 && s.procs[c].pid == pid)
       case WaitAgain => s.procs[s.sch.cur].wait == ForAny || s.procs[s.sch.cur].wait == ForChild(c)
       case _ => false
  }

  /** A call that waits for no child the process has changes nothing. */
  lemma WaitFails(s: PState, pid: int, max: nat)
    requires ProcOk(s, max) && PEnabled(s, WaitPid(pid), max) && forall c :: !Wanted(s, WaitPid(pid), c)
    ensures PStep(s, WaitPid(pid), max) == s
  {
    hide SchedOk, Linked, PidsOk, LogOk, SleeperOk, Tree, WaitOn, Target, Wanted;
    CurrentQueue(s);
    TargetWanted(s, pid);
  }

  lemma TargetWanted(s: PState, pid: int)
    requires Tree(s.procs) && s.sch.cur in s.procs
    ensures Target(s, pid).Some? ==> exists c :: Wanted(s, WaitPid(pid), c)
  {
    hide Tree;
    var children := s.procs[s.sch.cur].children;
    FindPidExact(s.procs, children, pid);
    forall c | c in children ensures c in s.procs && s.procs[c].parent == Some(s.sch.cur) {
      ChildFact(s.procs, s.sch.cur, c);
    }
    if Target(s, pid).Some? {
      assert Wanted(s, WaitPid(pid), if pid == -1 then children[0] else FindPid(s.procs, children, pid).value);
    }
  }

  // What the process waits for, as the model keeps it, is what the step asks for.
  lemma WantedIs(s: PState, op: POp, max: nat) returns (w: Wait)
    requires ProcOk(s, max) && PEnabled(s, op, max) && (op.WaitPid? || op == WaitAgain) && exists c :: Wanted(s, op, c)
    ensures s.sch.cur in s.procs && WaitsWell(s, w) && WaitQ(s.sch.cur) in s.sch.queues
            && PStep(s, op, max) == WaitOn(s, w)
    ensures w == ForAny || w.ForChild?
    ensures forall c :: Wanted(s, op, c) <==> c in s.procs[s.sch.cur].children && (w == ForAny || w == ForChild(c))
  {
    hide SchedOk, Linked, LogOk, SleeperOk, Tree, WaitOn;
    CurrentQueue(s);
    var q := s.sch.cur;
    var children := s.procs[q].children;
    var c0 :| Wanted(s, op, c0);
    forall c | c in s.procs ensures c in children <==> s.procs[c].parent == Some(q) {
      ChildListExact(s.procs, q, c);
    }
    forall c | c in children ensures c in s.procs {
      ChildFact(s.procs, q, c);
    }
    if op.WaitPid? {
      FindPidExact(s.procs, children, op.pid);
      TargetWell(s, op.pid);
      w := Target(s, op.pid).value;
    } else {
      StillWell(s);
      w := s.procs[q].wait;
    }
  }

  /** No child that is waited for is dead: the process sleeps on its own queue, and nothing else changes. */
  lemma WaitSleeps(s: PState, op: POp, max: nat)
    requires ProcOk(s, max) && PEnabled(s, op, max) && (op.WaitPid? || op == WaitAgain) && exists c :: Wanted(s, op, c)
    requires forall c :: Wanted(s, op, c) ==> s.procs[c].state == Running
    ensures var s', q := PStep(s, op, max), s.sch.cur;
            && q in s.procs && s'.procs.Keys == s.procs.Keys && s'.procs[q] == s.procs[q].(wait := s'.procs[q].wait)
            && (forall p :: p in s.procs && p != q ==> s'.procs[p] == s.procs[p])
            && (forall c :: Wanted(s, op, c) <==> Wanted(s', WaitAgain, c))
            && s'.list == s.list && s'.exits == s.exits && s'.log == s.log
            && q in s'.sch.threads && s'.sch.threads[q].state == Sleep && s'.sch.switching
            && WaitQ(q) in s'.sch.queues && s'.sch.queues[WaitQ(q)].list == [q]
  {
    hide SchedOk, Linked, PidsOk, LogOk, SleeperOk, Tree, FirstDead, PStep, WaitsWell;
    var w := WantedIs(s, op, max);
    WaitKind(s, w);
    var q := s.sch.cur;
    NoneReady(s, w);
    CurrentAlive(s, max);
    OwnQueue(s, q);
    forall c | c in s.procs ensures c in s.procs[q].children <==> s.procs[c].parent == Some(q) {
      ChildListExact(s.procs, q, c);
    }
  }

  lemma NoneReady(s: PState, w: Wait)
    requires Tree(s.procs) && s.sch.cur in s.procs && WaitsWell(s, w)
    requires forall c :: c in s.procs[s.sch.cur].children && (w == ForAny || w == ForChild(c)) ==>
                           c in s.procs && s.procs[c].state == Running
    ensures Ready(s, w) == None
  {
    hide Tree, FirstDead;
    FirstDeadExact(s.procs, s.procs[s.sch.cur].children);
    if w.ForChild? {
      ChildListExact(s.procs, s.sch.cur, w.child);
    }
  }

  // The current process is not on its own p_wait queue, so no one is.
  lemma OwnQueue(s: PState, q: ProcId)
    requires SchedOk(s.sch) && Linked(s) && q == s.sch.cur && q in s.procs && SleeperOk(s, q) && !s.sch.switching
    ensures WaitQ(q) in s.sch.queues && s.sch.queues[WaitQ(q)].list == [] && q in s.sch.threads
  {
    hide NoDups, NotMissed;
    AwakeCurrentIn(s);
  }

  /**
   Of the dead children that are waited for, the one that comes first in the child list is disposed of: it leaves the
   table, the lists and the scheduler, its status is delivered, and no other process changes.
   */
  lemma WaitReaps(s: PState, op: POp, max: nat) returns (c: ProcId)
    requires ProcOk(s, max) && PEnabled(s, op, max) && (op.WaitPid? || op == WaitAgain)
    requires exists d :: Wanted(s, op, d) && s.procs[d].state == Dead
    ensures FirstWanted(s, op, c) && Disposed(s, PStep(s, op, max), s.sch.cur, c)
  {
    hide SchedOk, Linked, PidsOk, LogOk, SleeperOk, Tree, PStep, FirstDead, Disposed, Reaped;
    var d :| Wanted(s, op, d) && s.procs[d].state == Dead;
    var w := WantedIs(s, op, max);
    var q := s.sch.cur;
    var l := s.procs[q].children;
    ReadyExact(s, w);
    FirstDeadExact(s.procs, l);
    ListsOf(s, q);
    c := Ready(s, w).value;
    assert Wanted(s, op, c);
    if w == ForAny {
      var k: nat :| DeadAt(s.procs, l, k) && l[k] == c;
      OnePlace(l, k);
    }
    ReapedExactly(s, c, max);
  }

  // Child c is dead and waited for, and no child before it in the list is both.
  ghost predicate FirstWanted(s: PState, op: POp, c: ProcId) {
    Wanted(s, op, c) && s.procs[c].state == Dead &&
    var l := s.procs[s.sch.cur].children;
    forall i, j :: 0 <= i < j < |l| && l[j] == c ==> !(Wanted(s, op, l[i]) && s.procs[l[i]].state == Dead)
  }

  // Process q has disposed of its child c, and delivers its status.
  ghost predicate Disposed(s: PState, s': PState, q: ProcId, c: ProcId) {
    && q in s.procs && c in s.procs && q != c && s'.procs.Keys == s.procs.Keys - {c}
    && (forall p :: p in s'.procs && p != q ==> s'.procs[p] == s.procs[p])
    && s'.procs[q] == s.procs[q].(children := s'.procs[q].children, wait := NotWaiting)
    && (forall x :: x in s'.procs[q].children <==> x in s.procs[q].children && x != c)
    && (forall x :: x in s'.list <==> x in s.list && x != c)
    && s'.sch.threads.Keys == s.sch.threads.Keys - {c} && s'.sch.queues == s.sch.queues && s'.sch.cur == s.sch.cur
    && (forall x :: x in s'.sch.threads ==> s'.sch.threads[x] == s.sch.threads[x])
    && s'.log == s.log + [Delivery(c, s.procs[c].status)] && s'.exits == s.exits
  }

  lemma OnePlace(l: seq<ProcId>, k: nat)
    requires NoDups(l) && k < |l|
    ensures forall j :: 0 <= j < |l| && l[j] == l[k] ==> j == k
  {
  }

  lemma ReapedExactly(s: PState, c: ProcId, max: nat)
    requires ProcOk(s, max) && s.sch.cur in s.procs && c in s.procs && c in s.procs[s.sch.cur].children
    requires !s.sch.switching && s.procs[c].state == Dead
    ensures Disposed(s, Reaped(s, c), s.sch.cur, c)
  {
    hide SchedOk, Linked, PidsOk, LogOk, SleeperOk, Tree, Without, NoDups;
    var q := s.sch.cur;
    ListsOf(s, q);
    CurrentAlive(s, max);
    WithoutMembers(s.procs[q].children, c);
    WithoutMembers(s.list, c);
  }

  lemma ListsOf(s: PState, q: ProcId)
    requires Linked(s) && Tree(s.procs) && q in s.procs
    ensures NoDups(s.list) && NoDups(s.procs[q].children) && forall p :: p in s.procs ==> p in s.list
  {
    assert ChildrenOk(s.procs, q);
  }

  // ----- Statuses over whole runs -----

  // At step k of the run, from state u, process c exits with the status.
  ghost predicate ExitsAt(s: PState, ops: seq<POp>, max: nat, c: ProcId, status: int, k: nat, u: PState) {
    k < |ops| && PRuns(s, ops[..k], u, max) && u.sch.cur == c && ops[k] == ExitProc(status)
  }

  lemma ExitsOf(s: PState, op: POp, max: nat)
    requires ProcOk(s, max) && PEnabled(s, op, max)
    ensures PStep(s, op, max).exits == if op.ExitProc? then s.exits[s.sch.cur := op.status] else s.exits
  {
    hide SchedOk, Linked, PidsOk, LogOk, SleeperOk, Tree, FirstFree, Born, Left, Orphaned, Asleep, FirstDead, Buried;
  }

  /** Every exit status on record was given by that process itself, when it exited during the run. */
  lemma {:induction false} StatusWasGiven(s: PState, ops: seq<POp>, s': PState, max: nat, c: ProcId)
    requires ProcOk(s, max) && PRuns(s, ops, s', max) && c in s'.exits && c !in s.exits
    ensures exists k: nat, u :: ExitsAt(s, ops, max, c, s'.exits[c], k, u)
    decreases |ops|
  {
    hide ProcOk, PEnabled, PStep;
    if ops != [] {
      var n := |ops| - 1;
      var u :| PRuns(s, ops[..n], u, max) && PLast(u, ops[n], s', max);
      ExitsOf(u, ops[n], max);
      if ops[n].ExitProc? && u.sch.cur == c {
        assert ExitsAt(s, ops, max, c, s'.exits[c], n, u);
      } else {
        StatusWasGiven(s, ops[..n], u, max, c);
        var k: nat, v :| ExitsAt(s, ops[..n], max, c, u.exits[c], k, v);
        assert ops[..n][..k] == ops[..k];
        assert ExitsAt(s, ops, max, c, s'.exits[c], k, v);
      }
    }
  }

  /** What waitpid delivers is what the child passed to exit, in a step of that child earlier in the run. */
  lemma DeliveredWasGiven(s: PState, ops: seq<POp>, s': PState, max: nat, d: Delivery)
    requires ProcOk(s, max) && s.exits == map[] && PRuns(s, ops, s', max) && d in s'.log
    ensures exists k: nat, u :: ExitsAt(s, ops, max, d.child, d.status, k, u)
  {
    hide ProcOk, PRuns;
    ReapedAtMostOnce(s, ops, s', max, d.child);
    StatusWasGiven(s, ops, s', max, d.child);
  }
}
