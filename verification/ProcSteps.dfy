/** What processes do: create, exit, wait. Every step keeps the invariant of the process table. */
module ProcSteps {
  import opened PageTypes
  import opened Scheduler
  import opened Processes
  import M = Mutexes

  datatype POp =
    | NewProc(clone: bool)
    | ExitProc(status: int)
    | WaitPid(pid: int)
    | WaitAgain
    | Other(op: Op)

  function Pids(procs: map<ProcId, Proc>): set<int> { set p | p in procs :: procs[p].pid }

  // _proc_getid
  function NewPid(s: PState, max: nat): int
    requires max > 0
  {
    FirstFree(Pids(s.procs), s.nextPid, max, 0)
  }

  // ----- The scheduler's part of each step -----

  // A queue and a thread for a new process: a new thread, or a copy of the current one that can run at once.
  function Born(s: SState, q: Qid, c: Tid, clone: bool): SState
    requires SchedOk(s)
  {
    var s1 := s.(queues := s.queues[q := Queue([], 0)]);
    if clone then Put(s1.(threads := s.threads[c := Thread(Run, None, s.threads[s.cur].cancelled)]), RUNQ, c, Run)
    else s1.(threads := s.threads[c := Thread(NoState, None, false)])
  }

  lemma BornOk(s: SState, q: Qid, c: Tid, clone: bool)
    requires SchedOk(s) && !s.switching && q !in s.queues && c !in s.threads
    ensures SchedOk(Born(s, q, c, clone))
    ensures var s1 := Step(s, InitQueue(q));
            SchedOk(s1) && Born(s, q, c, clone) == Step(s1, if clone then Clone(c) else Create(c))
  {
    hide SchedOk, Put;
    QueueThere(s);
    var s1 := Step(s, InitQueue(q));
    InitQueueOk(s, q);
    CreatedOk(s1, c);
  }

  // The parent is woken if it waits, and the current thread is gone.
  function Left(s: SState, q: Qid): SState
    requires SchedOk(s) && q in s.queues && q != RUNQ
  {
    var w := Woken(s, q);
    w.(threads := w.threads[s.cur := s.threads[s.cur].(state := Exited)], switching := true)
  }

  lemma LeftOk(s: SState, q: Qid)
    requires SchedOk(s) && !s.switching && q in s.queues && q != RUNQ
    ensures SchedOk(Left(s, q))
    ensures SchedOk(Woken(s, q)) && !Woken(s, q).switching && Left(s, q) == Step(Woken(s, q), Exit)
  {
    hide SchedOk;
    M.Members(s, q);
    WokenOk(s, q);
    var w := Woken(s, q);
    assert w.cur == s.cur && w.threads[w.cur] == s.threads[s.cur];
    ExitOk(w);
  }

  // Scheduler steps that do not create or end threads and use no p_wait queue.
  predicate Harmless(op: Op) {
    match op
    case SleepOn(q) => q % 2 == 1
    case CancellableSleepOn(q) => q % 2 == 1
    case WakeupOn(q) => q % 2 == 1
    case BroadcastOn(q) => q % 2 == 1
    case InitQueue(q) => q % 2 == 1
    case Cancel(_) => true
    case MakeRunnable(_) => true
    case Dispatch => true
    case _ => false
  }

  // ----- Steps -----

  // The current process is running outside do_waitpid.
  predicate Calm(s: PState) {
    !s.sch.switching && s.sch.cur in s.procs && s.procs[s.sch.cur].wait == NotWaiting
  }

  predicate PEnabled(s: PState, op: POp, max: nat) {
    match op
    case NewProc(_) => Calm(s) && max > 0 && NewPid(s, max) != 1
    case ExitProc(_) => Calm(s) && s.sch.cur != IDLE && HasHeir(s.procs, s.sch.cur)
    case WaitPid(_) => Calm(s)
    case WaitAgain => !s.sch.switching && s.sch.cur in s.procs && s.procs[s.sch.cur].wait != NotWaiting
    case Other(o) => Enabled(s.sch, o) && Harmless(o) && (M.ByItself(o) || Calm(s))
  }

  function Created(s: PState, clone: bool, max: nat): PState
    requires SchedOk(s.sch) && s.sch.cur in s.procs && max > 0
  {
    var pid, c := NewPid(s, max), s.next;
    s.(procs := WithChild(s.procs, s.sch.cur, c, pid), list := [c] + s.list, next := c + 1,
    nextPid := if pid == -1 then s.nextPid else (pid + 1) % max,
    sch := Born(s.sch, WaitQ(c), c, clone))
  }

  function Ended(s: PState, status: int): PState
    requires SchedOk(s.sch) && Tree(s.procs) && Linked(s) && s.sch.cur in s.procs && s.sch.cur != IDLE
  {
    var p := s.sch.cur;
    ParentIs(s.procs, p);
    s.(procs := Orphaned(s.procs, p, status), sch := Left(s.sch, WaitQ(s.procs[p].parent.value)),
    exits := s.exits[p := status])
  }

  // The child that do_waitpid disposes of, if it has one.
  function FirstDead(procs: map<ProcId, Proc>, l: seq<ProcId>): Option<ProcId> {
    if l == [] then None else if l[0] in procs && procs[l[0]].state == Dead then Some(l[0])
    else FirstDead(procs, l[1..])
  }

  function FindPid(procs: map<ProcId, Proc>, l: seq<ProcId>, pid: int): Option<ProcId> {
    if l == [] then None else if l[0] in procs && procs[l[0]].pid == pid then Some(l[0])
    else FindPid(procs, l[1..], pid)
  }

  function Ready(s: PState, w: Wait): Option<ProcId>
    requires s.sch.cur in s.procs
  {
    match w
    case NotWaiting => None
    case ForAny => FirstDead(s.procs, s.procs[s.sch.cur].children)
    case ForChild(c) => if c in s.procs && s.procs[c].state == Dead then Some(c) else None
  }

  // What a call waits for; none for the errors ECHILD and EINVAL.
  function Target(s: PState, pid: int): Option<Wait>
    requires s.sch.cur in s.procs
  {
    var children := s.procs[s.sch.cur].children;
    if pid == -1 then if children == [] then None else Some(ForAny)
    else if pid > 0 then
      match FindPid(s.procs, children, pid)
      case None => None
      case Some(c) => Some(ForChild(c))
    else None
  }

  function Reaped(s: PState, c: ProcId): PState
    requires s.sch.cur in s.procs && c in s.procs
  {
    s.(procs := Buried(s.procs, s.sch.cur, c), list := Without(s.list, c),
    sch := s.sch.(threads := s.sch.threads - {c}), log := s.log + [Delivery(c, s.procs[c].status)])
  }

  function Slept(s: PState, w: Wait): PState
    requires SchedOk(s.sch) && s.sch.cur in s.procs && WaitQ(s.sch.cur) in s.sch.queues
  {
    s.(procs := s.procs[s.sch.cur := s.procs[s.sch.cur].(wait := w)], sch := Asleep(s.sch, WaitQ(s.sch.cur), Sleep))
  }

  function WaitOn(s: PState, w: Wait): PState
    requires SchedOk(s.sch) && s.sch.cur in s.procs && WaitQ(s.sch.cur) in s.sch.queues
  {
    match Ready(s, w)
    case Some(c) => if c in s.procs then Reaped(s, c) else s
    case None => Slept(s, w)
  }

  lemma CurrentQueue(s: PState)
    requires SchedOk(s.sch) && Linked(s)
    ensures s.sch.cur in s.procs && WaitQ(s.sch.cur) in s.sch.queues
  {
    hide NoDups;
  }

  // Every step but an exit.
  function Called(s: PState, op: POp, max: nat): PState
    requires SchedOk(s.sch) && s.sch.cur in s.procs && WaitQ(s.sch.cur) in s.sch.queues && PEnabled(s, op, max)
             && !op.ExitProc?
  {
    match op
    case NewProc(clone) => Created(s, clone, max)
    case WaitPid(pid) => (match Target(s, pid) case None => s case Some(w) => WaitOn(s, w))
    case WaitAgain => WaitOn(s, s.procs[s.sch.cur].wait)
    case Other(o) => s.(sch := Step(s.sch, o))
  }

  function PStep(s: PState, op: POp, max: nat): PState
    requires SchedOk(s.sch) && Tree(s.procs) && Linked(s) && PEnabled(s, op, max)
  {
    CurrentQueue(s);
    if op.ExitProc? then Ended(s, op.status) else Called(s, op, max)
  }

  // ----- What each step does to threads and p_wait queues -----

  predicate Sleeping(s: SState, t: Tid) { t in s.threads && s.threads[t].state == Sleep }

  // Threads come and go only as `gained` and `lost` say, exit only if in `exited`; p_wait queues other than w's are as
  // before.
  ghost predicate Frame(s: SState, s': SState, gained: set<Tid>, lost: set<Tid>, exited: set<Tid>,
                        changed: set<ProcId>) {
    && (forall t :: t in s'.threads <==> (t in s.threads && t !in lost) || t in gained)
    && (forall t :: t in s.threads && t in s'.threads && t !in gained ==>
                      (s'.threads[t].state == Exited <==> s.threads[t].state == Exited || t in exited))
    && (forall p: ProcId :: p !in changed ==> (WaitQ(p) in s'.queues <==> WaitQ(p) in s.queues))
    && (forall p: ProcId :: p !in changed && WaitQ(p) in s.queues ==>
                              s'.queues[WaitQ(p)] == s.queues[WaitQ(p)] &&
                              (s.queues[WaitQ(p)].list == [p] && Sleeping(s, p) ==> Sleeping(s', p)))
  }

  lemma FrameOne(s: SState, s': SState, gained: set<Tid>, lost: set<Tid>, exited: set<Tid>, changed: set<ProcId>,
                 p: ProcId)
    requires Frame(s, s', gained, lost, exited, changed) && p !in changed && WaitQ(p) in s.queues
    ensures WaitQ(p) in s'.queues && s'.queues[WaitQ(p)] == s.queues[WaitQ(p)]
    ensures s.queues[WaitQ(p)].list == [p] && Sleeping(s, p) ==> Sleeping(s', p)
  {
  }

  lemma BornFrame(s: SState, c: ProcId, clone: bool)
    requires SchedOk(s) && c !in s.threads && WaitQ(c) !in s.queues
    ensures Frame(s, Born(s, WaitQ(c), c, clone), {c}, {}, {}, {c})
    ensures var s' := Born(s, WaitQ(c), c, clone);
            c in s'.threads && s'.threads[c].state != Exited && WaitQ(c) in s'.queues
            && s'.queues[WaitQ(c)].list == []
  {
    hide SchedOk;
    QueueThere(s);
  }

  lemma QueuedIsLive(s: SState, w: Qid)
    requires SchedOk(s) && w in s.queues
    ensures forall t :: t in s.queues[w].list ==> t in s.threads && s.threads[t].state != Exited
  {
    hide NoDups;
    assert QueueOk(s, w);
    forall t | t in s.queues[w].list ensures s.threads[t].state != Exited {
      assert ThreadOk(s, t);
    }
  }

  lemma WokenFrame(s: SState, q: ProcId)
    requires SchedOk(s) && WaitQ(q) in s.queues && s.queues[WaitQ(q)].list in [[], [q]]
    ensures Frame(s, Woken(s, WaitQ(q)), {}, {}, {}, {q})
    ensures WaitQ(q) in Woken(s, WaitQ(q)).queues && Woken(s, WaitQ(q)).queues[WaitQ(q)].list == []
  {
    hide SchedOk, NoDups;
    M.Members(s, WaitQ(q));
    QueuedIsLive(s, WaitQ(q));
    var s' := Woken(s, WaitQ(q));
    forall p: ProcId | p != q && WaitQ(p) in s.queues
      ensures s.queues[WaitQ(p)].list == [p] && Sleeping(s, p) ==> Sleeping(s', p)
    {
      M.Members(s, WaitQ(p));
    }
  }

  lemma LeftFrame(s: SState, q: ProcId)
    requires SchedOk(s) && !s.switching && WaitQ(q) in s.queues && s.queues[WaitQ(q)].list in [[], [q]]
    ensures Frame(s, Left(s, WaitQ(q)), {}, {}, {s.cur}, {q})
    ensures WaitQ(q) in Left(s, WaitQ(q)).queues && Left(s, WaitQ(q)).queues[WaitQ(q)].list == []
  {
    hide SchedOk, NoDups, Woken;
    WokenFrame(s, q);
    M.Members(s, WaitQ(q));
  }

  lemma SleptFrame(s: SState, p: ProcId)
    requires SchedOk(s) && Current(s, p) && WaitQ(p) in s.queues
    ensures Frame(s, Asleep(s, WaitQ(p), Sleep), {}, {}, {}, {p})
    ensures var s' := Asleep(s, WaitQ(p), Sleep);
            WaitQ(p) in s'.queues && s'.queues[WaitQ(p)].list == [p] + s.queues[WaitQ(p)].list && p in s'.threads
            && s'.threads[p].state == Sleep
  {
    hide SchedOk, NoDups;
    M.Members(s, WaitQ(p));
    QueueThere(s);
  }

  lemma OtherThreads(s: SState, op: Op)
    requires SchedOk(s) && Enabled(s, op) && Harmless(op)
    ensures Step(s, op).threads.Keys == s.threads.Keys
    ensures forall t :: t in s.threads ==> (Step(s, op).threads[t].state == Exited <==> s.threads[t].state == Exited)
  {
    hide SchedOk, NoDups;
    QueueThere(s);
    QueuedIsLive(s, RUNQ);
    if op.WakeupOn? || op.BroadcastOn? {
      QueuedIsLive(s, op.q);
    }
    if op.SleepOn? || op.CancellableSleepOn? {
      M.Members(s, RUNQ);
    }
    if op.Cancel? {
      M.ChannelThere(s, op.t);
    }
  }

  // Only p itself sleeps on its p_wait queue, if anyone does.
  predicate OwnSleeper(s: SState, p: ProcId) {
    WaitQ(p) in s.queues && (s.queues[WaitQ(p)].list == [] || (s.queues[WaitQ(p)].list == [p] && Sleeping(s, p)))
  }

  lemma OtherQueue(s: SState, op: Op, p: ProcId)
    requires SchedOk(s) && Enabled(s, op) && Harmless(op)
    ensures WaitQ(p) in Step(s, op).queues <==> WaitQ(p) in s.queues
    ensures OwnSleeper(s, p) ==> OwnSleeper(Step(s, op), p) && Step(s, op).queues[WaitQ(p)] == s.queues[WaitQ(p)]
  {
    hide SchedOk, NoDups, M.SameFor;
    var w := WaitQ(p);
    OtherDomain(s, op, w);
    if OwnSleeper(s, p) {
      if op.Cancel? && op.t in s.queues[w].list {
        M.CancelWaiter(s, op.t, w);
        CancelSleeper(s, op.t, w);
      } else if op.Cancel? {
        M.CancelOther(s, op.t, w);
        SameOne(s, Step(s, op), w, p);
      } else {
        M.OtherSame(s, op, w);
        SameOne(s, Step(s, op), w, p);
      }
    }
  }

  lemma SameOne(s: SState, s': SState, w: Qid, p: ProcId)
    requires M.SameFor(s, s', w, {})
    ensures w in s.queues && w in s'.queues && s'.queues[w] == s.queues[w]
    ensures p in s.queues[w].list ==> p in s'.threads && s'.threads[p] == s.threads[p]
  {
  }

  lemma CancelSleeper(s: SState, t: Tid, w: Qid)
    requires SchedOk(s) && t in s.threads && s.threads[t].state == Sleep && w in s.queues
    ensures Cancelled(s, t).queues == s.queues
  {
  }

  lemma OtherDomain(s: SState, op: Op, w: Qid)
    requires SchedOk(s) && Enabled(s, op) && Harmless(op) && w % 2 == 0
    ensures w in Step(s, op).queues <==> w in s.queues
  {
    hide SchedOk, NoDups;
    QueueThere(s);
    if op.Cancel? {
      M.ChannelThere(s, op.t);
    }
  }

  // ----- Creation -----

  lemma CreatedLinked(s: PState, clone: bool, max: nat)
    requires SchedOk(s.sch) && Linked(s) && s.sch.cur in s.procs && max > 0
    requires s.procs[s.sch.cur].state == Running
    ensures Linked(Created(s, clone, max))
  {
    hide SchedOk, NoDups, FirstFree, Born, Linked, Frame;
    var c := s.next;
    Unused(s);
    Listed(s);
    BornFrame(s.sch, c, clone);
    NoDupsConcat([c], s.list);
    OneNoDups(c);
    LinkedMore(s, Created(s, clone, max), c);
  }

  // The next name is that of no thread and of no queue.
  lemma Unused(s: PState)
    requires Linked(s)
    ensures s.next !in s.procs && s.next !in s.sch.threads && WaitQ(s.next) !in s.sch.queues
  {
    hide NoDups;
  }

  lemma Listed(s: PState)
    requires Linked(s)
    ensures NoDups(s.list) && forall p :: p in s.list <==> p in s.procs
  {
    hide NoDups;
  }

  lemma LinkedMore(s: PState, s': PState, c: ProcId)
    requires Linked(s) && Frame(s.sch, s'.sch, {c}, {}, {}, {c}) && s.next == c && s'.next == c + 1
    requires c in s'.sch.threads && s'.sch.threads[c].state != Exited && WaitQ(c) in s'.sch.queues
    requires s'.procs.Keys == s.procs.Keys + {c} && s'.procs[c].state == Running
             && forall x :: x in s.procs ==> s'.procs[x].state == s.procs[x].state
    requires s'.list == [c] + s.list && NoDups(s'.list)
    ensures Linked(s')
  {
    hide NoDups;
  }

  lemma OneNoDups(x: Tid)
    ensures NoDups([x])
  {
  }

  lemma CreatedPids(s: PState, clone: bool, max: nat)
    requires SchedOk(s.sch) && PidsOk(s, max) && s.sch.cur in s.procs && s.next !in s.procs
    ensures PidsOk(Created(s, clone, max), max)
  {
    hide SchedOk, Born, FirstFree;
    FirstFreeExact(Pids(s.procs), s.nextPid, max);
    var pid := NewPid(s, max);
    forall p | p in s.procs ensures s.procs[p].pid in Pids(s.procs) {}
  }

  lemma CreatedLog(s: PState, clone: bool, max: nat)
    requires SchedOk(s.sch) && LogOk(s) && s.sch.cur in s.procs && s.next !in s.procs && max > 0
    ensures LogOk(Created(s, clone, max))
  {
    hide SchedOk, Born, FirstFree;
  }

  lemma CreatedSleeper(s: PState, clone: bool, max: nat, p: ProcId)
    requires SchedOk(s.sch) && Linked(s) && s.sch.cur in s.procs && max > 0 && p in s.procs && SleeperOk(s, p)
             && Calm(s)
    ensures SleeperOk(Created(s, clone, max), p)
  {
    hide SchedOk, Born, FirstFree, NoDups, Linked;
    Unused(s);
    CurrentQueue(s);
    BornFrame(s.sch, s.next, clone);
    AwakeCurrent(s);
  }

  lemma CreatedFirst(s: PState, clone: bool, max: nat)
    requires SchedOk(s.sch) && Linked(s) && s.sch.cur in s.procs && max > 0
    ensures SleeperOk(Created(s, clone, max), s.next)
  {
    hide SchedOk, Born, FirstFree, NoDups;
    BornFrame(s.sch, s.next, clone);
  }

  // The process that runs is on no queue.
  lemma AwakeCurrent(s: PState)
    requires SchedOk(s.sch) && !s.sch.switching && WaitQ(s.sch.cur) in s.sch.queues
    ensures s.sch.cur !in s.sch.queues[WaitQ(s.sch.cur)].list
  {
    hide SchedOk;
    M.Members(s.sch, WaitQ(s.sch.cur));
  }

  lemma CurrentAlive(s: PState, max: nat)
    requires ProcOk(s, max) && !s.sch.switching
    ensures s.sch.cur in s.procs && s.procs[s.sch.cur].state == Running && s.sch.cur < s.next && s.next !in s.procs
    ensures WaitQ(s.sch.cur) in s.sch.queues && WaitQ(s.next) !in s.sch.queues && s.next !in s.sch.threads
  {
    hide SchedOk, Tree, PidsOk, LogOk, SleeperOk, NoDups;
    QueueThere(s.sch);
    M.Members(s.sch, RUNQ);
  }

  lemma CreatedKeeps(s: PState, clone: bool, max: nat)
    requires ProcOk(s, max) && PEnabled(s, NewProc(clone), max)
    ensures ProcOk(Created(s, clone, max), max)
  {
    hide SchedOk, Tree, Linked, PidsOk, LogOk, SleeperOk, Born, WithChild, FirstFree;
    CurrentAlive(s, max);
    var s' := Created(s, clone, max);
    TreeWithChild(s.procs, s.sch.cur, s.next, NewPid(s, max));
    BornOk(s.sch, WaitQ(s.next), s.next, clone);
    CreatedLinked(s, clone, max);
    CreatedPids(s, clone, max);
    CreatedLog(s, clone, max);
    WithChildKeys(s.procs, s.sch.cur, s.next, NewPid(s, max));
    forall p | p in s'.procs ensures SleeperOk(s', p) {
      if p == s.next {
        CreatedFirst(s, clone, max);
      } else {
        CreatedSleeper(s, clone, max, p);
      }
    }
  }

  lemma WithChildKeys(procs: map<ProcId, Proc>, q: ProcId, c: ProcId, pid: int)
    requires q in procs
    ensures forall p :: p in WithChild(procs, q, c, pid) <==> p in procs || p == c
  {
  }

  // ----- Exit -----

  lemma EndedLinked(s: PState, status: int)
    requires SchedOk(s.sch) && Tree(s.procs) && Linked(s) && !s.sch.switching && s.sch.cur in s.procs
             && s.sch.cur != IDLE
    requires forall p :: p in s.procs ==> SleeperOk(s, p)
    ensures Linked(Ended(s, status))
  {
    hide SchedOk, Tree, NoDups, Left, Orphan, ParentOk, SleeperOk, Frame, Linked;
    var p := s.sch.cur;
    ParentFact(s.procs, p);
    var q := s.procs[p].parent.value;
    QueueOfSleeper(s, q);
    LeftFrame(s.sch, q);
    forall x | x in s.procs ensures Orphaned(s.procs, p, status)[x].state == if x == p then Dead else s.procs[x].state {
      OrphanState(s.procs, p, x, status);
    }
    LinkedExit(s, Ended(s, status), p, q);
  }

  lemma LinkedExit(s: PState, s': PState, p: ProcId, q: ProcId)
    requires Linked(s) && Frame(s.sch, s'.sch, {}, {}, {p}, {q}) && p in s.procs && q in s.procs
             && WaitQ(q) in s'.sch.queues
    requires s'.procs.Keys == s.procs.Keys && s'.list == s.list && s'.next == s.next
    requires forall x :: x in s.procs ==> s'.procs[x].state == if x == p then Dead else s.procs[x].state
    ensures Linked(s')
  {
    hide NoDups;
  }

  lemma OrphanState(procs: map<ProcId, Proc>, p: ProcId, x: ProcId, status: int)
    requires p in procs && x in procs
    ensures var y := Orphan(procs, p, x, status);
            && y.state == (if x == p then Dead else procs[x].state) && y.pid == procs[x].pid && y.wait == procs[x].wait
            && y.status == (if x == p then status else procs[x].status)
            && (procs[x].parent != Some(p) && x !in procs[p].children ==> y.parent == procs[x].parent)
            && (x != p && x != INIT ==> y.children == procs[x].children)
            && (x == INIT && x != p ==> y.children == Reversed(procs[p].children) + procs[x].children)
  {
  }

  lemma ParentFact(procs: map<ProcId, Proc>, p: ProcId)
    requires Tree(procs) && p in procs && p != IDLE
    ensures procs[p].parent.Some? && procs[p].parent.value in procs && procs[p].parent.value < p
  {
    ParentIs(procs, p);
  }

  lemma QueueOfSleeper(s: PState, q: ProcId)
    requires q in s.procs && SleeperOk(s, q)
    ensures WaitQ(q) in s.sch.queues && s.sch.queues[WaitQ(q)].list in [[], [q]]
  {
  }

  lemma EndedPids(s: PState, status: int, max: nat)
    requires SchedOk(s.sch) && Tree(s.procs) && Linked(s) && PidsOk(s, max) && s.sch.cur in s.procs && s.sch.cur != IDLE
    ensures PidsOk(Ended(s, status), max)
  {
    hide SchedOk, Tree, Linked, Left, Orphan, ParentOk;
    var procs' := Ended(s, status).procs;
    forall x | x in s.procs ensures procs'[x].pid == s.procs[x].pid {
      OrphanState(s.procs, s.sch.cur, x, status);
    }
  }

  lemma EndedLog(s: PState, status: int)
    requires SchedOk(s.sch) && Tree(s.procs) && Linked(s) && LogOk(s) && s.sch.cur in s.procs && s.sch.cur != IDLE
             && s.procs[s.sch.cur].state == Running
    ensures LogOk(Ended(s, status))
  {
    hide SchedOk, Tree, Left, Orphan, ParentOk, NoDups;
    var p := s.sch.cur;
    var procs' := Ended(s, status).procs;
    forall x | x in s.procs
      ensures procs'[x].state == (if x == p then Dead else s.procs[x].state)
              && procs'[x].status == (if x == p then status else s.procs[x].status)
    {
      OrphanState(s.procs, p, x, status);
    }
  }

  /** No wake-up is lost by an exit: its parent is awake, and no other sleeper waits for it. */
  lemma EndedSleeper(s: PState, status: int, x: ProcId)
    requires SchedOk(s.sch) && Tree(s.procs) && Linked(s) && Calm(s) && s.sch.cur != IDLE && HasHeir(s.procs, s.sch.cur)
    requires s.procs[s.sch.cur].state == Running
    requires x in s.procs && SleeperOk(s, x) && s.procs[s.sch.cur].parent.Some?
             && s.procs[s.sch.cur].parent.value in s.procs
    requires SleeperOk(s, s.procs[s.sch.cur].parent.value)
    ensures SleeperOk(Ended(s, status), x)
  {
    hide SchedOk, Tree, Linked, Left, NoDups, Orphan, ParentOk, Frame, NotMissed;
    var p := s.sch.cur;
    var q := s.procs[p].parent.value;
    QueueOfSleeper(s, q);
    LeftFrame(s.sch, q);
    if x != q {
      FrameOne(s.sch, Left(s.sch, WaitQ(q)), {}, {}, {p}, {q}, x);
    }
    AwakeCurrentIn(s);
    OrphanState(s.procs, p, x, status);
    var w := s.procs[x].wait;
    if w.ForChild? {
      EndedForChild(s, status, x);
    } else if w == ForAny && x != q && s.sch.queues[WaitQ(x)].list == [x] {
      EndedForAny(s, status, x);
    }
    if x == INIT && x != p && w == ForAny {
      assert s.procs[x].children != [];
    }
  }

  lemma AwakeCurrentIn(s: PState)
    requires SchedOk(s.sch) && Linked(s) && !s.sch.switching
    ensures WaitQ(s.sch.cur) in s.sch.queues && s.sch.cur !in s.sch.queues[WaitQ(s.sch.cur)].list
  {
    hide SchedOk, NoDups;
    QueueThere(s.sch);
    AwakeCurrent(s);
  }

  lemma EndedForChild(s: PState, status: int, x: ProcId)
    requires SchedOk(s.sch) && Tree(s.procs) && Linked(s) && s.sch.cur in s.procs && s.sch.cur != IDLE
    requires x in s.procs && s.procs[x].wait.ForChild? && x != s.sch.cur
    requires s.procs[x].wait.child in s.procs && s.procs[s.procs[x].wait.child].parent == Some(x)
    ensures var procs', c := Ended(s, status).procs, s.procs[x].wait.child;
            && c in procs' && procs'[c].parent == Some(x)
            && (s.procs[s.sch.cur].parent != Some(x) && NotMissed(s.procs, x) ==> NotMissed(procs', x))
  {
    hide SchedOk, Linked, Left, NoDups, Orphan, Tree;
    var p := s.sch.cur;
    OrphansOf(s.procs, p);
    OrphanState(s.procs, p, x, status);
    OrphanState(s.procs, p, s.procs[x].wait.child, status);
  }

  lemma EndedForAny(s: PState, status: int, x: ProcId)
    requires SchedOk(s.sch) && Tree(s.procs) && Linked(s) && s.sch.cur in s.procs && s.sch.cur != IDLE
    requires x in s.procs && s.procs[s.sch.cur].parent.Some? && s.procs[s.sch.cur].parent.value != x && x != s.sch.cur
    requires s.procs[x].wait == ForAny && NotMissed(s.procs, x)
    ensures NotMissed(Ended(s, status).procs, x)
  {
    hide SchedOk, Linked, Left, NoDups, Orphan, Tree;
    var p := s.sch.cur;
    OrphanState(s.procs, p, x, status);
    if x != INIT {
      forall c | c in s.procs[x].children ensures c in s.procs && Orphaned(s.procs, p, status)[c].state == Running {
        ChildFact(s.procs, x, c);
        OrphanState(s.procs, p, c, status);
      }
    }
  }

  lemma ChildFact(procs: map<ProcId, Proc>, x: ProcId, c: ProcId)
    requires Tree(procs) && x in procs && c in procs[x].children
    ensures c in procs && procs[c].parent == Some(x)
  {
    assert ChildrenOk(procs, x);
  }

  lemma EndedKeeps(s: PState, status: int, max: nat)
    requires ProcOk(s, max) && PEnabled(s, ExitProc(status), max)
    ensures ProcOk(Ended(s, status), max)
  {
    hide SchedOk, Tree, Linked, PidsOk, LogOk, SleeperOk, Left, Orphan;
    CurrentAlive(s, max);
    var p := s.sch.cur;
    ParentFact(s.procs, p);
    var q := s.procs[p].parent.value;
    QueueOfSleeper(s, q);
    LeftOk(s.sch, WaitQ(q));
    TreeOrphaned(s.procs, p, status);
    EndedLinked(s, status);
    EndedPids(s, status, max);
    EndedLog(s, status);
    forall x | x in Ended(s, status).procs ensures SleeperOk(Ended(s, status), x) {
      EndedSleeper(s, status, x);
    }
  }

  // ----- Waiting -----

  // The process at place k of the list is dead, and the ones before it run.
  predicate DeadAt(procs: map<ProcId, Proc>, l: seq<ProcId>, k: nat) {
    k < |l| && l[k] in procs && procs[l[k]].state == Dead
    && forall j :: 0 <= j < k && l[j] in procs ==> procs[l[j]].state == Running
  }

  /** The search ends at the first process of the list that is dead; it finds none exactly if none is. */
  lemma {:induction false} FirstDeadExact(procs: map<ProcId, Proc>, l: seq<ProcId>)
    ensures match FirstDead(procs, l)
            case Some(c) => c in l && c in procs && procs[c].state == Dead
                            && exists k: nat :: DeadAt(procs, l, k) && l[k] == c
            case None => forall c :: c in l && c in procs ==> procs[c].state == Running
  {
    if l != [] && !(l[0] in procs && procs[l[0]].state == Dead) {
      FirstDeadExact(procs, l[1..]);
      if FirstDead(procs, l[1..]).Some? {
        var k: nat :| DeadAt(procs, l[1..], k) && l[1..][k] == FirstDead(procs, l[1..]).value;
        assert forall j :: 0 < j <= k ==> l[j] == l[1..][j - 1];
        assert DeadAt(procs, l, k + 1);
      }
    } else if l != [] {
      assert DeadAt(procs, l, 0);
    }
  }

  lemma {:induction false} FindPidExact(procs: map<ProcId, Proc>, l: seq<ProcId>, pid: int)
    ensures match FindPid(procs, l, pid)
            case Some(c) => c in l && c in procs && procs[c].pid == pid
            case None => forall c :: c in l && c in procs ==> procs[c].pid != pid
  {
    if l != [] && !(l[0] in procs && procs[l[0]].pid == pid) {
      FindPidExact(procs, l[1..], pid);
    }
  }

  // The wait is for children the current process has.
  ghost predicate WaitsWell(s: PState, w: Wait)
    requires s.sch.cur in s.procs
  {
    match w
    case NotWaiting => false
    case ForAny => s.procs[s.sch.cur].children != []
    case ForChild(c) => c in s.procs && s.procs[c].parent == Some(s.sch.cur)
  }

  lemma WaitKind(s: PState, w: Wait)
    requires s.sch.cur in s.procs && WaitsWell(s, w)
    ensures w != NotWaiting && (w.ForChild? ==> w.child in s.procs && s.procs[w.child].parent == Some(s.sch.cur))
  {
  }

  lemma ReadyExact(s: PState, w: Wait)
    requires Tree(s.procs) && s.sch.cur in s.procs && WaitsWell(s, w)
    ensures Ready(s, w).Some? ==>
              var c := Ready(s, w).value;
              c in s.procs && s.procs[c].state == Dead && c in s.procs[s.sch.cur].children
              && (w.ForChild? ==> c == w.child)
    ensures Ready(s, w) == None ==>
              match w case NotWaiting => true
                      case ForChild(c) => s.procs[c].state == Running
                      case ForAny => forall c :: c in s.procs[s.sch.cur].children ==> c in s.procs
                                                                                      && s.procs[c].state == Running
  {
    hide Tree;
    var p := s.sch.cur;
    FirstDeadExact(s.procs, s.procs[p].children);
    if w.ForChild? {
      ChildListExact(s.procs, p, w.child);
    }
    forall c | c in s.procs[p].children ensures c in s.procs {
      ChildFact(s.procs, p, c);
    }
  }

  lemma TreeWaiting(procs: map<ProcId, Proc>, p: ProcId, w: Wait)
    requires Tree(procs) && p in procs
    ensures Tree(procs[p := procs[p].(wait := w)])
  {
    hide ParentOk, ChildrenOk;
    var procs' := procs[p := procs[p].(wait := w)];
    forall x | x in procs' ensures ChildrenOk(procs', x) && (x != IDLE ==> ParentOk(procs', x)) {
      WaitingNode(procs, p, w, x);
    }
  }

  lemma WaitingNode(procs: map<ProcId, Proc>, p: ProcId, w: Wait, x: ProcId)
    requires p in procs && x in procs && ChildrenOk(procs, x)
    ensures var procs' := procs[p := procs[p].(wait := w)];
            ChildrenOk(procs', x) && (ParentOk(procs, x) ==> ParentOk(procs', x))
  {
    hide NoDups;
  }

  lemma SleptSleeper(s: PState, w: Wait, x: ProcId)
    requires SchedOk(s.sch) && Tree(s.procs) && Linked(s) && !s.sch.switching && s.sch.cur in s.procs
             && s.procs[s.sch.cur].state == Running
    requires WaitsWell(s, w) && Ready(s, w) == None && x in s.procs && SleeperOk(s, x)
             && WaitQ(s.sch.cur) in s.sch.queues
    ensures SleeperOk(Slept(s, w), x)
  {
    hide SchedOk, Tree, Linked, Asleep, FirstDead, Frame;
    var p := s.sch.cur;
    QueueThere(s.sch);
    SleptFrame(s.sch, p);
    ReadyExact(s, w);
    if x == p {
      AwakeCurrent(s);
    } else {
      FrameOne(s.sch, Asleep(s.sch, WaitQ(p), Sleep), {}, {}, {}, {p}, x);
    }
  }

  lemma SleptKeeps(s: PState, w: Wait, max: nat)
    requires ProcOk(s, max) && !s.sch.switching && s.sch.cur in s.procs && WaitQ(s.sch.cur) in s.sch.queues
             && WaitsWell(s, w) && Ready(s, w) == None
    ensures ProcOk(Slept(s, w), max)
  {
    hide SchedOk, Tree, Linked, PidsOk, LogOk, SleeperOk, Asleep, Ready, WaitsWell;
    var p := s.sch.cur;
    CurrentAlive(s, max);
    AsleepOk(s.sch, WaitQ(p), Sleep);
    TreeWaiting(s.procs, p, w);
    SleptTables(s, w, max);
    forall x | x in s.procs ensures SleeperOk(Slept(s, w), x) {
      SleptSleeper(s, w, x);
    }
  }

  lemma SleptTables(s: PState, w: Wait, max: nat)
    requires SchedOk(s.sch) && Linked(s) && PidsOk(s, max) && LogOk(s) && Current(s.sch, s.sch.cur)
             && s.sch.cur in s.procs && WaitQ(s.sch.cur) in s.sch.queues
    ensures Linked(Slept(s, w)) && PidsOk(Slept(s, w), max) && LogOk(Slept(s, w))
  {
    hide SchedOk, Asleep, NoDups, Linked, PidsOk, LogOk, Frame;
    var p := s.sch.cur;
    SleptFrame(s.sch, p);
    LinkedSame(s, Slept(s, w), p);
    TablesSame(s, Slept(s, w), max);
  }

  lemma LinkedSame(s: PState, s': PState, p: ProcId)
    requires Linked(s) && Frame(s.sch, s'.sch, {}, {}, {}, {p}) && p in s.procs && WaitQ(p) in s'.sch.queues
    requires s'.procs.Keys == s.procs.Keys && s'.list == s.list && s'.next == s.next
    requires forall x :: x in s.procs ==> s'.procs[x].state == s.procs[x].state
    ensures Linked(s')
  {
    hide NoDups;
  }

  lemma TablesSame(s: PState, s': PState, max: nat)
    requires PidsOk(s, max) && LogOk(s) && s'.procs.Keys == s.procs.Keys && s'.next == s.next && s'.nextPid == s.nextPid
    requires s'.log == s.log && s'.exits == s.exits
    requires forall x :: x in s.procs ==> s'.procs[x].state == s.procs[x].state && s'.procs[x].pid == s.procs[x].pid
                                          && s'.procs[x].status == s.procs[x].status
    ensures PidsOk(s', max) && LogOk(s')
  {
  }

  lemma ReapedLinked(s: PState, c: ProcId)
    requires SchedOk(s.sch) && Linked(s) && s.sch.cur in s.procs && c in s.procs && c != s.sch.cur
             && s.procs[c].state == Dead
    ensures Linked(Reaped(s, c))
  {
    hide SchedOk, NoDups, Linked, Without;
    Listed(s);
    WithoutMembers(s.list, c);
    LinkedFewer(s, Reaped(s, c), c);
  }

  lemma LinkedFewer(s: PState, s': PState, c: ProcId)
    requires Linked(s) && s'.sch == s.sch.(threads := s.sch.threads - {c}) && s'.next == s.next
    requires s'.procs.Keys == s.procs.Keys - {c}
             && forall x :: x in s.procs && x != c ==> s'.procs[x].state == s.procs[x].state
    requires NoDups(s'.list) && forall p :: p in s'.list <==> p in s.list && p != c
    ensures Linked(s')
  {
    hide NoDups;
  }

  lemma ReapedLog(s: PState, c: ProcId)
    requires LogOk(s) && s.sch.cur in s.procs && c in s.procs && c != s.sch.cur && s.procs[c].state == Dead
    ensures LogOk(Reaped(s, c))
  {
    hide Without;
    var s' := Reaped(s, c);
    forall i, j | 0 <= i < j < |s'.log| ensures s'.log[i].child != s'.log[j].child {
      assert i < |s.log|;
    }
  }

  lemma ReapedSleeper(s: PState, c: ProcId, x: ProcId)
    requires SchedOk(s.sch) && Tree(s.procs) && Linked(s) && !s.sch.switching && s.sch.cur in s.procs && c in s.procs
             && s.procs[c].state == Dead
    requires s.procs[c].parent == Some(s.sch.cur) && c != s.sch.cur && x in s.procs && x != c && SleeperOk(s, x)
    ensures SleeperOk(Reaped(s, c), x)
  {
    hide SchedOk, Tree, Without, NoDups;
    var p := s.sch.cur;
    AwakeCurrent(s);
    if x != p {
      assert s.procs[x] == Reaped(s, c).procs[x];
      if s.procs[x].wait == ForAny {
        forall d | d in s.procs[x].children ensures d != c {
          ChildFact(s.procs, x, d);
        }
      }
    }
  }

  lemma ReapedKeeps(s: PState, c: ProcId, max: nat)
    requires ProcOk(s, max) && !s.sch.switching && s.sch.cur in s.procs && c in s.procs[s.sch.cur].children
             && c in s.procs && s.procs[c].state == Dead
    ensures ProcOk(Reaped(s, c), max)
  {
    hide SchedOk, Tree, Linked, PidsOk, LogOk, SleeperOk;
    var p := s.sch.cur;
    CurrentAlive(s, max);
    TreeBuried(s.procs, p, c);
    ChildFact(s.procs, p, c);
    DeadExited(s, c);
    DestroyOk(s.sch, c);
    ReapedLinked(s, c);
    ReapedPids(s, c, max);
    ReapedLog(s, c);
    forall x | x in Reaped(s, c).procs ensures SleeperOk(Reaped(s, c), x) {
      ReapedSleeper(s, c, x);
    }
  }

  lemma DeadExited(s: PState, c: ProcId)
    requires Linked(s) && c in s.procs && s.procs[c].state == Dead
    ensures c in s.sch.threads && s.sch.threads[c].state == Exited
  {
    hide NoDups;
  }

  lemma ReapedPids(s: PState, c: ProcId, max: nat)
    requires PidsOk(s, max) && s.sch.cur in s.procs && c in s.procs && c != s.sch.cur
    ensures PidsOk(Reaped(s, c), max)
  {
    hide Without;
  }

  /** A process that has been disposed of had its thread on no queue, and it was not the one running. */
  lemma ReapedThreadIsFree(s: PState, c: ProcId, max: nat)
    requires ProcOk(s, max) && c in s.procs && s.procs[c].state == Dead
    ensures c in s.sch.threads && s.sch.threads[c].wchan == None && !Current(s.sch, c)
    ensures forall q :: q in s.sch.queues ==> c !in s.sch.queues[q].list
  {
    hide Tree, PidsOk, LogOk, SleeperOk, NoDups;
    DeadExited(s, c);
    UnqueuedThread(s.sch, c);
    forall q | q in s.sch.queues ensures c !in s.sch.queues[q].list {
      assert QueueOk(s.sch, q);
    }
  }

  lemma WaitOnKeeps(s: PState, w: Wait, max: nat)
    requires ProcOk(s, max) && !s.sch.switching && s.sch.cur in s.procs && WaitQ(s.sch.cur) in s.sch.queues
             && WaitsWell(s, w)
    ensures ProcOk(WaitOn(s, w), max)
  {
    hide SchedOk, Tree, Linked, PidsOk, LogOk, SleeperOk, WaitsWell, Ready;
    ReadyExact(s, w);
    if Ready(s, w).Some? {
      ReapedKeeps(s, Ready(s, w).value, max);
    } else {
      SleptKeeps(s, w, max);
    }
  }

  lemma TargetWell(s: PState, pid: int)
    requires Tree(s.procs) && s.sch.cur in s.procs && Target(s, pid).Some?
    ensures WaitsWell(s, Target(s, pid).value)
  {
    hide Tree;
    var p := s.sch.cur;
    if pid > 0 {
      FindPidExact(s.procs, s.procs[p].children, pid);
      ChildFact(s.procs, p, Target(s, pid).value.child);
    }
  }

  lemma StillWell(s: PState)
    requires s.sch.cur in s.procs && SleeperOk(s, s.sch.cur) && s.procs[s.sch.cur].wait != NotWaiting
    ensures WaitsWell(s, s.procs[s.sch.cur].wait)
  {
  }

  // ----- Everything else -----

  lemma OtherSleeper(s: PState, op: Op, p: ProcId)
    requires SchedOk(s.sch) && Enabled(s.sch, op) && Harmless(op) && p in s.procs && SleeperOk(s, p)
    ensures SleeperOk(s.(sch := Step(s.sch, op)), p)
  {
    hide SchedOk, Step, NotMissed;
    OtherQueue(s.sch, op, p);
  }

  lemma OtherLinked(s: PState, op: Op)
    requires SchedOk(s.sch) && Enabled(s.sch, op) && Harmless(op) && Linked(s)
    ensures Linked(s.(sch := Step(s.sch, op)))
  {
    hide SchedOk, Step, NoDups;
    OtherThreads(s.sch, op);
    forall p: ProcId ensures WaitQ(p) in Step(s.sch, op).queues <==> WaitQ(p) in s.sch.queues {
      OtherQueue(s.sch, op, p);
    }
  }

  lemma OtherKeeps(s: PState, op: Op, max: nat)
    requires SchedOk(s.sch) && Enabled(s.sch, op) && Harmless(op) && ProcOk(s, max)
    ensures ProcOk(s.(sch := Step(s.sch, op)), max)
  {
    hide SchedOk, Tree, Linked, SleeperOk, Step;
    StepOk(s.sch, op);
    OtherLinked(s, op);
    forall p | p in s.procs ensures SleeperOk(s.(sch := Step(s.sch, op)), p) {
      OtherSleeper(s, op, p);
    }
  }

  /**
   Every step of every process keeps the tree, the child lists, the links to the scheduler, the ids, the
   deliveries and the absence of lost wake-ups.
   */
  lemma PStepOk(s: PState, op: POp, max: nat)
    requires ProcOk(s, max) && PEnabled(s, op, max)
    ensures ProcOk(PStep(s, op, max), max)
  {
    hide SchedOk, Tree, Linked, PidsOk, LogOk, SleeperOk, Created, Ended, WaitOn, Target, Step, NewPid, HasHeir;
    CurrentQueue(s);
    match op
    case NewProc(clone) => CreatedKeeps(s, clone, max);
    case ExitProc(status) => EndedKeeps(s, status, max);
    case WaitPid(pid) =>
      if Target(s, pid).Some? {
        TargetWell(s, pid);
        WaitOnKeeps(s, Target(s, pid).value, max);
      }
    case WaitAgain =>
      StillWell(s);
      WaitOnKeeps(s, s.procs[s.sch.cur].wait, max);
    case Other(o) => OtherKeeps(s, o, max);
  }

  // ----- Over whole runs -----

  ghost predicate PRuns(s: PState, ops: seq<POp>, s': PState, max: nat)
    decreases |ops|
  {
    if ops == [] then s == s'
    else
      var op := ops[|ops| - 1];
      exists u :: PRuns(s, ops[..|ops| - 1], u, max) && PLast(u, op, s', max)
  }

  ghost predicate PLast(u: PState, op: POp, s': PState, max: nat) {
    ProcOk(u, max) && PEnabled(u, op, max) && s' == PStep(u, op, max)
  }

  lemma PRunsOn(s: PState, ops: seq<POp>, u: PState, op: POp, s': PState, max: nat)
    requires PRuns(s, ops, u, max) && PLast(u, op, s', max)
    ensures PRuns(s, ops + [op], s', max)
  {
    hide PLast;
    var all := ops + [op];
    assert all[..|all| - 1] == ops && all[|all| - 1] == op;
    assert PRuns(s, all[..|all| - 1], u, max);
  }

  lemma PRunsOk(s: PState, ops: seq<POp>, s': PState, max: nat)
    requires ProcOk(s, max) && PRuns(s, ops, s', max)
    ensures ProcOk(s', max)
  {
    hide ProcOk, PEnabled, PStep;
    if ops != [] {
      var u :| PRuns(s, ops[..|ops| - 1], u, max) && PLast(u, ops[|ops| - 1], s', max);
      PStepOk(u, ops[|ops| - 1], max);
    }
  }

  // The process sleeps in do_waitpid.
  predicate AsleepInWait(s: PState, p: ProcId) {
    p in s.procs && s.procs[p].wait != NotWaiting && WaitQ(p) in s.sch.queues && p in s.sch.queues[WaitQ(p)].list
  }

  ghost predicate HasDeadChild(s: PState, p: ProcId) {
    p in s.procs && exists c :: c in s.procs && s.procs[c].parent == Some(p) && s.procs[c].state == Dead
  }

  /**
   No lost wake-up: in every state a run reaches, the child a sleeper waits for is alive, and a sleeper
   other than init that waits for any child has none that is dead.
   */
  lemma NoLostWakeup(s: PState, ops: seq<POp>, s': PState, max: nat, p: ProcId)
    requires ProcOk(s, max) && PRuns(s, ops, s', max) && AsleepInWait(s', p)
    ensures s'.procs[p].wait.ForChild? ==> s'.procs[p].wait.child in s'.procs
                                           && s'.procs[s'.procs[p].wait.child].state == Running
    ensures s'.procs[p].wait == ForAny && p != INIT ==> !HasDeadChild(s', p)
  {
    hide SchedOk, Linked, PidsOk, LogOk, Tree, PRuns;
    PRunsOk(s, ops, s', max);
    assert SleeperOk(s', p);
    forall c | c in s'.procs && s'.procs[c].parent == Some(p) ensures c in s'.procs[p].children {
      ChildListExact(s'.procs, p, c);
    }
  }

  function Deliveries(log: seq<Delivery>, c: ProcId): nat {
    if log == [] then 0 else Deliveries(log[..|log| - 1], c) + if log[|log| - 1].child == c then 1 else 0
  }

  lemma {:induction false} DeliveredOnce(log: seq<Delivery>, c: ProcId)
    requires forall i, j :: 0 <= i < j < |log| ==> log[i].child != log[j].child
    ensures Deliveries(log, c) <= 1
    ensures Deliveries(log, c) == 0 <==> forall i :: 0 <= i < |log| ==> log[i].child != c
  {
    if log != [] {
      DeliveredOnce(log[..|log| - 1], c);
    }
  }

  /** Exactly-once reaping: over any run each exit status is delivered at most once, and is the one of that exit. */
  lemma ReapedAtMostOnce(s: PState, ops: seq<POp>, s': PState, max: nat, c: ProcId)
    requires ProcOk(s, max) && PRuns(s, ops, s', max)
    ensures Deliveries(s'.log, c) <= 1
    ensures forall d :: d in s'.log ==> d.child in s'.exits && d.status == s'.exits[d.child] && d.child !in s'.procs
  {
    hide SchedOk, Linked, PidsOk, Tree, SleeperOk, PRuns;
    PRunsOk(s, ops, s', max);
    DeliveredOnce(s'.log, c);
  }

  // ----- Exactly when things go wrong -----

  ghost predicate PidsDistinct(procs: map<ProcId, Proc>) {
    forall p, q :: p in procs && q in procs && p != q ==> procs[p].pid != procs[q].pid
  }

  /**
   proc_create does not look whether it got an id. Ids stay distinct if and only if one was free or no
   process runs under -1 yet.
   */
  lemma PidsDistinctExactly(s: PState, clone: bool, max: nat)
    requires ProcOk(s, max) && PEnabled(s, NewProc(clone), max) && PidsDistinct(s.procs)
    ensures PidsDistinct(Created(s, clone, max).procs) <==>
            (exists x :: 0 <= x < max && x !in Pids(s.procs)) || -1 !in Pids(s.procs)
  {
    hide SchedOk, Linked, LogOk, Tree, SleeperOk, FirstFree, Born;
    CurrentAlive(s, max);
    FirstFreeExact(Pids(s.procs), s.nextPid, max);
    var pid, c := NewPid(s, max), s.next;
    var procs' := Created(s, clone, max).procs;
    WithChildPids(s.procs, s.sch.cur, c, pid);
    assert PidsDistinct(procs') <==> pid !in Pids(s.procs);
  }

  lemma WithChildPids(procs: map<ProcId, Proc>, q: ProcId, c: ProcId, pid: int)
    requires q in procs && c !in procs && PidsDistinct(procs)
    ensures PidsDistinct(WithChild(procs, q, c, pid)) <==> pid !in Pids(procs)
  {
    var procs' := WithChild(procs, q, c, pid);
    if pid in Pids(procs) {
      var p :| p in procs && procs[p].pid == pid;
      assert procs'[p].pid == procs'[c].pid;
    } else {
      forall p | p in procs ensures procs'[p].pid == procs[p].pid && procs[p].pid in Pids(procs) {}
    }
  }

  /**
   An exit wakes only the parent of the process that exits. It leaves init asleep over a dead child if
   and only if that parent is not init and the process has a dead child to pass on.
   */
  lemma InitMissesExactly(s: PState, status: int, max: nat)
    requires ProcOk(s, max) && PEnabled(s, ExitProc(status), max)
    requires AsleepInWait(s, INIT) && s.procs[INIT].wait == ForAny && !HasDeadChild(s, INIT)
    ensures var s' := Ended(s, status);
            AsleepInWait(s', INIT) && HasDeadChild(s', INIT) <==>
            s.procs[s.sch.cur].parent != Some(INIT) && HasDeadChild(s, s.sch.cur)
  {
    hide SchedOk, Linked, PidsOk, LogOk, Tree, SleeperOk, Left, Orphan;
    CurrentAlive(s, max);
    AwakeCurrent(s);
    var p, s' := s.sch.cur, Ended(s, status);
    InitAfterExit(s, status, max);
    OrphansOf(s.procs, p);
    forall c | c in s.procs ensures s'.procs[c].state == (if c == p then Dead else s.procs[c].state)
                                    && (s'.procs[c].parent == if s.procs[c].parent == Some(p) then Some(INIT)
                                                              else s.procs[c].parent) {
      OrphanLinks(s.procs, p, c, status);
    }
  }

  lemma OrphanLinks(procs: map<ProcId, Proc>, p: ProcId, c: ProcId, status: int)
    requires Tree(procs) && p in procs && c in procs && p != IDLE
    ensures var y := Orphan(procs, p, c, status);
            y.state == (if c == p then Dead else procs[c].state)
            && (y.parent == if procs[c].parent == Some(p) then Some(INIT) else procs[c].parent)
  {
    hide Tree;
    OrphansOf(procs, p);
    ParentFact(procs, p);
    if procs[c].parent == Some(p) {
      ChildListExact(procs, p, c);
    }
  }

  // Init goes on sleeping exactly if it is not the parent.
  lemma InitAfterExit(s: PState, status: int, max: nat)
    requires ProcOk(s, max) && PEnabled(s, ExitProc(status), max) && AsleepInWait(s, INIT)
    ensures AsleepInWait(Ended(s, status), INIT) <==> s.procs[s.sch.cur].parent != Some(INIT)
  {
    hide SchedOk, Linked, PidsOk, LogOk, Tree, SleeperOk, Left, Orphan, Frame;
    CurrentAlive(s, max);
    ParentFact(s.procs, s.sch.cur);
    var q := s.procs[s.sch.cur].parent.value;
    QueueOfSleeper(s, q);
    LeftFrame(s.sch, q);
    OrphanState(s.procs, s.sch.cur, INIT, status);
    if q != INIT {
      FrameOne(s.sch, Left(s.sch, WaitQ(q)), {}, {}, {s.sch.cur}, {q}, INIT);
    }
  }
}
