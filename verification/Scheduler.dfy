/** Threads, queues and the dispatcher: sched.c, sched_helper.c and the thread states of kthread.c. */
module Scheduler {
  import opened PageTypes

  type Tid = nat
  type Qid = nat

  // kt_runq
  const RUNQ: Qid := 0

  datatype ThreadState = NoState | Run | Sleep | SleepCancellable | Exited

  datatype Thread = Thread(state: ThreadState, wchan: Option<Qid>, cancelled: bool)

  // The list runs from the newest entry to the oldest; tq_size is kept apart from it.
  datatype Queue = Queue(list: seq<Tid>, size: int)

  /**
   `cur` is the current thread. While `switching`, it has given up the processor inside sched_switch
   and the dispatcher is waiting for a runnable thread; only interrupts run then.
   */
  datatype SState = SState(threads: map<Tid, Thread>, queues: map<Qid, Queue>, cur: Tid, switching: bool)

  // ----- The invariant -----

  predicate NoDups<T(==)>(s: seq<T>) {
    forall i, j :: 0 <= i < j < |s| ==> s[i] != s[j]
  }

  ghost predicate QueueOk(s: SState, q: Qid)
    requires q in s.queues
  {
    && s.queues[q].size == |s.queues[q].list| && NoDups(s.queues[q].list)
    && (forall t :: t in s.queues[q].list ==> t in s.threads && s.threads[t].wchan == Some(q))
  }

  // The thread has the processor.
  predicate Current(s: SState, t: Tid) { t == s.cur && !s.switching }

  ghost predicate ThreadOk(s: SState, t: Tid)
    requires t in s.threads
  {
    var th := s.threads[t];
    match th.wchan
    case Some(q) =>
      && q in s.queues && t in s.queues[q].list && !Current(s, t)
      && (if q == RUNQ then th.state == Run else th.state == Sleep || th.state == SleepCancellable)
    case None =>
      if Current(s, t) then th.state == Run else th.state == NoState || th.state == Exited
  }

  /**
   Every thread other than the current one that is neither new nor exited is on exactly one queue, which
   its wait channel names and which agrees with its state; every queue's size is its length.
   */
  ghost predicate SchedOk(s: SState) {
    && RUNQ in s.queues && s.cur in s.threads
    && (forall q :: q in s.queues ==> QueueOk(s, q))
    && (forall t :: t in s.threads ==> ThreadOk(s, t))
  }

  /** What the invariant says of one thread, spelled out. */
  lemma OnExactlyOneQueue(s: SState, t: Tid)
    requires SchedOk(s) && t in s.threads && !Current(s, t) && s.threads[t].state != NoState
             && s.threads[t].state != Exited
    ensures s.threads[t].wchan.Some? && s.threads[t].wchan.value in s.queues
    ensures forall q :: q in s.queues ==> (t in s.queues[q].list <==> s.threads[t].wchan == Some(q))
    ensures s.threads[t].state == Run <==> s.threads[t].wchan == Some(RUNQ)
  {
    assert ThreadOk(s, t);
    forall q | q in s.queues ensures t in s.queues[q].list <==> s.threads[t].wchan == Some(q) {
      assert QueueOk(s, q);
    }
  }

  // ----- Queue operations as values -----

  function Put(s: SState, q: Qid, t: Tid, state: ThreadState): SState
    requires q in s.queues && t in s.threads
  {
    s.(queues := s.queues[q := Queue([t] + s.queues[q].list, s.queues[q].size + 1)],
    threads := s.threads[t := s.threads[t].(wchan := Some(q), state := state)])
  }

  function Taken(s: SState, q: Qid, t: Tid): SState
    requires q in s.queues && t in s.threads
  {
    s.(queues := s.queues[q := Queue(Without(s.queues[q].list, t), s.queues[q].size - 1)],
    threads := s.threads[t := s.threads[t].(wchan := None)])
  }

  function Oldest(s: SState, q: Qid): Tid
    requires q in s.queues && s.queues[q].list != []
  {
    s.queues[q].list[|s.queues[q].list| - 1]
  }

  function Dequeued(s: SState, q: Qid): SState
    requires q in s.queues && s.queues[q].list != [] && Oldest(s, q) in s.threads
  {
    s.(queues := s.queues[q := Queue(s.queues[q].list[..|s.queues[q].list| - 1], s.queues[q].size - 1)],
    threads := s.threads[Oldest(s, q) := s.threads[Oldest(s, q)].(wchan := None)])
  }

  // ----- Steps -----

  datatype Op =
    | SleepOn(q: Qid)
    | CancellableSleepOn(q: Qid)
    | WakeupOn(q: Qid)
    | BroadcastOn(q: Qid)
    | Cancel(t: Tid)
    | Create(t: Tid)
    | MakeRunnable(t: Tid)
    | Clone(t: Tid)
    | Exit
    | Destroy(t: Tid)
    | InitQueue(q: Qid)
    | Dispatch

  // When a step may be taken. Wake-ups may come from interrupts, at any time; all else needs the processor.
  predicate Enabled(s: SState, op: Op) {
    match op
    case SleepOn(q) => !s.switching && q in s.queues && q != RUNQ
    case CancellableSleepOn(q) => !s.switching && q in s.queues && q != RUNQ
    case WakeupOn(q) => q in s.queues && q != RUNQ
    case BroadcastOn(q) => q in s.queues && q != RUNQ
    case Cancel(t) => !s.switching && t in s.threads && t != s.cur
    case Create(t) => !s.switching && t !in s.threads
    case MakeRunnable(t) => !s.switching && t in s.threads && s.threads[t].state == NoState
    case Clone(t) => !s.switching && t !in s.threads
    case Exit => !s.switching
    case Destroy(t) => !s.switching && t in s.threads && s.threads[t].state == Exited
    case InitQueue(q) => !s.switching && q !in s.queues
    case Dispatch => s.switching && RUNQ in s.queues && s.queues[RUNQ].list != []
  }

  function Asleep(s: SState, q: Qid, state: ThreadState): SState
    requires q in s.queues && s.cur in s.threads
  {
    Put(s, q, s.cur, state).(switching := true)
  }

  function Woken(s: SState, q: Qid): SState
    requires SchedOk(s) && q in s.queues && q != RUNQ
  {
    if s.queues[q].list == [] then s
    else assert QueueOk(s, q); Put(Dequeued(s, q), RUNQ, Oldest(s, q), Run)
  }

  // Every sleeper of q, in its order, behind the threads that were runnable before.
  function AllWoken(s: SState, q: Qid): SState
    requires SchedOk(s) && q in s.queues && q != RUNQ
  {
    var list, runq := s.queues[q].list, s.queues[RUNQ];
    s.(queues := s.queues[q := Queue([], 0)][RUNQ := Queue(list + runq.list, runq.size + |list|)],
    threads := map t | t in s.threads :: if t in list then s.threads[t].(wchan := Some(RUNQ), state := Run)
                                           else s.threads[t])
  }

  function Cancelled(s: SState, t: Tid): SState
    requires SchedOk(s) && t in s.threads
  {
    assert ThreadOk(s, t);
    var s1 := s.(threads := s.threads[t := s.threads[t].(cancelled := true)]);
    if s.threads[t].state == SleepCancellable && s.threads[t].wchan.Some?
    then Put(Taken(s1, s.threads[t].wchan.value, t), RUNQ, t, Run) else s1
  }

  function Step(s: SState, op: Op): SState
    requires SchedOk(s) && Enabled(s, op)
  {
    match op
    case SleepOn(q) => Asleep(s, q, Sleep)
    case CancellableSleepOn(q) => if s.threads[s.cur].cancelled then s else Asleep(s, q, SleepCancellable)
    case WakeupOn(q) => Woken(s, q)
    case BroadcastOn(q) => AllWoken(s, q)
    case Cancel(t) => Cancelled(s, t)
    case Create(t) => s.(threads := s.threads[t := Thread(NoState, None, false)])
    case MakeRunnable(t) => Put(s, RUNQ, t, Run)
    case Clone(t) => Put(s.(threads := s.threads[t := Thread(Run, None, s.threads[s.cur].cancelled)]), RUNQ, t, Run)
    case Exit => s.(threads := s.threads[s.cur := s.threads[s.cur].(state := Exited)], switching := true)
    case Destroy(t) => s.(threads := s.threads - {t})
    case InitQueue(q) => s.(queues := s.queues[q := Queue([], 0)])
    case Dispatch => assert QueueOk(s, RUNQ); Dequeued(s, RUNQ).(cur := Oldest(s, RUNQ), switching := false)
  }

  // ----- Every step keeps the invariant -----

  // The invariant, with thread t on no queue for the moment.
  ghost predicate OkBut(s: SState, t: Tid) {
    && RUNQ in s.queues && s.cur in s.threads && t in s.threads && s.threads[t].wchan == None
    && (forall q :: q in s.queues ==> QueueOk(s, q))
    && (forall x :: x in s.threads && x != t ==> ThreadOk(s, x))
  }

  predicate Fits(q: Qid, state: ThreadState) {
    if q == RUNQ then state == Run else state == Sleep || state == SleepCancellable
  }

  lemma NotQueued(s: SState, t: Tid)
    requires OkBut(s, t)
    ensures forall q :: q in s.queues ==> t !in s.queues[q].list
  {
    forall q | q in s.queues ensures t !in s.queues[q].list {
      assert QueueOk(s, q);
    }
  }

  lemma PutOk(s: SState, q: Qid, t: Tid, state: ThreadState)
    requires OkBut(s, t) && q in s.queues && !Current(s, t) && Fits(q, state)
    ensures SchedOk(Put(s, q, t, state))
  {
    var s' := Put(s, q, t, state);
    NotQueued(s, t);
    forall r | r in s'.queues ensures QueueOk(s', r) {
      assert QueueOk(s, r);
    }
    forall x | x in s'.threads ensures ThreadOk(s', x) {
      assert x != t ==> ThreadOk(s, x);
    }
  }

  lemma {:induction false} WithoutLast(l: seq<Tid>)
    requires l != [] && NoDups(l)
    ensures Without(l, l[|l| - 1]) == l[..|l| - 1]
  {
    if l[0] != l[|l| - 1] {
      WithoutLast(l[1..]);
    }
  }

  lemma {:induction false} WithoutMembers(l: seq<Tid>, t: Tid)
    requires NoDups(l) && t in l
    ensures NoDups(Without(l, t)) && |Without(l, t)| == |l| - 1
    ensures forall x :: x in Without(l, t) <==> x in l && x != t
  {
    if l[0] != t {
      WithoutMembers(l[1..], t);
      NoDupsConcat([l[0]], Without(l[1..], t));
    }
  }

  lemma NoDupsConcat(a: seq<Tid>, b: seq<Tid>)
    requires NoDups(a) && NoDups(b) && forall x :: x in a ==> x !in b
    ensures NoDups(a + b)
  {
    forall i, j | 0 <= i < j < |a + b| ensures (a + b)[i] != (a + b)[j] {
      if i < |a| <= j {
        assert a[i] in a && b[j - |a|] in b;
      }
    }
  }

  lemma TakenOk(s: SState, q: Qid, t: Tid)
    requires SchedOk(s) && t in s.threads && s.threads[t].wchan == Some(q)
    ensures q in s.queues && OkBut(Taken(s, q, t), t)
  {
    assert ThreadOk(s, t);
    assert QueueOk(s, q);
    WithoutMembers(s.queues[q].list, t);
    var s' := Taken(s, q, t);
    forall r | r in s'.queues ensures QueueOk(s', r) {
      assert QueueOk(s, r);
    }
    forall x | x in s'.threads && x != t ensures ThreadOk(s', x) {
      assert ThreadOk(s, x);
    }
  }

  lemma DequeuedIsTaken(s: SState, q: Qid)
    requires SchedOk(s) && q in s.queues && s.queues[q].list != []
    ensures Oldest(s, q) in s.threads && s.threads[Oldest(s, q)].wchan == Some(q)
    ensures Dequeued(s, q) == Taken(s, q, Oldest(s, q))
  {
    assert QueueOk(s, q);
    WithoutLast(s.queues[q].list);
  }

  lemma WokenOk(s: SState, q: Qid)
    requires SchedOk(s) && q in s.queues && q != RUNQ
    ensures SchedOk(Woken(s, q))
  {
    hide SchedOk, OkBut;
    QueueThere(s);
    if s.queues[q].list != [] {
      var t := Oldest(s, q);
      DequeuedIsTaken(s, q);
      TakenOk(s, q, t);
      NotCurrent(s, t);
      PutOk(Dequeued(s, q), RUNQ, t, Run);
    }
  }

  lemma QueueThere(s: SState)
    requires SchedOk(s)
    ensures RUNQ in s.queues && s.cur in s.threads
  {
  }

  lemma NotCurrent(s: SState, t: Tid)
    requires SchedOk(s) && t in s.threads && s.threads[t].wchan.Some?
    ensures !Current(s, t)
  {
    assert ThreadOk(s, t);
  }

  lemma AsleepOk(s: SState, q: Qid, state: ThreadState)
    requires SchedOk(s) && !s.switching && q in s.queues && q != RUNQ && Fits(q, state)
    ensures SchedOk(Asleep(s, q, state))
  {
    var s1 := s.(switching := true);
    assert ThreadOk(s, s.cur);
    assert OkBut(s1, s.cur) by {
      forall r | r in s.queues ensures QueueOk(s1, r) {
        assert QueueOk(s, r);
      }
      forall x | x in s.threads && x != s.cur ensures ThreadOk(s1, x) {
        assert ThreadOk(s, x);
      }
    }
    PutOk(s1, q, s.cur, state);
  }

  lemma AllWokenOk(s: SState, q: Qid)
    requires SchedOk(s) && q in s.queues && q != RUNQ
    ensures SchedOk(AllWoken(s, q))
  {
    var s' := AllWoken(s, q);
    assert QueueOk(s, q) && QueueOk(s, RUNQ);
    NoDupsConcat(s.queues[q].list, s.queues[RUNQ].list);
    forall r | r in s'.queues ensures QueueOk(s', r) {
      assert QueueOk(s, r);
    }
    forall x | x in s'.threads ensures ThreadOk(s', x) {
      assert ThreadOk(s, x);
    }
  }

  lemma CancelledOk(s: SState, t: Tid)
    requires SchedOk(s) && t in s.threads
    ensures SchedOk(Cancelled(s, t))
  {
    var s1 := s.(threads := s.threads[t := s.threads[t].(cancelled := true)]);
    assert SchedOk(s1) by {
      forall r | r in s.queues ensures QueueOk(s1, r) {
        assert QueueOk(s, r);
      }
      forall x | x in s.threads ensures ThreadOk(s1, x) {
        assert ThreadOk(s, x);
      }
    }
    hide SchedOk, OkBut;
    QueueThere(s1);
    if s.threads[t].state == SleepCancellable && s.threads[t].wchan.Some? {
      var q := s.threads[t].wchan.value;
      TakenOk(s1, q, t);
      NotCurrent(s1, t);
      PutOk(Taken(s1, q, t), RUNQ, t, Run);
    }
  }

  // Changing a thread that is on no queue, or adding one.
  lemma SetThread(s: SState, t: Tid, th: Thread, switching: bool)
    requires SchedOk(s) && th.wchan == None && (t in s.threads ==> s.threads[t].wchan == None)
    requires switching == s.switching || (switching && t == s.cur)
    ensures OkBut(s.(threads := s.threads[t := th], switching := switching), t)
  {
    var s' := s.(threads := s.threads[t := th], switching := switching);
    forall r | r in s.queues ensures QueueOk(s', r) {
      assert QueueOk(s, r);
    }
    forall x | x in s'.threads && x != t ensures ThreadOk(s', x) {
      assert ThreadOk(s, x);
    }
  }

  lemma OkButOk(s: SState, t: Tid)
    requires OkBut(s, t) && ThreadOk(s, t)
    ensures SchedOk(s)
  {
  }

  lemma UnqueuedThread(s: SState, t: Tid)
    requires SchedOk(s) && t in s.threads
    ensures s.threads[t].state == NoState || s.threads[t].state == Exited || Current(s, t) ==>
              s.threads[t].wchan == None
    ensures s.threads[t].state == NoState || s.threads[t].state == Exited ==> !Current(s, t)
  {
    assert ThreadOk(s, t);
  }

  lemma CreatedOk(s: SState, t: Tid)
    requires SchedOk(s) && (Enabled(s, Create(t)) || Enabled(s, Clone(t)) || Enabled(s, MakeRunnable(t)))
    ensures Enabled(s, Create(t)) ==> SchedOk(Step(s, Create(t)))
    ensures Enabled(s, Clone(t)) ==> SchedOk(Step(s, Clone(t)))
    ensures Enabled(s, MakeRunnable(t)) ==> SchedOk(Step(s, MakeRunnable(t)))
  {
    hide SchedOk, OkBut;
    QueueThere(s);
    if t !in s.threads {
      SetThread(s, t, Thread(NoState, None, false), s.switching);
      OkButOk(Step(s, Create(t)), t);
      SetThread(s, t, Thread(Run, None, s.threads[s.cur].cancelled), s.switching);
      PutOk(s.(threads := s.threads[t := Thread(Run, None, s.threads[s.cur].cancelled)]), RUNQ, t, Run);
    } else {
      UnqueuedThread(s, t);
      SetThread(s, t, s.threads[t], s.switching);
      assert s.threads[t := s.threads[t]] == s.threads;
      PutOk(s, RUNQ, t, Run);
    }
  }

  lemma ExitOk(s: SState)
    requires SchedOk(s) && !s.switching
    ensures SchedOk(Step(s, Exit))
  {
    hide SchedOk, OkBut;
    QueueThere(s);
    UnqueuedThread(s, s.cur);
    SetThread(s, s.cur, s.threads[s.cur].(state := Exited), true);
    OkButOk(Step(s, Exit), s.cur);
  }

  lemma DestroyOk(s: SState, t: Tid)
    requires SchedOk(s) && Enabled(s, Destroy(t))
    ensures SchedOk(Step(s, Destroy(t)))
  {
    UnqueuedThread(s, t);
    var s' := Step(s, Destroy(t));
    forall q | q in s'.queues ensures QueueOk(s', q) {
      assert QueueOk(s, q);
    }
    forall x | x in s'.threads ensures ThreadOk(s', x) {
      assert ThreadOk(s, x);
    }
  }

  lemma InitQueueOk(s: SState, q: Qid)
    requires SchedOk(s) && Enabled(s, InitQueue(q))
    ensures SchedOk(Step(s, InitQueue(q)))
  {
    var s' := Step(s, InitQueue(q));
    forall r | r in s'.queues ensures QueueOk(s', r) {
      assert r != q ==> QueueOk(s, r);
    }
    forall x | x in s'.threads ensures ThreadOk(s', x) {
      assert ThreadOk(s, x);
    }
  }

  lemma DispatchOk(s: SState)
    requires SchedOk(s) && Enabled(s, Dispatch)
    ensures SchedOk(Step(s, Dispatch))
  {
    DequeuedIsTaken(s, RUNQ);
    var t := Oldest(s, RUNQ);
    assert ThreadOk(s, t);
    TakenOk(s, RUNQ, t);
    var s1, s2 := Dequeued(s, RUNQ), Step(s, Dispatch);
    forall q | q in s2.queues ensures QueueOk(s2, q) {
      assert QueueOk(s1, q);
    }
    forall x | x in s2.threads ensures ThreadOk(s2, x) {
      assert x != t ==> ThreadOk(s1, x);
    }
  }

  /** The scheduler invariant is kept by every step. */
  lemma StepOk(s: SState, op: Op)
    requires SchedOk(s) && Enabled(s, op)
    ensures SchedOk(Step(s, op))
  {
    hide SchedOk, Put;
    QueueThere(s);
    match op
    case SleepOn(q) => AsleepOk(s, q, Sleep);
    case CancellableSleepOn(q) => AsleepOk(s, q, SleepCancellable);
    case WakeupOn(q) => WokenOk(s, q);
    case BroadcastOn(q) => AllWokenOk(s, q);
    case Cancel(t) => CancelledOk(s, t);
    case Create(t) => CreatedOk(s, t);
    case MakeRunnable(t) => CreatedOk(s, t);
    case Clone(t) => CreatedOk(s, t);
    case Exit => ExitOk(s);
    case Destroy(t) => DestroyOk(s, t);
    case InitQueue(q) => InitQueueOk(s, q);
    case Dispatch => DispatchOk(s);
  }

  // ----- First in, first out -----

  // How many entries of a queue leave before t does.
  function Ahead(l: seq<Tid>, t: Tid): nat
    requires t in l
  {
    if l[|l| - 1] == t then 0 else 1 + Ahead(l[..|l| - 1], t)
  }

  lemma {:induction false} AheadBehind(l: seq<Tid>, m: seq<Tid>, t: Tid)
    requires t in m
    ensures Ahead(l + m, t) == Ahead(m, t)
  {
    if m[|m| - 1] != t {
      assert (l + m)[..|l + m| - 1] == l + m[..|m| - 1];
      AheadBehind(l, m[..|m| - 1], t);
    }
  }

  function Dispatches(ops: seq<Op>): nat {
    if ops == [] then 0 else Dispatches(ops[..|ops| - 1]) + if ops[|ops| - 1] == Dispatch then 1 else 0
  }

  ghost predicate Runs(s: SState, ops: seq<Op>, t: SState)
    decreases |ops|
  {
    if ops == [] then s == t
    else exists u :: Runs(s, ops[..|ops| - 1], u) && SchedOk(u) && Enabled(u, ops[|ops| - 1])
                     && t == Step(u, ops[|ops| - 1])
  }

  ghost predicate Runnable(s: SState, t: Tid) {
    RUNQ in s.queues && t in s.queues[RUNQ].list
  }

  /** A step other than a dispatch never overtakes a runnable thread, and a dispatch brings it one place nearer. */
  lemma StepAhead(s: SState, op: Op, t: Tid)
    requires SchedOk(s) && Enabled(s, op) && Runnable(s, t)
    requires op == Dispatch ==> Ahead(s.queues[RUNQ].list, t) > 0
    ensures Runnable(Step(s, op), t)
    ensures Ahead(Step(s, op).queues[RUNQ].list, t) == Ahead(s.queues[RUNQ].list, t) - if op == Dispatch then 1 else 0
  {
    var l := s.queues[RUNQ].list;
    forall x: seq<Tid> ensures Ahead(x + l, t) == Ahead(l, t) {
      AheadBehind(x, l, t);
    }
    if op.Cancel? {
      assert ThreadOk(s, op.t);
    }
  }

  lemma RunsOk(s: SState, ops: seq<Op>, t: SState)
    requires SchedOk(s) && Runs(s, ops, t)
    ensures SchedOk(t)
  {
    if ops != [] {
      var u :| Runs(s, ops[..|ops| - 1], u) && SchedOk(u) && Enabled(u, ops[|ops| - 1]) && t == Step(u, ops[|ops| - 1]);
      StepOk(u, ops[|ops| - 1]);
    }
  }

  /** Dispatch is first in, first out: over any run, a runnable thread waits for exactly the dispatches ahead of it. */
  lemma {:induction false} Fifo(s: SState, ops: seq<Op>, s': SState, t: Tid)
    requires SchedOk(s) && Runs(s, ops, s') && Runnable(s, t) && Dispatches(ops) <= Ahead(s.queues[RUNQ].list, t)
    ensures Runnable(s', t) && Ahead(s'.queues[RUNQ].list, t) == Ahead(s.queues[RUNQ].list, t) - Dispatches(ops)
    decreases |ops|
  {
    hide SchedOk, Step, Enabled, Runnable;
    if ops != [] {
      var op := ops[|ops| - 1];
      var u :| Runs(s, ops[..|ops| - 1], u) && SchedOk(u) && Enabled(u, op) && s' == Step(u, op);
      Fifo(s, ops[..|ops| - 1], u, t);
      StepAhead(u, op, t);
    }
  }

  lemma DispatchRuns(s: SState, t: Tid)
    requires SchedOk(s) && Enabled(s, Dispatch) && Runnable(s, t) && Ahead(s.queues[RUNQ].list, t) == 0
    ensures Current(Step(s, Dispatch), t)
  {
  }

  /** The dispatch after those ahead of it runs the thread. */
  lemma RunsInTurn(s: SState, ops: seq<Op>, s': SState, t: Tid)
    requires SchedOk(s) && Runs(s, ops, s') && Runnable(s, t) && Dispatches(ops) == Ahead(s.queues[RUNQ].list, t)
    requires Enabled(s', Dispatch)
    ensures SchedOk(s') && Current(Step(s', Dispatch), t)
  {
    hide Enabled, SchedOk, Runs, Step, Runnable, Current;
    RunsOk(s, ops, s');
    Fifo(s, ops, s', t);
    DispatchRuns(s', t);
  }
}
