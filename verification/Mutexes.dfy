/** Mutexes with direct handoff, as a transition system over the scheduler. */
module Mutexes {
  import opened PageTypes
  import opened Scheduler

  // Where a thread stands with the mutex: not using it, inside a lock call that blocked, or between lock and unlock.
  datatype Phase = Out | Waiting | WaitingCancellable | Holding

  datatype MState = MState(sch: SState, waitq: Qid, holder: Option<Tid>, phase: map<Tid, Phase>, panicked: bool)

  datatype MOp = Lock | LockCancellable | Resume | Unlock | Other(op: Op)

  function PhaseOf(m: MState, t: Tid): Phase { if t in m.phase then m.phase[t] else Out }

  function Waiters(m: MState): seq<Tid> {
    if m.waitq in m.sch.queues then m.sch.queues[m.waitq].list else []
  }

  predicate Live(s: SState, t: Tid) {
    t in s.threads && s.threads[t].state != NoState && s.threads[t].state != Exited
  }

  predicate Interrupted(s: SState, t: Tid) { t in s.threads && s.threads[t].cancelled }

  // ----- The invariant -----

  ghost predicate WaiterOk(m: MState, t: Tid) {
    && t in m.sch.threads && m.holder != Some(t)
    && (if PhaseOf(m, t) == Waiting then m.sch.threads[t].state == Sleep
        else PhaseOf(m, t) == WaitingCancellable && m.sch.threads[t].state == SleepCancellable
             && !m.sch.threads[t].cancelled)
  }

  ghost predicate PhaseOk(m: MState, t: Tid) {
    match PhaseOf(m, t)
    case Out => m.holder != Some(t)
    case Holding => Live(m.sch, t) && m.holder == Some(t)
    case Waiting => Live(m.sch, t) && (t in Waiters(m) || m.holder == Some(t))
    case WaitingCancellable => Live(m.sch, t) && (t in Waiters(m) || m.holder == Some(t) || Interrupted(m.sch, t))
  }

  /**
   A thread between lock and unlock is the holder; the holder is such a thread or one that was handed the
   mutex and has not yet returned from its lock call; with no holder there are no waiters.
   */
  ghost predicate MutexOk(m: MState) {
    && SchedOk(m.sch) && m.waitq in m.sch.queues && m.waitq != RUNQ
    && (m.holder == None ==> Waiters(m) == [])
    && (forall t :: t in Waiters(m) ==> WaiterOk(m, t))
    && (forall t :: PhaseOk(m, t))
  }

  /** Mutual exclusion. */
  lemma OneHolder(m: MState, t: Tid, u: Tid)
    requires MutexOk(m) && PhaseOf(m, t) == Holding && PhaseOf(m, u) == Holding
    ensures t == u
  {
    assert PhaseOk(m, t) && PhaseOk(m, u);
  }

  // ----- Steps -----

  // The step does not use the mutex's own wait queue.
  predicate Apart(op: Op, w: Qid) {
    match op
    case SleepOn(q) => q != w
    case CancellableSleepOn(q) => q != w
    case WakeupOn(q) => q != w
    case BroadcastOn(q) => q != w
    case _ => true
  }

  // Wake-ups and dispatches need no thread; anything else is done by the current thread, outside its lock calls.
  predicate ByItself(op: Op) { op.WakeupOn? || op.BroadcastOn? || op.Dispatch? }

  predicate MEnabled(m: MState, op: MOp) {
    !m.panicked &&
    match op
    case Lock => !m.sch.switching && PhaseOf(m, m.sch.cur) == Out
    case LockCancellable => !m.sch.switching && PhaseOf(m, m.sch.cur) == Out
    case Resume => !m.sch.switching && (PhaseOf(m, m.sch.cur) == Waiting || PhaseOf(m, m.sch.cur) == WaitingCancellable)
    case Unlock => !m.sch.switching && PhaseOf(m, m.sch.cur) == Holding
    case Other(o) =>
      && Enabled(m.sch, o) && Apart(o, m.waitq)
      && (ByItself(o) || PhaseOf(m, m.sch.cur) == Out || (PhaseOf(m, m.sch.cur) == Holding && o != Exit))
  }

  // kmutex_unlock: the oldest waiter, if any, is made runnable and becomes the holder.
  function Released(m: MState): MState
    requires SchedOk(m.sch) && m.waitq in m.sch.queues && m.waitq != RUNQ
  {
    if Waiters(m) == [] then m.(holder := None)
    else m.(holder := Some(Oldest(m.sch, m.waitq)), sch := Woken(m.sch, m.waitq))
  }

  function Enter(m: MState, p: Phase): MState { m.(phase := m.phase[m.sch.cur := p]) }

  /**
   One step of the run. When `fixed`, a lock call that was interrupted unlocks only what its thread holds,
   as kmutex_lock_cancellable is meant to; otherwise it always unlocks, as it does, and the assertion of
   kmutex_unlock stops the kernel when the thread is not the holder.
   */
  function MStep(m: MState, op: MOp, fixed: bool): MState
    requires MutexOk(m) && MEnabled(m, op)
  {
    var t := m.sch.cur;
    match op
    case Lock =>
      if m.holder == None then Enter(m, Holding).(holder := Some(t))
      else Enter(m, Waiting).(sch := Asleep(m.sch, m.waitq, Sleep))
    case LockCancellable =>
      if Interrupted(m.sch, t) then m
      else if m.holder == None then Enter(m, Holding).(holder := Some(t))
      else Enter(m, WaitingCancellable).(sch := Asleep(m.sch, m.waitq, SleepCancellable))
    case Resume =>
      if PhaseOf(m, t) == Waiting || !Interrupted(m.sch, t) then Enter(m, Holding)
      else if m.holder == Some(t) then Released(Enter(m, Out))
      else if fixed then Enter(m, Out)
      else m.(panicked := true)
    case Unlock => Released(Enter(m, Out))
    case Other(o) => m.(sch := Step(m.sch, o))
  }

  // The step hands the mutex on.
  predicate IsRelease(m: MState, op: MOp) {
    op == Unlock || (op == Resume && PhaseOf(m, m.sch.cur) == WaitingCancellable && Interrupted(m.sch, m.sch.cur)
                     && m.holder == Some(m.sch.cur))
  }

  // ----- What steps of the scheduler leave alone -----

  // Queue w and its sleepers are untouched; threads other than those in `gone` stay alive and stay interrupted.
  ghost predicate SameFor(s: SState, s': SState, w: Qid, gone: set<Tid>) {
    && w in s.queues && w in s'.queues && s'.queues[w] == s.queues[w]
    && (forall t :: t in s.queues[w].list ==> t in s.threads && t in s'.threads && s'.threads[t] == s.threads[t])
    && (forall t :: Live(s, t) && t !in gone ==> Live(s', t))
    && (forall t :: Live(s, t) && Interrupted(s, t) ==> Interrupted(s', t))
  }

  lemma Members(s: SState, w: Qid)
    requires SchedOk(s) && w in s.queues
    ensures RUNQ in s.queues && s.cur in s.threads && NoDups(s.queues[w].list)
    ensures forall t :: t in s.queues[w].list ==> t in s.threads && s.threads[t].wchan == Some(w) && !Current(s, t)
    ensures forall t :: t in s.threads && s.threads[t].wchan == Some(w) ==> t in s.queues[w].list
    ensures !s.switching ==> s.threads[s.cur].wchan == None && s.threads[s.cur].state == Run
  {
    assert QueueOk(s, w);
    forall t | t in s.threads ensures s.threads[t].wchan == Some(w) ==> t in s.queues[w].list && !Current(s, t) {
      assert ThreadOk(s, t);
    }
    assert ThreadOk(s, s.cur);
  }

  lemma SleepSame(s: SState, q: Qid, state: ThreadState, w: Qid)
    requires SchedOk(s) && !s.switching && q in s.queues && q != w && w in s.queues && Fits(q, state)
    ensures SameFor(s, Asleep(s, q, state), w, {})
  {
    hide SchedOk;
    Members(s, w);
  }

  lemma WokenSame(s: SState, q: Qid, w: Qid)
    requires SchedOk(s) && q in s.queues && q != RUNQ && q != w && w in s.queues && w != RUNQ
    ensures SameFor(s, Woken(s, q), w, {})
  {
    hide SchedOk, NoDups;
    Members(s, w);
    Members(s, q);
  }

  lemma AllWokenSame(s: SState, q: Qid, w: Qid)
    requires SchedOk(s) && q in s.queues && q != RUNQ && q != w && w in s.queues && w != RUNQ
    ensures SameFor(s, AllWoken(s, q), w, {})
  {
    hide SchedOk, NoDups;
    Members(s, w);
    Members(s, q);
  }

  lemma DispatchSame(s: SState, w: Qid)
    requires SchedOk(s) && Enabled(s, Dispatch) && w in s.queues && w != RUNQ
    ensures SameFor(s, Step(s, Dispatch), w, {})
  {
    hide SchedOk;
    Members(s, w);
    Members(s, RUNQ);
  }

  // Steps that concern one thread, which is on no queue.
  lemma ThreadSame(s: SState, op: Op, w: Qid)
    requires SchedOk(s) && Enabled(s, op) && w in s.queues && w != RUNQ
    requires op.Create? || op.MakeRunnable? || op.Clone? || op.Exit? || op.Destroy? || op.InitQueue?
    ensures SameFor(s, Step(s, op), w, if op == Exit then {s.cur} else {})
  {
    hide SchedOk;
    Members(s, w);
    if op.MakeRunnable? || op.Destroy? {
      UnqueuedThread(s, op.t);
    }
  }

  lemma OtherSame(s: SState, op: Op, w: Qid)
    requires SchedOk(s) && Enabled(s, op) && Apart(op, w) && w in s.queues && w != RUNQ && !op.Cancel?
    ensures SameFor(s, Step(s, op), w, if op == Exit then {s.cur} else {})
  {
    hide SchedOk, SameFor, Asleep, Woken, AllWoken;
    Members(s, w);
    match op
    case SleepOn(q) => SleepSame(s, q, Sleep, w);
    case CancellableSleepOn(q) =>
      SleepSame(s, q, SleepCancellable, w);
      SameSelf(s, w);
    case WakeupOn(q) => WokenSame(s, q, w);
    case BroadcastOn(q) => AllWokenSame(s, q, w);
    case Dispatch => DispatchSame(s, w);
    case _ => ThreadSame(s, op, w);
  }

  lemma SameSelf(s: SState, w: Qid)
    requires SchedOk(s) && w in s.queues
    ensures SameFor(s, s, w, {})
  {
    hide SchedOk;
    Members(s, w);
  }

  lemma CancelOther(s: SState, t: Tid, w: Qid)
    requires SchedOk(s) && t in s.threads && t != s.cur && w in s.queues && w != RUNQ && t !in s.queues[w].list
    ensures SameFor(s, Cancelled(s, t), w, {})
  {
    hide SchedOk, Taken, Put;
    Members(s, w);
    ChannelThere(s, t);
    var s1 := s.(threads := s.threads[t := s.threads[t].(cancelled := true)]);
    if s.threads[t].state == SleepCancellable {
      PutTaken(s1, s.threads[t].wchan.value, t);
    }
  }

  lemma PutTaken(s: SState, q: Qid, t: Tid)
    requires q in s.queues && RUNQ in s.queues && q != RUNQ && t in s.threads
    ensures var s' := Put(Taken(s, q, t), RUNQ, t, Run);
            && s'.queues.Keys == s.queues.Keys && s'.threads.Keys == s.threads.Keys
            && (forall r :: r in s.queues && r != q && r != RUNQ ==> s'.queues[r] == s.queues[r])
            && s'.queues[q].list == Without(s.queues[q].list, t)
            && (forall x :: x in s.threads && x != t ==> s'.threads[x] == s.threads[x])
            && s'.threads[t] == s.threads[t].(wchan := Some(RUNQ), state := Run)
  {
  }

  lemma ChannelThere(s: SState, t: Tid)
    requires SchedOk(s) && t in s.threads
    ensures s.threads[t].wchan.Some? ==> s.threads[t].wchan.value in s.queues
                                         && t in s.queues[s.threads[t].wchan.value].list
    ensures s.threads[t].state == SleepCancellable ==> s.threads[t].wchan.Some? && s.threads[t].wchan.value != RUNQ
  {
    assert ThreadOk(s, t);
  }

  lemma CancelWaiter(s: SState, t: Tid, w: Qid)
    requires SchedOk(s) && t in s.threads && w in s.queues && w != RUNQ && t in s.queues[w].list
    ensures var s' := Cancelled(s, t);
            && w in s'.queues && t in s'.threads && s'.threads.Keys == s.threads.Keys
            && s'.threads[t].cancelled && (s.threads[t].state != SleepCancellable ==>
                                             s'.threads[t].state == s.threads[t].state)
            && (s.threads[t].state == SleepCancellable ==> s'.threads[t].state == Run)
            && (forall x :: x in s.threads && x != t ==> s'.threads[x] == s.threads[x])
            && s'.queues[w].list == if s.threads[t].state == SleepCancellable then Without(s.queues[w].list, t)
                                    else s.queues[w].list
  {
    hide SchedOk;
    Members(s, w);
    ChannelThere(s, t);
  }

  // ----- Every step keeps the invariant -----

  lemma SameKeeps(m: MState, s': SState, gone: set<Tid>)
    requires MutexOk(m) && SchedOk(s') && SameFor(m.sch, s', m.waitq, gone) && forall t :: t in gone ==>
                                                                                             PhaseOf(m, t) == Out
    ensures MutexOk(m.(sch := s'))
  {
    hide SchedOk;
    var m' := m.(sch := s');
    forall t | t in Waiters(m') ensures WaiterOk(m', t) {
      assert WaiterOk(m, t);
    }
    forall t ensures PhaseOk(m', t) {
      assert PhaseOk(m, t);
    }
  }

  lemma CancelKeeps(m: MState, t: Tid)
    requires MutexOk(m) && Enabled(m.sch, Cancel(t)) && t in Waiters(m)
    ensures MutexOk(m.(sch := Cancelled(m.sch, t)))
  {
    hide SchedOk, Cancelled, Without, NoDups;
    CancelledOk(m.sch, t);
    var s' := Cancelled(m.sch, t);
    var m' := m.(sch := s');
    CancelWaiter(m.sch, t, m.waitq);
    Members(m.sch, m.waitq);
    WithoutMembers(Waiters(m), t);
    assert WaiterOk(m, t);
    forall x | x in Waiters(m') ensures WaiterOk(m', x) {
      assert WaiterOk(m, x);
    }
    forall x ensures PhaseOk(m', x) {
      assert PhaseOk(m, x);
    }
    HolderThere(m);
  }

  lemma HolderThere(m: MState)
    requires MutexOk(m) && Waiters(m) != []
    ensures m.holder.Some?
  {
  }

  lemma OtherKeeps(m: MState, op: Op)
    requires MutexOk(m) && MEnabled(m, Other(op))
    ensures MutexOk(m.(sch := Step(m.sch, op)))
  {
    hide SchedOk, PhaseOk, WaiterOk, SameFor;
    StepOk(m.sch, op);
    if op.Cancel? {
      if op.t in Waiters(m) {
        CancelKeeps(m, op.t);
      } else {
        CancelOther(m.sch, op.t, m.waitq);
        SameKeeps(m, Step(m.sch, op), {});
      }
    } else {
      OtherSame(m.sch, op, m.waitq);
      SameKeeps(m, Step(m.sch, op), if op == Exit then {m.sch.cur} else {});
    }
  }

  // The current thread goes to sleep on the wait queue.
  lemma SleepKeeps(m: MState, cancellable: bool)
    requires MutexOk(m) && !m.sch.switching && PhaseOf(m, m.sch.cur) == Out && m.holder != None
    requires cancellable ==> !Interrupted(m.sch, m.sch.cur)
    ensures MutexOk(Enter(m, if cancellable then WaitingCancellable
                          else Waiting).(sch := Asleep(m.sch, m.waitq, if cancellable then SleepCancellable else Sleep)))
  {
    hide SchedOk, NoDups;
    var state := if cancellable then SleepCancellable else Sleep;
    AsleepOk(m.sch, m.waitq, state);
    Members(m.sch, m.waitq);
    var m' := Enter(m, if cancellable then WaitingCancellable else Waiting).(sch := Asleep(m.sch, m.waitq, state));
    assert PhaseOk(m, m.sch.cur);
    forall t | t in Waiters(m') ensures WaiterOk(m', t) {
      assert t != m.sch.cur ==> WaiterOk(m, t);
    }
    forall t ensures PhaseOk(m', t) {
      assert PhaseOk(m, t);
    }
  }

  // The current thread takes a free mutex, or returns with one it was handed, or gives up without it.
  lemma EnterKeeps(m: MState, p: Phase, holder: Option<Tid>)
    requires MutexOk(m) && !m.sch.switching && (p == Holding || p == Out)
    requires holder == m.holder || (m.holder == None && p == Holding)
    requires p == Holding <==> holder == Some(m.sch.cur)
    ensures MutexOk(Enter(m, p).(holder := holder))
  {
    hide SchedOk;
    var m' := Enter(m, p).(holder := holder);
    Members(m.sch, m.waitq);
    forall t | t in Waiters(m') ensures WaiterOk(m', t) {
      assert WaiterOk(m, t);
    }
    forall t ensures PhaseOk(m', t) {
      assert PhaseOk(m, t);
    }
  }

  lemma ReleaseKeeps(m: MState)
    requires MutexOk(m) && !m.sch.switching && m.holder == Some(m.sch.cur)
    ensures MutexOk(Released(Enter(m, Out)))
  {
    hide SchedOk, Woken, NoDups;
    WokenOk(m.sch, m.waitq);
    Members(m.sch, m.waitq);
    var m' := Released(Enter(m, Out));
    if Waiters(m) != [] {
      WokenWaiters(m.sch, m.waitq);
    }
    forall t | t in Waiters(m') ensures WaiterOk(m', t) {
      assert WaiterOk(m, t);
    }
    forall t ensures PhaseOk(m', t) {
      assert PhaseOk(m, t);
      if t in Waiters(m) {
        assert WaiterOk(m, t);
      }
    }
  }

  lemma WokenWaiters(s: SState, w: Qid)
    requires SchedOk(s) && w in s.queues && w != RUNQ && s.queues[w].list != []
    ensures var s', x := Woken(s, w), Oldest(s, w);
            && w in s'.queues && s'.queues[w].list == s.queues[w].list[..|s.queues[w].list| - 1]
            && s'.threads.Keys == s.threads.Keys && x in s.threads && s'.threads[x].state == Run
            && (forall t :: t in s.threads && t != x ==> s'.threads[t] == s.threads[t])
            && (forall t :: t in s.threads ==> s'.threads[t].cancelled == s.threads[t].cancelled)
            && (forall t :: t in s.queues[w].list <==> t in s'.queues[w].list || t == x) && x !in s'.queues[w].list
  {
    hide SchedOk;
    Members(s, w);
    Members(s, RUNQ);
    var l := s.queues[w].list;
    assert l == l[..|l| - 1] + [l[|l| - 1]];
  }

  /** A thread whose blocked lock call returns without interruption has been made the holder. */
  lemma ResumeHolds(m: MState)
    requires MutexOk(m) && MEnabled(m, Resume)
    ensures PhaseOf(m, m.sch.cur) == Waiting || !Interrupted(m.sch, m.sch.cur) ==> m.holder == Some(m.sch.cur)
  {
    hide SchedOk;
    Members(m.sch, m.waitq);
    assert PhaseOk(m, m.sch.cur);
  }

  /** The mutex invariant is kept by every step, as coded and as intended. */
  lemma MStepOk(m: MState, op: MOp, fixed: bool)
    requires MutexOk(m) && MEnabled(m, op)
    ensures MutexOk(MStep(m, op, fixed))
  {
    hide MutexOk;
    var t := m.sch.cur;
    HolderIs(m);
    match op
    case Lock =>
      if m.holder == None {
        EnterKeeps(m, Holding, Some(t));
      } else {
        SleepKeeps(m, false);
      }
    case LockCancellable =>
      if m.holder == None {
        EnterKeeps(m, Holding, Some(t));
      } else if !Interrupted(m.sch, t) {
        SleepKeeps(m, true);
      }
    case Unlock => ReleaseKeeps(m);
    case Other(o) => OtherKeeps(m, o);
    case Resume =>
      ResumeHolds(m);
      if PhaseOf(m, t) == Waiting || !Interrupted(m.sch, t) {
        EnterKeeps(m, Holding, Some(t));
      } else if m.holder == Some(t) {
        ReleaseKeeps(m);
      } else {
        EnterKeeps(m, Out, m.holder);
        PanicKeeps(m);
      }
  }

  lemma HolderIs(m: MState)
    requires MutexOk(m)
    ensures PhaseOf(m, m.sch.cur) == Holding ==> m.holder == Some(m.sch.cur)
  {
    assert PhaseOk(m, m.sch.cur);
  }

  lemma PanicKeeps(m: MState)
    requires MutexOk(m)
    ensures MutexOk(m.(panicked := true))
  {
    hide SchedOk;
    var m' := m.(panicked := true);
    forall t | t in Waiters(m') ensures WaiterOk(m', t) {
      assert WaiterOk(m, t);
    }
    forall t ensures PhaseOk(m', t) {
      assert PhaseOk(m, t);
    }
  }

  // ----- A waiter's turn comes -----

  lemma {:induction false} AheadWithout(l: seq<Tid>, x: Tid, t: Tid)
    requires NoDups(l) && x in l && t in l && x != t
    ensures t in Without(l, x) && Ahead(Without(l, x), t) <= Ahead(l, t)
    decreases |l|
  {
    WithoutMembers(l, x);
    var k := |l| - 1;
    if l[k] == x {
      WithoutLast(l);
    } else {
      assert x in l[..k];
      WithoutSnoc(l[..k], l[k], x);
      assert l == l[..k] + [l[k]];
      if l[k] != t {
        AheadWithout(l[..k], x, t);
        assert (Without(l[..k], x) + [l[k]])[..|Without(l[..k], x)|] == Without(l[..k], x);
      }
    }
  }

  lemma {:induction false} WithoutSnoc(l: seq<Tid>, y: Tid, x: Tid)
    requires x in l
    ensures Without(l + [y], x) == Without(l, x) + [y]
  {
    if l[0] == x {
      assert (l + [y])[1..] == l[1..] + [y];
    } else {
      assert (l + [y])[1..] == l[1..] + [y];
      WithoutSnoc(l[1..], y, x);
    }
  }

  /**
   What one step can do to a waiter: it is cancelled, it is handed the mutex, or it goes on waiting with no
   more threads ahead of it than before, and one fewer if the mutex was handed on.
   */
  lemma WaiterStep(m: MState, op: MOp, fixed: bool, t: Tid)
    requires MutexOk(m) && MEnabled(m, op) && t in Waiters(m)
    requires op == Other(Cancel(t)) ==> PhaseOf(m, t) == Waiting
    ensures var m' := MStep(m, op, fixed);
            m'.holder == Some(t) ||
            (t in Waiters(m') && Ahead(Waiters(m'), t) + (if IsRelease(m, op) then 1 else 0) <= Ahead(Waiters(m), t)
             && PhaseOf(m', t) == PhaseOf(m, t))
  {
    hide MutexOk, SchedOk, Released, Asleep, Step, Ahead, PhaseOf, Interrupted;
    NotOtherPhase(m, op, fixed, t);
    SchedPart(m);
    QueueThere(m.sch);
    match op
    case Lock => SleepWaiter(m, Waiting, Sleep, t);
    case LockCancellable => SleepWaiter(m, WaitingCancellable, SleepCancellable, t);
    case Unlock => ReleaseWaiter(m, t);
    case Resume => ReleaseWaiter(m, t);
    case Other(o) => OtherWaiter(m, o, t);
  }

  // A waiter does not run, so its own place with the mutex stays as it is.
  lemma NotOtherPhase(m: MState, op: MOp, fixed: bool, t: Tid)
    requires MutexOk(m) && MEnabled(m, op) && t in Waiters(m)
    ensures PhaseOf(MStep(m, op, fixed), t) == PhaseOf(m, t)
  {
    hide SchedOk, Asleep, Step, Woken;
    SchedPart(m);
    Members(m.sch, m.waitq);
  }

  // Another thread joins the queue, or takes the mutex, or only moves on.
  lemma SleepWaiter(m: MState, p: Phase, state: ThreadState, t: Tid)
    requires SchedOk(m.sch) && m.waitq in m.sch.queues && t in Waiters(m) && m.sch.cur in m.sch.threads
    ensures var m' := Enter(m, p).(sch := Asleep(m.sch, m.waitq, state));
            t in Waiters(m') && Ahead(Waiters(m'), t) == Ahead(Waiters(m), t)
  {
    hide SchedOk;
    AheadBehind([m.sch.cur], Waiters(m), t);
  }

  lemma ReleaseWaiter(m: MState, t: Tid)
    requires SchedOk(m.sch) && m.waitq in m.sch.queues && m.waitq != RUNQ && t in Waiters(m)
    ensures var m' := Released(Enter(m, Out));
            m'.holder == Some(t) || (t in Waiters(m') && Ahead(Waiters(m'), t) + 1 == Ahead(Waiters(m), t))
  {
    hide SchedOk, Woken, NoDups;
    WokenWaiters(m.sch, m.waitq);
  }

  lemma SchedPart(m: MState)
    requires MutexOk(m)
    ensures SchedOk(m.sch) && m.waitq in m.sch.queues && m.waitq != RUNQ
  {
  }

  // Cancelling a thread in the lock call that cannot be interrupted leaves it queued.
  lemma UninterruptibleStays(m: MState, t: Tid)
    requires MutexOk(m) && MEnabled(m, Other(Cancel(t))) && t in Waiters(m) && PhaseOf(m, t) == Waiting
    ensures Waiters(m.(sch := Step(m.sch, Cancel(t)))) == Waiters(m)
  {
    hide SchedOk;
    assert WaiterOk(m, t);
  }

  lemma OtherWaiter(m: MState, op: Op, t: Tid)
    requires MutexOk(m) && MEnabled(m, Other(op)) && t in Waiters(m)
    requires op == Cancel(t) ==> PhaseOf(m, t) == Waiting
    ensures var m' := m.(sch := Step(m.sch, op));
            t in Waiters(m') && Ahead(Waiters(m'), t) <= Ahead(Waiters(m), t)
  {
    hide MutexOk, SchedOk, Woken, Cancelled;
    SchedPart(m);
    Members(m.sch, m.waitq);
    if op == Cancel(t) {
      UninterruptibleStays(m, t);
    } else if op.Cancel? {
      if op.t in Waiters(m) {
        CancelWaiter(m.sch, op.t, m.waitq);
        AheadWithout(Waiters(m), op.t, t);
      } else {
        CancelOther(m.sch, op.t, m.waitq);
      }
    } else {
      OtherSame(m.sch, op, m.waitq);
    }
  }

  /**
   A lock call takes a free mutex at once and waits for one that is held, last in line; an interrupted thread's
   cancellable call does neither. Nothing else about the mutex changes.
   */
  lemma LockExactly(m: MState, op: MOp, fixed: bool)
    requires MutexOk(m) && MEnabled(m, op) && (op == Lock || op == LockCancellable)
    ensures var m', t := MStep(m, op, fixed), m.sch.cur;
            && (forall u :: u != t ==> PhaseOf(m', u) == PhaseOf(m, u))
            && if op == LockCancellable && Interrupted(m.sch, t) then m' == m
               else if m.holder == None then m'.holder == Some(t) && PhaseOf(m', t) == Holding && m'.sch == m.sch
               else && m'.holder == m.holder && m'.sch.switching && Waiters(m') == [t] + Waiters(m)
                    && PhaseOf(m', t) == if op == Lock then Waiting else WaitingCancellable
  {
    hide SchedOk;
    SchedPart(m);
    QueueThere(m.sch);
  }

  /** An interrupted thread never waits in a cancellable lock call. */
  lemma InterruptedNeverWaits(m: MState, t: Tid)
    requires MutexOk(m) && Interrupted(m.sch, t) && t in Waiters(m)
    ensures PhaseOf(m, t) == Waiting
  {
    assert WaiterOk(m, t);
  }

  lemma HeldStep(m: MState, op: MOp, fixed: bool, t: Tid)
    requires MutexOk(m) && MEnabled(m, op) && PhaseOf(m, t) == Holding && op != Unlock
    ensures PhaseOf(MStep(m, op, fixed), t) == Holding
  {
    hide SchedOk, Woken, Asleep, Step;
    assert PhaseOk(m, t);
  }

  /**
   From the return of a lock call that acquired the mutex until the unlock of its thread: that thread is the
   holder, and no other thread's lock call has acquired the mutex.
   */
  lemma {:induction false} HeldUntilUnlock(m: MState, ops: seq<MOp>, n: nat, m': MState, fixed: bool, t: Tid)
    requires MutexOk(m) && MRuns(m, ops, n, m', fixed) && PhaseOf(m, t) == Holding && Unlock !in ops
    ensures MutexOk(m') && m'.holder == Some(t) && PhaseOf(m', t) == Holding
    ensures forall u :: u != t ==> PhaseOf(m', u) != Holding
    decreases |ops|
  {
    hide MutexOk, MEnabled, MStep, IsRelease, PhaseOf;
    if ops != [] {
      var op, pre := ops[|ops| - 1], ops[..|ops| - 1];
      var u, k: nat :| MRuns(m, pre, k, u, fixed) && MLast(u, k, op, n, m', fixed);
      HeldUntilUnlock(m, pre, k, u, fixed, t);
      MStepOk(u, op, fixed);
      HeldStep(u, op, fixed, t);
    }
    OnlyHolder(m', t);
  }

  lemma OnlyHolder(m: MState, t: Tid)
    requires MutexOk(m) && PhaseOf(m, t) == Holding
    ensures m.holder == Some(t) && forall u :: u != t ==> PhaseOf(m, u) != Holding
  {
    hide SchedOk;
    assert PhaseOk(m, t);
    forall u | u != t ensures PhaseOf(m, u) != Holding {
      assert PhaseOk(m, u);
    }
  }

  /** A run from m to m' in which the mutex was handed on n times. */
  ghost predicate MRuns(m: MState, ops: seq<MOp>, n: nat, m': MState, fixed: bool)
    decreases |ops|
  {
    if ops == [] then n == 0 && m == m'
    else
      var op := ops[|ops| - 1];
      exists u, k: nat :: MRuns(m, ops[..|ops| - 1], k, u, fixed) && MLast(u, k, op, n, m', fixed)
  }

  // The run's last step, with the count of handings-on before and after.
  ghost predicate MLast(u: MState, k: nat, op: MOp, n: nat, m': MState, fixed: bool) {
    MutexOk(u) && MEnabled(u, op) && m' == MStep(u, op, fixed) && n == k + if IsRelease(u, op) then 1 else 0
  }

  lemma {:induction false} MRunsOk(m: MState, ops: seq<MOp>, n: nat, m': MState, fixed: bool)
    requires MutexOk(m) && MRuns(m, ops, n, m', fixed)
    ensures MutexOk(m')
  {
    hide MutexOk, MEnabled, MStep, IsRelease;
    if ops != [] {
      var op := ops[|ops| - 1];
      var u, k: nat :| MRuns(m, ops[..|ops| - 1], k, u, fixed) && MLast(u, k, op, n, m', fixed);
      MStepOk(u, op, fixed);
    }
  }

  // Somewhere in the run, after at most k handings-on, t was the holder.
  ghost predicate HeldWithin(m: MState, ops: seq<MOp>, k: nat, t: Tid, fixed: bool) {
    exists i: nat, n: nat, u :: i <= |ops| && n <= k && MRuns(m, ops[..i], n, u, fixed) && u.holder == Some(t)
  }

  /**
   A waiter with k threads ahead of it that is not cancelled, or that cannot be: over any run it becomes the holder
   after at most k + 1 unlocks, or is still waiting and the unlocks so far and the threads ahead are at most k.
   */
  lemma {:induction false} WaiterTurn(m: MState, ops: seq<MOp>, n: nat, m': MState, fixed: bool, t: Tid)
    requires MutexOk(m) && MRuns(m, ops, n, m', fixed) && t in Waiters(m)
    requires PhaseOf(m, t) == Waiting || Other(Cancel(t)) !in ops
    ensures HeldWithin(m, ops, Ahead(Waiters(m), t) + 1, t, fixed) ||
            (t in Waiters(m') && Ahead(Waiters(m'), t) + n <= Ahead(Waiters(m), t) && PhaseOf(m', t) == PhaseOf(m, t))
    decreases |ops|
  {
    hide MutexOk, MEnabled, MStep, IsRelease, PhaseOf;
    if ops != [] {
      var op, pre := ops[|ops| - 1], ops[..|ops| - 1];
      var u, k: nat :| MRuns(m, pre, k, u, fixed) && MLast(u, k, op, n, m', fixed);
      WaiterTurn(m, pre, k, u, fixed, t);
      if HeldWithin(m, pre, Ahead(Waiters(m), t) + 1, t, fixed) {
        HeldLonger(m, ops, Ahead(Waiters(m), t) + 1, t, fixed);
      } else {
        WaiterStep(u, op, fixed, t);
        if m'.holder == Some(t) {
          assert ops[..|ops|] == ops;
          assert HeldWithin(m, ops, Ahead(Waiters(m), t) + 1, t, fixed);
        }
      }
    }
  }

  lemma HeldLonger(m: MState, ops: seq<MOp>, k: nat, t: Tid, fixed: bool)
    requires ops != [] && HeldWithin(m, ops[..|ops| - 1], k, t, fixed)
    ensures HeldWithin(m, ops, k, t, fixed)
  {
    hide MRuns;
    var pre := ops[..|ops| - 1];
    var i: nat, n: nat, u :| i <= |pre| && n <= k && MRuns(m, pre[..i], n, u, fixed) && u.holder == Some(t);
    assert pre[..i] == ops[..i];
  }

  // ----- When the assertion of kmutex_unlock fails -----

  // A thread that was taken off the wait queue by a cancellation and has not yet returned from its lock call.
  predicate Doomed(m: MState, t: Tid) {
    PhaseOf(m, t) == WaitingCancellable && Interrupted(m.sch, t) && m.holder != Some(t) && t !in Waiters(m)
  }

  /** The code stops at the assertion if and only if such a thread comes to run. */
  lemma PanicExactly(m: MState, op: MOp)
    requires MutexOk(m) && MEnabled(m, op)
    ensures MStep(m, op, false).panicked <==> op == Resume && Doomed(m, m.sch.cur)
  {
    hide SchedOk;
    Members(m.sch, m.waitq);
  }

  lemma InterruptedOnlyBy(s: SState, op: Op, t: Tid)
    requires SchedOk(s) && Enabled(s, op) && Live(s, t) && op != Cancel(t)
    ensures t in Step(s, op).threads ==> (Interrupted(Step(s, op), t) <==> Interrupted(s, t))
  {
    hide SchedOk;
    QueueThere(s);
  }

  lemma DoomedOther(m: MState, op: Op, t: Tid)
    requires MutexOk(m) && MEnabled(m, Other(op)) && op != Cancel(t)
    ensures Doomed(m.(sch := Step(m.sch, op)), t) <==> Doomed(m, t)
  {
    hide SchedOk, Step, Cancelled, Without, NoDups;
    assert PhaseOk(m, t);
    Members(m.sch, m.waitq);
    if PhaseOf(m, t) == WaitingCancellable {
      InterruptedOnlyBy(m.sch, op, t);
      if op.Cancel? {
        StepIsCancelled(m.sch, op.t);
        if op.t in Waiters(m) {
          CancelWaiter(m.sch, op.t, m.waitq);
          WithoutMembers(Waiters(m), op.t);
        } else {
          CancelOther(m.sch, op.t, m.waitq);
        }
      } else {
        OtherSame(m.sch, op, m.waitq);
      }
    }
  }

  lemma StepIsCancelled(s: SState, t: Tid)
    requires SchedOk(s) && Enabled(s, Cancel(t))
    ensures Step(s, Cancel(t)) == Cancelled(s, t)
  {
  }

  lemma DoomedCancel(m: MState, t: Tid)
    requires MutexOk(m) && MEnabled(m, Other(Cancel(t)))
    ensures Doomed(m.(sch := Cancelled(m.sch, t)), t) <==>
            Doomed(m, t) || (t in Waiters(m) && PhaseOf(m, t) == WaitingCancellable)
  {
    hide SchedOk, Cancelled, Without, NoDups;
    assert PhaseOk(m, t);
    Members(m.sch, m.waitq);
    if t in Waiters(m) {
      assert WaiterOk(m, t);
      CancelWaiter(m.sch, t, m.waitq);
      WithoutMembers(Waiters(m), t);
    } else {
      CancelOther(m.sch, t, m.waitq);
    }
  }

  /** A thread gets into that state if and only if it is cancelled while queued, and stays in it until it runs. */
  lemma DoomedExactly(m: MState, op: MOp, t: Tid)
    requires MutexOk(m) && MEnabled(m, op) && !(op == Resume && t == m.sch.cur)
    ensures Doomed(MStep(m, op, false), t) <==>
            Doomed(m, t) || (op == Other(Cancel(t)) && t in Waiters(m) && PhaseOf(m, t) == WaitingCancellable)
  {
    hide SchedOk, Woken, NoDups, Step, Cancelled, MutexOk;
    SchedPart(m);
    Members(m.sch, m.waitq);
    if op == Other(Cancel(t)) {
      StepIsCancelled(m.sch, t);
      DoomedCancel(m, t);
    } else if op.Other? {
      DoomedOther(m, op.op, t);
    } else {
      DoomedOwn(m, op, t);
    }
  }

  lemma DoomedOwn(m: MState, op: MOp, t: Tid)
    requires MutexOk(m) && MEnabled(m, op) && !op.Other? && !(op == Resume && t == m.sch.cur)
    ensures Doomed(MStep(m, op, false), t) <==> Doomed(m, t)
  {
    hide SchedOk, Woken, NoDups;
    Members(m.sch, m.waitq);
    assert PhaseOk(m, t) && PhaseOk(m, m.sch.cur);
    if Waiters(m) != [] {
      WokenWaiters(m.sch, m.waitq);
    }
    if t in Waiters(m) {
      assert WaiterOk(m, t);
    }
  }

  // ----- Over whole runs of the code -----

  lemma {:induction false} MRunsSame(m: MState, ops: seq<MOp>, n: nat, a: MState, k: nat, b: MState, fixed: bool)
    requires MRuns(m, ops, n, a, fixed) && MRuns(m, ops, k, b, fixed)
    ensures a == b && n == k
    decreases |ops|
  {
    hide MutexOk, MEnabled, MStep, IsRelease;
    if ops != [] {
      var op, pre := ops[|ops| - 1], ops[..|ops| - 1];
      var u, i: nat :| MRuns(m, pre, i, u, fixed) && MLast(u, i, op, n, a, fixed);
      var v, j: nat :| MRuns(m, pre, j, v, fixed) && MLast(v, j, op, k, b, fixed);
      MRunsSame(m, pre, i, u, j, v, fixed);
    }
  }

  // The step takes t off the wait queue by a cancellation.
  predicate TakesOff(u: MState, op: MOp, t: Tid) {
    op == Other(Cancel(t)) && t in Waiters(u) && PhaseOf(u, t) == WaitingCancellable
  }

  ghost predicate CancelledAt(m: MState, ops: seq<MOp>, i: nat, t: Tid) {
    i < |ops| && exists n: nat, u :: MRuns(m, ops[..i], n, u, false) && TakesOff(u, ops[i], t)
  }

  /** Somewhere in the run t was cancelled while it was queued in a cancellable lock call. */
  ghost predicate WasCancelled(m: MState, ops: seq<MOp>, t: Tid) {
    exists i: nat :: CancelledAt(m, ops, i, t)
  }

  lemma WasCancelledNext(m: MState, ops: seq<MOp>, n: nat, u: MState, t: Tid)
    requires ops != [] && MRuns(m, ops[..|ops| - 1], n, u, false)
    ensures WasCancelled(m, ops, t) <==> WasCancelled(m, ops[..|ops| - 1], t) || TakesOff(u, ops[|ops| - 1], t)
  {
    hide MRuns, TakesOff;
    var last := |ops| - 1;
    var pre := ops[..last];
    forall i: nat | i < last ensures CancelledAt(m, ops, i, t) <==> CancelledAt(m, pre, i, t) {
      assert pre[..i] == ops[..i] && pre[i] == ops[i];
    }
    if WasCancelled(m, ops, t) {
      var i: nat :| CancelledAt(m, ops, i, t);
      if i == last {
        var k: nat, v :| MRuns(m, ops[..i], k, v, false) && TakesOff(v, ops[i], t);
        MRunsSame(m, pre, n, u, k, v, false);
      } else {
        assert CancelledAt(m, pre, i, t);
      }
    }
    if WasCancelled(m, pre, t) {
      var i: nat :| CancelledAt(m, pre, i, t);
      assert CancelledAt(m, ops, i, t);
    }
    if TakesOff(u, ops[last], t) {
      assert CancelledAt(m, ops, last, t);
    }
  }

  lemma ResumedNotDoomed(m: MState)
    requires MutexOk(m) && MEnabled(m, Resume) && !Doomed(m, m.sch.cur)
    ensures !Doomed(MStep(m, Resume, false), m.sch.cur)
  {
    hide SchedOk;
    Members(m.sch, m.waitq);
  }

  /** As long as the kernel runs, the threads that wait for the failing assertion are those so cancelled. */
  lemma {:induction false} DoomedRuns(m: MState, ops: seq<MOp>, n: nat, m': MState, t: Tid)
    requires MutexOk(m) && (forall x :: !Doomed(m, x)) && MRuns(m, ops, n, m', false) && !m'.panicked
    ensures Doomed(m', t) <==> WasCancelled(m, ops, t)
    decreases |ops|
  {
    hide MutexOk, MEnabled, MStep, IsRelease, TakesOff, Doomed;
    if ops != [] {
      var op, pre := ops[|ops| - 1], ops[..|ops| - 1];
      var u, k: nat :| MRuns(m, pre, k, u, false) && MLast(u, k, op, n, m', false);
      Running(u, op);
      DoomedRuns(m, pre, k, u, t);
      WasCancelledNext(m, ops, k, u, t);
      PanicExactly(u, op);
      TakesOffIs(u, op, t);
      if op == Resume && t == u.sch.cur {
        ResumedNotDoomed(u);
      } else {
        DoomedExactly(u, op, t);
      }
    }
  }

  lemma Running(u: MState, op: MOp)
    requires MEnabled(u, op)
    ensures !u.panicked
  {
  }

  lemma TakesOffIs(u: MState, op: MOp, t: Tid)
    ensures TakesOff(u, op, t) <==> op == Other(Cancel(t)) && t in Waiters(u) && PhaseOf(u, t) == WaitingCancellable
  {
  }

  // The run ends with the return of a lock call whose thread was so cancelled.
  ghost predicate CancelledReturns(m: MState, ops: seq<MOp>) {
    ops != [] && ops[|ops| - 1] == Resume && CancelledRuns(m, ops[..|ops| - 1])
  }

  // The run leads to a state in which such a thread runs.
  ghost predicate CancelledRuns(m: MState, ops: seq<MOp>) {
    exists k: nat, u :: MRuns(m, ops, k, u, false) && WasCancelled(m, ops, u.sch.cur)
  }

  /**
   From any state in which nobody waits for it, a run of the code comes to the failing assertion if and only
   if some thread is cancelled while it is queued and then returns from its lock call.
   */
  lemma PanicRuns(m: MState, ops: seq<MOp>, n: nat, m': MState)
    requires MutexOk(m) && !m.panicked && (forall x :: !Doomed(m, x)) && MRuns(m, ops, n, m', false)
    ensures m'.panicked <==> CancelledReturns(m, ops)
  {
    hide MutexOk, MEnabled, MStep, IsRelease, WasCancelled, Doomed;
    if ops != [] {
      var op, pre := ops[|ops| - 1], ops[..|ops| - 1];
      var u, k: nat :| MRuns(m, pre, k, u, false) && MLast(u, k, op, n, m', false);
      Running(u, op);
      DoomedRuns(m, pre, k, u, u.sch.cur);
      PanicExactly(u, op);
      if CancelledReturns(m, ops) {
        var j: nat, v :| MRuns(m, pre, j, v, false) && WasCancelled(m, pre, v.sch.cur);
        MRunsSame(m, pre, k, u, j, v, false);
      }
    }
  }

  // Thread 1 holds the mutex and runs; thread 2 waits for it in a cancellable lock call.
  function OneWaiter(): MState {
    MState(SState(map[1 := Thread(Run, None, false), 2 := Thread(SleepCancellable, Some(7), false)],
                  map[RUNQ := Queue([], 0), 7 := Queue([2], 1), 9 := Queue([], 0)], 1, false),
           7, Some(1), map[1 := Holding, 2 := WaitingCancellable], false)
  }

  lemma OneWaiterOk()
    ensures MutexOk(OneWaiter()) && forall t :: !Doomed(OneWaiter(), t)
  {
    var m := OneWaiter();
    assert SchedOk(m.sch) by {
      assert ThreadOk(m.sch, 1) && ThreadOk(m.sch, 2) && QueueOk(m.sch, RUNQ) && QueueOk(m.sch, 7) && QueueOk(m.sch, 9);
    }
    assert WaiterOk(m, 2);
    forall t ensures PhaseOk(m, t) {}
  }

  // Thread 2 is cancelled, thread 1 goes to sleep, thread 2 is dispatched and returns from its lock call.
  const LOST_WAIT: seq<MOp> := [Other(Cancel(2)), Other(SleepOn(9)), Other(Dispatch), Resume]

  function AfterCancel(): MState {
    MState(SState(map[1 := Thread(Run, None, false), 2 := Thread(Run, Some(RUNQ), true)],
                  map[RUNQ := Queue([2], 1), 7 := Queue([], 0), 9 := Queue([], 0)], 1, false),
           7, Some(1), map[1 := Holding, 2 := WaitingCancellable], false)
  }

  function AfterSleep(): MState {
    MState(SState(map[1 := Thread(Sleep, Some(9), false), 2 := Thread(Run, Some(RUNQ), true)],
                  map[RUNQ := Queue([2], 1), 7 := Queue([], 0), 9 := Queue([1], 1)], 1, true),
           7, Some(1), map[1 := Holding, 2 := WaitingCancellable], false)
  }

  function AfterDispatch(): MState {
    MState(SState(map[1 := Thread(Sleep, Some(9), false), 2 := Thread(Run, None, true)],
                  map[RUNQ := Queue([], 0), 7 := Queue([], 0), 9 := Queue([1], 1)], 2, false),
           7, Some(1), map[1 := Holding, 2 := WaitingCancellable], false)
  }

  lemma StepCancel()
    requires MutexOk(OneWaiter())
    ensures MEnabled(OneWaiter(), Other(Cancel(2))) && MStep(OneWaiter(), Other(Cancel(2)), false) == AfterCancel()
  {
    hide MutexOk, SchedOk;
    SchedPart(OneWaiter());
    var s, s' := MStep(OneWaiter(), Other(Cancel(2)), false).sch, AfterCancel().sch;
    assert s.threads == s'.threads;
    CancelLists();
    assert s.queues[RUNQ] == s'.queues[RUNQ] && s.queues[7] == s'.queues[7] && s.queues[9] == s'.queues[9];
    assert s.queues == s'.queues;
  }

  lemma CancelLists()
    ensures Without([2], 2) == [] && [2] + [] == [2] && [1] + [] == [1]
  {
  }

  lemma StepSleep()
    requires MutexOk(AfterCancel())
    ensures MEnabled(AfterCancel(), Other(SleepOn(9))) && MStep(AfterCancel(), Other(SleepOn(9)), false) == AfterSleep()
  {
    hide MutexOk, SchedOk;
    SchedPart(AfterCancel());
    var s, s' := MStep(AfterCancel(), Other(SleepOn(9)), false).sch, AfterSleep().sch;
    assert s.threads == s'.threads;
    CancelLists();
    assert s.queues[RUNQ] == s'.queues[RUNQ] && s.queues[7] == s'.queues[7] && s.queues[9] == s'.queues[9];
    assert s.queues == s'.queues;
  }

  lemma StepDispatch()
    requires MutexOk(AfterSleep())
    ensures MEnabled(AfterSleep(), Other(Dispatch)) && MStep(AfterSleep(), Other(Dispatch), false) == AfterDispatch()
  {
    hide MutexOk, SchedOk;
    SchedPart(AfterSleep());
    var s, s' := MStep(AfterSleep(), Other(Dispatch), false).sch, AfterDispatch().sch;
    assert s.threads == s'.threads;
    assert s.queues == s'.queues;
  }

  lemma MRunOn(m: MState, ops: seq<MOp>, n: nat, u: MState, op: MOp)
    requires MRuns(m, ops, n, u, false) && MutexOk(u) && MEnabled(u, op) && !IsRelease(u, op)
    ensures MRuns(m, ops + [op], n, MStep(u, op, false), false)
  {
    hide MutexOk, MEnabled, MStep, IsRelease;
    var all := ops + [op];
    assert all[..|all| - 1] == ops && all[|all| - 1] == op;
    assert MLast(u, n, op, n, MStep(u, op, false), false);
    assert MRuns(m, all[..|all| - 1], n, u, false);
  }

  lemma LostWaitRun()
    requires MutexOk(OneWaiter()) && MutexOk(AfterCancel()) && MutexOk(AfterSleep())
    ensures MRuns(OneWaiter(), LOST_WAIT[..3], 0, AfterDispatch(), false)
  {
    hide MutexOk, SchedOk, MStep, MRuns;
    StepCancel();
    StepSleep();
    StepDispatch();
    NoRun(OneWaiter());
    MRunOn(OneWaiter(), [], 0, OneWaiter(), Other(Cancel(2)));
    MRunOn(OneWaiter(), [] + [Other(Cancel(2))], 0, AfterCancel(), Other(SleepOn(9)));
    MRunOn(OneWaiter(), [] + [Other(Cancel(2))] + [Other(SleepOn(9))], 0, AfterSleep(), Other(Dispatch));
    assert [] + [Other(Cancel(2))] + [Other(SleepOn(9))] + [Other(Dispatch)] == LOST_WAIT[..3];
  }

  /** Cancelling a queued waiter sends it to the failing assertion. */
  lemma CancelledWaiterExample() returns (m: MState)
    ensures MutexOk(OneWaiter()) && MRuns(OneWaiter(), LOST_WAIT, 0, m, false) && m.panicked
  {
    hide MutexOk, SchedOk, MStep, MRuns;
    OneWaiterOk();
    StepCancel();
    MStepOk(OneWaiter(), Other(Cancel(2)), false);
    StepSleep();
    MStepOk(AfterCancel(), Other(SleepOn(9)), false);
    StepDispatch();
    MStepOk(AfterSleep(), Other(Dispatch), false);
    m := MStep(AfterDispatch(), Resume, false);
    PanicExactly(AfterDispatch(), Resume);
    LostWaitRun();
    MRunOn(OneWaiter(), LOST_WAIT[..3], 0, AfterDispatch(), Resume);
    assert LOST_WAIT[..3] + [Resume] == LOST_WAIT;
  }

  lemma NoRun(m: MState)
    ensures MRuns(m, [], 0, m, false)
  {
  }
}
