/**
 What the steps of the scheduler do to one thread and to one queue, and what follows over whole runs for
 threads that are cancelled.
 */
module ThreadLaws {
  import opened PageTypes
  import opened Scheduler

  // ----- One thread -----

  /** Exactly these steps change a thread's state. */
  lemma StateExactly(s: SState, op: Op, t: Tid)
    requires SchedOk(s) && Enabled(s, op) && t in s.threads && op != Destroy(t)
    ensures var s' := Step(s, op);
            && t in s'.threads
            && s'.threads[t].state ==
               if t == s.cur && op.SleepOn? then Sleep
               else if t == s.cur && op.CancellableSleepOn? && !s.threads[t].cancelled then SleepCancellable
               else if t == s.cur && op == Exit then Exited
               else if op == MakeRunnable(t) then Run
               else if op == Cancel(t) && s.threads[t].state == SleepCancellable then Run
               else if op.BroadcastOn? && t in s.queues[op.q].list then Run
               else if op.WakeupOn? && s.queues[op.q].list != [] && t == s.queues[op.q].list[|s.queues[op.q].list| - 1]
               then Run
               else s.threads[t].state
  {
    if op.Cancel? {
      assert ThreadOk(s, op.t);
    }
    if op == Dispatch {
      assert QueueOk(s, RUNQ);
    }
  }

  /** A thread's cancelled flag is set by a cancellation of that thread, whatever it is doing, and by nothing else. */
  lemma FlagExactly(s: SState, op: Op, t: Tid)
    requires SchedOk(s) && Enabled(s, op) && t in s.threads && op != Destroy(t)
    ensures var s' := Step(s, op);
            t in s'.threads && (s'.threads[t].cancelled <==> s.threads[t].cancelled || op == Cancel(t))
  {
    if op == Dispatch {
      assert QueueOk(s, RUNQ);
    }
  }

  /** Threads come and go only by these steps; a clone has its maker's flag, and a new thread is not cancelled. */
  lemma ThreadsExactly(s: SState, op: Op, t: Tid)
    requires SchedOk(s) && Enabled(s, op)
    ensures var s' := Step(s, op);
            && (t in s'.threads <==> (t in s.threads && op != Destroy(t)) || op == Create(t) || op == Clone(t))
            && (op == Create(t) ==> s'.threads[t].state == NoState && !s'.threads[t].cancelled)
            && (op == Clone(t) ==> s.cur in s.threads && s'.threads[t].state == Run
                                   && s'.threads[t].cancelled == s.threads[s.cur].cancelled)
  {
    if op == Dispatch {
      assert QueueOk(s, RUNQ);
    }
    if op.WakeupOn? {
      assert QueueOk(s, op.q);
    }
  }

  /** Only a dispatch changes the current thread; it takes the oldest runnable one. */
  lemma CurrentExactly(s: SState, op: Op)
    requires SchedOk(s) && Enabled(s, op)
    ensures var s' := Step(s, op);
            && s'.cur == (if op == Dispatch then s.queues[RUNQ].list[|s.queues[RUNQ].list| - 1] else s.cur)
            && s.cur in s.threads
            && (s'.switching <==>
                op.SleepOn? || (op.CancellableSleepOn? && !s.threads[s.cur].cancelled) || op == Exit
                || (s.switching && op != Dispatch))
  {
  }

  // ----- One queue -----

  /** Exactly these steps change a wait queue: sleepers join at the front and leave at the back, or when cancelled. */
  lemma WaitQueueExactly(s: SState, op: Op, q: Qid)
    requires SchedOk(s) && Enabled(s, op) && q in s.queues && q != RUNQ
    ensures var s', list := Step(s, op), s.queues[q].list;
            && q in s'.queues && s.cur in s.threads
            && s'.queues[q].list ==
               if op == SleepOn(q) || (op == CancellableSleepOn(q) && !s.threads[s.cur].cancelled) then [s.cur] + list
               else if op == WakeupOn(q) && list != [] then list[..|list| - 1]
               else if op == BroadcastOn(q) then []
               else if op.Cancel? && s.threads[op.t].state == SleepCancellable && s.threads[op.t].wchan == Some(q)
               then Without(list, op.t)
               else list
  {
    if op.Cancel? {
      assert ThreadOk(s, op.t);
    }
  }

  /** Exactly these steps change the run queue. */
  lemma RunQueueExactly(s: SState, op: Op)
    requires SchedOk(s) && Enabled(s, op)
    ensures var s', list := Step(s, op), s.queues[RUNQ].list;
            && RUNQ in s'.queues
            && s'.queues[RUNQ].list ==
               if op.MakeRunnable? || op.Clone? then [op.t] + list
               else if op.WakeupOn? && s.queues[op.q].list != []
               then [s.queues[op.q].list[|s.queues[op.q].list| - 1]] + list
               else if op.BroadcastOn? then s.queues[op.q].list + list
               else if op.Cancel? && s.threads[op.t].state == SleepCancellable then [op.t] + list
               else if op == Dispatch then list[..|list| - 1]
               else list
  {
    if op.Cancel? {
      assert ThreadOk(s, op.t);
    }
  }

  /** Taking one entry out leaves the order of the others. */
  lemma {:induction false} WithoutOrder(a: seq<Tid>, t: Tid, b: seq<Tid>)
    requires t !in a
    ensures Without(a + [t] + b, t) == a + b
  {
    var l := a + [t] + b;
    if a == [] {
      assert l[1..] == b && a + b == b;
    } else {
      assert l[1..] == a[1..] + [t] + b;
      WithoutOrder(a[1..], t, b);
      assert [a[0]] + (a[1..] + b) == a + b;
    }
  }

  // ----- Cancelled threads, over whole runs -----

  /** Once cancelled, a thread is cancelled for as long as it exists, and no thread is that was not. */
  lemma {:induction false} FlagRuns(s: SState, ops: seq<Op>, s': SState, t: Tid)
    requires SchedOk(s) && Runs(s, ops, s') && t in s.threads && Destroy(t) !in ops
    ensures t in s'.threads && (s'.threads[t].cancelled <==> s.threads[t].cancelled || Cancel(t) in ops)
    decreases |ops|
  {
    hide SchedOk, Step, Enabled;
    if ops != [] {
      var op, pre := ops[|ops| - 1], ops[..|ops| - 1];
      var u :| Runs(s, pre, u) && SchedOk(u) && Enabled(u, op) && s' == Step(u, op);
      assert ops == pre + [op];
      FlagRuns(s, pre, u, t);
      FlagExactly(u, op, t);
    }
  }

  // No cancelled thread sleeps in a way that a cancellation should end.
  ghost predicate NoneOverslept(s: SState) {
    forall t :: t in s.threads && s.threads[t].state == SleepCancellable ==> !s.threads[t].cancelled
  }

  lemma NoneOversleptStep(s: SState, op: Op)
    requires SchedOk(s) && Enabled(s, op) && NoneOverslept(s)
    ensures NoneOverslept(Step(s, op))
  {
    hide SchedOk, Step, Enabled;
    var s' := Step(s, op);
    forall t | t in s'.threads && s'.threads[t].state == SleepCancellable ensures !s'.threads[t].cancelled {
      ThreadsExactly(s, op, t);
      if t in s.threads && op != Destroy(t) {
        StateExactly(s, op, t);
        FlagExactly(s, op, t);
      }
    }
  }

  /** A cancelled thread never enters a cancellable sleep, and a cancellation ends the one it is in: over any run. */
  lemma {:induction false} NoneOversleeps(s: SState, ops: seq<Op>, s': SState)
    requires SchedOk(s) && NoneOverslept(s) && Runs(s, ops, s')
    ensures NoneOverslept(s')
    decreases |ops|
  {
    hide SchedOk, Step, Enabled, NoneOverslept;
    if ops != [] {
      var op, pre := ops[|ops| - 1], ops[..|ops| - 1];
      var u :| Runs(s, pre, u) && SchedOk(u) && Enabled(u, op) && s' == Step(u, op);
      NoneOversleeps(s, pre, u);
      NoneOversleptStep(u, op);
    }
  }
}
