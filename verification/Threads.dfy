/** The scheduler as the kernel keeps it: queues and thread fields changed in place. */
module Threads {
  import opened PageTypes
  import opened Scheduler

  class Sched {
    var threads: map<Tid, Thread>
    var queues: map<Qid, Queue>
    var cur: Tid
    var switching: bool

    ghost function S(): SState
      reads this
    {
      SState(threads, queues, cur, switching)
    }

    ghost predicate Valid()
      reads this
    {
      SchedOk(S())
    }

    // One thread, running, and an empty run queue.
    constructor (first: Tid)
      ensures Valid() && S() == SState(map[first := Thread(Run, None, false)], map[RUNQ := Queue([], 0)], first, false)
    {
      threads, queues, cur, switching := map[first := Thread(Run, None, false)], map[RUNQ := Queue([], 0)], first,
                                         false;
    }

    // ----- ktqueue -----

    method Enqueue(q: Qid, t: Tid)
      requires q in queues && t in threads && threads[t].wchan == None
      modifies this`queues, this`threads
      ensures S() == Put(old(S()), q, t, old(threads)[t].state)
    {
      queues := queues[q := Queue([t] + queues[q].list, queues[q].size)];
      threads := threads[t := threads[t].(wchan := Some(q))];
      queues := queues[q := queues[q].(size := queues[q].size + 1)];
    }

    method Dequeue(q: Qid) returns (r: Option<Tid>)
      requires Valid() && q in queues
      modifies this`queues, this`threads
      ensures r == None <==> old(queues)[q].list == []
      ensures r == None ==> S() == old(S())
      ensures r.Some? ==> old(queues)[q].list != [] && r.value == Oldest(old(S()), q) && r.value in old(threads)
                          && S() == Dequeued(old(S()), q)
    {
      hide SchedOk;
      var list := queues[q].list;
      if list == [] {
        return None;
      }
      DequeuedIsTaken(S(), q);
      var t := list[|list| - 1];
      queues := queues[q := Queue(list[..|list| - 1], queues[q].size)];
      threads := threads[t := threads[t].(wchan := None)];
      queues := queues[q := queues[q].(size := queues[q].size - 1)];
      return Some(t);
    }

    method RemoveFrom(q: Qid, t: Tid)
      requires q in queues && t in threads
      modifies this`queues, this`threads
      ensures S() == Taken(old(S()), q, t)
    {
      queues := queues[q := Queue(Without(queues[q].list, t), queues[q].size)];
      threads := threads[t := threads[t].(wchan := None)];
      queues := queues[q := queues[q].(size := queues[q].size - 1)];
    }

    // ----- sched -----

    // sched_make_runnable, for a thread that is on no queue at the moment.
    method Runnable(t: Tid)
      requires RUNQ in queues && t in threads && threads[t].wchan == None
      modifies this`queues, this`threads
      ensures S() == Put(old(S()), RUNQ, t, Run)
    {
      threads := threads[t := threads[t].(state := Run)];
      Enqueue(RUNQ, t);
    }

    /** sched_make_runnable of a new thread. */
    method StartThread(t: Tid)
      requires Valid() && Enabled(S(), MakeRunnable(t))
      modifies this`queues, this`threads
      ensures Valid() && S() == Step(old(S()), MakeRunnable(t))
    {
      hide SchedOk;
      StepOk(S(), MakeRunnable(t));
      QueueThere(S());
      UnqueuedThread(S(), t);
      Runnable(t);
    }

    /** sched_sleep_on, up to the switch. */
    method Sleep(q: Qid)
      requires Valid() && Enabled(S(), SleepOn(q))
      modifies this
      ensures Valid() && S() == Step(old(S()), SleepOn(q))
      ensures cur == old(cur) && cur in threads && threads[cur].state == ThreadState.Sleep && switching
      ensures q in old(queues) && q in queues && queues[q].list == [cur] + old(queues)[q].list
    {
      hide SchedOk;
      StepOk(S(), SleepOn(q));
      QueueThere(S());
      UnqueuedThread(S(), cur);
      threads := threads[cur := threads[cur].(state := ThreadState.Sleep)];
      Enqueue(q, cur);
      switching := true;
      assert threads == old(threads)[cur := old(threads)[cur].(wchan := Some(q), state := ThreadState.Sleep)];
    }

    /** sched_cancellable_sleep_on, up to the switch: a thread already cancelled does not sleep. */
    method CancellableSleep(q: Qid) returns (interrupted: bool)
      requires Valid() && Enabled(S(), CancellableSleepOn(q))
      modifies this
      ensures Valid() && S() == Step(old(S()), CancellableSleepOn(q))
      ensures cur in old(threads) && interrupted == old(threads)[cur].cancelled && switching == !interrupted
      ensures cur == old(cur) && (interrupted ==> S() == old(S()))
      ensures !interrupted ==> cur in threads && threads[cur].state == SleepCancellable && q in old(queues)
                               && q in queues && queues[q].list == [cur] + old(queues)[q].list
    {
      hide SchedOk;
      StepOk(S(), CancellableSleepOn(q));
      QueueThere(S());
      UnqueuedThread(S(), cur);
      if threads[cur].cancelled {
        return true;
      }
      Enqueue(q, cur);
      threads := threads[cur := threads[cur].(state := SleepCancellable)];
      assert threads == old(threads)[cur := old(threads)[cur].(wchan := Some(q), state := SleepCancellable)];
      switching := true;
      return false;
    }

    /** sched_wakeup_on */
    method Wakeup(q: Qid) returns (r: Option<Tid>)
      requires Valid() && Enabled(S(), WakeupOn(q))
      modifies this`queues, this`threads
      ensures Valid() && S() == Step(old(S()), WakeupOn(q))
      ensures r == if old(queues)[q].list == [] then None else Some(old(queues)[q].list[|old(queues)[q].list| - 1])
    {
      hide SchedOk;
      StepOk(S(), WakeupOn(q));
      QueueThere(S());
      r := Dequeue(q);
      if r.Some? {
        Runnable(r.value);
      }
    }

    /** sched_broadcast_on: one wake-up after another makes all sleepers runnable in the order they came. */
    method Broadcast(q: Qid)
      requires Valid() && Enabled(S(), BroadcastOn(q))
      modifies this`queues, this`threads
      ensures Valid() && S() == Step(old(S()), BroadcastOn(q))
    {
      hide SchedOk, Woken, AllWoken;
      WokenList(S(), q);
      var r := Wakeup(q);
      WakeOneThenAll(old(S()), q);
      while r.Some?
        invariant Valid() && q in queues && AllWoken(S(), q) == AllWoken(old(S()), q)
        invariant r == None ==> queues[q].list == []
        decreases r.Some?, |queues[q].list|
      {
        WakeOneThenAll(S(), q);
        WokenList(S(), q);
        r := Wakeup(q);
      }
      NoneToWake(S(), q);
    }

    /** sched_cancel, for a thread other than the current one: it is cancelled whatever it is doing. */
    method CancelThread(t: Tid)
      requires Valid() && Enabled(S(), Cancel(t))
      modifies this`queues, this`threads
      ensures Valid() && S() == Step(old(S()), Cancel(t))
      ensures t in old(threads) && t in threads && threads[t].cancelled
      ensures forall x :: x in old(threads) && x != t ==> x in threads && threads[x] == old(threads)[x]
      ensures if old(threads)[t].state == SleepCancellable
              then threads[t].state == Run && threads[t].wchan == Some(RUNQ)
              else threads[t] == old(threads)[t].(cancelled := true) && queues == old(queues)
    {
      hide SchedOk;
      StepOk(S(), Cancel(t));
      QueueThere(S());
      QueuedThread(S(), t);
      threads := threads[t := threads[t].(cancelled := true)];
      if threads[t].state == SleepCancellable {
        RemoveFrom(threads[t].wchan.value, t);
        Runnable(t);
      }
    }

    /** The end of sched_switch, once the run queue is not empty. */
    method SwitchTo() returns (t: Tid)
      requires Valid() && Enabled(S(), Dispatch)
      modifies this
      ensures Valid() && S() == Step(old(S()), Dispatch) && t == cur && Current(S(), t)
    {
      hide SchedOk;
      StepOk(S(), Dispatch);
      var r := Dequeue(RUNQ);
      cur := r.value;
      switching := false;
      t := cur;
    }

    // ----- kthread -----

    /** kthread_create, for a process other than the idle process. */
    method CreateThread(t: Tid)
      requires Valid() && Enabled(S(), Create(t))
      modifies this`threads
      ensures Valid() && S() == Step(old(S()), Create(t))
    {
      hide SchedOk;
      StepOk(S(), Create(t));
      threads := threads[t := Thread(NoState, None, false)];
    }

    /** kthread_clone of the current thread, which fork then makes runnable. */
    method CloneThread(t: Tid)
      requires Valid() && Enabled(S(), Clone(t))
      modifies this`queues, this`threads
      ensures Valid() && S() == Step(old(S()), Clone(t))
    {
      hide SchedOk;
      StepOk(S(), Clone(t));
      QueueThere(S());
      threads := threads[t := threads[cur].(wchan := None)];
      CurrentRuns(old(S()));
      Runnable(t);
    }

    /** kthread_exit, up to the switch. */
    method ExitThread()
      requires Valid() && Enabled(S(), Exit)
      modifies this
      ensures Valid() && S() == Step(old(S()), Exit)
    {
      hide SchedOk;
      StepOk(S(), Exit);
      QueueThere(S());
      threads := threads[cur := threads[cur].(state := Exited)];
      switching := true;
    }

    /** kthread_destroy: the thread is on no queue and not current. */
    method DestroyThread(t: Tid)
      requires Valid() && Enabled(S(), Destroy(t))
      modifies this`threads
      ensures Valid() && S() == Step(old(S()), Destroy(t))
      ensures t in old(threads) && old(threads)[t].wchan == None && !Current(S(), t)
      ensures forall q :: q in queues ==> t !in queues[q].list
    {
      StepOk(S(), Destroy(t));
      UnqueuedThread(S(), t);
      OffEveryQueue(S(), t);
      threads := threads - {t};
    }

    method NewQueue(q: Qid)
      requires Valid() && Enabled(S(), InitQueue(q))
      modifies this`queues
      ensures Valid() && S() == Step(old(S()), InitQueue(q))
    {
      hide SchedOk;
      StepOk(S(), InitQueue(q));
      queues := queues[q := Queue([], 0)];
    }
  }

  lemma CurrentRuns(s: SState)
    requires SchedOk(s) && !s.switching
    ensures s.threads[s.cur].state == Run && s.threads[s.cur].wchan == None
  {
    assert ThreadOk(s, s.cur);
  }

  lemma OffEveryQueue(s: SState, t: Tid)
    requires SchedOk(s) && t in s.threads && s.threads[t].wchan == None
    ensures forall q :: q in s.queues ==> t !in s.queues[q].list
  {
    forall q | q in s.queues ensures t !in s.queues[q].list {
      assert QueueOk(s, q);
    }
  }

  lemma QueuedThread(s: SState, t: Tid)
    requires SchedOk(s) && t in s.threads
    ensures s.threads[t].state == SleepCancellable ==> s.threads[t].wchan.Some? && s.threads[t].wchan.value in s.queues
  {
    assert ThreadOk(s, t);
  }

  lemma NoneToWake(s: SState, q: Qid)
    requires SchedOk(s) && q in s.queues && q != RUNQ && s.queues[q].list == []
    ensures AllWoken(s, q) == s
  {
    assert QueueOk(s, q) && QueueOk(s, RUNQ);
    var s' := AllWoken(s, q);
    assert [] + s.queues[RUNQ].list == s.queues[RUNQ].list;
    assert s.queues[q] == Queue([], 0);
    assert s'.queues == s.queues;
    assert s'.threads == s.threads;
  }

  lemma WokenList(s: SState, q: Qid)
    requires SchedOk(s) && q in s.queues && q != RUNQ
    ensures var list := s.queues[q].list;
            Woken(s, q).queues[q].list == if list == [] then [] else list[..|list| - 1]
  {
  }

  lemma WakeQueues(s: SState, q: Qid)
    requires SchedOk(s) && q in s.queues && q != RUNQ && s.queues[q].list != [] && SchedOk(Woken(s, q))
    ensures AllWoken(Woken(s, q), q).queues == AllWoken(s, q).queues
  {
    hide SchedOk;
    QueueThere(s);
    var list, run := s.queues[q].list, s.queues[RUNQ].list;
    var x, y := AllWoken(Woken(s, q), q).queues, AllWoken(s, q).queues;
    assert list[..|list| - 1] + ([list[|list| - 1]] + run) == list + run;
    assert x.Keys == y.Keys;
    assert x[RUNQ] == y[RUNQ] && x[q] == y[q];
  }

  lemma QueueMembers(s: SState, q: Qid)
    requires SchedOk(s) && q in s.queues
    ensures RUNQ in s.queues && forall t :: t in s.queues[q].list ==> t in s.threads && s.threads[t].wchan == Some(q)
  {
    assert QueueOk(s, q);
  }

  lemma WakeThreads(s: SState, q: Qid)
    requires SchedOk(s) && q in s.queues && q != RUNQ && s.queues[q].list != [] && SchedOk(Woken(s, q))
    ensures AllWoken(Woken(s, q), q).threads == AllWoken(s, q).threads
  {
    hide SchedOk;
    var list := s.queues[q].list;
    QueueMembers(s, q);
    assert list == list[..|list| - 1] + [list[|list| - 1]];
    var w := Woken(s, q);
    assert forall t :: t in list <==> t in list[..|list| - 1] || t == list[|list| - 1];
    assert w.queues[q].list == list[..|list| - 1];
  }

  /** Waking one sleeper and then all makes no difference from waking all. */
  lemma WakeOneThenAll(s: SState, q: Qid)
    requires SchedOk(s) && q in s.queues && q != RUNQ
    ensures SchedOk(Woken(s, q)) && q in Woken(s, q).queues && AllWoken(Woken(s, q), q) == AllWoken(s, q)
  {
    hide SchedOk;
    WokenOk(s, q);
    if s.queues[q].list != [] {
      WakeQueues(s, q);
      WakeThreads(s, q);
    }
  }
}
