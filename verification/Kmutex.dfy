/** kmutex.c: the mutex as the kernel keeps it. A lock call that blocks is cut where the thread sleeps. */
module Kmutex {
  import opened PageTypes
  import opened Scheduler
  import opened Threads
  import opened Mutexes

  // How a lock call, or the rest of one after its sleep, ends.
  datatype LockResult = Acquired | Blocked | Eintr | AssertionFailed

  class Mutex {
    const sched: Sched
    const waitq: Qid
    var holder: Option<Tid>
    var panicked: bool
    ghost var phase: map<Tid, Phase>

    ghost function M(): MState
      reads this, sched
    {
      MState(sched.S(), waitq, holder, phase, panicked)
    }

    ghost predicate Valid()
      reads this, sched
    {
      MutexOk(M())
    }

    /** kmutex_init */
    constructor (sched: Sched, q: Qid)
      requires sched.Valid() && Enabled(sched.S(), InitQueue(q)) && q != RUNQ
      modifies sched`queues
      ensures Valid() && this.sched == sched && sched.S() == Step(old(sched.S()), InitQueue(q))
      ensures waitq == q && holder == None && phase == map[] && !panicked
    {
      hide SchedOk;
      this.sched, waitq, holder, panicked, phase := sched, q, None, false, map[];
      new;
      sched.NewQueue(q);
    }

    // The current thread has given up the processor and is last in line.
    twostate predicate JoinsWaiters()
      reads this, sched
    {
      && sched.cur == old(sched.cur) && sched.switching && waitq in old(sched.queues) && waitq in sched.queues
      && sched.queues[waitq].list == [sched.cur] + old(sched.queues)[waitq].list
    }

    /** kmutex_lock, as far as the sleep if the mutex is held. */
    method LockNow() returns (r: LockResult)
      requires Valid() && MEnabled(M(), Lock)
      modifies this, sched
      ensures Valid() && M() == MStep(old(M()), Lock, false)
      ensures r == if old(holder) == None then Acquired else Blocked
      ensures r == Acquired ==> holder == Some(sched.cur) && sched.S() == old(sched.S())
                                && phase == old(phase)[sched.cur := Holding]
      ensures r == Blocked ==> holder == old(holder) && phase == old(phase)[sched.cur := Waiting] && JoinsWaiters()
    {
      hide MutexOk, SchedOk, Asleep;
      MStepOk(M(), Lock, false);
      SchedPart(M());
      if holder != None {
        phase := phase[sched.cur := Waiting];
        sched.Sleep(waitq);
        return Blocked;
      } else {
        phase := phase[sched.cur := Holding];
        holder := Some(sched.cur);
        return Acquired;
      }
    }

    /** kmutex_lock_cancellable, as far as the sleep if the mutex is held. */
    method LockCancellableNow() returns (r: LockResult)
      requires Valid() && MEnabled(M(), LockCancellable)
      modifies this, sched
      ensures Valid() && M() == MStep(old(M()), LockCancellable, false)
      ensures r == if Interrupted(old(sched.S()), old(sched.cur)) then Eintr else if old(holder) == None then Acquired
                   else Blocked
      ensures r == Acquired ==> holder == Some(sched.cur) && sched.S() == old(sched.S())
                                && phase == old(phase)[sched.cur := Holding]
      ensures r == Blocked ==> holder == old(holder) && phase == old(phase)[sched.cur := WaitingCancellable]
                               && JoinsWaiters()
      ensures r == Eintr ==> holder == old(holder) && phase == old(phase) && sched.S() == old(sched.S())
    {
      hide MutexOk, SchedOk, Asleep;
      MStepOk(M(), LockCancellable, false);
      SchedPart(M());
      QueueThere(sched.S());
      if !sched.threads[sched.cur].cancelled {
        if holder != None {
          phase := phase[sched.cur := WaitingCancellable];
          var interrupted := sched.CancellableSleep(waitq);
          return Blocked;
        } else {
          phase := phase[sched.cur := Holding];
          holder := Some(sched.cur);
          return Acquired;
        }
      }
      return Eintr;
    }

    // The body of kmutex_unlock after its assertion.
    method HandOn()
      requires Valid() && !sched.switching && holder == Some(sched.cur)
      modifies this, sched`queues, sched`threads
      ensures Valid() && M() == Released(Enter(old(M()), Out))
      ensures phase == old(phase)[sched.cur := Out] && panicked == old(panicked)
    {
      hide MutexOk, SchedOk, Woken;
      ReleaseKeeps(M());
      SchedPart(M());
      phase := phase[sched.cur := Out];
      if sched.queues[waitq].list == [] {
        holder := None;
      } else {
        holder := sched.Wakeup(waitq);
      }
    }

    /** kmutex_unlock: the new holder, if any, is the oldest waiter, and never the caller. */
    method UnlockNow()
      requires Valid() && MEnabled(M(), Unlock)
      modifies this, sched`queues, sched`threads
      ensures Valid() && M() == MStep(old(M()), Unlock, false) && holder != Some(sched.cur)
      ensures holder == if old(Waiters(M())) == [] then None else Some(old(Waiters(M()))[|old(Waiters(M()))| - 1])
      ensures phase == old(phase)[sched.cur := Out] && !panicked
    {
      hide MutexOk, SchedOk, Woken, Released;
      HolderIs(M());
      ReleasedHolder(M());
      HandOn();
    }

    /** The rest of kmutex_lock once the sleeper runs again: it holds the mutex. */
    method LockReturns()
      requires Valid() && MEnabled(M(), Resume) && PhaseOf(M(), sched.cur) == Waiting
      modifies this`phase
      ensures Valid() && M() == MStep(old(M()), Resume, false) && holder == Some(sched.cur)
      ensures phase == old(phase)[sched.cur := Holding]
    {
      hide MutexOk, SchedOk;
      MStepOk(M(), Resume, false);
      ResumeHolds(M());
      phase := phase[sched.cur := Holding];
    }

    /**
     The rest of kmutex_lock_cancellable once the sleeper runs again. Interrupted, it unlocks the mutex
     whether or not it holds it, and the assertion of kmutex_unlock fails exactly when it does not.
     */
    method LockCancellableReturns() returns (r: LockResult)
      requires Valid() && MEnabled(M(), Resume) && PhaseOf(M(), sched.cur) == WaitingCancellable
      modifies this, sched`queues, sched`threads
      ensures Valid() && M() == MStep(old(M()), Resume, false)
      ensures r == AssertionFailed <==> Doomed(old(M()), old(sched.cur))
      ensures r == Acquired <==> !Interrupted(old(sched.S()), old(sched.cur))
      ensures r == Acquired ==> holder == Some(sched.cur) && phase == old(phase)[sched.cur := Holding]
      ensures r == Eintr ==> holder != Some(sched.cur) && phase == old(phase)[sched.cur := Out]
      ensures r == AssertionFailed <==> panicked
    {
      hide MutexOk, SchedOk, Woken, Released;
      MStepOk(M(), Resume, false);
      ResumeHolds(M());
      PanicExactly(M(), Resume);
      SchedPart(M());
      QueueThere(sched.S());
      if sched.threads[sched.cur].cancelled {
        if holder != Some(sched.cur) {
          panicked := true;
          return AssertionFailed;
        }
        ReleasedHolder(M());
        HandOn();
        return Eintr;
      }
      phase := phase[sched.cur := Holding];
      return Acquired;
    }
  }

  lemma ReleasedHolder(m: MState)
    requires MutexOk(m) && !m.sch.switching
    ensures var m' := Released(Enter(m, Out));
            && m'.sch.cur == m.sch.cur && m'.holder != Some(m.sch.cur)
            && m'.holder == if Waiters(m) == [] then None else Some(Waiters(m)[|Waiters(m)| - 1])
  {
    hide SchedOk;
    Members(m.sch, m.waitq);
    if Waiters(m) != [] {
      assert Waiters(m)[|Waiters(m)| - 1] in Waiters(m);
    }
  }
}
