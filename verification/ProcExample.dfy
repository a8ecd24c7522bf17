/** A run from boot after which two processes have the same id. */
module ProcExample {
  import opened Scheduler
  import opened Processes
  import opened ProcSteps
  import opened ProcTable

  // With both ids there are taken a new process gets -1.
  lemma NoIdLeft(s: PState)
    requires IDLE in s.procs && INIT in s.procs && s.procs[IDLE].pid == 0 && s.procs[INIT].pid == 1 && s.nextPid < 2
    ensures NewPid(s, 2) == -1
  {
    assert s.procs[IDLE].pid in Pids(s.procs) && s.procs[INIT].pid in Pids(s.procs);
    FirstFreeExact(Pids(s.procs), s.nextPid, 2);
  }

  // Idle creates a process and goes on.
  lemma WithoutId(s: PState)
    requires ProcOk(s, 2) && Calm(s) && s.sch.cur == IDLE && INIT in s.procs && s.nextPid < 2 && s.next !in s.procs
             && s.procs[IDLE].pid == 0 && s.procs[INIT].pid == 1
    ensures PEnabled(s, NewProc(false), 2)
    ensures var s' := PStep(s, NewProc(false), 2);
            && ProcOk(s', 2) && Calm(s') && s'.sch.cur == IDLE && s'.nextPid == s.nextPid && s'.next == s.next + 1
            && s'.procs.Keys == s.procs.Keys + {s.next} && s'.procs[s.next].pid == -1
            && forall p :: p in s.procs ==> s'.procs[p].pid == s.procs[p].pid
  {
    hide ProcOk, SchedOk, FirstFree;
    NoIdLeft(s);
    PStepOk(s, NewProc(false), 2);
  }

  lemma BootFacts()
    ensures var s := Boot(2);
            && ProcOk(s, 2) && Calm(s) && s.sch.cur == IDLE && s.procs.Keys == {IDLE, INIT} && s.next == 2
            && s.nextPid == 0
            && s.procs[IDLE].pid == 0 && s.procs[INIT].pid == 1
  {
    hide ProcOk, SchedOk;
    BootSched();
    BootOk(2);
  }

  /** From boot with two ids: two creations give two processes that run under -1. */
  lemma SameIdExample() returns (s: PState)
    ensures PRuns(Boot(2), [NewProc(false), NewProc(false)], s, 2) && !PidsDistinct(s.procs)
  {
    hide SchedOk, Tree, Linked, PidsOk, LogOk, SleeperOk, PEnabled, PStep, Calm, Boot;
    BootFacts();
    var s0 := Boot(2);
    WithoutId(s0);
    var s1 := PStep(s0, NewProc(false), 2);
    WithoutId(s1);
    s := PStep(s1, NewProc(false), 2);
    PRunsOn(s0, [], s0, NewProc(false), s1, 2);
    PRunsOn(s0, [] + [NewProc(false)], s1, NewProc(false), s, 2);
    assert [] + [NewProc(false)] + [NewProc(false)] == [NewProc(false), NewProc(false)];
    assert s.procs[2].pid == s.procs[3].pid == -1;
  }
}
