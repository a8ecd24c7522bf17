/** A run from boot to a state in which the exit of a process leaves init asleep over a dead child. */
module MissedChild {
  import opened PageTypes
  import opened Scheduler
  import opened Processes
  import opened ProcSteps
  import opened ProcTable

  // Idle creates process 2 and waits; init creates process 3 and waits; process 2 creates process 4 and sleeps on
  // queue 3; process 4 exits; process 2 is woken and runs.
  const MISSED: seq<POp> := [
    NewProc(true), WaitPid(-1), Other(Dispatch), NewProc(false), WaitPid(-1), Other(Dispatch), NewProc(true),
    Other(InitQueue(3)), Other(SleepOn(3)), Other(Dispatch), ExitProc(0), Other(WakeupOn(3)), Other(Dispatch)
  ]

  function At1(): PState {
    PState(
      SState(map[0 := Thread(Run, None, false), 1 := Thread(Run, Some(RUNQ), false),
                 2 := Thread(Run, Some(RUNQ), false)],
             map[RUNQ := Queue([2, 1], 2), 2 := Queue([], 0), 4 := Queue([], 0), 6 := Queue([], 0)], 0, false),
      map[0 := Proc(0, None, [2, 1], Running, 0, NotWaiting), 1 := Proc(1, Some(0), [], Running, 0, NotWaiting),
          2 := Proc(2, Some(0), [], Running, 0, NotWaiting)],
      [2, 1, 0], 3, 3, map[], [])
  }

  function At2(): PState {
    PState(
      SState(map[0 := Thread(Sleep, Some(2), false), 1 := Thread(Run, Some(RUNQ), false),
                 2 := Thread(Run, Some(RUNQ), false)],
             map[RUNQ := Queue([2, 1], 2), 2 := Queue([0], 1), 4 := Queue([], 0), 6 := Queue([], 0)], 0, true),
      map[0 := Proc(0, None, [2, 1], Running, 0, ForAny), 1 := Proc(1, Some(0), [], Running, 0, NotWaiting),
          2 := Proc(2, Some(0), [], Running, 0, NotWaiting)],
      [2, 1, 0], 3, 3, map[], [])
  }

  function At3(): PState {
    PState(
      SState(map[0 := Thread(Sleep, Some(2), false), 1 := Thread(Run, None, false),
                 2 := Thread(Run, Some(RUNQ), false)],
             map[RUNQ := Queue([2], 1), 2 := Queue([0], 1), 4 := Queue([], 0), 6 := Queue([], 0)], 1, false),
      map[0 := Proc(0, None, [2, 1], Running, 0, ForAny), 1 := Proc(1, Some(0), [], Running, 0, NotWaiting),
          2 := Proc(2, Some(0), [], Running, 0, NotWaiting)],
      [2, 1, 0], 3, 3, map[], [])
  }

  function At4(): PState {
    PState(
      SState(map[0 := Thread(Sleep, Some(2), false), 1 := Thread(Run, None, false),
                 2 := Thread(Run, Some(RUNQ), false), 3 := Thread(NoState, None, false)],
             map[RUNQ := Queue([2], 1), 2 := Queue([0], 1), 4 := Queue([], 0), 6 := Queue([], 0),
                 8 := Queue([], 0)], 1, false),
      map[0 := Proc(0, None, [2, 1], Running, 0, ForAny), 1 := Proc(1, Some(0), [3], Running, 0, NotWaiting),
          2 := Proc(2, Some(0), [], Running, 0, NotWaiting), 3 := Proc(3, Some(1), [], Running, 0, NotWaiting)],
      [3, 2, 1, 0], 4, 4, map[], [])
  }

  function At5(): PState {
    PState(
      SState(map[0 := Thread(Sleep, Some(2), false), 1 := Thread(Sleep, Some(4), false),
                 2 := Thread(Run, Some(RUNQ), false), 3 := Thread(NoState, None, false)],
             map[RUNQ := Queue([2], 1), 2 := Queue([0], 1), 4 := Queue([1], 1), 6 := Queue([], 0),
                 8 := Queue([], 0)], 1, true),
      map[0 := Proc(0, None, [2, 1], Running, 0, ForAny), 1 := Proc(1, Some(0), [3], Running, 0, ForAny),
          2 := Proc(2, Some(0), [], Running, 0, NotWaiting), 3 := Proc(3, Some(1), [], Running, 0, NotWaiting)],
      [3, 2, 1, 0], 4, 4, map[], [])
  }

  function At6(): PState {
    PState(
      SState(map[0 := Thread(Sleep, Some(2), false), 1 := Thread(Sleep, Some(4), false),
                 2 := Thread(Run, None, false), 3 := Thread(NoState, None, false)],
             map[RUNQ := Queue([], 0), 2 := Queue([0], 1), 4 := Queue([1], 1), 6 := Queue([], 0),
                 8 := Queue([], 0)], 2, false),
      map[0 := Proc(0, None, [2, 1], Running, 0, ForAny), 1 := Proc(1, Some(0), [3], Running, 0, ForAny),
          2 := Proc(2, Some(0), [], Running, 0, NotWaiting), 3 := Proc(3, Some(1), [], Running, 0, NotWaiting)],
      [3, 2, 1, 0], 4, 4, map[], [])
  }

  function At7(): PState {
    PState(
      SState(map[0 := Thread(Sleep, Some(2), false), 1 := Thread(Sleep, Some(4), false),
                 2 := Thread(Run, None, false), 3 := Thread(NoState, None, false),
                 4 := Thread(Run, Some(RUNQ), false)],
             map[RUNQ := Queue([4], 1), 2 := Queue([0], 1), 4 := Queue([1], 1), 6 := Queue([], 0), 8 := Queue([], 0),
                 10 := Queue([], 0)], 2, false),
      map[0 := Proc(0, None, [2, 1], Running, 0, ForAny), 1 := Proc(1, Some(0), [3], Running, 0, ForAny),
          2 := Proc(2, Some(0), [4], Running, 0, NotWaiting), 3 := Proc(3, Some(1), [], Running, 0, NotWaiting),
          4 := Proc(4, Some(2), [], Running, 0, NotWaiting)],
      [4, 3, 2, 1, 0], 5, 5, map[], [])
  }

  function At8(): PState {
    PState(
      SState(map[0 := Thread(Sleep, Some(2), false), 1 := Thread(Sleep, Some(4), false),
                 2 := Thread(Run, None, false), 3 := Thread(NoState, None, false),
                 4 := Thread(Run, Some(RUNQ), false)],
             map[RUNQ := Queue([4], 1), 2 := Queue([0], 1), 4 := Queue([1], 1), 6 := Queue([], 0), 8 := Queue([], 0),
                 10 := Queue([], 0), 3 := Queue([], 0)], 2, false),
      map[0 := Proc(0, None, [2, 1], Running, 0, ForAny), 1 := Proc(1, Some(0), [3], Running, 0, ForAny),
          2 := Proc(2, Some(0), [4], Running, 0, NotWaiting), 3 := Proc(3, Some(1), [], Running, 0, NotWaiting),
          4 := Proc(4, Some(2), [], Running, 0, NotWaiting)],
      [4, 3, 2, 1, 0], 5, 5, map[], [])
  }

  function At9(): PState {
    PState(
      SState(map[0 := Thread(Sleep, Some(2), false), 1 := Thread(Sleep, Some(4), false),
                 2 := Thread(Sleep, Some(3), false), 3 := Thread(NoState, None, false),
                 4 := Thread(Run, Some(RUNQ), false)],
             map[RUNQ := Queue([4], 1), 2 := Queue([0], 1), 4 := Queue([1], 1), 6 := Queue([], 0), 8 := Queue([], 0),
                 10 := Queue([], 0), 3 := Queue([2], 1)], 2, true),
      map[0 := Proc(0, None, [2, 1], Running, 0, ForAny), 1 := Proc(1, Some(0), [3], Running, 0, ForAny),
          2 := Proc(2, Some(0), [4], Running, 0, NotWaiting), 3 := Proc(3, Some(1), [], Running, 0, NotWaiting),
          4 := Proc(4, Some(2), [], Running, 0, NotWaiting)],
      [4, 3, 2, 1, 0], 5, 5, map[], [])
  }

  function At10(): PState {
    PState(
      SState(map[0 := Thread(Sleep, Some(2), false), 1 := Thread(Sleep, Some(4), false),
                 2 := Thread(Sleep, Some(3), false), 3 := Thread(NoState, None, false),
                 4 := Thread(Run, None, false)],
             map[RUNQ := Queue([], 0), 2 := Queue([0], 1), 4 := Queue([1], 1), 6 := Queue([], 0), 8 := Queue([], 0),
                 10 := Queue([], 0), 3 := Queue([2], 1)], 4, false),
      map[0 := Proc(0, None, [2, 1], Running, 0, ForAny), 1 := Proc(1, Some(0), [3], Running, 0, ForAny),
          2 := Proc(2, Some(0), [4], Running, 0, NotWaiting), 3 := Proc(3, Some(1), [], Running, 0, NotWaiting),
          4 := Proc(4, Some(2), [], Running, 0, NotWaiting)],
      [4, 3, 2, 1, 0], 5, 5, map[], [])
  }

  function At11(): PState {
    PState(
      SState(map[0 := Thread(Sleep, Some(2), false), 1 := Thread(Sleep, Some(4), false),
                 2 := Thread(Sleep, Some(3), false), 3 := Thread(NoState, None, false),
                 4 := Thread(Exited, None, false)],
             map[RUNQ := Queue([], 0), 2 := Queue([0], 1), 4 := Queue([1], 1), 6 := Queue([], 0), 8 := Queue([], 0),
                 10 := Queue([], 0), 3 := Queue([2], 1)], 4, true),
      map[0 := Proc(0, None, [2, 1], Running, 0, ForAny), 1 := Proc(1, Some(0), [3], Running, 0, ForAny),
          2 := Proc(2, Some(0), [4], Running, 0, NotWaiting), 3 := Proc(3, Some(1), [], Running, 0, NotWaiting),
          4 := Proc(4, Some(2), [], Dead, 0, NotWaiting)],
      [4, 3, 2, 1, 0], 5, 5, map[4 := 0], [])
  }

  function At12(): PState {
    PState(
      SState(map[0 := Thread(Sleep, Some(2), false), 1 := Thread(Sleep, Some(4), false),
                 2 := Thread(Run, Some(RUNQ), false), 3 := Thread(NoState, None, false),
                 4 := Thread(Exited, None, false)],
             map[RUNQ := Queue([2], 1), 2 := Queue([0], 1), 4 := Queue([1], 1), 6 := Queue([], 0), 8 := Queue([], 0),
                 10 := Queue([], 0), 3 := Queue([], 0)], 4, true),
      map[0 := Proc(0, None, [2, 1], Running, 0, ForAny), 1 := Proc(1, Some(0), [3], Running, 0, ForAny),
          2 := Proc(2, Some(0), [4], Running, 0, NotWaiting), 3 := Proc(3, Some(1), [], Running, 0, NotWaiting),
          4 := Proc(4, Some(2), [], Dead, 0, NotWaiting)],
      [4, 3, 2, 1, 0], 5, 5, map[4 := 0], [])
  }

  function At13(): PState {
    PState(
      SState(map[0 := Thread(Sleep, Some(2), false), 1 := Thread(Sleep, Some(4), false),
                 2 := Thread(Run, None, false), 3 := Thread(NoState, None, false), 4 := Thread(Exited, None, false)],
             map[RUNQ := Queue([], 0), 2 := Queue([0], 1), 4 := Queue([1], 1), 6 := Queue([], 0), 8 := Queue([], 0),
                 10 := Queue([], 0), 3 := Queue([], 0)], 2, false),
      map[0 := Proc(0, None, [2, 1], Running, 0, ForAny), 1 := Proc(1, Some(0), [3], Running, 0, ForAny),
          2 := Proc(2, Some(0), [4], Running, 0, NotWaiting), 3 := Proc(3, Some(1), [], Running, 0, NotWaiting),
          4 := Proc(4, Some(2), [], Dead, 0, NotWaiting)],
      [4, 3, 2, 1, 0], 5, 5, map[4 := 0], [])
  }

  lemma Step1()
    requires ProcOk(Boot(8), 8)
    ensures PLast(Boot(8), NewProc(true), At1(), 8)
  {
    hide SchedOk, Tree, Linked, PidsOk, LogOk, SleeperOk, FirstFree;
    NewIdIs(Boot(8), 2);
    var s, s' := PStep(Boot(8), NewProc(true), 8), At1();
    assert s.sch.threads == s'.sch.threads;
    assert s.sch.queues[RUNQ] == s'.sch.queues[RUNQ] && s.sch.queues[6] == s'.sch.queues[6];
    assert s.sch.queues == s'.sch.queues;
    assert s.procs == s'.procs;
  }

  lemma Step2()
    requires ProcOk(At1(), 8)
    ensures PLast(At1(), WaitPid(-1), At2(), 8)
  {
    hide SchedOk, Tree, Linked, PidsOk, LogOk, SleeperOk, FirstFree;
    NoneDeadYet(At1());
    var s, s' := PStep(At1(), WaitPid(-1), 8), At2();
    assert s.sch.threads == s'.sch.threads;
    assert s.sch.queues[2] == s'.sch.queues[2];
    assert s.sch.queues == s'.sch.queues;
    assert s.procs == s'.procs;
  }

  lemma Step3()
    requires ProcOk(At2(), 8)
    ensures PLast(At2(), Other(Dispatch), At3(), 8)
  {
    hide SchedOk, Tree, Linked, PidsOk, LogOk, SleeperOk, FirstFree;
    var s, s' := PStep(At2(), Other(Dispatch), 8), At3();
    assert s.sch.threads == s'.sch.threads;
    assert s.sch.queues[RUNQ] == s'.sch.queues[RUNQ];
    assert s.sch.queues == s'.sch.queues;
    assert s.procs == s'.procs;
  }

  lemma Step4()
    requires ProcOk(At3(), 8)
    ensures PLast(At3(), NewProc(false), At4(), 8)
  {
    hide SchedOk, Tree, Linked, PidsOk, LogOk, SleeperOk, FirstFree;
    NewIdIs(At3(), 3);
    var s, s' := PStep(At3(), NewProc(false), 8), At4();
    assert s.sch.threads == s'.sch.threads;
    assert s.sch.queues[8] == s'.sch.queues[8];
    assert s.sch.queues == s'.sch.queues;
    assert [3] + [] == [3];
    assert s.procs[1] == s'.procs[1];
    assert s.procs == s'.procs;
  }

  lemma Step5()
    requires ProcOk(At4(), 8)
    ensures PLast(At4(), WaitPid(-1), At5(), 8)
  {
    hide SchedOk, Tree, Linked, PidsOk, LogOk, SleeperOk, FirstFree;
    NoneDeadYet(At4());
    var s, s' := PStep(At4(), WaitPid(-1), 8), At5();
    assert s.sch.threads == s'.sch.threads;
    assert s.sch.queues[4] == s'.sch.queues[4];
    assert s.sch.queues == s'.sch.queues;
    assert s.procs == s'.procs;
  }

  lemma Step6()
    requires ProcOk(At5(), 8)
    ensures PLast(At5(), Other(Dispatch), At6(), 8)
  {
    hide SchedOk, Tree, Linked, PidsOk, LogOk, SleeperOk, FirstFree;
    var s, s' := PStep(At5(), Other(Dispatch), 8), At6();
    assert s.sch.threads == s'.sch.threads;
    assert s.sch.queues[RUNQ] == s'.sch.queues[RUNQ];
    assert s.sch.queues == s'.sch.queues;
    assert s.procs == s'.procs;
  }

  lemma Step7()
    requires ProcOk(At6(), 8)
    ensures PLast(At6(), NewProc(true), At7(), 8)
  {
    hide SchedOk, Tree, Linked, PidsOk, LogOk, SleeperOk, FirstFree;
    NewIdIs(At6(), 4);
    var s, s' := PStep(At6(), NewProc(true), 8), At7();
    assert s.sch.threads == s'.sch.threads;
    assert s.sch.queues[RUNQ] == s'.sch.queues[RUNQ] && s.sch.queues[10] == s'.sch.queues[10];
    assert s.sch.queues == s'.sch.queues;
    assert s.procs == s'.procs;
  }

  lemma Step8()
    requires ProcOk(At7(), 8)
    ensures PLast(At7(), Other(InitQueue(3)), At8(), 8)
  {
    hide SchedOk, Tree, Linked, PidsOk, LogOk, SleeperOk, FirstFree;
    var s, s' := PStep(At7(), Other(InitQueue(3)), 8), At8();
    assert s.sch.threads == s'.sch.threads;
    assert s.sch.queues[3] == s'.sch.queues[3];
    assert s.sch.queues == s'.sch.queues;
    assert s.procs == s'.procs;
  }

  lemma Step9()
    requires ProcOk(At8(), 8)
    ensures PLast(At8(), Other(SleepOn(3)), At9(), 8)
  {
    hide SchedOk, Tree, Linked, PidsOk, LogOk, SleeperOk, FirstFree;
    var s, s' := PStep(At8(), Other(SleepOn(3)), 8), At9();
    assert s.sch.threads == s'.sch.threads;
    assert s.sch.queues[3] == s'.sch.queues[3];
    assert s.sch.queues == s'.sch.queues;
    assert s.procs == s'.procs;
  }

  lemma Step10()
    requires ProcOk(At9(), 8)
    ensures PLast(At9(), Other(Dispatch), At10(), 8)
  {
    hide SchedOk, Tree, Linked, PidsOk, LogOk, SleeperOk, FirstFree;
    var s, s' := PStep(At9(), Other(Dispatch), 8), At10();
    assert s.sch.threads == s'.sch.threads;
    assert s.sch.queues[RUNQ] == s'.sch.queues[RUNQ];
    assert s.sch.queues == s'.sch.queues;
    assert s.procs == s'.procs;
  }

  lemma Step11()
    requires ProcOk(At10(), 8)
    ensures PLast(At10(), ExitProc(0), At11(), 8)
  {
    hide SchedOk, Tree, Linked, PidsOk, LogOk, SleeperOk, FirstFree;
    var s, s' := PStep(At10(), ExitProc(0), 8), At11();
    assert s.sch.threads == s'.sch.threads;
    assert s.sch.queues == s'.sch.queues;
    assert Reversed([]) + [3] == [3];
    assert s.procs[1] == s'.procs[1] && s.procs[2] == s'.procs[2] && s.procs[4] == s'.procs[4];
    assert s.procs == s'.procs;
  }

  lemma Step12()
    requires ProcOk(At11(), 8)
    ensures PLast(At11(), Other(WakeupOn(3)), At12(), 8)
  {
    hide SchedOk, Tree, Linked, PidsOk, LogOk, SleeperOk, FirstFree;
    var s, s' := PStep(At11(), Other(WakeupOn(3)), 8), At12();
    assert s.sch.threads == s'.sch.threads;
    assert s.sch.queues[RUNQ] == s'.sch.queues[RUNQ] && s.sch.queues[3] == s'.sch.queues[3];
    assert s.sch.queues == s'.sch.queues;
    assert s.procs == s'.procs;
  }

  lemma Step13()
    requires ProcOk(At12(), 8)
    ensures PLast(At12(), Other(Dispatch), At13(), 8)
  {
    hide SchedOk, Tree, Linked, PidsOk, LogOk, SleeperOk, FirstFree;
    var s, s' := PStep(At12(), Other(Dispatch), 8), At13();
    assert s.sch.threads == s'.sch.threads;
    assert s.sch.queues[RUNQ] == s'.sch.queues[RUNQ];
    assert s.sch.queues == s'.sch.queues;
    assert s.procs == s'.procs;
  }

  lemma NewIdIs(s: PState, pid: nat)
    requires s.nextPid == pid < 8 && forall p :: p in s.procs ==> s.procs[p].pid < pid
    ensures NewPid(s, 8) == pid
  {
  }

  lemma NoneDeadYet(s: PState)
    requires s.sch.cur in s.procs && forall p :: p in s.procs ==> s.procs[p].state == Running
    ensures Ready(s, ForAny) == None
  {
    NoneDeadIn(s.procs, s.procs[s.sch.cur].children);
  }

  lemma {:induction false} NoneDeadIn(procs: map<ProcId, Proc>, l: seq<ProcId>)
    requires forall p :: p in procs ==> procs[p].state == Running
    ensures FirstDead(procs, l) == None
  {
    if l != [] {
      NoneDeadIn(procs, l[1..]);
    }
  }

  lemma Advance(k: nat, u: PState, s: PState)
    requires k < |MISSED| && ProcOk(u, 8) && PRuns(Boot(8), MISSED[..k], u, 8) && PLast(u, MISSED[k], s, 8)
    ensures ProcOk(s, 8) && PRuns(Boot(8), MISSED[..k + 1], s, 8)
  {
    hide ProcOk, PEnabled, PStep, PRuns;
    PStepOk(u, MISSED[k], 8);
    PRunsOn(Boot(8), MISSED[..k], u, MISSED[k], s, 8);
    assert MISSED[..k] + [MISSED[k]] == MISSED[..k + 1];
  }

  lemma BootReady()
    ensures ProcOk(Boot(8), 8) && PRuns(Boot(8), MISSED[..0], Boot(8), 8)
  {
    hide ProcOk, SchedOk;
    BootSched();
    BootOk(8);
  }

  lemma FirstHalf()
    ensures ProcOk(At6(), 8) && PRuns(Boot(8), MISSED[..6], At6(), 8)
  {
    hide ProcOk, PLast, PRuns, Boot, At1, At2, At3, At4, At5, At6;
    BootReady();
    Step1();
    Advance(0, Boot(8), At1());
    Step2();
    Advance(1, At1(), At2());
    Step3();
    Advance(2, At2(), At3());
    Step4();
    Advance(3, At3(), At4());
    Step5();
    Advance(4, At4(), At5());
    Step6();
    Advance(5, At5(), At6());
  }

  lemma SecondHalf()
    ensures ProcOk(At13(), 8) && PRuns(Boot(8), MISSED, At13(), 8)
  {
    hide ProcOk, PLast, PRuns, Boot, At6, At7, At8, At9, At10, At11, At12, At13;
    FirstHalf();
    Step7();
    Advance(6, At6(), At7());
    Step8();
    Advance(7, At7(), At8());
    Step9();
    Advance(8, At8(), At9());
    Step10();
    Advance(9, At9(), At10());
    Step11();
    Advance(10, At10(), At11());
    Step12();
    Advance(11, At11(), At12());
    Step13();
    Advance(12, At12(), At13());
    assert MISSED[..13] == MISSED;
  }

  lemma LastState()
    ensures var s := At13();
            && PEnabled(s, ExitProc(0), 8) && AsleepInWait(s, INIT) && s.procs[INIT].wait == ForAny
            && s.sch.cur in s.procs && s.procs[s.sch.cur].parent != Some(INIT) && HasDeadChild(s, s.sch.cur)
            && !HasDeadChild(s, INIT)
  {
    var s := At13();
    assert s.procs[4].parent == Some(2) && s.procs[4].state == Dead;
    assert forall c :: c in s.procs && s.procs[c].state == Dead ==> c == 4;
  }

  /** When process 2 exits next, init is left asleep over the dead child it inherits. */
  lemma InitMissesExample() returns (s: PState)
    ensures PRuns(Boot(8), MISSED, s, 8) && ProcOk(s, 8) && PEnabled(s, ExitProc(0), 8)
    ensures AsleepInWait(Ended(s, 0), INIT) && HasDeadChild(Ended(s, 0), INIT)
  {
    hide SchedOk, Tree, Linked, PidsOk, LogOk, SleeperOk, At13, Ended, AsleepInWait, HasDeadChild, PRuns;
    s := At13();
    SecondHalf();
    LastState();
    InitMissesExactly(s, 0, 8);
  }
}
