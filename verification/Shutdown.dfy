/**
  How vwifi-client stops (src/cthread.cc, src/ckernelwifi.cc). Tasks loop over an interruption
  point; `stop` sets their flags and waits on a condition variable until the static counter of
  threads is zero. Every lock, counter update, notification and wait is one step, and the steps
  of the tasks and of `stop` interleave freely. Tasks are numbered in the order in which `stop`
  interrupts them; the program has five, and number 3 watches over the driver. When it finds the
  driver unloaded and cannot register again, it leaves its loop without calling dead().
 */
module Shutdown {

  /** monitorloop_task */
  const MONITOR := 3

  /** Where a task is. */
  datatype Task =
    | AtCheck        // about to call interruption_point
    | Working        // the rest of the loop body
    | Caught         // dead() has been called
    | Locked         // it holds _mutex_condition
    | Uncounted      // uncount_thread has returned
    | Notified       // notify_all has returned
    | Dead           // out of the loop
    | Abandoned      // out of the loop without dead()

  /** Where `stop` is. */
  datatype Stop =
    | Interrupting(next: nat)
    | Locking
    | Checking                 // it holds the mutex and calls all_thread_interrupted
    | Asleep                   // the mutex is released, waiting for a notification
    | Woken
    | Passed                   // the wait is over, the mutex is held
    | Returned

  datatype Owner = Nobody | Stopper | Holder(task: nat)

  datatype System = System(count: int, owner: Owner, tasks: seq<Task>, flags: seq<bool>, stop: Stop)

  datatype Move =
    | Check(i: nat) | Work(i: nat) | Lock(i: nat) | Uncount(i: nat) | Notify(i: nat) | Unlock(i: nat)
    | Abandon                                 // the monitor, when init() fails
    | Interrupt | LockStop | Test | Return
    | Spurious                                // a wake-up without notification

  predicate Enabled(s: System, m: Move) {
    match m
    case Check(i) => i < |s.tasks| && s.tasks[i].AtCheck?
    case Work(i) => i < |s.tasks| && s.tasks[i].Working?
    case Lock(i) => i < |s.tasks| && s.tasks[i].Caught? && s.owner.Nobody?
    case Uncount(i) => i < |s.tasks| && s.tasks[i].Locked?
    case Notify(i) => i < |s.tasks| && s.tasks[i].Uncounted?
    case Unlock(i) => i < |s.tasks| && s.tasks[i].Notified?
    case Abandon => MONITOR < |s.tasks| && s.tasks[MONITOR].Working?
    case Interrupt => s.stop.Interrupting? && s.stop.next < |s.flags|
    case LockStop => (s.stop.Locking? || s.stop.Woken?) && s.owner.Nobody?
    case Test => s.stop.Checking?
    case Return => s.stop.Passed?
    case Spurious => s.stop.Asleep?
  }

  function SetTask(s: System, i: nat, t: Task): System
    requires i < |s.tasks|
  {
    s.(tasks := s.tasks[i := t])
  }

  function Next(s: System, m: Move): System
    requires Enabled(s, m)
  {
    match m
    case Check(i) => SetTask(s, i, if i < |s.flags| && s.flags[i] then Caught else Working)
    case Work(i) => SetTask(s, i, AtCheck)
    case Lock(i) => SetTask(s, i, Locked).(owner := Holder(i))
    case Uncount(i) => SetTask(s, i, Uncounted).(count := s.count - 1)
    case Notify(i) => SetTask(s, i, Notified).(stop := if s.stop.Asleep? then Woken else s.stop)
    case Unlock(i) => SetTask(s, i, Dead).(owner := Nobody)
    case Abandon => SetTask(s, MONITOR, Abandoned)
    case Interrupt =>
      s.(flags := s.flags[s.stop.next := true],
         stop := if s.stop.next + 1 < |s.flags| then Interrupting(s.stop.next + 1) else Locking)
    case LockStop => s.(stop := Checking, owner := Stopper)
    case Test => if s.count == 0 then s.(stop := Passed) else s.(stop := Asleep, owner := Nobody)
    case Return => s.(stop := Returned, owner := Nobody)
    case Spurious => s.(stop := Woken)
  }

  // ---------- the counter ----------

  /** The task has not run uncount_thread. */
  predicate Counted(t: Task) {
    InLoop(t) || t.Abandoned?
  }

  /** The task has neither run uncount_thread nor left without it. */
  predicate InLoop(t: Task) {
    t.AtCheck? || t.Working? || t.Caught? || t.Locked?
  }

  function Living(tasks: seq<Task>): nat {
    if tasks == [] then 0 else Living(tasks[1..]) + if Counted(tasks[0]) then 1 else 0
  }

  function Running(tasks: seq<Task>): nat {
    if tasks == [] then 0 else Running(tasks[1..]) + if InLoop(tasks[0]) then 1 else 0
  }

  lemma {:induction false} LivingUpdate(tasks: seq<Task>, i: nat, t: Task)
    requires i < |tasks|
    ensures Living(tasks[i := t]) ==
            Living(tasks) - (if Counted(tasks[i]) then 1 else 0) + (if Counted(t) then 1 else 0)
  {
    if i == 0 {
      assert tasks[i := t][1..] == tasks[1..];
    } else {
      LivingUpdate(tasks[1..], i - 1, t);
      assert tasks[i := t][1..] == tasks[1..][i - 1 := t];
    }
  }

  lemma {:induction false} LivingNone(tasks: seq<Task>)
    ensures Living(tasks) == 0 <==> forall i :: 0 <= i < |tasks| ==> !Counted(tasks[i])
  {
    if tasks != [] {
      LivingNone(tasks[1..]);
      if Living(tasks[1..]) != 0 {
        var j :| 0 <= j < |tasks[1..]| && Counted(tasks[1..][j]);
        assert Counted(tasks[j + 1]);
      }
    }
  }

  predicate AnyAbandoned(tasks: seq<Task>) {
    exists i :: 0 <= i < |tasks| && tasks[i].Abandoned?
  }

  lemma {:induction false} RunningLiving(tasks: seq<Task>)
    ensures Running(tasks) <= Living(tasks)
    ensures Running(tasks) == Living(tasks) <==> !AnyAbandoned(tasks)
  {
    if tasks != [] {
      RunningLiving(tasks[1..]);
      if AnyAbandoned(tasks[1..]) {
        var j :| 0 <= j < |tasks[1..]| && tasks[1..][j].Abandoned?;
        assert tasks[j + 1].Abandoned?;
      }
    }
  }

  predicate CountExact(s: System) {
    s.count == Living(s.tasks)
  }

  /** Whatever the step, the counter stays the number of tasks that have not run dead(). */
  lemma CountKept(s: System, m: Move)
    requires CountExact(s) && Enabled(s, m)
    ensures CountExact(Next(s, m))
  {
    match m {
      case Check(i) => LivingUpdate(s.tasks, i, Next(s, m).tasks[i]);
      case Work(i) => LivingUpdate(s.tasks, i, AtCheck);
      case Lock(i) => LivingUpdate(s.tasks, i, Locked);
      case Uncount(i) => LivingUpdate(s.tasks, i, Uncounted);
      case Notify(i) => LivingUpdate(s.tasks, i, Notified);
      case Unlock(i) => LivingUpdate(s.tasks, i, Dead);
      case Abandon => LivingUpdate(s.tasks, MONITOR, Abandoned);
      case _ =>
    }
  }

  /** A step keeps the counter the number of tasks still at work if and only if it is not an exit without dead(). */
  lemma CountExactly(s: System, m: Move)
    requires CountExact(s) && s.count == Running(s.tasks) && Enabled(s, m)
    ensures Next(s, m).count == Running(Next(s, m).tasks) <==> !m.Abandon?
  {
    var s' := Next(s, m);
    CountKept(s, m);
    RunningLiving(s.tasks);
    RunningLiving(s'.tasks);
    if m.Abandon? {
      assert s'.tasks[MONITOR].Abandoned?;
    } else {
      NoneAbandoned(s, m);
    }
  }

  lemma NoneAbandoned(s: System, m: Move)
    requires !AnyAbandoned(s.tasks) && Enabled(s, m) && !m.Abandon?
    ensures !AnyAbandoned(Next(s, m).tasks)
  {
    forall j | 0 <= j < |s.tasks| ensures !Next(s, m).tasks[j].Abandoned? {
      assert !s.tasks[j].Abandoned?;
    }
  }

  // ---------- the invariant ----------

  /** The task holds the mutex. */
  predicate Inside(t: Task) {
    t.Locked? || t.Uncounted? || t.Notified?
  }

  predicate StopInside(p: Stop) {
    p.Checking? || p.Passed?
  }

  /** A task leaves its loop by dead() only when it was interrupted; `stop` interrupts them all before it waits. */
  predicate FlagsOk(s: System) {
    && |s.flags| == |s.tasks|
    && (forall i :: 0 <= i < |s.tasks| && !s.tasks[i].AtCheck? && !s.tasks[i].Working? && !s.tasks[i].Abandoned? ==> s.flags[i])
    && (forall i :: 0 <= i < |s.flags| && (s.stop.Interrupting? ==> i < s.stop.next) ==> s.flags[i])
    && (s.stop.Interrupting? ==> s.stop.next < |s.flags|)
  }

  /** The mutex is held by exactly the one its owner field names. */
  predicate MutexOk(s: System) {
    && (forall i :: 0 <= i < |s.tasks| ==> (Inside(s.tasks[i]) <==> s.owner == Holder(i)))
    && (s.owner.Holder? ==> s.owner.task < |s.tasks|)
    && (StopInside(s.stop) <==> s.owner.Stopper?)
  }

  /** A task between its decrement and its notification. */
  predicate Notifying(s: System) {
    s.owner.Holder? && s.owner.task < |s.tasks| && s.tasks[s.owner.task].Uncounted?
  }

  /** No lost wake-up : if `stop` sleeps although nobody is left, a notification is on its way. */
  predicate WakeOk(s: System) {
    && (s.stop.Asleep? && s.count == 0 ==> Notifying(s))
    && (s.stop.Passed? || s.stop.Returned? ==> s.count == 0)
  }

  predicate Inv(s: System) {
    CountExact(s) && FlagsOk(s) && MutexOk(s) && WakeOk(s)
  }

  /** All tasks run, none was interrupted yet, and each was counted when it was constructed. */
  function Start(n: nat): System
    requires n > 0
  {
    System(n, Nobody, seq(n, _ => AtCheck), seq(n, _ => false), Interrupting(0))
  }

  lemma {:induction false} LivingStart(n: nat)
    ensures Living(seq(n, _ => AtCheck)) == n
  {
    if n > 0 {
      LivingStart(n - 1);
      assert seq(n, _ => AtCheck)[1..] == seq(n - 1, _ => AtCheck);
    }
  }

  lemma StartInv(n: nat)
    requires n > 0
    ensures Inv(Start(n))
  {
    LivingStart(n);
  }

  lemma FlagsKept(s: System, m: Move)
    requires Inv(s) && Enabled(s, m)
    ensures FlagsOk(Next(s, m))
  {
  }

  lemma MutexKept(s: System, m: Move)
    requires Inv(s) && Enabled(s, m)
    ensures MutexOk(Next(s, m))
  {
  }

  /** Once the counter is zero there is no task left to decrement it. */
  lemma NobodyLeft(s: System, m: Move)
    requires Inv(s) && s.count == 0 && Enabled(s, m)
    ensures !m.Uncount?
  {
    LivingNone(s.tasks);
  }

  lemma WakeKept(s: System, m: Move)
    requires Inv(s) && Enabled(s, m)
    ensures WakeOk(Next(s, m))
  {
    if s.count == 0 {
      NobodyLeft(s, m);
    }
    if m.Uncount? {
      assert s.owner == Holder(m.i);
    }
  }

  lemma StepKeeps(s: System, m: Move)
    requires Inv(s) && Enabled(s, m)
    ensures Inv(Next(s, m))
  {
    CountKept(s, m);
    FlagsKept(s, m);
    MutexKept(s, m);
    WakeKept(s, m);
  }

  // ---------- every interleaving ----------

  predicate Possible(s: System, ms: seq<Move>)
    decreases |ms|
  {
    ms != [] ==> Enabled(s, ms[0]) && Possible(Next(s, ms[0]), ms[1..])
  }

  function Run(s: System, ms: seq<Move>): System
    requires Possible(s, ms)
    decreases |ms|
  {
    if ms == [] then s else Run(Next(s, ms[0]), ms[1..])
  }

  lemma {:induction false} RunKeeps(s: System, ms: seq<Move>)
    requires Inv(s) && Possible(s, ms)
    ensures Inv(Run(s, ms))
    decreases |ms|
  {
    if ms != [] {
      StepKeeps(s, ms[0]);
      RunKeeps(Next(s, ms[0]), ms[1..]);
    }
  }

  predicate AllDead(tasks: seq<Task>) {
    forall i :: 0 <= i < |tasks| ==> tasks[i].Dead?
  }

  /** What the invariant says once `stop` holds the mutex for the last time, or nobody is left. */
  lemma InvSays(s: System)
    requires Inv(s)
    ensures s.stop.Passed? ==> AllDead(s.tasks)
    ensures AllDead(s.tasks) ==> s.count == 0 && !s.stop.Asleep?
    ensures AnyAbandoned(s.tasks) ==> 0 < s.count && !s.stop.Passed? && !s.stop.Returned?
  {
    LivingNone(s.tasks);
    forall i | 0 <= i < |s.tasks| && s.stop.Passed? ensures s.tasks[i].Dead? {
      assert !Counted(s.tasks[i]) && !Inside(s.tasks[i]);
    }
  }

  /**
    The shutdown protocol under every interleaving, for any number of tasks, whether the driver
    stays loaded or not : the counter is the number of tasks that have not run dead(); when the
    wait of `stop` is over every task is out of its loop; and `stop` is not left asleep once they
    all have run dead().
   */
  lemma Safety(n: nat, ms: seq<Move>)
    requires n > 0 && Possible(Start(n), ms)
    ensures var s := Run(Start(n), ms);
            && s.count == Living(s.tasks)
            && (s.stop.Passed? ==> AllDead(s.tasks))
            && (AllDead(s.tasks) ==> s.count == 0 && !s.stop.Asleep?)
  {
    StartInv(n);
    RunKeeps(Start(n), ms);
    InvSays(Run(Start(n), ms));
  }

  // ---------- progress ----------

  function TaskRank(t: Task): nat {
    match t
    case Working => 6
    case AtCheck => 5
    case Caught => 4
    case Locked => 3
    case Uncounted => 2
    case Notified => 1
    case Dead => 0
    case Abandoned => 0
  }

  function TasksRank(tasks: seq<Task>): nat {
    if tasks == [] then 0 else TaskRank(tasks[0]) + TasksRank(tasks[1..])
  }

  function StopRank(p: Stop): nat {
    match p
    case Interrupting(_) => 4
    case Locking => 3
    case Woken => 3
    case Checking => 2
    case Asleep => 1
    case Passed => 1
    case Returned => 0
  }

  function Rank(s: System): nat {
    3 * TasksRank(s.tasks) + StopRank(s.stop)
  }

  lemma {:induction false} RankUpdate(tasks: seq<Task>, i: nat, t: Task)
    requires i < |tasks|
    ensures TasksRank(tasks[i := t]) == TasksRank(tasks) - TaskRank(tasks[i]) + TaskRank(t)
  {
    if i == 0 {
      assert tasks[i := t][1..] == tasks[1..];
    } else {
      RankUpdate(tasks[1..], i - 1, t);
      assert tasks[i := t][1..] == tasks[1..][i - 1 := t];
    }
  }

  /** Once every flag is set, each step other than a spurious wake-up comes closer to the end. */
  lemma RankDecreases(s: System, m: Move)
    requires Inv(s) && !s.stop.Interrupting? && Enabled(s, m) && !m.Spurious?
    ensures Rank(Next(s, m)) < Rank(s) && !Next(s, m).stop.Interrupting?
  {
    match m {
      case Check(i) => TaskMoves(s, m, i);
      case Work(i) => TaskMoves(s, m, i);
      case Lock(i) => TaskMoves(s, m, i);
      case Uncount(i) => TaskMoves(s, m, i);
      case Notify(i) => TaskMoves(s, m, i);
      case Unlock(i) => TaskMoves(s, m, i);
      case Abandon => TaskMoves(s, m, MONITOR);
      case _ =>
    }
  }

  lemma TaskMoves(s: System, m: Move, i: nat)
    requires Enabled(s, m) && i < |s.tasks| && i < |s.flags| && s.flags[i]
    requires Next(s, m).tasks == s.tasks[i := Next(s, m).tasks[i]]
    requires m.Check? || m.Work? || m.Lock? || m.Uncount? || m.Notify? || m.Unlock? || m.Abandon?
    requires !m.Abandon? ==> m.i == i
    requires m.Abandon? ==> i == MONITOR
    ensures TasksRank(Next(s, m).tasks) < TasksRank(s.tasks)
  {
    RankUpdate(s.tasks, i, Next(s, m).tasks[i]);
  }

  /** Until `stop` has returned there is always such a step, unless a task was abandoned : no deadlock, no lost wake-up. */
  lemma NeverStuck(s: System) returns (m: Move)
    requires Inv(s) && !s.stop.Returned? && !AnyAbandoned(s.tasks)
    ensures Enabled(s, m) && !m.Spurious?
  {
    if s.stop.Interrupting? {
      return Interrupt;
    }
    match s.owner
    case Stopper => m := if s.stop.Checking? then Test else Return;
    case Holder(i) => m := if s.tasks[i].Locked? then Uncount(i) else if s.tasks[i].Uncounted? then Notify(i) else Unlock(i);
    case Nobody =>
      if s.stop.Asleep? {
        LivingNone(s.tasks);
        var i :| 0 <= i < |s.tasks| && Counted(s.tasks[i]);
        assert !Inside(s.tasks[i]) && !s.tasks[i].Abandoned?;
        m := if s.tasks[i].AtCheck? then Check(i) else if s.tasks[i].Working? then Work(i) else Lock(i);
      } else {
        m := LockStop;
      }
  }

  ghost predicate Stuck(s: System) {
    forall m :: Enabled(s, m) ==> m.Spurious?
  }

  /** Once every flag is set, a run without spurious wake-ups is no longer than the rank it starts with. */
  lemma {:induction false} Terminates(s: System, ms: seq<Move>)
    requires Inv(s) && !s.stop.Interrupting? && Possible(s, ms)
    requires forall i :: 0 <= i < |ms| ==> !ms[i].Spurious?
    ensures |ms| <= Rank(s)
    decreases |ms|
  {
    if ms != [] {
      StepKeeps(s, ms[0]);
      RankDecreases(s, ms[0]);
      Terminates(Next(s, ms[0]), ms[1..]);
    }
  }

  /** Where a run from the beginning cannot go on, `stop` has returned if and only if no task was abandoned. */
  lemma ReturnsExactly(n: nat, ms: seq<Move>)
    requires n > 0 && Possible(Start(n), ms) && Stuck(Run(Start(n), ms))
    ensures Run(Start(n), ms).stop.Returned? <==> !AnyAbandoned(Run(Start(n), ms).tasks)
  {
    StartInv(n);
    RunKeeps(Start(n), ms);
    StuckExactly(Run(Start(n), ms));
  }

  lemma StuckExactly(s: System)
    requires Inv(s) && Stuck(s)
    ensures s.stop.Returned? <==> !AnyAbandoned(s.tasks)
  {
    InvSays(s);
    if !s.stop.Returned? && !AnyAbandoned(s.tasks) {
      var m := NeverStuck(s);
      assert false;
    }
  }

  /** A spurious wake-up while tasks are left, with the mutex free, leads back to sleep. */
  lemma SpuriousHarmless(s: System)
    requires s.stop.Asleep? && s.owner.Nobody? && s.count != 0
    ensures Enabled(s, Spurious) && Enabled(Next(s, Spurious), LockStop)
    ensures var s2 := Next(Next(s, Spurious), LockStop); Enabled(s2, Test) && Next(s2, Test) == s
  {
  }

  // ---------- the interrupting phase ----------

  /** How many tasks `stop` has interrupted in a run. */
  function Interrupts(ms: seq<Move>): nat {
    if ms == [] then 0 else (if ms[0].Interrupt? then 1 else 0) + Interrupts(ms[1..])
  }

  /** The first `k` of `n` tasks have been interrupted. */
  predicate Phase(s: System, n: nat, k: nat) {
    && |s.flags| == n && k <= n
    && (forall i :: 0 <= i < n ==> (s.flags[i] <==> i < k))
    && (k < n <==> s.stop.Interrupting?) && (k < n ==> s.stop == Interrupting(k))
  }

  lemma PhaseStep(s: System, m: Move, n: nat, k: nat)
    requires Phase(s, n, k) && Enabled(s, m)
    ensures Phase(Next(s, m), n, if m.Interrupt? then k + 1 else k)
    ensures m.Interrupt? && k + 1 == n ==> Next(s, m).stop.Locking?
  {
  }

  lemma {:induction false} PhaseRun(s: System, ms: seq<Move>, n: nat, k: nat)
    requires Phase(s, n, k) && Possible(s, ms)
    ensures Phase(Run(s, ms), n, k + Interrupts(ms))
    decreases |ms|
  {
    if ms != [] {
      PhaseStep(s, ms[0], n, k);
      PhaseRun(Next(s, ms[0]), ms[1..], n, if ms[0].Interrupt? then k + 1 else k);
    }
  }

  /**
    Whatever the tasks do meanwhile, `stop` interrupts them in order and can always go on to the next;
    after the n-th it goes to its lock, every flag being set.
   */
  lemma InterruptsAll(n: nat, ms: seq<Move>)
    requires n > 0 && Possible(Start(n), ms)
    ensures var s, k := Run(Start(n), ms), Interrupts(ms);
            && k <= n && |s.flags| == n && (forall i :: 0 <= i < n ==> (s.flags[i] <==> i < k))
            && (k < n ==> s.stop == Interrupting(k) && Enabled(s, Interrupt))
            && (k + 1 == n ==> Next(s, Interrupt).stop.Locking? && forall i :: 0 <= i < n ==> Next(s, Interrupt).flags[i])
            && (k == n ==> !s.stop.Interrupting?)
  {
    PhaseRun(Start(n), ms, n, 0);
  }

  // ---------- with the driver unloaded ----------

  lemma AbandonedStays(s: System, m: Move)
    requires AnyAbandoned(s.tasks) && Enabled(s, m)
    ensures AnyAbandoned(Next(s, m).tasks)
  {
    var i :| 0 <= i < |s.tasks| && s.tasks[i].Abandoned?;
    assert Next(s, m).tasks[i].Abandoned?;
  }

  /** Once a task has left without dead(), no continuation, however long, gets `stop` past its wait. */
  lemma {:induction false} Hangs(s: System, ms: seq<Move>)
    requires Inv(s) && AnyAbandoned(s.tasks) && Possible(s, ms)
    ensures var s' := Run(s, ms);
            0 < s'.count && !s'.stop.Passed? && !s'.stop.Returned?
    decreases |ms|
  {
    if ms == [] {
      InvSays(s);
    } else {
      StepKeeps(s, ms[0]);
      AbandonedStays(s, ms[0]);
      Hangs(Next(s, ms[0]), ms[1..]);
    }
  }

  /** Two steps of the monitor, which has found the driver unloaded. */
  const UNLOADED := [Check(MONITOR), Abandon]

  lemma MonitorAbandons()
    ensures Possible(Start(5), UNLOADED) && AnyAbandoned(Run(Start(5), UNLOADED).tasks)
  {
    var s1 := Next(Start(5), Check(MONITOR));
    assert UNLOADED[1..] == [Abandon] && [Abandon][1..] == [];
    assert Possible(s1, [Abandon]) && Run(s1, [Abandon]) == Next(s1, Abandon);
    assert Next(s1, Abandon).tasks[MONITOR].Abandoned?;
  }

  /** From there the five tasks never let `stop` return. */
  lemma MonitorHangs(ms: seq<Move>)
    requires Possible(Start(5), UNLOADED) && Possible(Run(Start(5), UNLOADED), ms)
    ensures var s := Run(Run(Start(5), UNLOADED), ms);
            !s.stop.Passed? && !s.stop.Returned?
  {
    StartInv(5);
    RunKeeps(Start(5), UNLOADED);
    MonitorAbandons();
    Hangs(Run(Start(5), UNLOADED), ms);
  }
}
