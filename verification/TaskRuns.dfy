/** What holds in every run of a task. */
module TaskRuns {
  import opened Options
  import opened TaskProtocol
  import opened TaskInvariant

  // ----- whole runs -----

  predicate Leads(s: World, e: Event, t: World) {
    Enabled(s, e) && t == Apply(s, e)
  }

  ghost predicate IsRun(main: Co, run: seq<World>, events: seq<Event>) {
    && |run| == |events| + 1
    && run[0] == Initial(main)
    && forall i {:trigger events[i]} :: 0 <= i < |events| ==> Leads(run[i], events[i], run[i + 1])
  }

  lemma {:induction false} RunsKeepInv(main: Co, run: seq<World>, events: seq<Event>, i: nat)
    requires IsRun(main, run, events) && i < |run|
    ensures Inv(run[i])
  {
    if i > 0 {
      RunsKeepInv(main, run, events, i - 1);
      StepKeepsInv(run[i - 1], events[i - 1]);
    }
  }

  lemma RunStep(main: Co, run: seq<World>, events: seq<Event>, i: nat)
    requires IsRun(main, run, events) && i < |events|
    ensures Inv(run[i]) && Leads(run[i], events[i], run[i + 1])
  {
    RunsKeepInv(main, run, events, i);
  }

  /** Who is responsible for a task: the run queue, a waker on its way to `resume`, or a
      thread. There is one of them exactly while `running` is up and the task is not over,
      so no task is queued twice, run by two threads, or left with coroutines to unblock. */
  lemma TaskOwnership(main: Co, run: seq<World>, events: seq<Event>, i: nat)
    requires IsRun(main, run, events) && i < |run|
    ensures var s := run[i];
      && (s.ceased <==> s.awake && s.queued == 0 && s.resuming == 0 && s.workers == map[])
      && (s.awake && !s.ceased <==> s.queued + s.resuming + |s.workers.Keys| == 1)
      && (!s.awake ==> s.queued == 0 && s.resuming == 0 && s.workers == map[] && s.unblocking == [])
      && (forall v, w :: v in s.workers && w in s.workers ==> v == w)
  {
    RunsKeepInv(main, run, events, i);
    var s := run[i];
    assert s.workers.Keys == {} ==> s.workers == map[];
    forall v, w | v in s.workers && w in s.workers ensures v == w { OnlyHolder(s, v); }
  }

  /** Counts the places a coroutine is in. */
  function Places(t: Task, p: Option<Pc>, co: Co): nat {
    multiset(t.running)[co] + multiset(t.yielding)[co] + (if co in t.suspending then 1 else 0)
    + (if co in t.blocking then 1 else 0) + Current(p)[co] + (if t.parked && co == t.main then 1 else 0)
  }

  ghost function Holder(s: World): Option<Pc> {
    if s.workers.Keys == {} then None else var w :| w in s.workers.Keys; Some(s.workers[w])
  }

  lemma InvIsGood(s: World)
    requires Inv(s)
    ensures Good(s, Holder(s))
  {
  }

  /** A live coroutine is in exactly one place, any other in none. */
  lemma EveryCoroutineHasOnePlace(main: Co, run: seq<World>, events: seq<Event>, i: nat, co: Co)
    requires IsRun(main, run, events) && i < |run|
    ensures Places(run[i].task, Holder(run[i]), co) == if co in run[i].task.live then 1 else 0
  {
    RunsKeepInv(main, run, events, i);
    InvIsGood(run[i]);
    var t := run[i].task;
    assert (Placed(t) + Current(Holder(run[i])))[co] == multiset(t.live)[co];
  }

  /** A sleeping task has nothing to run, and nobody has finished waking it: each of its
      coroutines waits on a join that no waker has pushed. */
  lemma SleepsOnlyWhenIdle(main: Co, run: seq<World>, events: seq<Event>, i: nat)
    requires IsRun(main, run, events) && i < |run| && !run[i].awake
    ensures var t := run[i].task;
      && t.running == [] && t.yielding == [] && t.status == Running && t.blocking != map[]
      && (forall co :: co in t.blocking ==> t.blocking[co] in t.joins && t.joins[t.blocking[co]].phase in {Open, Won})
      && (forall sid :: sid in t.joins ==> t.joins[sid].phase != Pushed)
  {
    RunsKeepInv(main, run, events, i);
    var s := run[i];
    assert s.workers.Keys == {};
    assert Good(s, None);
    forall sid | sid in s.task.joins ensures s.task.joins[sid].phase != Pushed {
      assert !IsPushed(s.task.joins, s.task.blocking, s.task.joins[sid].co);
    }
  }

  /** No wakeup is lost: after `Task::wake` the coroutine is listed and the task is awake, in
      the hands of exactly one party that will run it, until the list is taken. */
  lemma WakeIsNotLost(main: Co, run: seq<World>, events: seq<Event>, i: nat, sid: Sid)
    requires IsRun(main, run, events) && i < |run|
    requires sid in run[i].task.joins && run[i].task.joins[sid].phase == Pushed
    ensures var s := run[i];
      && s.task.joins[sid].co in s.unblocking
      && s.awake && !s.ceased && s.queued + s.resuming + |s.workers.Keys| == 1
  {
    RunsKeepInv(main, run, events, i);
    var s := run[i];
    InvIsGood(s);
    assert IsPushed(s.task.joins, Waits(s.task, Holder(s)), s.task.joins[sid].co);
    if s.ceased { CeasedIsSettled(s, sid); assert false; }
  }

  /** A task that has ceased is out of every waker's reach: no join of it is engaged, so
      no waker that has won one has yet to call `Task::wake`, and none is between that
      call and `Scheduler::resume`. */
  lemma CeasedIsSettled(s: World, sid: Sid)
    requires Inv(s) && s.ceased
    ensures s.resuming == 0 && s.unblocking == [] && s.workers == map[] && s.queued == 0
    ensures s.task.status == Completed && s.task.live == {}
    ensures sid in s.task.joins ==> s.task.joins[sid].phase in {Handed, Interrupted}
  {
    assert s.workers.Keys == {};
    assert Good(s, None);
    NothingIsPlaced(s.task);
    NothingUnblocking(s.task, s.unblocking);
  }

  lemma CeasedStays(s: World, e: Event, t: World)
    requires Inv(s) && s.ceased && Leads(s, e, t)
    ensures t.ceased
  {
    CeasedIsSettled(s, if e.Win? || e.Wake? then e.sid else 0);
  }

  lemma {:induction false} CeasedForGood(main: Co, run: seq<World>, events: seq<Event>, i: nat, j: nat)
    requires IsRun(main, run, events) && i <= j < |run| && run[i].ceased
    ensures run[j].ceased
  {
    if i < j {
      CeasedForGood(main, run, events, i, j - 1);
      CeasedAtNext(main, run, events, j - 1);
    }
  }

  lemma CeasedAtNext(main: Co, run: seq<World>, events: seq<Event>, i: nat)
    requires IsRun(main, run, events) && i < |events| && run[i].ceased
    ensures run[i + 1].ceased
  {
    RunStep(main, run, events, i);
    var s, e, t := run[i], events[i], run[i + 1];
    CeasedStays(s, e, t);
  }

  lemma NeverCeasesUnderAWaker(main: Co, run: seq<World>, events: seq<Event>, i: nat, j: nat, sid: Sid)
    requires IsRun(main, run, events) && i <= j < |run| && run[i].ceased
    ensures run[j].ceased && run[j].task.status == Completed && run[j].task.live == {}
    ensures run[j].resuming == 0
    ensures sid in run[j].task.joins ==> run[j].task.joins[sid].phase in {Handed, Interrupted}
  {
    CeasedForGood(main, run, events, i, j);
    RunsKeepInv(main, run, events, j);
    CeasedIsSettled(run[j], sid);
  }

  /** A thread that leaves `sched` without the task going back to the queue or ceasing. */
  lemma BlocksWhenIdle(s: World, w: nat)
    requires Token(s) && Enabled(s, Step(w)) && s.workers[w].Decide? && w !in StepHolder(s, w).workers
    requires Inv(StepHolder(s, w))
    ensures var t := StepHolder(s, w);
      t.task.running == [] && t.task.yielding == [] && t.task.blocking != map[] && t.unblocking == [] && !t.awake
  {
    OnlyHolder(s, w);
    var t := StepHolder(s, w);
    assert t.workers.Keys == {};
    assert Good(t, None);
  }

  /** The flow `sched` returns. Block: nothing is runnable, no coroutine was left in the
      unblocking list, `running` is down. Cease: main has completed and no coroutine is
      left. And an abort that comes to run main a last time was entered from `sched` and
      finds main parked. */
  lemma FlowIsRight(main: Co, run: seq<World>, events: seq<Event>, i: nat, w: nat)
    requires IsRun(main, run, events) && i < |events| && events[i] == Step(w)
    ensures var p := run[i].workers[w];
      && (p.Decide? && w !in run[i + 1].workers ==>
            var t := run[i + 1].task;
            && t.running == [] && t.yielding == [] && t.blocking != map[]
            && run[i + 1].unblocking == [] && !run[i + 1].awake)
      && (p.Remove? ==> run[i].task.status == Completed && run[i].task.live == {})
      && (p.FinalMain? ==>
            p.cause != Shutdown
            && run[i].task.parked && run[i].task.status == Completing && run[i].task.live == {run[i].task.main})
  {
    RunsKeepInv(main, run, events, i);
    RunsKeepInv(main, run, events, i + 1);
    var s := run[i];
    assert Good(s, Some(s.workers[w]));
    if s.workers[w].FinalMain? { OnlyMainIsLeft(s.task); }
    if s.workers[w].Decide? && w !in run[i + 1].workers { BlocksWhenIdle(s, w); }
  }

  // ----- the scope of the task -----

  /** A coroutine finds its task exactly if it is run by `sched`, or by an abort that was
      entered from there. */
  lemma FindsItsTask(main: Co, run: seq<World>, events: seq<Event>, i: nat, w: nat)
    requires IsRun(main, run, events) && i < |run| && w in run[i].workers && run[i].workers[w].Exec?
    ensures w in run[i].scope <==> run[i].workers[w].mode != InAbort(Shutdown)
  {
    RunsKeepInv(main, run, events, i);
    InvHolding(run[i], w);
  }

  /** Main comes to its last suspension, from which `abort` runs it to its end, exactly if it
      finds its task; in a shutdown it panics out of its entry instead. */
  lemma MainParksExactlyInScope(main: Co, run: seq<World>, events: seq<Event>, i: nat, w: nat)
    requires IsRun(main, run, events) && i < |events| && events[i] == Act(w, DoPark)
    ensures run[i + 1].task.parked <==> run[i].workers[w].mode != InAbort(Shutdown)
    ensures !run[i + 1].task.parked <==> w in run[i + 1].workers && run[i + 1].workers[w] == Crashed(run[i].task.main)
  {
    RunStep(main, run, events, i);
    ParkStep(run[i], run[i + 1], w);
  }

  lemma ParkStep(s: World, t: World, w: nat)
    requires Inv(s) && Leads(s, Act(w, DoPark), t)
    ensures t.task.parked <==> s.workers[w].mode != InAbort(Shutdown)
    ensures !t.task.parked <==> w in t.workers && t.workers[w] == Crashed(s.task.main)
  {
    InvHolding(s, w);
  }

  /** The thread runs the abort of a shutdown, or a panic has ended it there. */
  predicate InShutdown(p: Pc) {
    match p
    case Exec(_, _, InAbort(cause)) => cause == Shutdown
    case AbortHead(cause) => cause == Shutdown
    case AbortSuspending(cause) => cause == Shutdown
    case AbortBlocking(cause, _) => cause == Shutdown
    case AbortUnblock(cause) => cause == Shutdown
    case AbortDrain(cause) => cause == Shutdown
    case Crashed(_) => true
    case _ => false
  }

  lemma ShutdownStep(s: World, e: Event, t: World, w: nat)
    requires Leads(s, e, t) && Holding(s, w) && InShutdown(s.workers[w]) && Inv(t)
    ensures w in t.workers && InShutdown(t.workers[w])
  {
    OnlyHolder(s, w);
    match e
    case Step(_) => if w in t.workers { NoFinalMain(t, w); } ShutdownGoesOn(s, t, w);
    case Act(_, a) => ShutdownActs(s, a, t, w);
    case _ =>
  }

  lemma NoFinalMain(t: World, w: nat)
    requires Inv(t) && w in t.workers
    ensures t.workers[w] != FinalMain(Shutdown)
  {
    InvHolding(t, w);
  }

  lemma ShutdownGoesOn(s: World, t: World, w: nat)
    requires Leads(s, Step(w), t) && InShutdown(s.workers[w])
    requires w in t.workers ==> t.workers[w] != FinalMain(Shutdown)
    ensures w in t.workers && InShutdown(t.workers[w])
  {
    match s.workers[w]
    case AbortUnblock(_) => assert t.workers[w] == AfterInterrupt(t.task, Shutdown);
    case AbortDrain(_) =>
    case _ =>
  }

  lemma ShutdownActs(s: World, a: Action, t: World, w: nat)
    requires Leads(s, Act(w, a), t) && InShutdown(s.workers[w])
    ensures w in t.workers && InShutdown(t.workers[w])
  {
    match a
    case DoPublish(_) =>
    case _ =>
  }

  lemma ShutdownNext(main: Co, run: seq<World>, events: seq<Event>, i: nat, w: nat)
    requires IsRun(main, run, events) && i < |events| && w in run[i].workers && InShutdown(run[i].workers[w])
    ensures w in run[i + 1].workers && InShutdown(run[i + 1].workers[w])
  {
    RunStep(main, run, events, i);
    RunsKeepInv(main, run, events, i + 1);
    InvHolding(run[i], w);
    ShutdownStep(run[i], events[i], run[i + 1], w);
  }

  lemma ShutdownHolds(s: World, w: nat)
    requires Inv(s) && w in s.workers && InShutdown(s.workers[w])
    ensures !s.ceased && s.task.status == Running && s.task.main in s.task.live
  {
    InvHolding(s, w);
    OnlyHolder(s, w);
  }

  lemma {:induction false} ShutdownStays(main: Co, run: seq<World>, events: seq<Event>, i: nat, j: nat, w: nat)
    requires IsRun(main, run, events) && i <= j < |run| && w in run[i].workers && InShutdown(run[i].workers[w])
    ensures w in run[j].workers && InShutdown(run[j].workers[w])
  {
    if i < j {
      ShutdownStays(main, run, events, i, j - 1, w);
      ShutdownNext(main, run, events, j - 1, w);
    }
  }

  /** The abort of a shutdown never returns: a task that it has taken keeps the thread, its
      main stays alive, and the task never ceases. The two asserts are not reached. */
  lemma ShutdownAbortNeverReturns(main: Co, run: seq<World>, events: seq<Event>, i: nat, j: nat, w: nat)
    requires IsRun(main, run, events) && i <= j < |run| && w in run[i].workers && InShutdown(run[i].workers[w])
    ensures w in run[j].workers && InShutdown(run[j].workers[w])
    ensures !run[j].ceased && run[j].task.status == Running && run[j].task.main in run[j].task.live
  {
    ShutdownStays(main, run, events, i, j, w);
    RunsKeepInv(main, run, events, j);
    ShutdownHolds(run[j], w);
  }

  /** A run in which the shutdown fails: a task that was spawned and not run yet. */
  function CrashState(main: Co, k: nat): World
    requires k <= 7
  {
    var s := Initial(main).(queued := 0);
    if k == 0 then Initial(main)
    else if k == 1 then At(s, 0, AbortHead(Shutdown))
    else if k == 2 then At(s, 0, AbortSuspending(Shutdown))
    else if k == 3 then At(s, 0, AbortBlocking(Shutdown, {}))
    else if k == 4 then At(s, 0, AbortUnblock(Shutdown))
    else if k == 5 then At(s, 0, AbortDrain(Shutdown))
    else
      var t := s.(task := s.task.(running := []));
      At(t, 0, if k == 6 then Exec(main, None, InAbort(Shutdown)) else Crashed(main))
  }

  function CrashEvent(k: nat): Event
    requires k < 7
  {
    if k == 0 then PopToAbort(0) else if k < 6 then Step(0) else Act(0, DoPark)
  }

  lemma CrashStep(main: Co, k: nat)
    requires k < 7
    ensures Leads(CrashState(main, k), CrashEvent(k), CrashState(main, k + 1))
  {
    if k < 2 { CrashStarts(main, k); } else if k < 5 { CrashGoesOn(main, k); } else { CrashEnds(main, k); }
  }

  lemma CrashStarts(main: Co, k: nat)
    requires k < 2
    ensures Leads(CrashState(main, k), CrashEvent(k), CrashState(main, k + 1))
  {
    assert [main] + [] == [main];
    assert map[][0 := AbortHead(Shutdown)][0 := AbortSuspending(Shutdown)] == map[][0 := AbortSuspending(Shutdown)];
  }

  lemma CrashGoesOn(main: Co, k: nat)
    requires 2 <= k < 5
    ensures Leads(CrashState(main, k), CrashEvent(k), CrashState(main, k + 1))
  {
    assert CrashState(main, k).task.blocking.Keys == {};
    var p := CrashState(main, k + 1).workers[0];
    assert CrashState(main, k).workers[0 := p] == CrashState(main, k + 1).workers;
  }

  lemma CrashEnds(main: Co, k: nat)
    requires 5 <= k < 7
    ensures Leads(CrashState(main, k), CrashEvent(k), CrashState(main, k + 1))
  {
    var p := CrashState(main, k + 1).workers[0];
    assert CrashState(main, k).workers[0 := p] == CrashState(main, k + 1).workers;
  }

  lemma {:induction false} ShutdownCrashes(main: Co, k: nat) returns (run: seq<World>, events: seq<Event>)
    requires k <= 7
    ensures IsRun(main, run, events) && |events| == k && run[k] == CrashState(main, k)
    ensures k == 7 ==> run[k].workers == map[0 := Crashed(main)] && run[k].task.live == {main} && !run[k].ceased
  {
    if k == 0 {
      run, events := [Initial(main)], [];
    } else {
      run, events := ShutdownCrashes(main, k - 1);
      CrashStep(main, k - 1);
      run, events := run + [CrashState(main, k)], events + [CrashEvent(k - 1)];
    }
  }

  // ----- every block ends in one resumption -----

  /** A coroutine that stops being blocked, with the other places unchanged, is runnable. */
  lemma LeavesBlocking(t: Task, u: Task, co: Co)
    requires Partition(t, multiset{}) && Partition(u, multiset{}) && co in t.blocking && co !in u.blocking
    requires u == t.(running := u.running, blocking := u.blocking, joins := u.joins)
    ensures co in u.running && co !in t.running
  {
    assert multiset(t.live)[co] == Placed(t)[co] == Placed(u)[co] == 1;
    assert multiset(t.blocking.Keys)[co] == 1 && multiset(u.blocking.Keys)[co] == 0;
    assert multiset(t.running)[co] == 0 && multiset(u.running)[co] == 1;
  }

  /** Between two states the join made its coroutine runnable once, or not at all. */
  ghost predicate ResumedRightly(t: Task, u: Task, sid: Sid)
    requires sid in t.joins
  {
    && sid in u.joins && u.joins[sid].co == t.joins[sid].co
    && var co := t.joins[sid].co;
       (u.joins[sid].resumes != t.joins[sid].resumes ==>
          && t.joins[sid].resumes == 0 && u.joins[sid].resumes == 1
          && co in t.blocking && co !in u.blocking && co in u.running && co !in t.running)
  }

  /** Handing over unblocks coroutines and settles joins, no more. */
  lemma {:induction false} HandFrame(t: Task, cos: seq<Co>)
    ensures var u := Hand(t, cos);
      && u.joins.Keys == t.joins.Keys && (forall sid :: sid in t.joins ==> u.joins[sid].co == t.joins[sid].co)
      && (forall co :: co in u.blocking ==> co in t.blocking && u.blocking[co] == t.blocking[co])
    decreases |cos|
  {
    if cos != [] {
      var co := cos[0];
      if co in t.blocking {
        var u := t.(blocking := t.blocking - {co}, running := t.running + [co]);
        HandFrame(if t.blocking[co] in t.joins then Settle(u, t.blocking[co], Handed) else u, cos[1..]);
      } else {
        HandFrame(t, cos[1..]);
      }
    }
  }

  lemma UnblockResumes(s: World, block: bool, sid: Sid)
    requires Quiet(s.task, s.unblocking) && sid in s.task.joins
    ensures ResumedRightly(s.task, Unblock(s, block).0.task, sid)
  {
    var t, u := s.task, Unblock(s, block).0.task;
    UnblockKeeps(s, block);
    HandFrame(t, s.unblocking);
    assert u.joins[sid].co == t.joins[sid].co;
    if u.joins[sid].resumes != t.joins[sid].resumes {
      LeavesBlocking(t, u, t.joins[sid].co);
    }
  }

  lemma InterruptResumes(t: Task, co: Co, unblocking: seq<Co>, sid: Sid)
    requires Quiet(t, unblocking) && sid in t.joins
    ensures ResumedRightly(t, InterruptOne(t, co), sid)
  {
    InterruptKeeps(t, co, unblocking);
    var u := InterruptOne(t, co);
    if u.joins[sid].resumes != t.joins[sid].resumes { LeavesBlocking(t, u, co); }
  }

  lemma StepResumesRightly(s: World, e: Event, t: World, sid: Sid)
    requires Inv(s) && Leads(s, e, t) && sid in s.task.joins
    ensures ResumedRightly(s.task, t.task, sid)
  {
    match e
    case Step(w) => InvHolding(s, w); HolderResumesRightly(s, w, sid);
    case Pick(w, co) => InvHolding(s, w); PickResumesRightly(s, w, co, sid);
    case _ => OthersResumeNobody(s, e, sid);
  }

  lemma PickResumesRightly(s: World, w: nat, co: Co, sid: Sid)
    requires Holding(s, w) && Enabled(s, Pick(w, co)) && sid in s.task.joins
    ensures ResumedRightly(s.task, Apply(s, Pick(w, co)).task, sid)
  {
    if s.workers[w].AbortBlocking? { InterruptResumes(s.task, co, s.unblocking, sid); }
  }

  lemma OthersResumeNobody(s: World, e: Event, sid: Sid)
    requires Enabled(s, e) && sid in s.task.joins && !e.Step? && !e.Pick?
    ensures ResumedRightly(s.task, Apply(s, e).task, sid)
  {
    if e.Act? { ActionsResumeNobody(s, e.w, e.a, sid); }
  }

  lemma ActionsResumeNobody(s: World, w: nat, a: Action, sid: Sid)
    requires Enabled(s, Act(w, a)) && sid in s.task.joins
    ensures sid in ActHolder(s, w, a).task.joins && ActHolder(s, w, a).task.joins[sid] == s.task.joins[sid]
  {
    match a
    case DoPublish(_) =>
    case _ =>
  }

  lemma HolderResumesRightly(s: World, w: nat, sid: Sid)
    requires Holding(s, w) && Enabled(s, Step(w)) && sid in s.task.joins
    ensures ResumedRightly(s.task, StepHolder(s, w).task, sid)
  {
    match s.workers[w]
    case Enter => EnterResumesRightly(s, w, sid);
    case Decide => DecideResumesRightly(s, w, sid);
    case AbortUnblock(_) => UnblockResumes(s, false, sid);
    case _ => StepHandsNobody(s, w);
  }

  lemma StepHandsNobody(s: World, w: nat)
    requires Enabled(s, Step(w)) && !s.workers[w].Enter? && !s.workers[w].Decide? && !s.workers[w].AbortUnblock?
    ensures StepHolder(s, w).task.joins == s.task.joins
  {
  }

  lemma DecideResumesRightly(s: World, w: nat, sid: Sid)
    requires Holding(s, w) && s.workers[w].Decide? && sid in s.task.joins
    ensures ResumedRightly(s.task, StepHolder(s, w).task, sid)
  {
    var u := s.(task := s.task.(yieldFlag := false));
    assert Placed(u.task) == Placed(s.task);
    UnblockResumes(u, true, sid);
  }

  lemma EnterResumesRightly(s: World, w: nat, sid: Sid)
    requires Holding(s, w) && s.workers[w].Enter? && sid in s.task.joins
    ensures ResumedRightly(s.task, StepHolder(s, w).task, sid)
  {
    DrainKeeps(s.task, multiset{});
    UnblockResumes(s.(task := DrainYielding(s.task)), false, sid);
  }

  lemma ResumedOrEngaged(s: World, sid: Sid)
    requires Inv(s) && sid in s.task.joins
    ensures s.task.joins[sid].resumes == if s.task.joins[sid].phase in {Handed, Interrupted} then 1 else 0
  {
    InvIsGood(s);
  }

  lemma RunResumesRightly(main: Co, run: seq<World>, events: seq<Event>, i: nat, sid: Sid)
    requires IsRun(main, run, events) && i < |events| && sid in run[i].task.joins
    ensures ResumedRightly(run[i].task, run[i + 1].task, sid)
  {
    RunStep(main, run, events, i);
    StepResumesRightly(run[i], events[i], run[i + 1], sid);
  }

  /** Over any stretch of a run: a join makes its coroutine runnable at most once, it has
      done so exactly if it no longer holds the coroutine, and each time the coroutine
      comes from among the blocked ones. */
  lemma {:induction false} BlockEndsOnce(main: Co, run: seq<World>, events: seq<Event>, i: nat, j: nat, sid: Sid)
    requires IsRun(main, run, events) && i <= j < |run| && sid in run[i].task.joins
    ensures sid in run[j].task.joins && run[j].task.joins[sid].co == run[i].task.joins[sid].co
    ensures var before, after := run[i].task.joins[sid].resumes, run[j].task.joins[sid].resumes;
      before <= after && after == if run[j].task.joins[sid].phase in {Handed, Interrupted} then 1 else 0
    ensures j < |events| ==> ResumedRightly(run[j].task, run[j + 1].task, sid)
  {
    if i < j { BlockEndsOnce(main, run, events, i, j - 1, sid); }
    RunsKeepInv(main, run, events, j);
    ResumedOrEngaged(run[j], sid);
    if j < |events| { RunResumesRightly(main, run, events, j, sid); }
  }

  /** The next call of `sched` makes every coroutine runnable that a waker pushed before it. */
  lemma SchedTakesTheList(s: World, w: nat)
    requires Inv(s) && Enabled(s, Step(w)) && s.workers[w].Enter?
    ensures var t := StepHolder(s, w);
      && t.unblocking == []
      && t.task.running == s.task.running + s.task.yielding + s.unblocking
      && (forall co :: co in s.unblocking ==> co in s.task.blocking && co !in t.task.blocking)
  {
    var t := StepHolder(s, w);
    DrainKeeps(s.task, multiset{});
    UnblockKeeps(s.(task := DrainYielding(s.task)), false);
    forall co | co in s.unblocking ensures co in s.task.blocking && co !in t.task.blocking {
      assert IsPushed(s.task.joins, s.task.blocking, co);
      if co in t.task.blocking { RunnableIsNotBlocked(t.task, co); assert false; }
    }
  }

  lemma RunnableIsNotBlocked(t: Task, co: Co)
    requires Partition(t, multiset{}) && co in t.running
    ensures co !in t.blocking
  {
    assert multiset(t.live)[co] == Placed(t)[co];
    assert multiset(t.running)[co] > 0;
    assert co in t.blocking ==> multiset(t.blocking.Keys)[co] == 1;
  }
}
