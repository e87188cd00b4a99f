/** What each action of a coroutine, and each step on its behalf, does to the task. */
module TaskActions {
  import opened Options
  import opened TaskProtocol
  import opened TaskInvariant
  import opened TaskRuns

  // ----- spawning -----

  /** While the task is running a spawned coroutine is runnable behind all others, and alive;
      otherwise nothing happens. */
  lemma SpawnAddsTheChild(main: Co, run: seq<World>, events: seq<Event>, i: nat, w: nat, child: Co)
    requires IsRun(main, run, events) && i < |events| && events[i] == Act(w, DoSpawn(child)) && w in run[i].scope
    ensures var s, t := run[i].task, run[i + 1].task;
      if s.status == Running then
        && t.running == s.running + [child] && t.live == s.live + {child} && child !in s.live
        && t == s.(running := t.running, live := t.live)
      else t == s
    ensures run[i + 1] == run[i].(task := run[i + 1].task)
  {
    RunStep(main, run, events, i);
  }

  /** The step in which a coroutine ends: its own last action, or the last run of main. */
  predicate Ends(s: World, e: Event, co: Co) {
    || (e.Act? && e.a == DoFinish && e.w in s.workers && s.workers[e.w].Exec? && s.workers[e.w].co == co)
    || (e.Step? && e.w in s.workers && s.workers[e.w].FinalMain? && co == s.task.main)
  }

  lemma {:induction false} HandKeepsLive(t: Task, cos: seq<Co>)
    ensures Hand(t, cos).live == t.live && Hand(t, cos).main == t.main
    decreases |cos|
  {
    if cos != [] {
      var co := cos[0];
      if co in t.blocking {
        var u := t.(blocking := t.blocking - {co}, running := t.running + [co]);
        HandKeepsLive(if t.blocking[co] in t.joins then Settle(u, t.blocking[co], Handed) else u, cos[1..]);
      } else {
        HandKeepsLive(t, cos[1..]);
      }
    }
  }

  /** A coroutine that is alive stays so, except in the step in which it ends. */
  lemma StepEndsNobodyElse(s: World, e: Event, t: World, co: Co)
    requires Leads(s, e, t) && co in s.task.live
    ensures co in t.task.live <==> !Ends(s, e, co)
  {
    match e
    case Step(w) => HolderEndsNobodyElse(s, t, w, co);
    case Act(w, a) => ActionEndsNobodyElse(s, t, w, a, co);
    case _ =>
  }

  lemma HolderEndsNobodyElse(s: World, t: World, w: nat, co: Co)
    requires Leads(s, Step(w), t) && co in s.task.live
    ensures co in t.task.live <==> !Ends(s, Step(w), co)
  {
    match s.workers[w]
    case Enter => EnterKeepsLive(s, w);
    case Decide => DecidedKeepsLive(s.(task := s.task.(yieldFlag := false)), w);
    case AbortUnblock(_) => UnblockKeepsLive(s, false);
    case FinalMain(_) =>
    case _ => StepKeepsLive(s, w);
  }

  lemma UnblockKeepsLive(s: World, block: bool)
    ensures Unblock(s, block).0.task.live == s.task.live
  {
    HandKeepsLive(s.task, s.unblocking);
  }

  lemma EnterKeepsLive(s: World, w: nat)
    requires Enabled(s, Step(w)) && s.workers[w].Enter?
    ensures StepHolder(s, w).task.live == s.task.live
  {
    UnblockKeepsLive(s.(task := DrainYielding(s.task)), false);
  }

  lemma DecidedKeepsLive(s: World, w: nat)
    ensures Decided(s, w).task.live == s.task.live
  {
    UnblockKeepsLive(s, true);
  }

  lemma StepKeepsLive(s: World, w: nat)
    requires Enabled(s, Step(w)) && !s.workers[w].Enter? && !s.workers[w].Decide? && !s.workers[w].AbortUnblock?
    requires !s.workers[w].FinalMain?
    ensures StepHolder(s, w).task.live == s.task.live
  {
  }

  lemma ActionEndsNobodyElse(s: World, t: World, w: nat, a: Action, co: Co)
    requires Leads(s, Act(w, a), t) && co in s.task.live
    ensures co in t.task.live <==> !Ends(s, Act(w, a), co)
  {
    match a
    case DoFinish =>
    case DoSpawn(_) =>
    case _ =>
  }

  /** From its spawning to the step in which it ends, a coroutine is in exactly one place. */
  lemma {:induction false} SpawnedStaysInOnePlace(main: Co, run: seq<World>, events: seq<Event>, i: nat, j: nat, co: Co)
    requires IsRun(main, run, events) && i <= j < |run| && co in run[i].task.live
    requires forall k {:trigger events[k]} :: i <= k < j ==> !Ends(run[k], events[k], co)
    ensures co in run[j].task.live && Places(run[j].task, Holder(run[j]), co) == 1
  {
    if i < j {
      SpawnedStaysInOnePlace(main, run, events, i, j - 1, co);
      LiveAtNext(main, run, events, j - 1, co);
    }
    EveryCoroutineHasOnePlace(main, run, events, j, co);
  }

  lemma LiveAtNext(main: Co, run: seq<World>, events: seq<Event>, i: nat, co: Co)
    requires IsRun(main, run, events) && i < |events| && co in run[i].task.live && !Ends(run[i], events[i], co)
    ensures co in run[i + 1].task.live
  {
    RunStep(main, run, events, i);
    StepEndsNobodyElse(run[i], events[i], run[i + 1], co);
  }

  // ----- the other actions -----

  /** What the task does with the running coroutine that yields, suspends, blocks or ends, and
      with one that it resumes. */
  lemma ActionTells(s: World, w: nat, a: Action)
    requires Inv(s) && Enabled(s, Act(w, a)) && w in s.scope
    ensures var p, u, t := s.workers[w], s.task, ActHolder(s, w, a);
      match a
      case DoSpawn(_) => true
      case DoResume(other) =>
        if other in u.suspending then
          other !in t.task.suspending && t.task.running == u.running + [other] && t.task.live == u.live
        else t == s
      case DoPublish(sid) => t.workers[w] == Exec(p.co, Some(sid), p.mode) && t.task.joins[sid] == Join(p.co, Open, 0)
      case DoYield =>
        if u.status == Running then t.workers[w] == Back(p.mode) && t.task.yielding == u.yielding + [p.co] else t == s
      case DoYieldTask =>
        && t.task.yieldFlag
        && (u.status == Running ==> t.workers[w] == Back(p.mode) && t.task.yielding == u.yielding + [p.co])
        && (u.status != Running ==> t.workers[w] == p)
      case DoSuspend => t.workers[w] == Back(p.mode) && t.task.suspending == u.suspending + {p.co}
      case DoBlock => t.workers[w] == Back(p.mode) && p.co in t.task.blocking && t.task.blocking[p.co] == p.join.value
      case DoPark => t.workers[w] == Back(p.mode) && t.task.parked && t.task.status == Completing
      case DoFinish => t.workers[w] == Back(p.mode) && t.task.live == u.live - {p.co}
  {
  }

  lemma WaitsRightly(joins: map<Sid, Join>, waits: map<Co, Sid>, co: Co)
    requires Engagement(joins, waits) && co in waits
    ensures waits[co] in joins && joins[waits[co]] == Join(co, joins[waits[co]].phase, 0)
  {
  }

  /** An interrupt takes every blocked coroutine whose session nobody has won, and no other. */
  lemma InterruptTakesTheOpenOnes(s: World, w: nat, co: Co)
    requires Holding(s, w) && Enabled(s, Pick(w, co)) && s.workers[w].AbortBlocking? && co in s.task.blocking
    ensures var t, sid := Apply(s, Pick(w, co)).task, s.task.blocking[co];
      && sid in s.task.joins
      && (s.task.joins[sid].phase == Open ==>
            && co !in t.blocking && t.running == s.task.running + [co]
            && t.joins[sid] == Join(co, Interrupted, 1))
      && (s.task.joins[sid].phase != Open ==> t == s.task)
  {
    WaitsRightly(s.task.joins, s.task.blocking, co);
    var t := Apply(s, Pick(w, co)).task;
    assert t == InterruptOne(s.task, co);
  }

  lemma InterruptTakesTheSuspendedOnes(s: World, w: nat, co: Co)
    requires Enabled(s, Pick(w, co)) && s.workers[w].AbortSuspending?
    ensures var t := Apply(s, Pick(w, co)).task;
      co !in t.suspending && t.running == s.task.running + [co] && t.suspending == s.task.suspending - {co}
  {
  }

  /** `Task::wake` lists the coroutine behind the others and raises `running`; exactly if it was
      down the waker goes on to queue the task. So does `Task::grab`. */
  lemma WakeTells(s: World, sid: Sid)
    requires Inv(s) && Enabled(s, Wake(sid))
    ensures var t := Apply(s, Wake(sid));
      && t.unblocking == s.unblocking + [s.task.joins[sid].co] && t.awake
      && t.resuming == s.resuming + (if s.awake then 0 else 1)
      && t.queued == s.queued && t.workers == s.workers
  {
  }

  lemma GrabTells(s: World)
    requires Inv(s) && Enabled(s, Grab)
    ensures var t := Apply(s, Grab); t.awake && t.queued == s.queued + (if s.awake then 0 else 1) && t.task == s.task
  {
  }

  // ----- the order in which coroutines run -----

  /** A thread takes the head of the runnable coroutines and runs it. */
  ghost predicate RunsTheHead(s: World, e: Event, t: World) {
    && e.Step? && s.task.running != [] && e.w in t.workers
    && t.workers[e.w].Exec? && t.workers[e.w].co == s.task.running[0] && t.workers[e.w].join.None?
    && t.task.running == s.task.running[1..]
  }

  /** Coroutines run in the order in which they became runnable: each step adds behind the
      others, or runs the head. */
  lemma FirstRunnableFirstRun(s: World, e: Event, t: World)
    requires Inv(s) && Leads(s, e, t)
    ensures s.task.running <= t.task.running || RunsTheHead(s, e, t)
  {
    match e
    case Step(w) => InvHolding(s, w); HolderKeepsOrder(s, t, w);
    case Act(w, a) => ActionKeepsOrder(s, t, w, a);
    case _ => OthersKeepOrder(s, e, t);
  }

  lemma OthersKeepOrder(s: World, e: Event, t: World)
    requires Leads(s, e, t) && !e.Step? && !e.Act?
    ensures s.task.running <= t.task.running
  {
  }

  lemma HolderKeepsOrder(s: World, t: World, w: nat)
    requires Holding(s, w) && Leads(s, Step(w), t)
    ensures s.task.running <= t.task.running || RunsTheHead(s, Step(w), t)
  {
    match s.workers[w]
    case Enter => EnterKeepsOrder(s, w);
    case Decide => DecideKeepsOrder(s, w);
    case AbortUnblock(_) => UnblockKeepsOrder(s, false);
    case Loop => LoopKeepsOrder(s, t, w);
    case AbortDrain(_) => LoopKeepsOrder(s, t, w);
    case _ => StepKeepsOrder(s, w);
  }

  lemma LoopKeepsOrder(s: World, t: World, w: nat)
    requires Leads(s, Step(w), t) && (s.workers[w].Loop? || s.workers[w].AbortDrain?)
    ensures s.task.running == t.task.running || RunsTheHead(s, Step(w), t)
  {
  }

  lemma StepKeepsOrder(s: World, w: nat)
    requires Enabled(s, Step(w)) && !s.workers[w].Enter? && !s.workers[w].Decide? && !s.workers[w].AbortUnblock?
    requires !s.workers[w].Loop? && !s.workers[w].AbortDrain?
    ensures s.task.running <= StepHolder(s, w).task.running
  {
  }

  lemma UnblockKeepsOrder(s: World, block: bool)
    requires Quiet(s.task, s.unblocking)
    ensures s.task.running <= Unblock(s, block).0.task.running
  {
    UnblockKeeps(s, block);
  }

  lemma EnterKeepsOrder(s: World, w: nat)
    requires Holding(s, w) && s.workers[w].Enter?
    ensures s.task.running <= StepHolder(s, w).task.running
  {
    DrainKeeps(s.task, multiset{});
    UnblockKeepsOrder(s.(task := DrainYielding(s.task)), false);
  }

  lemma DecideKeepsOrder(s: World, w: nat)
    requires Holding(s, w) && s.workers[w].Decide?
    ensures s.task.running <= StepHolder(s, w).task.running
  {
    assert Placed(s.task.(yieldFlag := false)) == Placed(s.task);
    UnblockKeepsOrder(s.(task := s.task.(yieldFlag := false)), true);
  }

  lemma ActionKeepsOrder(s: World, t: World, w: nat, a: Action)
    requires Leads(s, Act(w, a), t)
    ensures s.task.running <= t.task.running
  {
    match a
    case DoSpawn(_) =>
    case DoResume(_) =>
    case _ =>
  }

  /** `sched` goes on running coroutines until the task yields or completes or none is left, and
      `abort` until none is left. */
  lemma RunnableIsRun(s: World, w: nat)
    requires Enabled(s, Step(w)) && s.task.running != []
    requires s.workers[w].AbortDrain? || (s.workers[w].Loop? && !s.task.yieldFlag && s.task.status == Running)
    ensures RunsTheHead(s, Step(w), StepHolder(s, w))
  {
  }

  // ----- the flow -----

  /** `sched` runs the next coroutine exactly while the task neither yields nor is completing and
      there is one; `abort` follows exactly when main has parked. */
  lemma LoopTells(s: World, w: nat)
    requires Enabled(s, Step(w)) && s.workers[w].Loop?
    ensures var t := StepHolder(s, w);
      if !s.task.yieldFlag && s.task.status == Running && s.task.running != [] then RunsTheHead(s, Step(w), t)
      else t == At(s, w, if s.task.status == Completing then AbortHead(MainTerminated) else Decide)
  {
  }

  /** The flow that `sched` returns: the task goes back to the queue exactly if a coroutine has
      yielded, or somebody is blocked and somebody was pushed; it sleeps exactly if it can
      only wait for others; it is aborted exactly if it waits for nobody but itself; and it
      leaves the registry exactly if it has nothing at all. */
  lemma FlowTells(s: World, w: nat)
    requires Enabled(s, Step(w)) && s.workers[w].Decide?
    ensures var u, t := s.task, StepHolder(s, w);
      && (w in t.workers && t.workers[w] == Requeue <==> u.yielding != [] || (u.blocking != map[] && s.unblocking != []))
      && (w !in t.workers <==> u.yielding == [] && u.blocking != map[] && s.unblocking == [])
      && (w in t.workers && t.workers[w] == AbortHead(Deadlock) <==>
            u.yielding == [] && u.blocking == map[] && u.suspending != {})
      && (w in t.workers && t.workers[w] == Remove <==> u.yielding == [] && u.blocking == map[] && u.suspending == {})
      && (w !in t.workers ==> !t.awake)
  {
    DecidedTells(s.(task := s.task.(yieldFlag := false)), w);
  }

  lemma DecidedTells(s: World, w: nat)
    ensures var u, t := s.task, Decided(s, w);
      && (w in t.workers && t.workers[w] == Requeue <==> u.yielding != [] || (u.blocking != map[] && s.unblocking != []))
      && (w !in t.workers <==> u.yielding == [] && u.blocking != map[] && s.unblocking == [])
      && (w in t.workers && t.workers[w] == AbortHead(Deadlock) <==>
            u.yielding == [] && u.blocking == map[] && u.suspending != {})
      && (w in t.workers && t.workers[w] == Remove <==> u.yielding == [] && u.blocking == map[] && u.suspending == {})
      && (w !in t.workers ==> !t.awake)
  {
    if s.task.yielding == [] && s.task.blocking != map[] { assert Unblock(s, true).1 <==> s.unblocking != []; }
  }

  /** A task that is to run again has all that was pushed runnable and no yield pending. */
  lemma RequeuedIsReady(s: World, w: nat)
    requires Holding(s, w) && s.workers[w].Decide?
    ensures var t := StepHolder(s, w).task;
      && !t.yieldFlag
      && (s.task.yielding == [] && s.task.blocking != map[] ==> t.running == s.task.running + s.unblocking)
  {
    var v := s.(task := s.task.(yieldFlag := false));
    assert Placed(v.task) == Placed(s.task);
    UnblockKeeps(v, true);
    DecidedIsReady(v, w);
  }

  lemma DecidedIsReady(s: World, w: nat)
    ensures var t, u := Decided(s, w).task, Unblock(s, true).0.task;
      t == if s.task.yielding == [] && s.task.blocking != map[] then u else s.task
  {
  }

  // ----- an abort asks everybody -----

  /** No coroutine but those still to be asked waits on a session that nobody has won. */
  ghost predicate Asked(t: Task, todo: set<Co>) {
    forall co :: co in t.blocking && t.blocking[co] in t.joins && t.joins[t.blocking[co]].phase == Open ==> co in todo
  }

  ghost predicate AskedSoFar(t: Task, p: Pc) {
    match p
    case AbortBlocking(_, todo) => Asked(t, todo)
    case AbortUnblock(_) => Asked(t, {})
    case _ => true
  }

  lemma StepAsks(s: World, e: Event, t: World, w: nat)
    requires Inv(s) && Leads(s, e, t) && w in t.workers && (w in s.workers ==> AskedSoFar(s.task, s.workers[w]))
    ensures AskedSoFar(t.task, t.workers[w])
  {
    if e.Step? || e.Pick? || e.Act? {
      OnlyHolder(s, e.w);
      HolderStaysHolder(s, e, t, w);
      match e
      case Step(_) => HolderAsks(s, t, w);
      case Pick(_, co) => PickAsks(s, t, w, co);
      case Act(_, a) => ActionAsks(s, t, w, a);
    } else if e.Pop? || e.PopToAbort? {
      assert s.workers.Keys == {};
      TakenAsks(s, e, t, w);
    } else {
      WakerAsks(s, e, t, w);
    }
  }

  lemma HolderStaysHolder(s: World, e: Event, t: World, w: nat)
    requires Leads(s, e, t) && (e.Step? || e.Pick? || e.Act?) && s.workers.Keys == {e.w} && w in t.workers
    ensures w == e.w
  {
    match e
    case Step(_) => StepStaysHolder(s, t, w);
    case _ =>
  }

  lemma StepStaysHolder(s: World, t: World, w: nat)
    requires w in t.workers && exists v :: s.workers.Keys == {v} && Leads(s, Step(v), t)
    ensures w in s.workers
  {
    var v :| s.workers.Keys == {v} && Leads(s, Step(v), t);
    match s.workers[v]
    case Decide =>
    case _ =>
  }

  lemma TakenAsks(s: World, e: Event, t: World, w: nat)
    requires Leads(s, e, t) && (e.Pop? || e.PopToAbort?) && s.workers.Keys == {} && w in t.workers
    ensures AskedSoFar(t.task, t.workers[w])
  {
  }

  lemma WakerAsks(s: World, e: Event, t: World, w: nat)
    requires Leads(s, e, t) && (e.Grab? || e.Win? || e.Wake? || e.ResumeTask?)
    requires w in s.workers && w in t.workers && AskedSoFar(s.task, s.workers[w])
    ensures AskedSoFar(t.task, t.workers[w])
  {
  }

  lemma HolderAsks(s: World, t: World, w: nat)
    requires Leads(s, Step(w), t) && AskedSoFar(s.task, s.workers[w])
    ensures w in t.workers ==> AskedSoFar(t.task, t.workers[w])
  {
    match s.workers[w]
    case AbortSuspending(_) =>
    case AbortBlocking(_, _) =>
    case AbortUnblock(_) =>
    case AbortDrain(_) =>
    case Decide =>
    case _ =>
  }

  lemma PickAsks(s: World, t: World, w: nat, co: Co)
    requires Leads(s, Pick(w, co), t) && AskedSoFar(s.task, s.workers[w])
    ensures w in t.workers ==> AskedSoFar(t.task, t.workers[w])
  {
  }

  lemma ActionAsks(s: World, t: World, w: nat, a: Action)
    requires Leads(s, Act(w, a), t)
    ensures w in t.workers ==> AskedSoFar(t.task, t.workers[w])
  {
    match a
    case DoPublish(_) =>
    case _ =>
  }

  /** When an abort has gone through its blocked coroutines, none is left whose session is open:
      each has been interrupted, or a waker has won it and will push it. */
  lemma {:induction false} AbortAsksEverybody(main: Co, run: seq<World>, events: seq<Event>, i: nat, w: nat)
    requires IsRun(main, run, events) && i < |run| && w in run[i].workers
    ensures AskedSoFar(run[i].task, run[i].workers[w])
  {
    if i > 0 {
      if w in run[i - 1].workers { AbortAsksEverybody(main, run, events, i - 1, w); }
      AsksAtNext(main, run, events, i - 1, w);
    }
  }

  lemma AsksAtNext(main: Co, run: seq<World>, events: seq<Event>, i: nat, w: nat)
    requires IsRun(main, run, events) && i < |events| && w in run[i + 1].workers
    requires w in run[i].workers ==> AskedSoFar(run[i].task, run[i].workers[w])
    ensures AskedSoFar(run[i + 1].task, run[i + 1].workers[w])
  {
    RunStep(main, run, events, i);
    var s, e, t := run[i], events[i], run[i + 1];
    StepAsks(s, e, t, w);
  }
}
