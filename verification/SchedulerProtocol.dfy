/** The scheduler of `src/runtime.rs`: the serving threads, the run queue and registry they
    share, the stop counter, and the thread that drops the runtime. Each section that holds
    the state lock is one step. */
module SchedulerProtocol {
  import opened Options

  type Tid = nat

  /** Who is responsible for a registered task. `Asleep` is the one place in which the
      task's `running` flag is down. */
  datatype Where = Queued | Held(thread: nat) | Asleep | Waking

  datatype Flow = Yield | Block | Cease

  /** Where a serving thread is. A thread that has got `Block` back no longer holds the
      task, but `run` still reads the task's id before it takes the lock again. */
  datatype Thread =
    | Serving                             // head of the first loop
    | Running(task: Tid)                  // in `Task::sched`
    | Reading(task: Tid, flow: Flow)      // `sched` has returned
    | Finished
    | SendStop                            // counted up to the parallelism
    | LastServing                         // head of the second loop
    | LastRunning(task: Tid)
    | LastReading(task: Tid, flow: Flow)
    | AbortHead                           // head of the loop over the registry
    | AbortPop                            // head of the loop over the run queue
    | Aborting(task: Tid)                 // in `Task::abort`, without the scope of the task
    | Broken(task: Tid)                   // main of that task has panicked out of its entry
    | LastFinished

  /** Where the thread in `Runtime::drop` is. */
  datatype Dropper = NotStarted | JoinTimer | JoinTicker | SecondStop | StopPollers | JoinThreads | Over

  datatype World = World(
    stopped: int,
    runq: seq<Tid>,
    registry: map<Tid, Where>,
    threads: seq<Thread>,
    dropper: Dropper,
    stopSent: bool,                       // `Message::Stop` is in the timer's channel
    timer: Tid,
    timerOver: bool,
    tickerOver: bool,
    ended: set<Tid>)                      // tasks removed from the registry

  function Parallelism(s: World): nat { |s.threads| }

  function Initial(n: nat, timer: Tid): World {
    World(-1, [timer], map[timer := Queued], seq(n, _ => Serving), NotStarted, false, timer, false, false, {})
  }

  datatype Event =
    | Serve(w: nat)                       // one turn at the head of a serving loop
    | Return(w: nat, flow: Flow)          // `Task::sched` returns
    | Relock(w: nat)                      // `run` takes the lock again
    | Send(w: nat)                        // the last thread sends the stop message
    | Abort(w: nat, order: seq<Tid>)      // one turn of the loop over the registry
    | AbortNext(w: nat)                   // one turn of the loop over the run queue
    | Break(w: nat)                       // main of the aborted task panics out of its entry
    | Spawn(w: nat, task: Tid)            // a running task spawns another
    | SpawnOutside(task: Tid)             // `Runtime::spawn`
    | Wake(task: Tid)                     // `Task::wake` that returned true
    | Resume(task: Tid)                   // ... followed by `Scheduler::resume`
    | TimerEnds(w: nat)                   // the timer's main returns, in the thread that runs it
    | TickerEnds
    | Drop                                // the next statement of `Runtime::drop`

  function TaskOf(p: Thread): Option<Tid> {
    match p
    case Running(t) => Some(t)
    case LastRunning(t) => Some(t)
    case Aborting(t) => Some(t)
    case _ => None
  }

  /** The task the thread holds. */
  function HeldBy(p: Thread): Option<Tid> {
    match p
    case Reading(t, flow) => if flow == Block then None else Some(t)
    case LastReading(t, flow) => if flow == Block then None else Some(t)
    case Broken(t) => Some(t)
    case _ => TaskOf(p)
  }

  function AsleepIn(registry: map<Tid, Where>): set<Tid> {
    set t | t in registry && registry[t] == Asleep
  }

  predicate Enabled(s: World, e: Event) {
    match e
    case Serve(w) => w < |s.threads| && (s.threads[w] == Serving || s.threads[w] == LastServing)
    case Return(w, _) => w < |s.threads| && (s.threads[w].Running? || s.threads[w].LastRunning?)
    case Relock(w) => w < |s.threads| && (s.threads[w].Reading? || s.threads[w].LastReading?)
    case Send(w) => w < |s.threads| && s.threads[w] == SendStop
    case Abort(w, order) =>
      w < |s.threads| && s.threads[w] == AbortHead && multiset(order) == multiset(AsleepIn(s.registry))
    case AbortNext(w) => w < |s.threads| && s.threads[w] == AbortPop
    case Break(w) => w < |s.threads| && s.threads[w].Aborting?
    case Spawn(w, t) => w < |s.threads| && TaskOf(s.threads[w]).Some? && t !in s.registry && t !in s.ended
    case SpawnOutside(t) => s.dropper == NotStarted && t !in s.registry && t !in s.ended
    case Wake(t) => t in s.registry && s.registry[t] == Asleep
    case Resume(t) => t in s.registry && s.registry[t] == Waking
    case TimerEnds(w) => w < |s.threads| && TaskOf(s.threads[w]) == Some(s.timer) && s.stopSent
    case TickerEnds => s.timerOver
    case Drop =>
      match s.dropper
      case JoinTimer => s.timerOver
      case JoinTicker => s.tickerOver
      case JoinThreads => forall w :: 0 <= w < |s.threads| ==> s.threads[w] == Finished || s.threads[w] == LastFinished
      case Over => false
      case _ => true
  }

  function At(s: World, w: nat, p: Thread): World
    requires w < |s.threads|
  {
    s.(threads := s.threads[w := p])
  }

  /** `Scheduler::sched` */
  function Sched(s: World, t: Tid): World {
    s.(registry := s.registry[t := Queued], runq := s.runq + [t])
  }

  /** `Scheduler::stop` */
  function Stop(s: World): World { s.(stopped := s.stopped + 1) }

  /** The first half of `run`: nothing happens while the queue is empty. */
  function Take(s: World, w: nat, p: Tid -> Thread): World
    requires w < |s.threads|
  {
    if s.runq == [] then s
    else At(s.(runq := s.runq[1..], registry := s.registry[s.runq[0] := Held(w)]), w, p(s.runq[0]))
  }

  /** The second half, after `Task::sched`. */
  function GiveBack(s: World, w: nat, t: Tid, flow: Flow, p: Thread): World
    requires w < |s.threads|
  {
    match flow
    case Yield => At(s.(runq := s.runq + [t], registry := s.registry[t := Queued]), w, p)
    case Block => At(s, w, p)
    case Cease => At(s.(registry := s.registry - {t}, ended := s.ended + {t}), w, p)
  }

  function Serving1(s: World, w: nat): World
    requires w < |s.threads|
  {
    if s.stopped < 0 then Take(s, w, (t: Tid) => Running(t))
    else At(Stop(s), w, if s.stopped + 1 != |s.threads| then Finished else SendStop)
  }

  function Serving2(s: World, w: nat): World
    requires w < |s.threads|
  {
    if s.stopped == |s.threads| then Take(s, w, (t: Tid) => LastRunning(t)) else At(s, w, AbortHead)
  }

  function Fall(s: World, t: Tid, flow: Flow): World {
    if flow == Block then s.(registry := s.registry[t := Asleep]) else s
  }

  function Apply(s: World, e: Event): World
    requires Enabled(s, e)
  {
    match e
    case Serve(w) => if s.threads[w] == Serving then Serving1(s, w) else Serving2(s, w)
    case Return(w, flow) =>
      var t := s.threads[w].task;
      At(Fall(s, t, flow), w, if s.threads[w].Running? then Reading(t, flow) else LastReading(t, flow))
    case Relock(w) =>
      GiveBack(s, w, s.threads[w].task, s.threads[w].flow, if s.threads[w].Reading? then Serving else LastServing)
    case Send(w) => At(s.(stopSent := true), w, LastServing)
    case Abort(w, order) =>
      if s.registry == map[] then At(s, w, LastFinished)
      else
        At(s.(runq := s.runq + order,
              registry := map t | t in s.registry :: if s.registry[t] == Asleep then Queued else s.registry[t]),
           w, AbortPop)
    case AbortNext(w) => if s.runq == [] then At(s, w, AbortHead) else Take(s, w, (t: Tid) => Aborting(t))
    case Break(w) => At(s, w, Broken(s.threads[w].task))
    case Spawn(_, t) => Sched(s, t)
    case SpawnOutside(t) => Sched(s, t)
    case Wake(t) => s.(registry := s.registry[t := Waking])
    case Resume(t) => s.(runq := s.runq + [t], registry := s.registry[t := Queued])
    case TimerEnds(_) => s.(timerOver := true)
    case TickerEnds => s.(tickerOver := true)
    case Drop =>
      match s.dropper
      case NotStarted => Stop(s).(dropper := JoinTimer)
      case JoinTimer => s.(dropper := JoinTicker)
      case JoinTicker => s.(dropper := SecondStop)
      case SecondStop => Stop(s).(dropper := StopPollers)
      case StopPollers => s.(dropper := JoinThreads)
      case _ => s.(dropper := Over)
  }

  // ----- the stop counter -----

  /** The thread is still in the first loop. */
  predicate InFirstLoop(p: Thread) { p.Serving? || p.Running? || p.Reading? }

  function Left(threads: seq<Thread>): nat {
    if threads == [] then 0 else Left(threads[1..]) + if InFirstLoop(threads[0]) then 0 else 1
  }

  lemma {:induction false} LeftUpdate(threads: seq<Thread>, w: nat, p: Thread)
    requires w < |threads|
    ensures Left(threads[w := p]) ==
              Left(threads) + (if InFirstLoop(threads[w]) then 1 else 0) - (if InFirstLoop(p) then 1 else 0)
  {
    if w == 0 {
      assert threads[0 := p][1..] == threads[1..];
    } else {
      assert threads[w := p][1..] == threads[1..][w - 1 := p];
      LeftUpdate(threads[1..], w - 1, p);
    }
  }

  lemma {:induction false} LeftBound(threads: seq<Thread>)
    ensures Left(threads) <= |threads|
    ensures Left(threads) == |threads| <==> forall w :: 0 <= w < |threads| ==> !InFirstLoop(threads[w])
  {
    if threads != [] {
      LeftBound(threads[1..]);
      assert forall w :: 0 < w < |threads| ==> threads[w] == threads[1..][w - 1];
      assert forall w :: 0 <= w < |threads| - 1 ==> threads[1..][w] == threads[w + 1];
    }
  }

  lemma {:induction false} NobodyLeft(n: nat)
    ensures Left(seq(n, _ => Serving)) == 0
  {
    if n > 0 {
      assert seq(n, _ => Serving)[1..] == seq(n - 1, _ => Serving);
      NobodyLeft(n - 1);
    }
  }

  function Stops(d: Dropper): nat {
    match d
    case NotStarted => 0
    case JoinTimer => 1
    case JoinTicker => 1
    case SecondStop => 1
    case _ => 2
  }

  /** The thread is the one that counted up to the parallelism. */
  predicate IsLast(p: Thread) { !InFirstLoop(p) && p != Finished }

  predicate InAbortLoop(p: Thread) { p.AbortHead? || p.AbortPop? || p.Aborting? || p.Broken? || p.LastFinished? }

  ghost predicate CounterOk(s: World) {
    && s.stopped == -1 + Stops(s.dropper) + Left(s.threads)
    && (Left(s.threads) > 0 ==> Stops(s.dropper) > 0)
    && (forall v, w :: 0 <= v < w < |s.threads| ==> !(IsLast(s.threads[v]) && IsLast(s.threads[w])))
    && (forall w :: 0 <= w < |s.threads| && IsLast(s.threads[w]) ==> Left(s.threads) == |s.threads|)
    && (Left(s.threads) == |s.threads| && |s.threads| > 0 ==> exists w :: 0 <= w < |s.threads| && IsLast(s.threads[w]))
    && (s.stopSent ==> Left(s.threads) == |s.threads|)
    && (s.timerOver ==> s.stopSent)
    && (s.tickerOver ==> s.timerOver)
    && (s.dropper == JoinTicker || s.dropper == SecondStop || Stops(s.dropper) == 2 ==> s.timerOver)
    && (s.dropper == SecondStop || Stops(s.dropper) == 2 ==> s.tickerOver)
    && (forall w :: 0 <= w < |s.threads| && InAbortLoop(s.threads[w]) ==> Stops(s.dropper) == 2)
    && (s.dropper == Over ==>
          forall w :: 0 <= w < |s.threads| ==> s.threads[w] == Finished || s.threads[w] == LastFinished)
  }

  // ----- the tasks -----

  /** The run queue holds each queued task once, and every thread holds its own task. */
  ghost predicate TasksOk(s: World) {
    && (forall t :: t in s.runq <==> t in s.registry && s.registry[t] == Queued)
    && (forall i, j :: 0 <= i < j < |s.runq| ==> s.runq[i] != s.runq[j])
    && (forall w :: 0 <= w < |s.threads| && HeldBy(s.threads[w]).Some? ==>
          HeldBy(s.threads[w]).value in s.registry && s.registry[HeldBy(s.threads[w]).value] == Held(w))
    && (forall t :: t in s.registry && s.registry[t].Held? ==>
          s.registry[t].thread < |s.threads| && HeldBy(s.threads[s.registry[t].thread]) == Some(t))
    && s.registry.Keys !! s.ended
    && (forall w :: 0 <= w < |s.threads| && s.threads[w] == LastFinished ==> s.registry == map[])
  }

  ghost predicate Inv(s: World) { CounterOk(s) && TasksOk(s) && |s.threads| > 0 }

  lemma InitialInv(n: nat, timer: Tid)
    requires n > 0
    ensures Inv(Initial(n, timer))
  {
    NobodyLeft(n);
  }

  // ----- every step keeps the counter right -----

  /** A thread moves without passing the counter. */
  lemma MoveKeepsCounter(s: World, t: World, w: nat, p: Thread)
    requires CounterOk(s) && w < |s.threads| && t.threads == s.threads[w := p]
    requires t.stopped == s.stopped && t.dropper == s.dropper && (t.stopSent == s.stopSent || s.threads[w] == SendStop)
    requires t.timerOver == s.timerOver && t.tickerOver == s.tickerOver && (s.stopSent ==> t.stopSent)
    requires InFirstLoop(p) == InFirstLoop(s.threads[w]) && IsLast(p) == IsLast(s.threads[w])
    requires InAbortLoop(p) ==> Stops(s.dropper) == 2
    requires s.threads[w] != Finished && s.threads[w] != LastFinished
    ensures CounterOk(t)
  {
    LeftUpdate(s.threads, w, p);
    if exists v :: 0 <= v < |s.threads| && IsLast(s.threads[v]) {
      var v :| 0 <= v < |s.threads| && IsLast(s.threads[v]);
      assert IsLast(t.threads[v]);
    }
  }

  /** A thread leaves the first loop; the one that completes the count becomes the last. */
  lemma LeaveKeepsCounter(s: World, t: World, w: nat)
    requires CounterOk(s) && w < |s.threads| && s.threads[w] == Serving && s.stopped >= 0
    requires t == Serving1(s, w)
    ensures CounterOk(t)
  {
    LeftBound(s.threads);
    LeftUpdate(s.threads, w, t.threads[w]);
    LeftBound(t.threads);
    assert Left(s.threads) < |s.threads|;
    if t.threads[w] == SendStop { assert IsLast(t.threads[w]); }
  }

  lemma DropKeepsCounter(s: World)
    requires CounterOk(s) && |s.threads| > 0 && Enabled(s, Drop)
    ensures CounterOk(Apply(s, Drop))
  {
  }

  predicate MovesThread(e: Event) {
    e.Serve? || e.Return? || e.Relock? || e.Send? || e.Abort? || e.AbortNext? || e.Break?
  }

  lemma StepKeepsCounter(s: World, e: Event)
    requires Inv(s) && Enabled(s, e)
    ensures CounterOk(Apply(s, e))
  {
    if e.Drop? {
      DropKeepsCounter(s);
    } else if MovesThread(e) {
      ThreadKeepsCounter(s, e);
    } else if e.TimerEnds? {
      assert CounterOk(s);
    }
  }

  /** Leaving the first loop apart, a thread stays of its kind. */
  lemma KindStays(s: World, e: Event)
    requires Enabled(s, e) && MovesThread(e) && !(e.Serve? && s.threads[e.w] == Serving && s.stopped >= 0)
    ensures var t := Apply(s, e);
      && t.threads == s.threads[e.w := t.threads[e.w]]
      && InFirstLoop(t.threads[e.w]) == InFirstLoop(s.threads[e.w]) && IsLast(t.threads[e.w]) == IsLast(s.threads[e.w])
      && (InAbortLoop(t.threads[e.w]) ==>
            InAbortLoop(s.threads[e.w]) || (s.threads[e.w] == LastServing && s.stopped != |s.threads|))
      && s.threads[e.w] != Finished && s.threads[e.w] != LastFinished
  {
    match e
    case Serve(w) =>
    case AbortNext(w) =>
    case Abort(w, order) =>
    case _ =>
  }

  lemma ThreadKeepsCounter(s: World, e: Event)
    requires CounterOk(s) && |s.threads| > 0 && Enabled(s, e) && MovesThread(e)
    ensures CounterOk(Apply(s, e))
  {
    var t := Apply(s, e);
    if e.Serve? && s.threads[e.w] == Serving && s.stopped >= 0 {
      LeaveKeepsCounter(s, t, e.w);
    } else {
      KindStays(s, e);
      if s.threads[e.w] == LastServing { assert IsLast(s.threads[e.w]); }
      MoveKeepsCounter(s, t, e.w, t.threads[e.w]);
    }
  }

  // ----- every step keeps each task in one place -----

  lemma TakeKeepsTasks(s: World, w: nat, p: Tid -> Thread)
    requires TasksOk(s) && w < |s.threads| && HeldBy(s.threads[w]).None? && s.threads[w] != LastFinished
    requires forall t: Tid :: HeldBy(p(t)) == Some(t) && p(t) != LastFinished
    ensures TasksOk(Take(s, w, p))
  {
    if s.runq != [] {
      var head := s.runq[0];
      assert s.runq == [head] + s.runq[1..];
      var u := Take(s, w, p);
      forall t ensures t in u.runq <==> t in u.registry && u.registry[t] == Queued {
        if t in u.runq { assert t in s.runq && t != head; }
      }
    }
  }

  lemma GiveBackKeepsTasks(s: World, w: nat, t: Tid, flow: Flow, p: Thread)
    requires TasksOk(s) && w < |s.threads| && HeldBy(p).None? && p != LastFinished
    requires HeldBy(s.threads[w]) == if flow == Block then None else Some(t)
    ensures TasksOk(GiveBack(s, w, t, flow, p))
  {
  }

  /** The thread moves and the task it holds, if any, stays in its hands. */
  lemma MoveKeepsTasks(s: World, w: nat, p: Thread)
    requires TasksOk(s) && w < |s.threads| && HeldBy(p) == HeldBy(s.threads[w])
    requires p == LastFinished ==> s.registry == map[]
    ensures TasksOk(At(s, w, p))
  {
  }

  lemma FallKeepsTasks(s: World, w: nat, t: Tid, p: Thread)
    requires TasksOk(s) && w < |s.threads| && HeldBy(s.threads[w]) == Some(t) && HeldBy(p).None? && p != LastFinished
    ensures TasksOk(At(s.(registry := s.registry[t := Asleep]), w, p))
  {
  }

  /** A task that was not queued is. */
  lemma QueueKeepsTasks(s: World, t: Tid)
    requires TasksOk(s) && t !in s.ended && (t in s.registry ==> s.registry[t] == Waking)
    requires forall w :: 0 <= w < |s.threads| ==> s.threads[w] != LastFinished
    ensures TasksOk(Sched(s, t))
  {
    var u := Sched(s, t);
    assert t !in s.runq;
    forall x ensures x in u.runq <==> x in u.registry && u.registry[x] == Queued {}
  }

  lemma OrderOfSleepers(registry: map<Tid, Where>, order: seq<Tid>)
    requires multiset(order) == multiset(AsleepIn(registry))
    ensures forall t :: t in order <==> t in registry && registry[t] == Asleep
    ensures forall i, j :: 0 <= i < j < |order| ==> order[i] != order[j]
  {
    forall t ensures t in order <==> t in registry && registry[t] == Asleep {
      assert t in order <==> t in multiset(order);
      assert t in multiset(AsleepIn(registry)) <==> t in AsleepIn(registry);
    }
    forall i, j | 0 <= i < j < |order| ensures order[i] != order[j] {
      TwiceInOrder(order, i, j);
      assert multiset(AsleepIn(registry))[order[i]] <= 1;
    }
  }

  lemma GrabKeepsTasks(s: World, w: nat, order: seq<Tid>)
    requires TasksOk(s) && Enabled(s, Abort(w, order)) && s.registry != map[]
    ensures TasksOk(Apply(s, Abort(w, order)))
  {
    var u := Apply(s, Abort(w, order));
    OrderOfSleepers(s.registry, order);
    forall t ensures t in u.runq <==> t in u.registry && u.registry[t] == Queued {}
    forall i, j | 0 <= i < j < |u.runq| ensures u.runq[i] != u.runq[j] {
      if i < |s.runq| <= j { assert s.runq[i] in s.runq && order[j - |s.runq|] in order; }
    }
  }

  lemma TwiceInOrder(order: seq<Tid>, i: nat, j: nat)
    requires i < j < |order|
    ensures order[i] == order[j] ==> multiset(order)[order[i]] >= 2
  {
    assert order == order[..j] + [order[j]] + order[j + 1..];
    assert order[..j][i] == order[i];
    assert multiset(order[..j])[order[i]] >= 1;
  }

  lemma StepKeepsTasks(s: World, e: Event)
    requires Inv(s) && Enabled(s, e)
    ensures TasksOk(Apply(s, e))
  {
    match e
    case Spawn(w, t) => NobodyIsDone(s, w); QueueKeepsTasks(s, t);
    case SpawnOutside(t) => QueueKeepsTasks(s, t);
    case Resume(t) => QueueKeepsTasks(s, t);
    case Wake(t) => WakeKeepsTasks(s, t);
    case _ => if MovesThread(e) { ThreadKeepsTasks(s, e); }
  }

  lemma WakeKeepsTasks(s: World, t: Tid)
    requires TasksOk(s) && Enabled(s, Wake(t))
    ensures TasksOk(Apply(s, Wake(t)))
  {
  }

  lemma ThreadKeepsTasks(s: World, e: Event)
    requires Inv(s) && Enabled(s, e) && MovesThread(e)
    ensures TasksOk(Apply(s, e))
  {
    match e
    case Serve(w) => ServeKeepsTasks(s, w);
    case Return(w, flow) => ReturnKeepsTasks(s, w, flow);
    case Relock(w) => RelockKeepsTasks(s, w);
    case Send(w) => SendKeepsTasks(s, w);
    case Abort(w, order) =>
      if s.registry == map[] { MoveKeepsTasks(s, w, LastFinished); } else { GrabKeepsTasks(s, w, order); }
    case AbortNext(w) =>
      if s.runq == [] { MoveKeepsTasks(s, w, AbortHead); } else { TakeKeepsTasks(s, w, (t: Tid) => Aborting(t)); }
    case Break(w) => MoveKeepsTasks(s, w, Broken(s.threads[w].task));
  }

  lemma RelockKeepsTasks(s: World, w: nat)
    requires TasksOk(s) && Enabled(s, Relock(w))
    ensures TasksOk(Apply(s, Relock(w)))
  {
    var p := if s.threads[w].Reading? then Serving else LastServing;
    GiveBackKeepsTasks(s, w, s.threads[w].task, s.threads[w].flow, p);
  }

  lemma SendKeepsTasks(s: World, w: nat)
    requires TasksOk(s) && Enabled(s, Send(w))
    ensures TasksOk(Apply(s, Send(w)))
  {
    MoveKeepsTasks(s, w, LastServing);
    var u := At(s, w, LastServing);
    assert Apply(s, Send(w)) == u.(stopSent := true);
  }

  lemma ReturnKeepsTasks(s: World, w: nat, flow: Flow)
    requires TasksOk(s) && Enabled(s, Return(w, flow))
    ensures TasksOk(Apply(s, Return(w, flow)))
  {
    var t := s.threads[w].task;
    var p := if s.threads[w].Running? then Reading(t, flow) else LastReading(t, flow);
    if flow == Block { FallKeepsTasks(s, w, t, p); } else { MoveKeepsTasks(s, w, p); }
  }

  lemma ServeKeepsTasks(s: World, w: nat)
    requires Inv(s) && Enabled(s, Serve(w))
    ensures TasksOk(Apply(s, Serve(w)))
  {
    if s.threads[w] == Serving {
      if s.stopped < 0 {
        TakeKeepsTasks(s, w, (t: Tid) => Running(t));
      } else {
        MoveKeepsTasks(s, w, if s.stopped + 1 != |s.threads| then Finished else SendStop);
      }
    } else {
      if s.stopped == |s.threads| {
        TakeKeepsTasks(s, w, (t: Tid) => LastRunning(t));
      } else {
        MoveKeepsTasks(s, w, AbortHead);
      }
    }
  }

  /** While a thread executes a task, the last thread is not done. */
  lemma NobodyIsDone(s: World, w: nat)
    requires CounterOk(s) && w < |s.threads| && TaskOf(s.threads[w]).Some?
    ensures forall v :: 0 <= v < |s.threads| ==> s.threads[v] != LastFinished
  {
    LeftBound(s.threads);
    forall v | 0 <= v < |s.threads| ensures s.threads[v] != LastFinished {
      if s.threads[v] == LastFinished {
        assert IsLast(s.threads[v]);
        assert !InFirstLoop(s.threads[w]);
        assert IsLast(s.threads[w]);
        assert false;
      }
    }
  }

  lemma StepKeepsInv(s: World, e: Event)
    requires Inv(s) && Enabled(s, e)
    ensures Inv(Apply(s, e))
  {
    StepKeepsCounter(s, e);
    StepKeepsTasks(s, e);
  }

  // ----- whole runs -----

  predicate Leads(s: World, e: Event, t: World) {
    Enabled(s, e) && t == Apply(s, e)
  }

  ghost predicate IsRun(n: nat, timer: Tid, run: seq<World>, events: seq<Event>) {
    && n > 0
    && |run| == |events| + 1
    && run[0] == Initial(n, timer)
    && forall i {:trigger events[i]} :: 0 <= i < |events| ==> Leads(run[i], events[i], run[i + 1])
  }

  lemma SameThreads(s: World, e: Event, t: World)
    requires Leads(s, e, t)
    ensures |t.threads| == |s.threads|
  {
    match e
    case Serve(w) =>
    case AbortNext(w) =>
    case Relock(w) =>
    case _ =>
  }

  lemma {:induction false} RunsKeepInv(n: nat, timer: Tid, run: seq<World>, events: seq<Event>, i: nat)
    requires IsRun(n, timer, run, events) && i < |run|
    ensures Inv(run[i]) && |run[i].threads| == n
  {
    if i == 0 {
      InitialInv(n, timer);
    } else {
      RunsKeepInv(n, timer, run, events, i - 1);
      var s, e := run[i - 1], events[i - 1];
      SameThreads(s, e, run[i]);
      StepKeepsInv(s, e);
    }
  }

  /** Once last, always last. */
  lemma {:induction false} LastStays(n: nat, timer: Tid, run: seq<World>, events: seq<Event>, i: nat, j: nat, w: nat)
    requires IsRun(n, timer, run, events) && i <= j < |run| && w < |run[i].threads| && IsLast(run[i].threads[w])
    ensures w < |run[j].threads| && IsLast(run[j].threads[w])
  {
    if i < j {
      LastStays(n, timer, run, events, i, j - 1, w);
      LastStep(run[j - 1], events[j - 1], run[j], w);
    }
  }

  lemma LastStep(s: World, e: Event, t: World, w: nat)
    requires Leads(s, e, t) && w < |s.threads| && IsLast(s.threads[w])
    ensures w < |t.threads| && IsLast(t.threads[w])
  {
    SameThreads(s, e, t);
    if MovesThread(e) && e.w == w { LastMoves(s, e, t); } else { OthersStay(s, e, t, w); }
  }

  lemma OthersStay(s: World, e: Event, t: World, w: nat)
    requires Leads(s, e, t) && w < |s.threads| && !(MovesThread(e) && e.w == w)
    ensures w < |t.threads| && t.threads[w] == s.threads[w]
  {
    match e
    case Serve(w) =>
    case AbortNext(w) =>
    case Abort(w, order) =>
    case Relock(w) =>
    case _ =>
  }

  lemma LastMoves(s: World, e: Event, t: World)
    requires Leads(s, e, t) && MovesThread(e) && e.w < |s.threads| && IsLast(s.threads[e.w])
    ensures e.w < |t.threads| && IsLast(t.threads[e.w])
  {
    match e
    case Serve(w) => assert s.threads[w] == LastServing;
    case _ =>
  }

  /** For any number of threads, exactly one sees the counter reach the parallelism: no two
      do in the same run, and one has as soon as all have left the first loop. */
  lemma OneThreadIsLast(n: nat, timer: Tid, run: seq<World>, events: seq<Event>, i: nat, j: nat, v: nat, w: nat)
    requires IsRun(n, timer, run, events) && i <= j < |run|
    ensures var s, t := run[i], run[j];
      v < |s.threads| && w < |t.threads| && IsLast(s.threads[v]) && IsLast(t.threads[w]) ==> v == w
    ensures var s := run[i];
      (exists u :: 0 <= u < |s.threads| && IsLast(s.threads[u])) <==>
        (forall u :: 0 <= u < |s.threads| ==> !InFirstLoop(s.threads[u]))
  {
    RunsKeepInv(n, timer, run, events, i);
    RunsKeepInv(n, timer, run, events, j);
    LeftBound(run[i].threads);
    if v < n && IsLast(run[i].threads[v]) { LastStays(n, timer, run, events, i, j, v); }
  }

  /** The second stop is given only when every thread has left the first loop and the timer
      and the ticker have ended. */
  lemma SecondStopComesLast(n: nat, timer: Tid, run: seq<World>, events: seq<Event>, i: nat, w: nat)
    requires IsRun(n, timer, run, events) && i < |run| && w < |run[i].threads|
    requires run[i].dropper == SecondStop || Stops(run[i].dropper) == 2
    ensures run[i].timerOver && run[i].tickerOver && run[i].stopSent
    ensures run[i].threads[w] == Finished || IsLast(run[i].threads[w])
    ensures run[i].stopped == n + Stops(run[i].dropper) - 1
  {
    RunsKeepInv(n, timer, run, events, i);
    LeftBound(run[i].threads);
  }

  /** The loop that aborts the remaining tasks runs alone: every other thread has returned,
      the timer is over, and no task is in the hands of anybody but this thread. */
  lemma AbortsAlone(n: nat, timer: Tid, run: seq<World>, events: seq<Event>, i: nat, w: nat)
    requires IsRun(n, timer, run, events) && i < |run| && w < |run[i].threads| && InAbortLoop(run[i].threads[w])
    ensures run[i].timerOver && Stops(run[i].dropper) == 2
    ensures forall v :: 0 <= v < |run[i].threads| && v != w ==> run[i].threads[v] == Finished
    ensures forall t :: t in run[i].registry && run[i].registry[t].Held? ==> HeldBy(run[i].threads[w]) == Some(t)
  {
    RunsKeepInv(n, timer, run, events, i);
    var s := run[i];
    LeftBound(s.threads);
    assert IsLast(s.threads[w]);
  }

  /** Every entry of the run queue points to a registered task, once, that no thread holds
      and no waker is about to queue; no task is held by two threads. */
  lemma QueueIsSafe(n: nat, timer: Tid, run: seq<World>, events: seq<Event>, i: nat)
    requires IsRun(n, timer, run, events) && i < |run|
    ensures var s := run[i];
      && (forall t :: t in s.runq ==> t in s.registry && s.registry[t] == Queued && t !in s.ended)
      && (forall j, k :: 0 <= j < k < |s.runq| ==> s.runq[j] != s.runq[k])
      && (forall t, w :: t in s.runq && 0 <= w < |s.threads| ==> HeldBy(s.threads[w]) != Some(t))
      && (forall v, w :: 0 <= v < w < |s.threads| && HeldBy(s.threads[v]).Some? ==>
            HeldBy(s.threads[v]) != HeldBy(s.threads[w]))
  {
    RunsKeepInv(n, timer, run, events, i);
  }

  lemma NothingQueued(runq: seq<Tid>)
    requires forall t :: t !in runq
    ensures runq == []
  {
    forall t: Tid ensures multiset(runq)[t] == 0 { assert t !in runq; }
    assert multiset(runq) == multiset{};
    assert |multiset(runq)| == |runq|;
  }

  /** Dropping the runtime ends everything: no thread is left, no task is registered, queued
      or held, and none is on its way to the queue. */
  lemma DropEndsEverything(n: nat, timer: Tid, run: seq<World>, events: seq<Event>, i: nat)
    requires IsRun(n, timer, run, events) && i < |run| && run[i].dropper == Over
    ensures forall w :: 0 <= w < |run[i].threads| ==> run[i].threads[w] == Finished || run[i].threads[w] == LastFinished
    ensures run[i].registry == map[] && run[i].runq == []
    ensures run[i].timerOver && run[i].tickerOver
  {
    RunsKeepInv(n, timer, run, events, i);
    var s := run[i];
    LeftBound(s.threads);
    var last :| 0 <= last < |s.threads| && IsLast(s.threads[last]);
    assert s.threads[last] == LastFinished;
    NothingQueued(s.runq);
  }

  lemma {:induction false} AbortLoopStays(n: nat, timer: Tid, run: seq<World>, events: seq<Event>, i: nat, j: nat, w: nat)
    requires IsRun(n, timer, run, events) && i <= j < |run| && w < |run[i].threads| && InAbortLoop(run[i].threads[w])
    ensures w < |run[j].threads| && InAbortLoop(run[j].threads[w]) && run[i].registry.Keys <= run[j].registry.Keys
  {
    if i < j {
      AbortLoopStays(n, timer, run, events, i, j - 1, w);
      RunsKeepInv(n, timer, run, events, j - 1);
      AbortLoopStep(run[j - 1], events[j - 1], run[j], w);
    }
  }

  /** The loop that aborts takes no task out of the registry: `Task::abort` does not return
      there (`TaskRuns.ShutdownAbortNeverReturns`). */
  lemma AbortLoopStep(s: World, e: Event, t: World, w: nat)
    requires Inv(s) && Leads(s, e, t) && w < |s.threads| && InAbortLoop(s.threads[w])
    ensures w < |t.threads| && InAbortLoop(t.threads[w]) && s.registry.Keys <= t.registry.Keys
  {
    LeftBound(s.threads);
    assert IsLast(s.threads[w]);
    SameThreads(s, e, t);
    if MovesThread(e) && e.w == w { AbortLoopMoves(s, e, t); } else { OthersStay(s, e, t, w); }
    assert forall v :: 0 <= v < |s.threads| && v != w ==> s.threads[v] == Finished;
    NobodyEnds(s, e, t);
  }

  lemma AbortLoopMoves(s: World, e: Event, t: World)
    requires Leads(s, e, t) && MovesThread(e) && e.w < |s.threads| && InAbortLoop(s.threads[e.w])
    ensures e.w < |t.threads| && InAbortLoop(t.threads[e.w])
  {
    match e
    case AbortNext(w) =>
    case _ =>
  }

  lemma {:induction false} Drops(n: nat, timer: Tid, run: seq<World>, events: seq<Event>)
    returns (longer: seq<World>, more: seq<Event>)
    requires IsRun(n, timer, run, events) && Stops(run[|events|].dropper) == 2
    requires forall v :: 0 <= v < |run[|events|].threads| ==>
               run[|events|].threads[v] == Finished || run[|events|].threads[v] == LastFinished
    ensures IsRun(n, timer, longer, more) && run <= longer && longer[|more|].dropper == Over
    decreases if run[|events|].dropper == StopPollers then 2 else if run[|events|].dropper == JoinThreads then 1 else 0
  {
    longer, more := run, events;
    if run[|events|].dropper != Over {
      Extend(n, timer, run, events, Drop);
      longer, more := Drops(n, timer, run + [Apply(run[|events|], Drop)], events + [Drop]);
    }
  }

  lemma {:induction false} DropCanEnd(n: nat, timer: Tid, run: seq<World>, events: seq<Event>, w: nat)
    returns (longer: seq<World>, more: seq<Event>)
    requires IsRun(n, timer, run, events) && w < |run[|events|].threads| && run[|events|].threads[w] == AbortHead
    requires run[|events|].registry == map[]
    ensures IsRun(n, timer, longer, more) && run <= longer && longer[|more|].dropper == Over
  {
    var s := run[|events|];
    AbortsAlone(n, timer, run, events, |events|, w);
    assert AsleepIn(s.registry) == {};
    var t := Apply(s, Abort(w, []));
    Extend(n, timer, run, events, Abort(w, []));
    longer, more := Drops(n, timer, run + [t], events + [Abort(w, [])]);
  }

  /** The run goes on until `drop` has returned. */
  ghost predicate Ends(n: nat, timer: Tid, run: seq<World>, longer: seq<World>, more: seq<Event>) {
    IsRun(n, timer, longer, more) && run <= longer && longer[|more|].dropper == Over
  }

  lemma DropCannotEnd(n: nat, timer: Tid, run: seq<World>, events: seq<Event>, i: nat, j: nat, w: nat)
    requires IsRun(n, timer, run, events) && i <= j < |run| && w < |run[i].threads| && InAbortLoop(run[i].threads[w])
    requires run[i].registry != map[]
    ensures run[j].dropper != Over
  {
    AbortLoopStays(n, timer, run, events, i, j, w);
    RunsKeepInv(n, timer, run, events, j);
    assert run[i].registry.Keys != {};
    assert run[j].registry.Keys != {};
  }

  /** Once the serving is over, dropping the runtime can come to its end exactly if no task is
      left: the abort of a task that is left breaks the last thread instead. */
  lemma DropEndsIffNothingIsLeft(n: nat, timer: Tid, run: seq<World>, events: seq<Event>, w: nat)
    requires IsRun(n, timer, run, events) && w < |run[|events|].threads| && run[|events|].threads[w] == AbortHead
    ensures (exists longer: seq<World>, more: seq<Event> :: Ends(n, timer, run, longer, more)) <==>
              run[|events|].registry == map[]
  {
    if run[|events|].registry == map[] {
      var longer, more := DropCanEnd(n, timer, run, events, w);
      assert Ends(n, timer, run, longer, more);
    } else {
      forall longer: seq<World>, more: seq<Event> ensures !Ends(n, timer, run, longer, more) {
        if Ends(n, timer, run, longer, more) {
          assert longer[|events|] == run[|events|];
          DropCannotEnd(n, timer, longer, more, |events|, |more|, w);
        }
      }
    }
  }

  /** Tasks are conserved: one that was registered stays so until it has ended, for good,
      and it ends only in the hands of the thread that has run it to its end. */
  lemma TaskEndsInItsHolder(n: nat, timer: Tid, run: seq<World>, events: seq<Event>, i: nat, t: Tid)
    requires IsRun(n, timer, run, events) && i < |events|
    requires t in run[i].registry || t in run[i].ended
    ensures t in run[i + 1].registry <==> t !in run[i + 1].ended
    ensures t in run[i].ended ==> t in run[i + 1].ended
    ensures var s := run[i];
      t in s.registry && t in run[i + 1].ended ==>
        s.registry[t].Held? && s.registry[t].thread < |s.threads| && HeldBy(s.threads[s.registry[t].thread]) == Some(t)
  {
    RunsKeepInv(n, timer, run, events, i);
    RunsKeepInv(n, timer, run, events, i + 1);
    EndStep(run[i], events[i], run[i + 1], t);
  }

  lemma EndStep(s: World, e: Event, u: World, t: Tid)
    requires TasksOk(s) && Leads(s, e, u) && (t in s.registry || t in s.ended)
    ensures t in u.registry || t in u.ended
    ensures t in s.ended ==> t in u.ended
    ensures t in s.registry && t in u.ended ==> s.registry[t].Held?
  {
    match e
    case Relock(w) => assert s.threads[w].flow != Block ==> HeldBy(s.threads[w]) == Some(s.threads[w].task);
    case _ => NobodyEnds(s, e, u);
  }

  lemma NobodyEnds(s: World, e: Event, u: World)
    requires Leads(s, e, u) && !e.Relock?
    ensures s.registry.Keys <= u.registry.Keys && u.ended == s.ended
  {
    match e
    case Serve(w) =>
    case AbortNext(w) =>
    case Abort(w, order) =>
    case _ =>
  }

  // ----- the id that is read late -----

  /** A thread back from `sched` with this flow always finds its task registered. */
  ghost predicate SafeToRead(flow: Flow) {
    forall n: nat, timer: Tid, run: seq<World>, events: seq<Event>, i: nat, w: nat, t: Tid
      {:trigger IsRun(n, timer, run, events), run[i].threads[w], Reading(t, flow)} ::
      (IsRun(n, timer, run, events) && i < |run| && w < |run[i].threads| && run[i].threads[w] == Reading(t, flow)) ==>
        t in run[i].registry
  }

  lemma Extend(n: nat, timer: Tid, run: seq<World>, events: seq<Event>, e: Event)
    requires IsRun(n, timer, run, events) && Enabled(run[|run| - 1], e)
    ensures IsRun(n, timer, run + [Apply(run[|run| - 1], e)], events + [e])
  {
    var longer, more := run + [Apply(run[|run| - 1], e)], events + [e];
    forall i {:trigger more[i]} | 0 <= i < |more| ensures Leads(longer[i], more[i], longer[i + 1]) {
      if i < |events| { assert more[i] == events[i]; }
    }
  }

  /** A run of two threads and a task 7: thread 1 runs it and gets `Block`; before thread 1
      reads the id, a waker queues the task and thread 0 runs it to its end. */
  function LateRead(k: nat): Event
    requires k < 11
  {
    [SpawnOutside(7), Serve(0), Serve(1), Return(1, Block), Wake(7), Resume(7), Return(0, Block), Relock(0),
     Serve(0), Return(0, Cease), Relock(0)][k]
  }

  lemma {:induction false} LateReadRun(k: nat) returns (run: seq<World>, events: seq<Event>)
    requires k <= 11
    ensures IsRun(2, 0, run, events) && |events| == k
    ensures run[k] == LateWorld(k)
  {
    if k == 0 {
      run, events := [Initial(2, 0)], [];
    } else {
      run, events := LateReadRun(k - 1);
      LateStep(k - 1);
      Extend(2, 0, run, events, LateRead(k - 1));
      run, events := run + [Apply(run[|run| - 1], LateRead(k - 1))], events + [LateRead(k - 1)];
    }
  }

  function EarlyWorld(k: nat, idle: World): World {
    if k == 0 then idle
    else if k == 1 then idle.(runq := [0, 7], registry := map[0 := Queued, 7 := Queued])
    else if k == 2 then
      idle.(runq := [7], registry := map[0 := Held(0), 7 := Queued], threads := [Running(0), Serving])
    else
      idle.(runq := [], registry := map[0 := Held(0), 7 := Held(1)], threads := [Running(0), Running(7)])
  }

  function LaterWorld(k: nat, idle: World): World {
    var late := Reading(7, Block);
    if k == 4 then idle.(runq := [], registry := map[0 := Held(0), 7 := Asleep], threads := [Running(0), late])
    else if k == 5 then idle.(runq := [], registry := map[0 := Held(0), 7 := Waking], threads := [Running(0), late])
    else if k == 6 then idle.(runq := [7], registry := map[0 := Held(0), 7 := Queued], threads := [Running(0), late])
    else if k == 7 then
      idle.(runq := [7], registry := map[0 := Asleep, 7 := Queued], threads := [Reading(0, Block), late])
    else if k == 8 then idle.(runq := [7], registry := map[0 := Asleep, 7 := Queued], threads := [Serving, late])
    else if k == 9 then idle.(runq := [], registry := map[0 := Asleep, 7 := Held(0)], threads := [Running(7), late])
    else if k == 10 then
      idle.(runq := [], registry := map[0 := Asleep, 7 := Held(0)], threads := [Reading(7, Cease), late])
    else idle.(runq := [], registry := map[0 := Asleep], threads := [Serving, late], ended := {7})
  }

  /** The states of that run. */
  function LateWorld(k: nat): World
    requires k <= 11
  {
    var idle := World(-1, [0], map[0 := Queued], [Serving, Serving], NotStarted, false, 0, false, false, {});
    if k < 4 then EarlyWorld(k, idle) else LaterWorld(k, idle)
  }

  lemma LateStep(k: nat)
    requires k < 11
    ensures Leads(LateWorld(k), LateRead(k), LateWorld(k + 1))
  {
    if k < 5 { EarlyLateStep(k); } else { LaterLateStep(k); }
  }

  lemma EarlyLateStep(k: nat)
    requires k < 5
    ensures Leads(LateWorld(k), LateRead(k), LateWorld(k + 1))
  {
  }

  lemma LaterLateStep(k: nat)
    requires 5 <= k < 11
    ensures Leads(LateWorld(k), LateRead(k), LateWorld(k + 1))
  {
  }

  /** `run` reads `task.id()` whatever the flow is. That is safe for exactly the flows with
      which the thread still holds the task; after `Block` the task may be gone. */
  lemma IdReadIsSafe(flow: Flow)
    ensures SafeToRead(flow) <==> flow != Block
  {
    if flow == Block {
      var run, events := LateReadRun(11);
      assert run[11].threads[1] == Reading(7, flow);
    } else {
      forall n: nat, timer: Tid, run: seq<World>, events: seq<Event>, i: nat, w: nat, t: Tid
        {:trigger IsRun(n, timer, run, events), run[i].threads[w], Reading(t, flow)}
        | IsRun(n, timer, run, events) && i < |run| && w < |run[i].threads| && run[i].threads[w] == Reading(t, flow)
        ensures t in run[i].registry
      {
        RunsKeepInv(n, timer, run, events, i);
      }
    }
  }
}
