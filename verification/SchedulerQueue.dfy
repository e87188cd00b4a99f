/** What goes through the run queue, in which order, and what becomes of a task when a thread
    gives it back. */
module SchedulerQueue {
  import opened Options
  import opened SchedulerProtocol

  // ----- giving back -----

  /** The thread has this task and flow back from `Task::sched`. */
  predicate HasBack(p: Thread, t: Tid, flow: Flow) {
    p == Reading(t, flow) || p == LastReading(t, flow)
  }

  /** A task ends exactly in the step in which a thread that has `Cease` back for it takes the
      lock again. */
  lemma TaskEndsExactlyOnCease(n: nat, timer: Tid, run: seq<World>, events: seq<Event>, i: nat, t: Tid)
    requires IsRun(n, timer, run, events) && i < |events| && t !in run[i].ended
    ensures t in run[i + 1].ended <==>
              events[i].Relock? && events[i].w < |run[i].threads| && HasBack(run[i].threads[events[i].w], t, Cease)
  {
    EndsOnCease(run[i], events[i], run[i + 1], t);
  }

  lemma EndsOnCease(s: World, e: Event, u: World, t: Tid)
    requires Leads(s, e, u) && t !in s.ended
    ensures t in u.ended <==> e.Relock? && e.w < |s.threads| && HasBack(s.threads[e.w], t, Cease)
  {
    if !e.Relock? { NobodyEnds(s, e, u); }
  }

  /** A task that yields goes to the end of the run queue, still registered; one that blocks is
      left where it is by then; one that ceases leaves the registry and nobody else does. */
  lemma GivenBackRightly(n: nat, timer: Tid, run: seq<World>, events: seq<Event>, i: nat, w: nat, t: Tid, flow: Flow)
    requires IsRun(n, timer, run, events) && i < |events| && events[i] == Relock(w)
    requires w < |run[i].threads| && HasBack(run[i].threads[w], t, flow)
    ensures var s, u := run[i], run[i + 1];
      && |u.threads| == |s.threads| && u.threads[w] == (if s.threads[w].Reading? then Serving else LastServing)
      && (flow == Yield ==>
            && u.runq == s.runq + [t] && t in u.registry && u.registry[t] == Queued
            && u.registry.Keys == s.registry.Keys && u.ended == s.ended)
      && (flow == Block ==> u.runq == s.runq && u.registry == s.registry && u.ended == s.ended)
      && (flow == Cease ==>
            && u.runq == s.runq && t !in u.registry && u.registry.Keys == s.registry.Keys - {t} && u.ended == s.ended + {t})
  {
    RunsKeepInv(n, timer, run, events, i);
    var s := run[i];
    if flow == Yield { assert HeldBy(s.threads[w]) == Some(t); }
  }

  // ----- first in, first out -----

  /** The tasks that a step queues, in order. */
  function QueuedBy(s: World, e: Event): seq<Tid>
    requires Enabled(s, e)
  {
    match e
    case Spawn(_, t) => [t]
    case SpawnOutside(t) => [t]
    case Resume(t) => [t]
    case Relock(w) => if s.threads[w].flow == Yield then [s.threads[w].task] else []
    case Abort(_, order) => if s.registry == map[] then [] else order
    case _ => []
  }

  /** The task that a thread starts to execute. */
  function StartedBy(s: World, e: Event, u: World): seq<Tid> {
    if MovesThread(e) && e.w < |s.threads| && e.w < |u.threads| && TaskOf(s.threads[e.w]).None? && TaskOf(u.threads[e.w]).Some?
    then [TaskOf(u.threads[e.w]).value] else []
  }

  lemma StepIsFifo(s: World, e: Event, u: World)
    requires Leads(s, e, u)
    ensures s.runq + QueuedBy(s, e) == StartedBy(s, e, u) + u.runq
  {
    match e
    case Serve(w) => ServeIsFifo(s, w);
    case AbortNext(w) => if s.runq != [] { assert s.runq == [s.runq[0]] + s.runq[1..]; }
    case Relock(w) => RelockIsFifo(s, w);
    case Abort(w, order) => AbortIsFifo(s, w, order);
    case _ => OthersAreFifo(s, e, u);
  }

  lemma ServeIsFifo(s: World, w: nat)
    requires Enabled(s, Serve(w))
    ensures s.runq == StartedBy(s, Serve(w), Apply(s, Serve(w))) + Apply(s, Serve(w)).runq
  {
    if s.runq != [] { assert s.runq == [s.runq[0]] + s.runq[1..]; }
  }

  lemma RelockIsFifo(s: World, w: nat)
    requires Enabled(s, Relock(w))
    ensures s.runq + QueuedBy(s, Relock(w)) == StartedBy(s, Relock(w), Apply(s, Relock(w))) + Apply(s, Relock(w)).runq
  {
  }

  lemma AbortIsFifo(s: World, w: nat, order: seq<Tid>)
    requires Enabled(s, Abort(w, order))
    ensures var e := Abort(w, order); s.runq + QueuedBy(s, e) == StartedBy(s, e, Apply(s, e)) + Apply(s, e).runq
  {
  }

  lemma OthersAreFifo(s: World, e: Event, u: World)
    requires Leads(s, e, u) && !e.Serve? && !e.AbortNext? && !e.Relock? && !e.Abort?
    ensures s.runq + QueuedBy(s, e) == StartedBy(s, e, u) + u.runq
  {
    match e
    case Return(_, _) =>
    case Drop =>
    case _ =>
  }

  function QueuedUpTo(run: seq<World>, events: seq<Event>, i: nat): seq<Tid>
    requires i <= |events| < |run|
    requires forall k :: 0 <= k < i ==> Enabled(run[k], events[k])
  {
    if i == 0 then [] else QueuedUpTo(run, events, i - 1) + QueuedBy(run[i - 1], events[i - 1])
  }

  function StartedUpTo(run: seq<World>, events: seq<Event>, i: nat): seq<Tid>
    requires i <= |events| < |run|
  {
    if i == 0 then [] else StartedUpTo(run, events, i - 1) + StartedBy(run[i - 1], events[i - 1], run[i])
  }

  lemma RunIsEnabled(n: nat, timer: Tid, run: seq<World>, events: seq<Event>, i: nat)
    requires IsRun(n, timer, run, events) && i <= |events|
    ensures forall k :: 0 <= k < i ==> Enabled(run[k], events[k])
  {
    forall k | 0 <= k < i ensures Enabled(run[k], events[k]) { assert Leads(run[k], events[k], run[k + 1]); }
  }

  lemma Regroup(a: seq<Tid>, b: seq<Tid>, c: seq<Tid>)
    ensures a + b + c == a + (b + c)
  {
  }

  /** In every run, the tasks that threads have started, followed by the run queue, are the
      tasks that were queued, in that order: each spawned, resumed, grabbed or yielded
      task is started once, after all that were queued before it. */
  lemma {:induction false} RunQueueIsFifo(n: nat, timer: Tid, run: seq<World>, events: seq<Event>, i: nat)
    requires IsRun(n, timer, run, events) && i <= |events|
    ensures forall k :: 0 <= k < i ==> Enabled(run[k], events[k])
    ensures [timer] + QueuedUpTo(run, events, i) == StartedUpTo(run, events, i) + run[i].runq
  {
    RunIsEnabled(n, timer, run, events, i);
    if i > 0 {
      RunQueueIsFifo(n, timer, run, events, i - 1);
      var s, e, u := run[i - 1], events[i - 1], run[i];
      StepIsFifo(s, e, u);
      Regroup([timer], QueuedUpTo(run, events, i - 1), QueuedBy(s, e));
      Regroup(StartedUpTo(run, events, i - 1), s.runq, QueuedBy(s, e));
      Regroup(StartedUpTo(run, events, i - 1), StartedBy(s, e, u), u.runq);
    }
  }

  /** A thread at the head of a loop starts the first task of the queue, if there is one and
      the loop goes on; it leaves the first loop exactly when the runtime is stopping, and the
      second exactly when it has stopped. */
  lemma ServingTakesTheFirst(s: World, w: nat)
    requires Enabled(s, Serve(w))
    ensures var p, q := s.threads[w], Apply(s, Serve(w)).threads[w];
      if p == Serving then
        && (InFirstLoop(q) <==> s.stopped < 0)
        && (s.stopped < 0 ==> q == if s.runq == [] then Serving else Running(s.runq[0]))
      else
        && (InAbortLoop(q) <==> s.stopped != |s.threads|)
        && (s.stopped == |s.threads| ==> q == if s.runq == [] then LastServing else LastRunning(s.runq[0]))
  {
  }

  /** The loop over the registry leaves no task asleep: each is queued, held, or about to be
      queued by a waker. */
  lemma GrabLeavesNobodyAsleep(s: World, w: nat, order: seq<Tid>)
    requires Enabled(s, Abort(w, order))
    ensures AsleepIn(Apply(s, Abort(w, order)).registry) == {}
    ensures Apply(s, Abort(w, order)).registry.Keys == s.registry.Keys
  {
  }

  /** The last thread serves on, and aborts what is left, only after it has told the timer to
      stop. */
  ghost predicate StopIsOut(s: World) {
    forall w :: 0 <= w < |s.threads| && IsLast(s.threads[w]) && s.threads[w] != SendStop ==> s.stopSent
  }

  lemma {:induction false} TimerIsToldToStop(n: nat, timer: Tid, run: seq<World>, events: seq<Event>, i: nat)
    requires IsRun(n, timer, run, events) && i < |run|
    ensures StopIsOut(run[i])
  {
    if i > 0 {
      TimerIsToldToStop(n, timer, run, events, i - 1);
      StopStaysOut(run[i - 1], events[i - 1], run[i]);
    }
  }

  lemma StopStaysOut(s: World, e: Event, t: World)
    requires StopIsOut(s) && Leads(s, e, t)
    ensures StopIsOut(t)
  {
    SameThreads(s, e, t);
    forall w | 0 <= w < |t.threads| && IsLast(t.threads[w]) && t.threads[w] != SendStop ensures t.stopSent {
      if MovesThread(e) && e.w == w { LastHasSent(s, e, t); } else { OthersStay(s, e, t, w); StopSentStays(s, e, t); }
    }
  }

  lemma StopSentStays(s: World, e: Event, t: World)
    requires Leads(s, e, t)
    ensures s.stopSent ==> t.stopSent
  {
    match e
    case Serve(_) =>
    case Relock(_) =>
    case AbortNext(_) =>
    case _ =>
  }

  lemma LastHasSent(s: World, e: Event, t: World)
    requires Leads(s, e, t) && MovesThread(e) && e.w < |s.threads| && e.w < |t.threads|
    requires IsLast(t.threads[e.w]) && t.threads[e.w] != SendStop
    requires IsLast(s.threads[e.w]) && s.threads[e.w] != SendStop ==> s.stopSent
    ensures t.stopSent
  {
    match e
    case Serve(_) =>
    case Relock(_) =>
    case AbortNext(_) =>
    case _ =>
  }
}
