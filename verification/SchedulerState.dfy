/** The fields of `SchedulerState` in `src/runtime.rs` and the sections of `Scheduler` that
    hold its lock. Each computes the step of thread `w` in the scheduler's state machine:
    `s` is the state before, and the section leaves the state after. */
module SchedulerState {
  import opened Options
  import opened SchedulerProtocol

  class SharedState {
    var runq: seq<Tid>
    var registry: map<Tid, Where>
    // -1: running, 0: start stopping, n: n stopped threads
    var stopped: int

    constructor ()
      ensures runq == [] && registry == map[] && stopped == -1
    {
      runq, registry, stopped := [], map[], -1;
    }

    ghost predicate Shows(s: World)
      reads this
    {
      runq == s.runq && registry == s.registry && stopped == s.stopped
    }

    /** `Scheduler::stop` */
    method Stop(ghost s: World)
      requires Shows(s) && Enabled(s, Drop) && (s.dropper == NotStarted || s.dropper == SecondStop)
      modifies this`stopped
      ensures Shows(Apply(s, Drop))
    {
      stopped := stopped + 1;
    }

    /** `Scheduler::sched` */
    method Sched(task: Tid, ghost s: World)
      requires Shows(s) && Enabled(s, SpawnOutside(task))
      modifies this`runq, this`registry
      ensures Shows(Apply(s, SpawnOutside(task)))
    {
      registry := registry[task := Queued];
      runq := runq + [task];
    }

    /** `Scheduler::resume` */
    method Resume(task: Tid, ghost s: World)
      requires Shows(s) && Enabled(s, SchedulerProtocol.Resume(task))
      modifies this`runq, this`registry
      ensures Shows(Apply(s, SchedulerProtocol.Resume(task)))
    {
      registry := registry[task := Queued];
      runq := runq + [task];
    }

    method Pop(w: nat) returns (task: Option<Tid>)
      modifies this`runq, this`registry
      ensures task.None? <==> old(runq) == []
      ensures task.None? ==> runq == old(runq) && registry == old(registry)
      ensures task.Some? ==> [task.value] + runq == old(runq) && registry == old(registry)[task.value := Held(w)]
    {
      if |runq| == 0 { return None; }
      task := Some(runq[0]);
      runq, registry := runq[1..], registry[runq[0] := Held(w)];
    }

    /** A turn of the first loop of `serve`, up to the unlocking in `run`, or its end. */
    method ServeTurn(w: nat, parallelism: nat, ghost s: World) returns (next: Thread)
      requires Shows(s) && Enabled(s, Serve(w)) && s.threads[w] == Serving && parallelism == |s.threads|
      modifies this
      ensures Shows(Apply(s, Serve(w))) && Apply(s, Serve(w)).threads[w] == next
    {
      if stopped < 0 {
        var task := Pop(w);
        return if task.Some? then Running(task.value) else Serving;
      }
      stopped := stopped + 1;
      return if stopped != parallelism then Finished else SendStop;
    }

    /** A turn of the second loop. */
    method LastTurn(w: nat, parallelism: nat, ghost s: World) returns (next: Thread)
      requires Shows(s) && Enabled(s, Serve(w)) && s.threads[w] == LastServing && parallelism == |s.threads|
      modifies this
      ensures Shows(Apply(s, Serve(w))) && Apply(s, Serve(w)).threads[w] == next
    {
      if stopped == parallelism {
        var task := Pop(w);
        return if task.Some? then LastRunning(task.value) else LastServing;
      }
      return AbortHead;
    }

    /** What `run` does with the flow. */
    method GiveBack(w: nat, task: Tid, flow: Flow, ghost s: World)
      requires Shows(s) && Enabled(s, Relock(w)) && s.threads[w].task == task && s.threads[w].flow == flow
      modifies this`runq, this`registry
      ensures Shows(Apply(s, Relock(w)))
    {
      match flow {
        case Yield =>
          runq := runq + [task];
          registry := registry[task := Queued];
        case Block =>
        case Cease => registry := registry - {task};
      }
    }

    /** Queues every registered task whose `grab` succeeds, in the order in which the hash
        map gives them. */
    method GrabAll() returns (ghost order: seq<Tid>)
      modifies this`runq, this`registry
      ensures multiset(order) == multiset(AsleepIn(old(registry)))
      ensures runq == old(runq) + order
      ensures registry == GrabbedBut(old(registry), {})
    {
      order := [];
      ghost var before := registry;
      var tasks := registry.Keys;
      NoneGrabbed(before);
      while tasks != {}
        invariant tasks <= before.Keys && registry == GrabbedBut(before, tasks)
        invariant multiset(order) == multiset(AsleepIn(before) - tasks)
        invariant runq == old(runq) + order
        decreases tasks
      {
        var t :| t in tasks;
        OneMoreGrabbed(before, tasks, t);
        // `Task::grab`
        if registry[t] == Asleep {
          registry := registry[t := Queued];
          runq := runq + [t];
          order := order + [t];
        }
        tasks := tasks - {t};
      }
      assert AsleepIn(before) - tasks == AsleepIn(before);
    }

    /** A turn of the loop over the registry. */
    method AbortTurn(w: nat, ghost s: World) returns (next: Thread, ghost order: seq<Tid>)
      requires Shows(s) && w < |s.threads| && s.threads[w] == AbortHead
      modifies this`runq, this`registry
      ensures Enabled(s, Abort(w, order))
      ensures Shows(Apply(s, Abort(w, order))) && Apply(s, Abort(w, order)).threads[w] == next
    {
      order := GrabAll();
      if |registry| == 0 {
        assert s.registry.Keys == {};
        assert order == [] by { assert |multiset(order)| == |order|; }
        return LastFinished, order;
      }
      return AbortPop, order;
    }

    /** A turn of the loop over the run queue. */
    method AbortNextTurn(w: nat, ghost s: World) returns (next: Thread)
      requires Shows(s) && Enabled(s, AbortNext(w))
      modifies this`runq, this`registry
      ensures Shows(Apply(s, AbortNext(w))) && Apply(s, AbortNext(w)).threads[w] == next
    {
      var task := Pop(w);
      return if task.Some? then Aborting(task.value) else AbortHead;
    }
  }

  /** The registry when `grab` has been called on all but some tasks. */
  function GrabbedBut(before: map<Tid, Where>, tasks: set<Tid>): map<Tid, Where> {
    map t | t in before :: if before[t] == Asleep && t !in tasks then Queued else before[t]
  }

  lemma NoneGrabbed(before: map<Tid, Where>)
    ensures GrabbedBut(before, before.Keys) == before
    ensures AsleepIn(before) - before.Keys == {}
  {
  }

  lemma OneMoreGrabbed(before: map<Tid, Where>, tasks: set<Tid>, t: Tid)
    requires t in tasks && tasks <= before.Keys
    ensures GrabbedBut(before, tasks)[t] == before[t]
    ensures GrabbedBut(before, tasks - {t}) ==
              if before[t] == Asleep then GrabbedBut(before, tasks)[t := Queued] else GrabbedBut(before, tasks)
    ensures multiset(AsleepIn(before) - (tasks - {t})) ==
              multiset(AsleepIn(before) - tasks) + if before[t] == Asleep then multiset{t} else multiset{}
  {
    assert AsleepIn(before) - (tasks - {t}) == (AsleepIn(before) - tasks) + if before[t] == Asleep then {t} else {};
  }
}
