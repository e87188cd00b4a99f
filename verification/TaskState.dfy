/** The fields and methods of `Task` in `src/task.rs`. Each method computes the step of the
    same name of the task's state machine. */
module TaskState {
  import opened TaskProtocol

  class TaskCell {
    const main: Co
    var status: Status
    var yieldFlag: bool
    var running: seq<Co>
    var yielding: seq<Co>
    var suspending: set<Co>
    var blocking: map<Co, Sid>
    var unblocking: seq<Co>
    // `Task::running`
    var awake: bool
    // The sessions that the coroutines wait on.
    var joins: map<Sid, Join>
    ghost var live: set<Co>
    ghost var parked: bool

    ghost function Abs(): Task
      reads this
    {
      Task(main, status, yieldFlag, running, yielding, suspending, blocking, joins, live, parked)
    }

    /** The task as the state machine sees it, without the threads and the run queue. */
    ghost function View(): World
      reads this
    {
      World(Abs(), awake, unblocking, 0, 0, map[], {}, false)
    }

    /** `Task::with_main`; `Scheduler::sched` then queues the task once. */
    constructor (main: Co)
      ensures View() == Initial(main).(queued := 0)
    {
      this.main := main;
      status, yieldFlag, running, yielding := Running, false, [main], [];
      suspending, blocking, unblocking, awake, joins := {}, map[], [], true, map[];
      live, parked := {main}, false;
    }

    /** `Task::unblock` */
    method Unblock(block: bool) returns (unblocked: bool)
      modifies this
      ensures (View(), unblocked) == TaskProtocol.Unblock(old(View()), block)
    {
      if |blocking| == 0 { return false; }
      var taken := unblocking;
      unblocking := [];
      if block && |taken| == 0 {
        awake := false;
        return false;
      }
      ghost var goal := Hand(Abs(), taken);
      var i := 0;
      while i < |taken|
        invariant 0 <= i <= |taken|
        invariant Hand(Abs(), taken[i..]) == goal
        invariant unblocking == [] && awake == old(awake)
      {
        var co := taken[i];
        assert taken[i..][0] == co && taken[i..][1..] == taken[i + 1..];
        if co in blocking {
          var sid := blocking[co];
          blocking, running := blocking - {co}, running + [co];
          if sid in joins { joins := joins[sid := Join(joins[sid].co, Handed, joins[sid].resumes + 1)]; }
        }
        i := i + 1;
      }
      assert taken[i..] == [];
      return true;
    }

    /** The first loop of `Task::interrupt`. */
    method InterruptYielding()
      modifies this`running, this`yielding
      ensures Abs() == DrainYielding(old(Abs()))
    {
      var i := 0;
      while i < |yielding|
        invariant 0 <= i <= |yielding| && yielding == old(yielding)
        invariant running == old(running) + yielding[..i]
      {
        running := running + [yielding[i]];
        i := i + 1;
      }
      assert yielding[..i] == yielding;
      yielding := [];
    }

    /** The second loop of `Task::interrupt`; `order` is the order in which the hash map
        gave its entries. */
    method InterruptSuspending() returns (ghost order: seq<Co>)
      modifies this`running, this`suspending
      ensures multiset(order) == multiset(old(suspending)) && suspending == {}
      ensures Abs() == ResumeAll(old(Abs()), order)
    {
      order := [];
      while suspending != {}
        invariant Abs() == ResumeAll(old(Abs()), order)
        invariant multiset(order) + multiset(suspending) == multiset(old(suspending))
        decreases suspending
      {
        var co :| co in suspending;
        suspending, running := suspending - {co}, running + [co];
        order := order + [co];
        assert order[..|order| - 1] + [co] == order;
      }
    }

    /** The third: it removes the coroutines whose session `interrupt` wins. */
    method InterruptBlocking() returns (ghost order: seq<Co>)
      modifies this`running, this`blocking, this`joins
      ensures multiset(order) == multiset(old(blocking).Keys)
      ensures Abs() == InterruptAll(old(Abs()), order)
    {
      order := [];
      var todo := blocking.Keys;
      while todo != {}
        invariant todo <= blocking.Keys
        invariant Abs() == InterruptAll(old(Abs()), order)
        invariant multiset(order) + multiset(todo) == multiset(old(blocking).Keys)
        decreases todo
      {
        var co :| co in todo;
        var sid := blocking[co];
        if sid in joins && joins[sid].phase == Open {
          blocking, running := blocking - {co}, running + [co];
          joins := joins[sid := Join(joins[sid].co, Interrupted, joins[sid].resumes + 1)];
        }
        todo := todo - {co};
        order := order + [co];
        assert order[..|order| - 1] + [co] == order;
      }
    }

    /** `Task::interrupt` */
    method Interrupt() returns (ghost suspended: seq<Co>, ghost blocked: seq<Co>)
      modifies this
      ensures multiset(suspended) == multiset(old(suspending)) && multiset(blocked) == multiset(old(blocking).Keys)
      ensures View() == TaskProtocol.Unblock(old(View()).(task := InterruptedTask(old(Abs()), suspended, blocked)), false).0
    {
      InterruptYielding();
      suspended := InterruptSuspending();
      blocked := InterruptBlocking();
      var _ := Unblock(false);
    }

    /** `Task::grab`: the caller queues the task if the answer is true. */
    method Grab() returns (won: bool)
      modifies this`awake
      ensures View() == Apply(old(View()), TaskProtocol.Grab).(queued := 0)
      ensures Apply(old(View()), TaskProtocol.Grab).queued == if won then 1 else 0
    {
      won := !awake;
      awake := true;
    }

    /** `Task::wake`: the caller goes on to `Scheduler::resume` if the answer is true. */
    method Wake(sid: Sid) returns (waking: bool)
      requires Enabled(View(), TaskProtocol.Wake(sid))
      modifies this`awake, this`unblocking, this`joins
      ensures View() == Apply(old(View()), TaskProtocol.Wake(sid)).(resuming := 0)
      ensures Apply(old(View()), TaskProtocol.Wake(sid)).resuming == if waking then 1 else 0
    {
      waking := |unblocking| == 0 && !awake;
      if waking { awake := true; }
      unblocking := unblocking + [joins[sid].co];
      joins := joins[sid := joins[sid].(phase := Pushed)];
    }

    /** `Task::resume` */
    method Resume(co: Co)
      modifies this`suspending, this`running
      ensures Abs() == TaskProtocol.Resume(old(Abs()), co)
    {
      if co in suspending {
        suspending := suspending - {co};
        running := running + [co];
      }
    }

    /** `Task::spawn` */
    method Spawn(co: Co)
      modifies this`running, this`live
      ensures Abs() == TaskProtocol.Spawn(old(Abs()), co)
    {
      if status != Running { return; }
      running := running + [co];
      live := live + {co};
    }

    /** `Task::yield_coroutine`, called by the coroutine that thread `w` runs: the task makes the
        step of the state machine, and the answer is whether the thread goes on without
        the coroutine. */
    method YieldCoroutine(co: Co, ghost s: World, ghost w: nat) returns (suspends: bool)
      requires s.task == Abs() && Enabled(s, Act(w, DoYield)) && w in s.scope && s.workers[w].co == co
      modifies this`yielding
      ensures Abs() == ActHolder(s, w, DoYield).task
      ensures suspends <==> ActHolder(s, w, DoYield).workers[w] == Back(s.workers[w].mode)
    {
      if status != Running { return false; }
      yielding := yielding + [co];
      return true;
    }
  }

  /** The rounds of `interrupt` over entries in the given order. */
  function ResumeAll(t: Task, order: seq<Co>): Task {
    if order == [] then t else Resume(ResumeAll(t, order[..|order| - 1]), order[|order| - 1])
  }

  function InterruptAll(t: Task, order: seq<Co>): Task {
    if order == [] then t else InterruptOne(InterruptAll(t, order[..|order| - 1]), order[|order| - 1])
  }

  /** The task when `interrupt` comes to unblock what the wakers have pushed. */
  function InterruptedTask(t: Task, suspended: seq<Co>, blocked: seq<Co>): Task {
    InterruptAll(ResumeAll(DrainYielding(t), suspended), blocked)
  }

  lemma {:induction false} ResumeAllTakesAll(t: Task, order: seq<Co>)
    requires forall i :: 0 <= i < |order| ==> order[i] in t.suspending
    requires forall i, j :: 0 <= i < j < |order| ==> order[i] != order[j]
    ensures var u := ResumeAll(t, order);
      && u.running == t.running + order
      && u == t.(running := u.running, suspending := u.suspending)
      && (forall co :: co in u.suspending <==> co in t.suspending && co !in order)
  {
    if order != [] {
      var init, last := order[..|order| - 1], order[|order| - 1];
      ResumeAllTakesAll(t, init);
      assert order == init + [last];
      assert last !in init;
    }
  }

  /** A coroutine that is blocked and was asked waits on a session that somebody has won. */
  ghost predicate AskedAll(t: Task, order: seq<Co>, before: Task) {
    forall co :: co in t.blocking ==>
      && co in before.blocking && t.blocking[co] == before.blocking[co]
      && (co in order && t.blocking[co] in t.joins ==> t.joins[t.blocking[co]].phase != Open)
  }

  lemma {:induction false} InterruptAllAsksAll(t: Task, order: seq<Co>)
    ensures AskedAll(InterruptAll(t, order), order, t)
    ensures t.running <= InterruptAll(t, order).running
  {
    if order != [] {
      var init, last := order[..|order| - 1], order[|order| - 1];
      InterruptAllAsksAll(t, init);
      assert order == init + [last];
    }
  }

  /** What `interrupt` leaves, whatever the order of the hash maps: nobody yields or suspends,
      everybody who did is runnable, and whoever is still blocked waits on a session that a
      waker has won. */
  lemma InterruptLeavesOnlyTheWon(t: Task, suspended: seq<Co>, blocked: seq<Co>)
    requires multiset(suspended) == multiset(t.suspending) && multiset(blocked) == multiset(t.blocking.Keys)
    ensures var u := InterruptedTask(t, suspended, blocked);
      && t.running + t.yielding + suspended <= u.running
      && (forall co :: co in u.blocking ==>
            co in t.blocking && (u.blocking[co] in u.joins ==> u.joins[u.blocking[co]].phase != Open))
    ensures InterruptedTask(t, suspended, []).suspending == {} && InterruptedTask(t, suspended, []).yielding == []
  {
    InOrderOfTheSet(t.suspending, suspended);
    ResumeAllTakesAll(DrainYielding(t), suspended);
    InterruptAllAsksAll(ResumeAll(DrainYielding(t), suspended), blocked);
    InOrderOfTheSet(t.blocking.Keys, blocked);
  }

  lemma InOrderOfTheSet(xs: set<Co>, order: seq<Co>)
    requires multiset(order) == multiset(xs)
    ensures forall co :: co in order <==> co in xs
    ensures forall i, j :: 0 <= i < j < |order| ==> order[i] != order[j]
  {
    forall co ensures co in order <==> co in xs {
      assert co in order <==> co in multiset(order);
      assert co in multiset(xs) <==> co in xs;
    }
    forall i, j | 0 <= i < j < |order| ensures order[i] != order[j] {
      assert order == order[..j] + [order[j]] + order[j + 1..];
      assert order[..j][i] == order[i];
      assert multiset(order)[order[j]] <= 1;
    }
  }
}
