/** One task of `src/task.rs` among the scheduler's threads (`src/runtime.rs`) and the
    wakers of its sessions. A thread that holds the task runs `sched` or `abort` step by
    step; a step is one critical section, or one queue operation of the holder, or one
    action of the coroutine it is running. Joins are the interruptible ones. */
module TaskProtocol {

  import opened Options

  type Co = nat
  type Sid = nat

  datatype Status = Running | Completing | Completed

  /** A blocking join: open, won by a waker that has yet to call `Task::wake`, pushed to
      the unblocking list, or settled by an interrupt or by `unblock`. */
  datatype Phase = Open | Won | Pushed | Interrupted | Handed

  /** `resumes` counts how often the join made its coroutine runnable. */
  datatype Join = Join(co: Co, phase: Phase, resumes: nat)

  /** The fields that only the holder touches, and the joins the coroutines wait on. */
  datatype Task = Task(
    main: Co,
    status: Status,
    yieldFlag: bool,
    running: seq<Co>,
    yielding: seq<Co>,
    suspending: set<Co>,
    blocking: map<Co, Sid>,
    joins: map<Sid, Join>,
    // Coroutines that have not completed, and whether main waits to be run a last time.
    live: set<Co>,
    parked: bool)

  // ----- operations of the holder -----

  predicate Engaged(p: Phase) { p.Open? || p.Won? || p.Pushed? }

  function Settle(t: Task, sid: Sid, p: Phase): Task
    requires sid in t.joins
  {
    t.(joins := t.joins[sid := Join(t.joins[sid].co, p, t.joins[sid].resumes + 1)])
  }

  /** The loop of `unblock` over the list it has taken. */
  function Hand(t: Task, cos: seq<Co>): Task
    decreases |cos|
  {
    if cos == [] then t
    else
      var co := cos[0];
      if co in t.blocking then
        var u := t.(blocking := t.blocking - {co}, running := t.running + [co]);
        Hand(if t.blocking[co] in t.joins then Settle(u, t.blocking[co], Handed) else u, cos[1..])
      else Hand(t, cos[1..])
  }

  /** `self.running_coroutines.extend(self.yielding_coroutines.drain(..))` */
  function DrainYielding(t: Task): Task {
    t.(running := t.running + t.yielding, yielding := [])
  }

  function Resume(t: Task, co: Co): Task {
    if co in t.suspending then t.(suspending := t.suspending - {co}, running := t.running + [co]) else t
  }

  /** One round of the loop of `interrupt` over the blocked coroutines. */
  function InterruptOne(t: Task, co: Co): Task {
    if co in t.blocking && t.blocking[co] in t.joins && t.joins[t.blocking[co]].phase == Open then
      Settle(t.(blocking := t.blocking - {co}, running := t.running + [co]), t.blocking[co], Interrupted)
    else t
  }

  function Spawn(t: Task, co: Co): Task {
    if t.status != Running then t else t.(running := t.running + [co], live := t.live + {co})
  }

  // ----- threads -----

  /** Why `abort` was called, which decides where it returns to. */
  datatype Cause = MainTerminated | Deadlock | Shutdown

  datatype Mode = InSched | InAbort(cause: Cause)

  /** Where a thread that holds the task is. */
  datatype Pc =
    | Enter                                   // popped from the run queue
    | Loop                                    // head of the loop of `sched`
    | Exec(co: Co, join: Option<Sid>, mode: Mode)
    | AbortHead(cause: Cause)                 // head of the loop of `abort`
    | AbortSuspending(cause: Cause)
    | AbortBlocking(cause: Cause, todo: set<Co>)
    | AbortUnblock(cause: Cause)
    | AbortDrain(cause: Cause)
    | FinalMain(cause: Cause)                 // about to run main a last time
    | Decide                                  // the flow `sched` returns
    | Requeue                                 // returned Yield, about to push the task
    | Remove                                  // ceased, about to leave the registry
    | Crashed(co: Co)                         // a panic has left the entry function of a coroutine

  datatype World = World(
    task: Task,
    awake: bool,            // `Task::running`, guarded by the unblocking mutex
    unblocking: seq<Co>,
    queued: nat,            // occurrences in the run queue
    resuming: nat,          // wakers between `Task::wake` and `Scheduler::resume`
    workers: map<nat, Pc>,  // the threads that hold the task
    scope: set<nat>,        // the threads whose `TASK` is this task
    ceased: bool)

  function Initial(main: Co): World {
    World(Task(main, Running, false, [main], [], {}, map[], map[], {main}, false), true, [], 1, 0, map[], {}, false)
  }

  /** What a running coroutine does next. */
  datatype Action =
    | DoSpawn(child: Co) | DoResume(other: Co) | DoPublish(sid: Sid)
    | DoYield | DoYieldTask | DoSuspend | DoBlock | DoPark | DoFinish

  datatype Event =
    | Pop(w: nat)                 // a serving thread takes the task from the run queue
    | PopToAbort(w: nat)          // the last thread does, after everything else stopped
    | Grab                        // `Task::grab` followed by the push to the run queue
    | Step(w: nat)                // the holder goes on by itself
    | Pick(w: nat, co: Co)        // ... with the next entry of a hash map
    | Act(w: nat, a: Action)      // the running coroutine acts
    | Win(sid: Sid)               // a waker wins the session
    | Wake(sid: Sid)              // ... and calls `Task::wake`
    | ResumeTask                  // ... and `Scheduler::resume` if it has to

  predicate Allowed(t: Task, p: Pc, a: Action)
    requires p.Exec?
  {
    match a
    case DoSpawn(child) => p.join.None? && child !in t.live
    case DoResume(_) => p.join.None?
    case DoPublish(sid) => p.join.None? && sid !in t.joins
    case DoYield => p.join.None?
    case DoYieldTask => p.join.None?
    case DoSuspend => p.join.None?
    case DoBlock => p.join.Some?
    case DoPark => p.join.None? && p.co == t.main && t.status == Running
    case DoFinish => p.join.None? && p.co != t.main
  }

  predicate Enabled(s: World, e: Event) {
    match e
    case Pop(w) => s.queued > 0 && w !in s.workers
    case PopToAbort(w) => s.queued > 0 && w !in s.workers
    case Grab => !s.ceased
    case Step(w) =>
      w in s.workers && !s.workers[w].Exec? && !s.workers[w].Crashed?
      && (s.workers[w].AbortSuspending? ==> s.task.suspending == {})
      && (s.workers[w].AbortBlocking? ==> s.workers[w].todo == {})
    case Pick(w, co) =>
      w in s.workers
      && (|| (s.workers[w].AbortSuspending? && co in s.task.suspending)
          || (s.workers[w].AbortBlocking? && co in s.workers[w].todo))
    case Act(w, a) => w in s.workers && s.workers[w].Exec? && Allowed(s.task, s.workers[w], a)
    case Win(sid) => sid in s.task.joins && s.task.joins[sid].phase == Open
    case Wake(sid) => sid in s.task.joins && s.task.joins[sid].phase == Won
    case ResumeTask => s.resuming > 0
  }

  function At(s: World, w: nat, p: Pc): World { s.(workers := s.workers[w := p]) }

  function Leave(s: World, w: nat): World { s.(workers := s.workers - {w}) }

  /** The end of `sched`: the scope is dropped. */
  function Exit(s: World, w: nat): World { s.(scope := s.scope - {w}) }

  function Back(mode: Mode): Pc {
    match mode
    case InSched => Loop
    case InAbort(cause) => AbortDrain(cause)
  }

  /** `Task::unblock` */
  function Unblock(s: World, block: bool): (World, bool) {
    if s.task.blocking == map[] then (s, false)
    else if block && s.unblocking == [] then (s.(awake := false), false)
    else (s.(task := Hand(s.task, s.unblocking), unblocking := []), true)
  }

  /** Where the loop of `abort` goes on after `interrupt`. */
  function AfterInterrupt(t: Task, cause: Cause): Pc {
    if t.running != [] then AbortDrain(cause) else if t.blocking != map[] then AbortHead(cause) else FinalMain(cause)
  }

  /** The flow `sched` returns, and what the thread does with it. */
  function Decided(s: World, w: nat): World {
    if s.task.yielding != [] then At(Exit(s, w), w, Requeue)
    else if s.task.blocking == map[] then
      if s.task.suspending != {} then At(s, w, AbortHead(Deadlock)) else At(Exit(s, w), w, Remove)
    else
      var (v, again) := Unblock(s, true);
      if again then At(Exit(v, w), w, Requeue) else Leave(Exit(v, w), w)
  }

  function StepHolder(s: World, w: nat): World
    requires Enabled(s, Step(w))
  {
    var t := s.task;
    match s.workers[w]
    case Enter => At(Unblock(s.(task := DrainYielding(t)), false).0, w, Loop)
    case Loop =>
      if !t.yieldFlag && t.status == Running && t.running != [] then
        At(s.(task := t.(running := t.running[1..])), w, Exec(t.running[0], None, InSched))
      else At(s, w, if t.status == Completing then AbortHead(MainTerminated) else Decide)
    case Decide => Decided(s.(task := t.(yieldFlag := false)), w)
    case Requeue => Leave(s.(queued := s.queued + 1), w)
    case Remove => Leave(s.(ceased := true), w)
    case AbortHead(cause) => At(s.(task := DrainYielding(t)), w, AbortSuspending(cause))
    case AbortSuspending(cause) => At(s, w, AbortBlocking(cause, t.blocking.Keys))
    case AbortBlocking(cause, _) => At(s, w, AbortUnblock(cause))
    case AbortUnblock(cause) =>
      var u := Unblock(s, false).0;
      At(u, w, AfterInterrupt(u.task, cause))
    case AbortDrain(cause) =>
      if t.running == [] then At(s, w, AbortHead(cause))
      else At(s.(task := t.(running := t.running[1..])), w, Exec(t.running[0], None, InAbort(cause)))
    case FinalMain(cause) =>
      var u := s.(task := t.(status := Completed, live := t.live - {t.main}, parked := false));
      if cause == MainTerminated then At(u, w, Decide) else At(Exit(u, w), w, Remove)
    case Exec(_, _, _) => s
    case Crashed(_) => s
  }

  /** Without a current task, spawning, yielding, suspending and resuming panic inside the
      coroutine, a session blocks the thread instead of the coroutine, and main, whose
      closure asks for its task outside of `catch_unwind`, panics out of its entry. */
  function ActWithoutTask(s: World, w: nat, a: Action): World
    requires Enabled(s, Act(w, a))
  {
    if a.DoPark? then At(s, w, Crashed(s.workers[w].co)) else s
  }

  function ActHolder(s: World, w: nat, a: Action): World
    requires Enabled(s, Act(w, a))
  {
    var t := s.task;
    var p := s.workers[w];
    if w !in s.scope && !a.DoBlock? && !a.DoFinish? then ActWithoutTask(s, w, a) else
    match a
    case DoSpawn(child) => s.(task := Spawn(t, child))
    case DoResume(other) => s.(task := Resume(t, other))
    case DoPublish(sid) =>
      At(s.(task := t.(joins := t.joins[sid := Join(p.co, Open, 0)])), w, Exec(p.co, Some(sid), p.mode))
    case DoYield =>
      if t.status != Running then s else At(s.(task := t.(yielding := t.yielding + [p.co])), w, Back(p.mode))
    case DoYieldTask =>
      var u := t.(yieldFlag := true);
      if t.status != Running then s.(task := u) else At(s.(task := u.(yielding := t.yielding + [p.co])), w, Back(p.mode))
    case DoSuspend => At(s.(task := t.(suspending := t.suspending + {p.co})), w, Back(p.mode))
    case DoBlock => At(s.(task := t.(blocking := t.blocking[p.co := p.join.value])), w, Back(p.mode))
    case DoPark => At(s.(task := t.(status := Completing, parked := true)), w, Back(p.mode))
    case DoFinish => At(s.(task := t.(live := t.live - {p.co})), w, Back(p.mode))
  }

  function Apply(s: World, e: Event): World
    requires Enabled(s, e)
  {
    match e
    case Pop(w) => At(s.(queued := s.queued - 1, scope := s.scope + {w}), w, Enter)
    case PopToAbort(w) => At(s.(queued := s.queued - 1), w, AbortHead(Shutdown))
    case Grab => if s.awake then s else s.(awake := true, queued := s.queued + 1)
    case Step(w) => StepHolder(s, w)
    case Pick(w, co) =>
      (match s.workers[w]
       case AbortBlocking(cause, todo) =>
         At(s.(task := InterruptOne(s.task, co)), w, AbortBlocking(cause, todo - {co}))
       case _ => s.(task := Resume(s.task, co)))
    case Act(w, a) => ActHolder(s, w, a)
    case Win(sid) => s.(task := s.task.(joins := s.task.joins[sid := s.task.joins[sid].(phase := Won)]))
    case Wake(sid) =>
      var t := s.task.(joins := s.task.joins[sid := s.task.joins[sid].(phase := Pushed)]);
      var u := s.(task := t, unblocking := s.unblocking + [t.joins[sid].co]);
      if s.unblocking == [] && !s.awake then u.(awake := true, resuming := s.resuming + 1) else u
    case ResumeTask => s.(resuming := s.resuming - 1, queued := s.queued + 1)
  }

  // ----- the invariant -----

  function Current(p: Option<Pc>): multiset<Co> {
    if p.Some? && (p.value.Exec? || p.value.Crashed?) then multiset{p.value.co} else multiset{}
  }

  /** What each coroutine waits for, the join that the running one has published included. */
  function Waits(t: Task, p: Option<Pc>): map<Co, Sid> {
    if p.Some? && p.value.Exec? && p.value.join.Some? then t.blocking[p.value.co := p.value.join.value]
    else t.blocking
  }

  function Parked(t: Task): multiset<Co> {
    if t.parked then multiset{t.main} else multiset{}
  }

  function Placed(t: Task): multiset<Co> {
    multiset(t.running) + multiset(t.yielding) + multiset(t.suspending) + multiset(t.blocking.Keys) + Parked(t)
  }

  /** Every live coroutine is in exactly one place. */
  ghost predicate Partition(t: Task, current: multiset<Co>) {
    Placed(t) + current == multiset(t.live)
  }

  /** A join is engaged exactly while its coroutine is blocked on it or about to be, and
      has made the coroutine runnable exactly once afterwards. */
  ghost predicate Engagement(joins: map<Sid, Join>, waits: map<Co, Sid>) {
    && (forall co :: co in waits ==> waits[co] in joins && joins[waits[co]].co == co && Engaged(joins[waits[co]].phase))
    && (forall sid :: sid in joins ==>
          if Engaged(joins[sid].phase) then joins[sid].co in waits && waits[joins[sid].co] == sid && joins[sid].resumes == 0
          else joins[sid].resumes == 1)
  }

  predicate IsPushed(joins: map<Sid, Join>, waits: map<Co, Sid>, co: Co) {
    co in waits && waits[co] in joins && joins[waits[co]].phase == Pushed
  }

  /** The unblocking list holds, once each, the coroutines whose join was pushed. */
  ghost predicate Listed(joins: map<Sid, Join>, waits: map<Co, Sid>, unblocking: seq<Co>) {
    && (forall co :: co in unblocking <==> IsPushed(joins, waits, co))
    && (forall i, j :: 0 <= i < j < |unblocking| ==> unblocking[i] != unblocking[j])
  }

  ghost predicate JoinsOk(joins: map<Sid, Join>, waits: map<Co, Sid>, unblocking: seq<Co>) {
    Engagement(joins, waits) && Listed(joins, waits, unblocking)
  }

  /** What each point of `sched` and `abort` knows. */
  ghost predicate PcOk(t: Task, p: Pc) {
    match p
    case Enter => t.status == Running && !t.yieldFlag
    case Loop => t.status != Completed && (t.status == Running && t.yieldFlag ==> t.yielding != [])
    case Exec(_, _, InSched) => t.status == Running && (t.yieldFlag ==> t.yielding != [])
    case Exec(_, join, InAbort(cause)) => AbortOk(t, cause) && (cause == Shutdown ==> join.None?)
    case AbortHead(cause) => AbortOk(t, cause)
    case AbortSuspending(cause) => AbortOk(t, cause) && t.yielding == []
    case AbortBlocking(cause, _) => AbortOk(t, cause) && t.yielding == [] && t.suspending == {}
    case AbortUnblock(cause) => AbortOk(t, cause) && t.yielding == [] && t.suspending == {}
    case AbortDrain(cause) => AbortOk(t, cause)
    case FinalMain(cause) =>
      && AbortOk(t, cause) && cause != Shutdown
      && t.yielding == [] && t.suspending == {} && t.running == [] && t.blocking == map[]
    case Decide =>
      if t.status == Completed then t.live == {} else t.status == Running && (t.running == [] || t.yielding != [])
    case Requeue => t.status == Running && !t.yieldFlag
    case Remove => t.status == Completed && t.live == {}
    case Crashed(co) => t.status == Running && co == t.main
  }

  /** The thread is inside `sched`, which has entered the scope of the task. */
  predicate InsideSched(p: Pc) {
    match p
    case Enter => true
    case Loop => true
    case Decide => true
    case Exec(_, _, InSched) => true
    case Exec(_, _, InAbort(cause)) => cause != Shutdown
    case AbortHead(cause) => cause != Shutdown
    case AbortSuspending(cause) => cause != Shutdown
    case AbortBlocking(cause, _) => cause != Shutdown
    case AbortUnblock(cause) => cause != Shutdown
    case AbortDrain(cause) => cause != Shutdown
    case FinalMain(cause) => cause != Shutdown
    case _ => false
  }

  predicate AbortOk(t: Task, cause: Cause) {
    && t.status != Completed
    && (cause == MainTerminated ==> t.status == Completing)
    && (cause == Shutdown ==> t.status == Running)
  }

  /** Main is live until it has completed, and parked between its two last runs. */
  ghost predicate MainOk(t: Task) {
    (t.status == Completed <==> t.main !in t.live) && (t.parked <==> t.status == Completing)
  }

  /** The task between two actions of coroutines. */
  ghost predicate Quiet(t: Task, unblocking: seq<Co>) {
    Partition(t, multiset{}) && JoinsOk(t.joins, t.blocking, unblocking) && MainOk(t)
  }

  /** A task that nobody holds is over, or between two calls of `sched`; it sleeps only
      with nothing to run and somebody blocked. */
  ghost predicate RestOk(t: Task, ceased: bool, awake: bool) {
    && (if ceased then t.status == Completed && t.live == {} else t.status == Running && !t.yieldFlag)
    && (!awake ==> t.running == [] && t.yielding == [] && t.blocking != map[])
  }

  ghost predicate Good(s: World, p: Option<Pc>) {
    && Partition(s.task, Current(p))
    && JoinsOk(s.task.joins, Waits(s.task, p), s.unblocking)
    && MainOk(s.task)
    && (if p.Some? then PcOk(s.task, p.value) else RestOk(s.task, s.ceased, s.awake))
  }

  /** `running` is up exactly while one party is responsible for the task. */
  ghost predicate Token(s: World) {
    && s.queued + s.resuming + |s.workers.Keys| + (if s.ceased then 1 else 0) == (if s.awake then 1 else 0)
    && (!s.awake ==> s.unblocking == [])
  }

  ghost predicate Scoped(s: World) {
    s.scope == set w | w in s.workers && InsideSched(s.workers[w])
  }

  ghost predicate Inv(s: World) {
    && Token(s) && Scoped(s)
    && (s.workers.Keys == {} ==> Good(s, None))
    && (forall w :: w in s.workers ==> Good(s, Some(s.workers[w])))
  }

  lemma InitialInv(main: Co)
    ensures Inv(Initial(main))
  {
  }

  lemma OnlyHolder(s: World, w: nat)
    requires Token(s) && w in s.workers
    ensures s.workers.Keys == {w} && s.queued == 0 && s.resuming == 0 && !s.ceased && s.awake
  {
    assert |s.workers.Keys - {w}| == |s.workers.Keys| - 1;
    assert s.workers.Keys - {w} == {};
  }
}
