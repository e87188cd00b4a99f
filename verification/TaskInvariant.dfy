/** Every step of a holder, of the scheduler and of a waker keeps the invariant of a task. */
module TaskInvariant {
  import opened Options
  import opened TaskProtocol

  // ----- moves between the places -----

  lemma PopFront(xs: seq<Co>)
    requires xs != []
    ensures multiset(xs) == multiset{xs[0]} + multiset(xs[1..])
  {
    assert xs == [xs[0]] + xs[1..];
  }

  lemma BlockedToRunning(t: Task, co: Co, joins: map<Sid, Join>)
    requires co in t.blocking
    ensures Placed(t.(blocking := t.blocking - {co}, running := t.running + [co], joins := joins)) == Placed(t)
  {
    assert (t.blocking - {co}).Keys == t.blocking.Keys - {co};
    assert multiset(t.blocking.Keys) == multiset(t.blocking.Keys - {co}) + multiset{co};
  }

  /** A join whose coroutine is made runnable stops waiting. */
  lemma SettleKeeps(joins: map<Sid, Join>, waits: map<Co, Sid>, co: Co, p: Phase)
    requires Engagement(joins, waits) && co in waits && !Engaged(p)
    ensures Engagement(joins[waits[co] := Join(co, p, joins[waits[co]].resumes + 1)], waits - {co})
  {
  }

  /** Taking the head of the unblocking list and settling its join leaves the tail listed. */
  lemma ListedTail(joins: map<Sid, Join>, waits: map<Co, Sid>, cos: seq<Co>)
    requires cos != [] && JoinsOk(joins, waits, cos)
    ensures cos[0] in waits && waits[cos[0]] in joins
    ensures var sid := waits[cos[0]];
      Listed(joins[sid := Join(cos[0], Handed, joins[sid].resumes + 1)], waits - {cos[0]}, cos[1..])
  {
    assert IsPushed(joins, waits, cos[0]);
    var js := joins[waits[cos[0]] := Join(cos[0], Handed, joins[waits[cos[0]]].resumes + 1)];
    var ws := waits - {cos[0]};
    forall x ensures x in cos[1..] <==> IsPushed(js, ws, x) {
      if x in cos[1..] {
        assert x in cos && x != cos[0];
        assert IsPushed(joins, waits, x);
      }
      if IsPushed(js, ws, x) {
        assert IsPushed(joins, waits, x);
        assert x in cos && x != cos[0];
      }
    }
  }

  function HandOne(t: Task, co: Co): Task
    requires co in t.blocking && t.blocking[co] in t.joins
  {
    Settle(t.(blocking := t.blocking - {co}, running := t.running + [co]), t.blocking[co], Handed)
  }

  lemma HandOneKeeps(t: Task, cos: seq<Co>)
    requires cos != [] && Quiet(t, cos)
    ensures cos[0] in t.blocking && t.blocking[cos[0]] in t.joins
    ensures Quiet(HandOne(t, cos[0]), cos[1..])
  {
    ListedTail(t.joins, t.blocking, cos);
    SettleKeeps(t.joins, t.blocking, cos[0], Handed);
    BlockedToRunning(t, cos[0], HandOne(t, cos[0]).joins);
  }

  lemma HandAppends(xs: seq<Co>, cos: seq<Co>)
    requires cos != []
    ensures xs + [cos[0]] + cos[1..] == xs + cos
  {
  }

  /** `unblock` makes the listed coroutines runnable, in the order of the list. */
  lemma {:induction false} HandKeeps(t: Task, cos: seq<Co>)
    requires Quiet(t, cos)
    ensures var u := Hand(t, cos);
      Quiet(u, []) && u == t.(running := t.running + cos, blocking := u.blocking, joins := u.joins)
    decreases |cos|
  {
    if cos != [] {
      HandOneKeeps(t, cos);
      assert Hand(t, cos) == Hand(HandOne(t, cos[0]), cos[1..]);
      HandKeeps(HandOne(t, cos[0]), cos[1..]);
      HandAppends(t.running, cos);
    }
  }

  lemma DrainKeeps(t: Task, current: multiset<Co>)
    requires Partition(t, current)
    ensures Partition(DrainYielding(t), current)
  {
  }

  lemma ResumeKeeps(t: Task, co: Co, current: multiset<Co>)
    requires Partition(t, current)
    ensures Partition(Resume(t, co), current)
  {
    if co in t.suspending {
      assert multiset(t.suspending) == multiset(t.suspending - {co}) + multiset{co};
    }
  }

  lemma InterruptKeeps(t: Task, co: Co, unblocking: seq<Co>)
    requires Quiet(t, unblocking)
    ensures Quiet(InterruptOne(t, co), unblocking)
  {
    var u := InterruptOne(t, co);
    if u != t {
      BlockedToRunning(t, co, u.joins);
      SettleKeeps(t.joins, t.blocking, co, Interrupted);
      forall x ensures IsPushed(u.joins, u.blocking, x) <==> IsPushed(t.joins, t.blocking, x) {}
    }
  }

  lemma NothingUnblocking(t: Task, unblocking: seq<Co>)
    requires Listed(t.joins, t.blocking, unblocking) && t.blocking == map[]
    ensures unblocking == []
  {
    if unblocking != [] && !IsPushed(t.joins, t.blocking, unblocking[0]) { assert false; }
  }

  lemma UnblockKeeps(s: World, block: bool)
    requires Quiet(s.task, s.unblocking)
    ensures var (u, again) := Unblock(s, block);
      && Quiet(u.task, u.unblocking)
      && u == s.(task := u.task, unblocking := [], awake := u.awake)
      && u.task == s.task.(running := s.task.running + s.unblocking, blocking := u.task.blocking, joins := u.task.joins)
      && u.awake == (s.awake && (again || !block || s.task.blocking == map[]))
      && (!again ==> u.task == s.task)
  {
    if s.task.blocking == map[] {
      NothingUnblocking(s.task, s.unblocking);
    } else if !(block && s.unblocking == []) {
      HandKeeps(s.task, s.unblocking);
    }
  }

  // ----- every step of the holder keeps the invariant -----

  function ScopeOf(w: nat, p: Pc): set<nat> { if InsideSched(p) then {w} else {} }

  /** The holder moves on and still holds the task. */
  lemma HolderStays(s: World, t: World, w: nat)
    requires Token(s) && w in s.workers && w in t.workers && t.workers == s.workers[w := t.workers[w]]
    requires t.queued == s.queued && t.resuming == s.resuming && t.awake == s.awake && t.ceased == s.ceased
    requires Good(t, Some(t.workers[w])) && t.scope == ScopeOf(w, t.workers[w])
    ensures Inv(t)
  {
    OnlyHolder(s, w);
    assert t.workers.Keys == {w};
  }

  ghost predicate Holding(s: World, w: nat) {
    Token(s) && w in s.workers && Good(s, Some(s.workers[w])) && s.scope == ScopeOf(w, s.workers[w])
  }

  lemma InvHolding(s: World, w: nat)
    requires Inv(s) && w in s.workers
    ensures Holding(s, w)
  {
    OnlyHolder(s, w);
  }

  /** ... with no coroutine running. */
  lemma HolderQuiet(s: World, u: World, w: nat, p: Pc)
    requires Holding(s, w) && u == s.(task := u.task) && Quiet(u.task, u.unblocking) && PcOk(u.task, p)
    requires !p.Exec? && !p.Crashed? && InsideSched(p) == InsideSched(s.workers[w])
    ensures Inv(At(u, w, p))
  {
    HolderStays(s, At(u, w, p), w);
  }

  lemma EnterKeeps(s: World, w: nat)
    requires Holding(s, w) && s.workers[w].Enter?
    ensures Inv(StepHolder(s, w))
  {
    OnlyHolder(s, w);
    DrainKeeps(s.task, multiset{});
    var u := s.(task := DrainYielding(s.task));
    UnblockKeeps(u, false);
    EnterLoop(s, Unblock(u, false).0, w);
  }

  lemma EnterLoop(s: World, u: World, w: nat)
    requires Holding(s, w) && s.workers[w].Enter? && u == s.(task := u.task, unblocking := u.unblocking)
    requires Quiet(u.task, u.unblocking) && PcOk(u.task, Loop)
    ensures Inv(At(u, w, Loop))
  {
    HolderStays(s, At(u, w, Loop), w);
  }

  /** The front of the run list of coroutines starts to run. */
  lemma ExecKeeps(s: World, w: nat, mode: Mode)
    requires Holding(s, w) && !s.workers[w].Exec? && !s.workers[w].Crashed? && s.task.running != []
    requires PcOk(s.task.(running := s.task.running[1..]), Exec(s.task.running[0], None, mode))
    requires InsideSched(Exec(s.task.running[0], None, mode)) == InsideSched(s.workers[w])
    ensures Inv(At(s.(task := s.task.(running := s.task.running[1..])), w, Exec(s.task.running[0], None, mode)))
  {
    PopFront(s.task.running);
    HolderStays(s, At(s.(task := s.task.(running := s.task.running[1..])), w, Exec(s.task.running[0], None, mode)), w);
  }

  /** The holder moves to another point of the code and changes nothing else. */
  lemma MoveKeeps(s: World, w: nat, p: Pc)
    requires Holding(s, w) && !s.workers[w].Exec? && !p.Exec? && PcOk(s.task, p)
    requires !s.workers[w].Crashed? && !p.Crashed? && InsideSched(p) == InsideSched(s.workers[w])
    ensures Inv(At(s, w, p))
  {
    HolderStays(s, At(s, w, p), w);
  }

  lemma LoopKeeps(s: World, w: nat)
    requires Holding(s, w) && s.workers[w].Loop?
    ensures Inv(StepHolder(s, w))
  {
    var t := s.task;
    if !t.yieldFlag && t.status == Running && t.running != [] {
      ExecKeeps(s, w, InSched);
    } else {
      MoveKeeps(s, w, if t.status == Completing then AbortHead(MainTerminated) else Decide);
    }
  }

  lemma AbortDrainKeeps(s: World, w: nat)
    requires Holding(s, w) && s.workers[w].AbortDrain?
    ensures Inv(StepHolder(s, w))
  {
    if s.task.running != [] {
      ExecKeeps(s, w, InAbort(s.workers[w].cause));
    } else {
      MoveKeeps(s, w, AbortHead(s.workers[w].cause));
    }
  }

  lemma AbortHeadKeeps(s: World, w: nat)
    requires Holding(s, w) && s.workers[w].AbortHead?
    ensures Inv(StepHolder(s, w))
  {
    DrainKeeps(s.task, multiset{});
    HolderQuiet(s, s.(task := DrainYielding(s.task)), w, AbortSuspending(s.workers[w].cause));
  }

  lemma AfterInterruptOk(t: Task, unblocking: seq<Co>, cause: Cause)
    requires Quiet(t, unblocking) && AbortOk(t, cause) && t.yielding == [] && t.suspending == {}
    ensures PcOk(t, AfterInterrupt(t, cause)) && InsideSched(AfterInterrupt(t, cause)) == (cause != Shutdown)
  {
    if cause == Shutdown && t.running == [] && t.blocking == map[] { NotStuck(t); }
  }

  lemma AbortUnblockKeeps(s: World, w: nat)
    requires Holding(s, w) && s.workers[w].AbortUnblock?
    ensures Inv(StepHolder(s, w))
  {
    UnblockKeeps(s, false);
    var u, cause := Unblock(s, false).0, s.workers[w].cause;
    AfterInterruptOk(u.task, u.unblocking, cause);
    HolderStays(s, At(u, w, AfterInterrupt(u.task, cause)), w);
  }

  lemma NothingIsPlaced(t: Task)
    requires Partition(t, multiset{}) && t.live == {}
    ensures t.blocking == map[] && t.running == [] && t.yielding == [] && t.suspending == {}
  {
    assert multiset(t.live) == multiset{};
    assert |Placed(t) + multiset{}| == 0;
    assert |multiset(t.running)| == |t.running| && |multiset(t.yielding)| == |t.yielding|;
    assert |multiset(t.suspending)| == |t.suspending| && |multiset(t.blocking.Keys)| == |t.blocking.Keys|;
    assert t.blocking.Keys == {};
  }

  /** The asserts at the end of `abort`: when its loop ends the only live coroutine is
      main, parked for its last run. */
  lemma OnlyMainIsLeft(t: Task)
    requires Partition(t, multiset{}) && MainOk(t) && t.status != Completed
    requires t.running == [] && t.yielding == [] && t.suspending == {} && t.blocking == map[]
    ensures t.parked && t.status == Completing && t.live == {t.main}
  {
    assert Placed(t) == Parked(t);
    assert t.main in multiset(t.live);
    forall co | co in t.live ensures co == t.main { assert co in multiset(t.live); }
  }

  lemma FinalMainPlaces(t: Task, u: Task, unblocking: seq<Co>, cause: Cause)
    requires Quiet(t, unblocking) && PcOk(t, FinalMain(cause))
    requires u == t.(status := Completed, live := t.live - {t.main}, parked := false)
    ensures Quiet(u, unblocking) && u.live == {}
  {
    OnlyMainIsLeft(t);
    assert u.live == {};
    assert Placed(u) == multiset{};
  }

  lemma FinalMainKeeps(s: World, w: nat)
    requires Holding(s, w) && s.workers[w].FinalMain?
    ensures Inv(StepHolder(s, w))
  {
    FinalMainPlaces(s.task, StepHolder(s, w).task, s.unblocking, s.workers[w].cause);
    HolderStays(s, StepHolder(s, w), w);
  }

  /** When `sched` has run dry, something is left that can wake the task up. */
  lemma NotStuck(t: Task)
    requires Partition(t, multiset{}) && MainOk(t) && t.status == Running
    requires t.running == [] && t.yielding == [] && t.blocking == map[]
    ensures t.suspending != {}
  {
    assert t.main in multiset(t.live);
  }

  lemma DecideKeeps(s: World, w: nat)
    requires Holding(s, w) && s.workers[w].Decide?
    ensures Inv(StepHolder(s, w))
  {
    var u := s.(task := s.task.(yieldFlag := false));
    assert Placed(u.task) == Placed(s.task);
    DecidedKeeps(s, u, w);
  }

  lemma DecidedKeeps(s: World, u: World, w: nat)
    requires Token(s) && w in s.workers && s.scope == {w} && u == s.(task := u.task)
    requires Quiet(u.task, u.unblocking) && PcOk(u.task, Decide) && !u.task.yieldFlag
    ensures Inv(Decided(u, w))
  {
    var t := u.task;
    if t.status == Completed { NothingIsPlaced(t); }
    if t.yielding != [] {
      DecideToLeave(s, u, w, Requeue);
    } else if t.blocking != map[] {
      DecideToBlock(s, u, w);
    } else if t.suspending != {} {
      HolderStays(s, At(u, w, AbortHead(Deadlock)), w);
    } else {
      if t.status == Running { NotStuck(t); }
      DecideToLeave(s, u, w, Remove);
    }
  }

  lemma DecideToLeave(s: World, u: World, w: nat, p: Pc)
    requires Token(s) && w in s.workers && s.scope == {w} && u == s.(task := u.task) && (p == Requeue || p == Remove)
    requires Quiet(u.task, u.unblocking) && PcOk(u.task, p)
    ensures Inv(At(Exit(u, w), w, p))
  {
    HolderStays(s, At(Exit(u, w), w, p), w);
  }

  lemma DecideToBlock(s: World, u: World, w: nat)
    requires Token(s) && w in s.workers && s.scope == {w} && u == s.(task := u.task)
    requires Quiet(u.task, u.unblocking) && u.task.status == Running && u.task.blocking != map[] && !u.task.yieldFlag
    requires u.task.running == [] && u.task.yielding == []
    ensures var (v, again) := Unblock(u, true); Inv(if again then At(Exit(v, w), w, Requeue) else Leave(Exit(v, w), w))
  {
    UnblockKeeps(u, true);
    var (v, again) := Unblock(u, true);
    OnlyHolder(s, w);
    if again { DecideToRunAgain(s, v, w); } else { DecideToSleep(s, v, w); }
  }

  lemma DecideToRunAgain(s: World, v: World, w: nat)
    requires Token(s) && w in s.workers && s.scope == {w}
    requires v == s.(task := v.task, unblocking := []) && Quiet(v.task, []) && v.task.status == Running && !v.task.yieldFlag
    ensures Inv(At(Exit(v, w), w, Requeue))
  {
    HolderStays(s, At(Exit(v, w), w, Requeue), w);
  }

  lemma DecideToSleep(s: World, v: World, w: nat)
    requires Token(s) && w in s.workers && s.scope == {w} && s.awake
    requires v == s.(task := v.task, unblocking := [], awake := false) && Quiet(v.task, []) && v.task.status == Running
    requires !v.task.yieldFlag && v.task.running == [] && v.task.yielding == [] && v.task.blocking != map[]
    ensures Inv(Leave(Exit(v, w), w))
  {
    OnlyHolder(s, w);
    var t := Leave(Exit(v, w), w);
    assert t.workers.Keys == {};
    assert t.scope == {};
  }

  lemma LeavingKeeps(s: World, w: nat)
    requires Holding(s, w) && (s.workers[w].Requeue? || s.workers[w].Remove?)
    ensures Inv(StepHolder(s, w))
  {
    OnlyHolder(s, w);
    assert StepHolder(s, w).workers.Keys == {};
  }

  lemma StepHolderKeeps(s: World, w: nat)
    requires Inv(s) && Enabled(s, Step(w))
    ensures Inv(StepHolder(s, w))
  {
    InvHolding(s, w);
    match s.workers[w]
    case Enter => EnterKeeps(s, w);
    case Loop => LoopKeeps(s, w);
    case AbortDrain(_) => AbortDrainKeeps(s, w);
    case Decide => DecideKeeps(s, w);
    case AbortUnblock(_) => AbortUnblockKeeps(s, w);
    case FinalMain(_) => FinalMainKeeps(s, w);
    case Requeue => LeavingKeeps(s, w);
    case Remove => LeavingKeeps(s, w);
    case AbortHead(_) => AbortHeadKeeps(s, w);
    case AbortSuspending(cause) => MoveKeeps(s, w, AbortBlocking(cause, s.task.blocking.Keys));
    case AbortBlocking(cause, _) => MoveKeeps(s, w, AbortUnblock(cause));
  }

  // ----- every action of the running coroutine keeps the invariant -----

  lemma CurrentIsAlone(t: Task, co: Co)
    requires Partition(t, multiset{co})
    ensures co in t.live && co !in t.running && co !in t.yielding && co !in t.suspending && co !in t.blocking
    ensures t.parked ==> co != t.main
  {
    assert multiset(t.live)[co] == Placed(t)[co] + 1;
    assert multiset(t.running)[co] == 0;
    assert multiset(t.yielding)[co] == 0;
    assert multiset(t.blocking.Keys)[co] == 0;
  }

  ghost predicate Executing(s: World, w: nat) {
    Holding(s, w) && s.workers[w].Exec?
  }

  lemma DoResumeKeeps(s: World, w: nat, other: Co)
    requires Executing(s, w) && Enabled(s, Act(w, DoResume(other))) && w in s.scope
    ensures Inv(ActHolder(s, w, DoResume(other)))
  {
    ResumeKeeps(s.task, other, multiset{s.workers[w].co});
    HolderStays(s, ActHolder(s, w, DoResume(other)), w);
  }

  lemma NewJoinKeeps(joins: map<Sid, Join>, waits: map<Co, Sid>, unblocking: seq<Co>, co: Co, sid: Sid)
    requires JoinsOk(joins, waits, unblocking) && co !in waits && sid !in joins
    ensures JoinsOk(joins[sid := Join(co, Open, 0)], waits[co := sid], unblocking)
  {
    var js, ws := joins[sid := Join(co, Open, 0)], waits[co := sid];
    forall x ensures IsPushed(js, ws, x) <==> IsPushed(joins, waits, x) {}
  }

  /** The running coroutine acts and the holder is at `p` afterwards. */
  lemma HolderActs(s: World, w: nat, u: Task, p: Pc)
    requires Executing(s, w) && PcOk(u, p) && MainOk(u) && Partition(u, Current(Some(p)))
    requires InsideSched(p) == InsideSched(s.workers[w])
    requires u.joins == s.task.joins && Waits(u, Some(p)) == Waits(s.task, Some(s.workers[w]))
    ensures Inv(At(s.(task := u), w, p))
  {
    HolderStays(s, At(s.(task := u), w, p), w);
  }

  /** The same when it runs on. */
  lemma HolderActsOn(s: World, w: nat, u: Task)
    requires Executing(s, w) && PcOk(u, s.workers[w]) && MainOk(u) && Partition(u, multiset{s.workers[w].co})
    requires u.joins == s.task.joins && u.blocking == s.task.blocking
    ensures Inv(s.(task := u))
  {
    assert s.workers == s.workers[w := s.workers[w]];
    HolderStays(s, s.(task := u), w);
  }

  lemma PublishKeeps(s: World, w: nat, sid: Sid)
    requires Executing(s, w) && Enabled(s, Act(w, DoPublish(sid))) && w in s.scope
    ensures Inv(ActHolder(s, w, DoPublish(sid)))
  {
    var t := ActHolder(s, w, DoPublish(sid));
    CurrentIsAlone(s.task, s.workers[w].co);
    NewJoinKeeps(s.task.joins, s.task.blocking, s.unblocking, s.workers[w].co, sid);
    assert Placed(t.task) == Placed(s.task);
    HolderStays(s, t, w);
  }

  lemma SpawnPlaces(t: Task, child: Co, current: multiset<Co>)
    requires Partition(t, current) && child !in t.live
    ensures Partition(Spawn(t, child), current)
  {
    if t.status == Running {
      assert multiset(Spawn(t, child).live) == multiset(t.live) + multiset{child};
      assert Placed(Spawn(t, child)) == Placed(t) + multiset{child};
    }
  }

  lemma SpawnKeeps(s: World, w: nat, child: Co)
    requires Executing(s, w) && child !in s.task.live
    ensures Inv(s.(task := Spawn(s.task, child)))
  {
    SpawnPlaces(s.task, child, multiset{s.workers[w].co});
    SpawnKeepsPc(s.task, child, s.workers[w]);
    HolderActsOn(s, w, Spawn(s.task, child));
  }

  lemma SpawnKeepsPc(t: Task, child: Co, p: Pc)
    requires MainOk(t) && PcOk(t, p) && p.Exec? && child !in t.live
    ensures MainOk(Spawn(t, child)) && PcOk(Spawn(t, child), p)
  {
  }

  lemma YieldPlaces(t: Task, u: Task, co: Co)
    requires Partition(t, multiset{co}) && u == t.(yielding := t.yielding + [co], yieldFlag := u.yieldFlag)
    ensures Partition(u, multiset{})
  {
    assert multiset(u.yielding) == multiset(t.yielding) + multiset{co};
    assert Placed(u) == Placed(t) + multiset{co};
  }

  lemma YieldKeeps(s: World, w: nat, flag: bool)
    requires Executing(s, w) && s.workers[w].join.None? && s.task.status == Running
    ensures var p := s.workers[w];
      Inv(At(s.(task := s.task.(yielding := s.task.yielding + [p.co], yieldFlag := flag)), w, Back(p.mode)))
  {
    var p := s.workers[w];
    var u := s.task.(yielding := s.task.yielding + [p.co], yieldFlag := flag);
    YieldPlaces(s.task, u, p.co);
    HolderActs(s, w, u, Back(p.mode));
  }

  lemma YieldRefusedKeeps(s: World, w: nat)
    requires Executing(s, w) && s.task.status != Running
    ensures Inv(s.(task := s.task.(yieldFlag := true)))
  {
    var u := s.task.(yieldFlag := true);
    assert Placed(u) == Placed(s.task);
    HolderActsOn(s, w, u);
  }

  lemma SuspendPlaces(t: Task, u: Task, co: Co)
    requires Partition(t, multiset{co}) && u == t.(suspending := t.suspending + {co})
    ensures Partition(u, multiset{})
  {
    CurrentIsAlone(t, co);
    assert multiset(u.suspending) == multiset(t.suspending) + multiset{co};
    assert Placed(u) == Placed(t) + multiset{co};
  }

  lemma SuspendKeeps(s: World, w: nat)
    requires Executing(s, w) && s.workers[w].join.None?
    ensures var p := s.workers[w];
      Inv(At(s.(task := s.task.(suspending := s.task.suspending + {p.co})), w, Back(p.mode)))
  {
    var p := s.workers[w];
    var u := s.task.(suspending := s.task.suspending + {p.co});
    SuspendPlaces(s.task, u, p.co);
    HolderActs(s, w, u, Back(p.mode));
  }

  lemma BlockPlaces(t: Task, u: Task, co: Co, sid: Sid)
    requires Partition(t, multiset{co}) && u == t.(blocking := t.blocking[co := sid])
    ensures Partition(u, multiset{})
  {
    CurrentIsAlone(t, co);
    assert u.blocking.Keys == t.blocking.Keys + {co};
    assert multiset(u.blocking.Keys) == multiset(t.blocking.Keys) + multiset{co};
    assert Placed(u) == Placed(t) + multiset{co};
  }

  lemma BlockKeeps(s: World, w: nat)
    requires Executing(s, w) && Enabled(s, Act(w, DoBlock))
    ensures Inv(ActHolder(s, w, DoBlock))
  {
    var p := s.workers[w];
    var u := s.task.(blocking := s.task.blocking[p.co := p.join.value]);
    BlockPlaces(s.task, u, p.co, p.join.value);
    HolderActs(s, w, u, Back(p.mode));
  }

  lemma ParkPlaces(t: Task, u: Task)
    requires Partition(t, multiset{t.main}) && !t.parked && u == t.(status := Completing, parked := true)
    ensures Partition(u, multiset{})
  {
    assert Placed(u) == Placed(t) + multiset{t.main};
  }

  lemma ParkKeeps(s: World, w: nat)
    requires Executing(s, w) && Enabled(s, Act(w, DoPark)) && w in s.scope
    ensures Inv(ActHolder(s, w, DoPark))
  {
    var u := s.task.(status := Completing, parked := true);
    var p := Back(s.workers[w].mode);
    ParkPlaces(s.task, u);
    assert PcOk(u, p);
    HolderActs(s, w, u, p);
  }

  lemma FinishPlaces(t: Task, u: Task, co: Co)
    requires Partition(t, multiset{co}) && u == t.(live := t.live - {co})
    ensures Partition(u, multiset{})
  {
    CurrentIsAlone(t, co);
    assert multiset(t.live) == multiset(u.live) + multiset{co};
    assert Placed(u) == Placed(t) + multiset{co} - multiset{co};
  }

  lemma FinishKeeps(s: World, w: nat)
    requires Executing(s, w) && Enabled(s, Act(w, DoFinish))
    ensures Inv(ActHolder(s, w, DoFinish))
  {
    var p := s.workers[w];
    var u := s.task.(live := s.task.live - {p.co});
    FinishPlaces(s.task, u, p.co);
    HolderActs(s, w, u, Back(p.mode));
  }

  /** Main panics out of its entry: it stays where it is. */
  lemma CrashKeeps(s: World, w: nat)
    requires Executing(s, w) && s.task.status == Running && s.workers[w].co == s.task.main
    requires s.workers[w].join.None? && !InsideSched(s.workers[w])
    ensures Inv(At(s, w, Crashed(s.workers[w].co)))
  {
    HolderActs(s, w, s.task, Crashed(s.workers[w].co));
  }

  lemma ActHolderKeeps(s: World, w: nat, a: Action)
    requires Inv(s) && Enabled(s, Act(w, a))
    ensures Inv(ActHolder(s, w, a))
  {
    InvHolding(s, w);
    if w in s.scope {
      ActInScopeKeeps(s, w, a);
    } else if a.DoBlock? {
      BlockKeeps(s, w);
    } else if a.DoFinish? {
      FinishKeeps(s, w);
    } else if a.DoPark? {
      CrashKeeps(s, w);
    }
  }

  lemma ActInScopeKeeps(s: World, w: nat, a: Action)
    requires Executing(s, w) && Enabled(s, Act(w, a)) && w in s.scope
    ensures Inv(ActHolder(s, w, a))
  {
    match a
    case DoSpawn(child) => SpawnKeeps(s, w, child);
    case DoResume(other) => DoResumeKeeps(s, w, other);
    case DoPublish(sid) => PublishKeeps(s, w, sid);
    case DoYield => CoroutineYields(s, w);
    case DoYieldTask => TaskYields(s, w, ActHolder(s, w, a));
    case DoSuspend => SuspendKeeps(s, w);
    case DoBlock => BlockKeeps(s, w);
    case DoPark => ParkKeeps(s, w);
    case DoFinish => FinishKeeps(s, w);
  }

  /** What the two ways to yield come to, while the task is running. */
  lemma YieldStep(s: World, w: nat, a: Action, flag: bool)
    requires Enabled(s, Act(w, a)) && w in s.scope && s.task.status == Running
    requires (a == DoYield && flag == s.task.yieldFlag) || (a == DoYieldTask && flag)
    ensures var p := s.workers[w];
      ActHolder(s, w, a) == At(s.(task := s.task.(yielding := s.task.yielding + [p.co], yieldFlag := flag)), w, Back(p.mode))
  {
  }

  lemma NoYieldStep(s: World, w: nat)
    requires Enabled(s, Act(w, DoYield)) && w in s.scope && s.task.status != Running
    ensures ActHolder(s, w, DoYield) == s
    ensures ActHolder(s, w, DoYieldTask) == s.(task := s.task.(yieldFlag := true))
  {
  }

  lemma CoroutineYields(s: World, w: nat)
    requires Executing(s, w) && Enabled(s, Act(w, DoYield)) && w in s.scope
    ensures Inv(ActHolder(s, w, DoYield))
  {
    if s.task.status == Running {
      YieldStep(s, w, DoYield, s.task.yieldFlag);
      YieldKeeps(s, w, s.task.yieldFlag);
    } else {
      NoYieldStep(s, w);
      NoYieldKeeps(s, w);
    }
  }

  lemma TaskYields(s: World, w: nat, t: World)
    requires Executing(s, w) && Enabled(s, Act(w, DoYieldTask)) && w in s.scope && t == ActHolder(s, w, DoYieldTask)
    ensures Inv(t)
  {
    if s.task.status == Running { TaskYieldsNow(s, w, t); } else { TaskYieldsLater(s, w, t); }
  }

  lemma TaskYieldsNow(s: World, w: nat, t: World)
    requires Executing(s, w) && Enabled(s, Act(w, DoYieldTask)) && w in s.scope && t == ActHolder(s, w, DoYieldTask)
    requires s.task.status == Running
    ensures Inv(t)
  {
    YieldStep(s, w, DoYieldTask, true);
    YieldKeeps(s, w, true);
  }

  lemma TaskYieldsLater(s: World, w: nat, t: World)
    requires Executing(s, w) && Enabled(s, Act(w, DoYieldTask)) && w in s.scope && t == ActHolder(s, w, DoYieldTask)
    requires s.task.status != Running
    ensures Inv(t)
  {
    NoYieldStep(s, w);
    YieldRefusedKeeps(s, w);
  }

  lemma NoYieldKeeps(s: World, w: nat)
    requires Executing(s, w)
    ensures Inv(s)
  {
    OnlyHolder(s, w);
  }

  // ----- the scheduler and the wakers -----

  lemma QueuedIsGood(s: World, p: Pc)
    requires Good(s, None) && !s.ceased && (p == Enter || p == AbortHead(Shutdown))
    ensures Good(s, Some(p))
  {
    assert Current(None) == Current(Some(p)) && Waits(s.task, None) == Waits(s.task, Some(p));
  }

  lemma TakenFromQueue(s: World, w: nat, p: Pc)
    requires Inv(s) && s.queued > 0 && (p == Enter || p == AbortHead(Shutdown))
    ensures Inv(At(s.(queued := s.queued - 1, scope := s.scope + ScopeOf(w, p)), w, p))
  {
    assert s.workers.Keys == {};
    assert s.scope == {};
    QueuedIsGood(s, p);
    var u := At(s.(queued := s.queued - 1, scope := s.scope + ScopeOf(w, p)), w, p);
    assert u.workers.Keys == {w};
  }

  lemma PickKeeps(s: World, w: nat, co: Co)
    requires Holding(s, w) && Enabled(s, Pick(w, co))
    ensures Inv(Apply(s, Pick(w, co)))
  {
    if s.workers[w].AbortBlocking? { PickBlocked(s, w, co); } else { PickSuspended(s, w, co); }
  }

  lemma PickSuspended(s: World, w: nat, co: Co)
    requires Holding(s, w) && s.workers[w].AbortSuspending?
    ensures Inv(s.(task := Resume(s.task, co)))
  {
    ResumeKeeps(s.task, co, multiset{});
    assert s.workers == s.workers[w := s.workers[w]];
    HolderStays(s, s.(task := Resume(s.task, co)), w);
  }

  lemma PickBlocked(s: World, w: nat, co: Co)
    requires Holding(s, w) && s.workers[w].AbortBlocking?
    ensures var p := AbortBlocking(s.workers[w].cause, s.workers[w].todo - {co});
      Inv(At(s.(task := InterruptOne(s.task, co)), w, p))
  {
    InterruptKeeps(s.task, co, s.unblocking);
    var u := InterruptOne(s.task, co);
    assert u == s.task.(running := u.running, blocking := u.blocking, joins := u.joins);
    HolderQuiet(s, s.(task := u), w, AbortBlocking(s.workers[w].cause, s.workers[w].todo - {co}));
  }

  lemma WinJoinKeeps(joins: map<Sid, Join>, waits: map<Co, Sid>, unblocking: seq<Co>, sid: Sid)
    requires JoinsOk(joins, waits, unblocking) && sid in joins && joins[sid].phase == Open
    ensures JoinsOk(joins[sid := joins[sid].(phase := Won)], waits, unblocking)
  {
    forall x ensures IsPushed(joins[sid := joins[sid].(phase := Won)], waits, x) <==> IsPushed(joins, waits, x) {}
  }

  lemma WakeJoinKeeps(joins: map<Sid, Join>, waits: map<Co, Sid>, unblocking: seq<Co>, sid: Sid)
    requires JoinsOk(joins, waits, unblocking) && sid in joins && joins[sid].phase == Won
    ensures JoinsOk(joins[sid := joins[sid].(phase := Pushed)], waits, unblocking + [joins[sid].co])
  {
    var js := joins[sid := joins[sid].(phase := Pushed)];
    var co := joins[sid].co;
    assert waits[co] == sid && !IsPushed(joins, waits, co);
    forall x ensures x in unblocking + [co] <==> IsPushed(js, waits, x) {
      if x != co { assert IsPushed(js, waits, x) <==> IsPushed(joins, waits, x); }
    }
  }

  /** A waker changes one join and the unblocking list, whoever holds the task. */
  lemma WakerKeeps(s: World, t: World, p: Option<Pc>)
    requires Good(s, p) && t.task == s.task.(joins := t.task.joins) && t.ceased == s.ceased
    requires t.awake || t.awake == s.awake
    requires JoinsOk(t.task.joins, Waits(s.task, p), t.unblocking)
    ensures Good(t, p)
  {
    assert Placed(t.task) == Placed(s.task);
  }

  lemma WinKeeps(s: World, sid: Sid)
    requires Inv(s) && Enabled(s, Win(sid))
    ensures Inv(Apply(s, Win(sid)))
  {
    var t := Apply(s, Win(sid));
    if t.workers.Keys == {} {
      WinJoinKeeps(s.task.joins, Waits(s.task, None), s.unblocking, sid);
      WakerKeeps(s, t, None);
    }
    forall w | w in t.workers ensures Good(t, Some(t.workers[w])) {
      WinJoinKeeps(s.task.joins, Waits(s.task, Some(s.workers[w])), s.unblocking, sid);
      WakerKeeps(s, t, Some(s.workers[w]));
    }
  }

  lemma WakeKeeps(s: World, sid: Sid)
    requires Inv(s) && Enabled(s, Wake(sid))
    ensures Inv(Apply(s, Wake(sid)))
  {
    var t := Apply(s, Wake(sid));
    if t.workers.Keys == {} {
      WakeJoinKeeps(s.task.joins, Waits(s.task, None), s.unblocking, sid);
      WakerKeeps(s, t, None);
    }
    forall w | w in t.workers ensures Good(t, Some(t.workers[w])) {
      WakeJoinKeeps(s.task.joins, Waits(s.task, Some(s.workers[w])), s.unblocking, sid);
      WakerKeeps(s, t, Some(s.workers[w]));
    }
  }

  lemma HandOverKeeps(s: World, e: Event)
    requires Inv(s) && Enabled(s, e) && (e.Grab? || e.ResumeTask?)
    ensures Inv(Apply(s, e))
  {
    var t := Apply(s, e);
    if t.workers.Keys == {} {
      WakerKeeps(s, t, None);
    }
    forall w | w in t.workers ensures Good(t, Some(t.workers[w])) {
      WakerKeeps(s, t, Some(s.workers[w]));
    }
  }

  lemma PopToAbortKeeps(s: World, w: nat)
    requires Inv(s) && Enabled(s, PopToAbort(w))
    ensures Inv(At(s.(queued := s.queued - 1), w, AbortHead(Shutdown)))
  {
    TakenFromQueue(s, w, AbortHead(Shutdown));
    assert s.scope + {} == s.scope;
  }

  lemma StepKeepsInv(s: World, e: Event)
    requires Inv(s) && Enabled(s, e)
    ensures Inv(Apply(s, e))
  {
    match e
    case Pop(w) => TakenFromQueue(s, w, Enter);
    case PopToAbort(w) => PopToAbortKeeps(s, w);
    case Step(w) => StepHolderKeeps(s, w);
    case Pick(w, co) => InvHolding(s, w); PickKeeps(s, w, co);
    case Act(w, a) => ActHolderKeeps(s, w, a);
    case Win(sid) => WinKeeps(s, sid);
    case Wake(sid) => WakeKeeps(s, sid);
    case _ => HandOverKeeps(s, e);
  }
}
