/** The rendezvous of `src/coroutine/suspension.rs` between a coroutine and the resumptions
    that may wake it. All of them run in one task, so every call is one step, except that
    `join` suspends in the middle. */
module SuspensionProtocol {
  import opened Options

  type Value = nat

  datatype State = Empty | Holds(value: Value) | Panicked | Joining | Watched | Joined

  /** The side of `Suspension`: before its last call, suspended in `join`, runnable but not
      yet back in `join`, or done. */
  datatype Owner = Idle | Suspended | Runnable | Got(value: Value) | Threw | Dropped

  datatype World = World(
    state: State,
    wakers: int,                // the counter of the joint
    handles: nat,               // resumptions that exist
    owner: Owner,
    successes: seq<Value>,      // values for which `send` or `resume` reported success
    strays: nat,                // calls of `Task::resume` for a coroutine that is not suspended here
    permits: nat,               // permits applied to the selector
    lateJoin: bool,             // `join` found a result and did not suspend
    used: nat,                  // calls that have consumed a resumption
    faulted: bool)              // the counter of the joint has reached zero

  datatype Event =
    | Send(value: Value)        // `Resumption::{resume, send}`
    | Fault                     // `set_result` with a panic
    | Clone
    | DropHandle
    | Join
    | Take                      // `join` goes on after the suspension
    | DropOwner
    | Interrupt                 // the task aborts the suspended coroutine
    | Watch                     // a select on the join handle, and its end
    | Unwatch
    | Consume

  function Initial(): World { World(Empty, 1, 1, Idle, [], 0, 0, false, 0, false) }

  predicate Settled(st: State) { st.Holds? || st.Panicked? || st.Joined? }

  predicate Enabled(s: World, e: Event) {
    match e
    case Send(_) => s.handles > 0
    case Fault => s.handles > 0
    case Clone => s.handles > 0
    case DropHandle => s.handles > 0
    case Join => s.owner == Idle && s.state != Watched
    case Take => s.owner == Runnable
    case DropOwner => s.owner == Idle && s.state != Watched
    case Interrupt => s.owner == Suspended
    case Watch => s.owner == Idle && s.state != Watched
    case Unwatch => s.owner == Idle
    case Consume => s.owner == Idle && (s.state.Holds? || s.state.Panicked?)
  }

  /** `into_joint` forgets the resumption: the counter keeps it. */
  function Use(s: World): World
    requires s.handles > 0
  {
    s.(handles := s.handles - 1, used := s.used + 1)
  }

  /** `SuspensionJoint::wake_coroutine`, through `Task::resume`. */
  function WakeCoroutine(s: World): World {
    if s.owner == Suspended then s.(owner := Runnable) else s.(strays := s.strays + 1)
  }

  /** The common end of `wake` and `fault`: the state is replaced, the waiter told. */
  function Settle(s: World, st: State): World {
    var t := s.(state := st);
    if s.state == Joining then WakeCoroutine(t)
    else if s.state == Watched then t.(permits := s.permits + 1)
    else t
  }

  /** `wake`, and whether it reports success. */
  function Wake(s: World, v: Value): (World, bool) {
    if Settled(s.state) then (s, false) else (Settle(s, Holds(v)).(successes := s.successes + [v]), true)
  }

  function FaultWith(s: World): World {
    if Settled(s.state) then s else Settle(s, Panicked)
  }

  /** `cancel` whose result is not used. */
  function Cancel(s: World): World {
    if Settled(s.state) then s
    else s.(state := Panicked, permits := if s.state == Watched then s.permits + 1 else s.permits)
  }

  /** What the owner makes of the state it has taken out; none is `unreachable!`. */
  function Outcome(st: State): Option<Owner> {
    match st
    case Holds(v) => Some(Got(v))
    case Panicked => Some(Threw)
    case _ => None
  }

  function Apply(s: World, e: Event): World
    requires Enabled(s, e)
  {
    match e
    case Send(v) => Wake(Use(s), v).0
    case Fault => FaultWith(Use(s))
    case Clone => s.(wakers := s.wakers + 1, handles := s.handles + 1)
    case DropHandle =>
      var t := s.(wakers := s.wakers - 1, handles := s.handles - 1);
      if t.wakers == 0 then FaultWith(t).(faulted := true) else t
    case Join =>
      var t := s.(state := Joining);
      (match s.state
       case Empty => t.(owner := Suspended)
       case Holds(v) => t.(owner := Got(v), lateJoin := true)
       case Panicked => t.(owner := Threw, lateJoin := true)
       case _ => t)
    case Take => s.(state := Joined, owner := if Outcome(s.state).Some? then Outcome(s.state).value else s.owner)
    case DropOwner => Cancel(s).(owner := Dropped)
    case Interrupt => Cancel(s).(owner := Runnable)
    case Watch =>
      if Settled(s.state) then s.(permits := s.permits + 1)
      else if s.state == Empty then s.(state := Watched)
      else s
    case Unwatch => if s.state == Watched then s.(state := Empty) else s
    case Consume => s.(state := Joined, owner := Outcome(s.state).value)
  }

  // ----- the invariant -----

  /** The owner has its result; what `send` has reported agrees with it. */
  predicate Kept(s: World) {
    match s.owner
    case Got(v) => s.successes == [v] && s.strays == 0
    case Threw => s.successes == [] && s.strays == 0
    case _ => |s.successes| <= 1 && s.strays == 0
  }

  /** Until `join` has found a result at once. */
  predicate InOrder(s: World) {
    && (s.state == Joining <==> s.owner == Suspended)
    && (s.state == Joined <==> s.owner == Threw || s.owner.Got?)
    && (s.owner == Runnable || s.owner == Dropped ==> s.state.Holds? || s.state == Panicked)
    && (s.state == Watched ==> s.owner == Idle)
    && (s.permits > 0 && s.owner == Idle ==> Settled(s.state))
    && s.strays == 0
    && s.successes == (if s.state.Holds? then [s.state.value] else if s.owner.Got? then [s.owner.value] else [])
  }

  /** Afterwards the state starts from `Joining` again. */
  predicate AfterLateJoin(s: World) {
    && (s.owner.Got? || s.owner == Threw)
    && (s.state == Joining || s.state.Holds? || s.state == Panicked)
    && s.successes == (if s.owner.Got? then [s.owner.value] else []) + (if s.state.Holds? then [s.state.value] else [])
    && s.strays == if s.state == Joining then 0 else 1
  }

  predicate Inv(s: World) {
    && s.wakers == s.handles + s.used
    && (s.faulted <==> s.wakers == 0)
    && (s.used > 0 && !s.lateJoin ==> s.state != Empty && s.state != Watched && s.owner != Suspended)
    && (s.wakers == 0 && !s.lateJoin ==> Settled(s.state))
    && (if s.lateJoin then AfterLateJoin(s) else InOrder(s))
  }

  lemma StepKeepsInv(s: World, e: Event)
    requires Inv(s) && Enabled(s, e)
    ensures Inv(Apply(s, e))
  {
  }

  // ----- whole runs -----

  /** The world after the events, if each of them can happen. */
  function Follow(s: World, events: seq<Event>): Option<World>
    decreases |events|
  {
    if events == [] then Some(s)
    else if Enabled(s, events[0]) then Follow(Apply(s, events[0]), events[1..])
    else None
  }

  ghost predicate Reaches(s: World, events: seq<Event>, t: World) { Follow(s, events) == Some(t) }

  ghost predicate Reachable(s: World) { exists events :: Reaches(Initial(), events, s) }

  lemma {:induction false} FollowKeepsInv(s: World, events: seq<Event>, t: World)
    requires Inv(s) && Reaches(s, events, t)
    ensures Inv(t)
    decreases |events|
  {
    if events != [] {
      StepKeepsInv(s, events[0]);
      FollowKeepsInv(Apply(s, events[0]), events[1..], t);
    }
  }

  lemma ReachableInv(s: World)
    requires Reachable(s)
    ensures Inv(s)
  {
    var events :| Reaches(Initial(), events, s);
    FollowKeepsInv(Initial(), events, s);
  }

  /** The documented guarantee of `suspend`, in every later state too. */
  ghost predicate Guaranteed(s: World) {
    forall events, t :: Reaches(s, events, t) ==> Kept(t)
  }

  /** If `join` suspends, the order is kept for good. */
  lemma {:induction false} OrderStays(s: World, events: seq<Event>, t: World)
    requires Inv(s) && !s.lateJoin && s.owner != Idle
    requires Reaches(s, events, t)
    ensures Inv(t) && !t.lateJoin
    decreases |events|
  {
    if events != [] {
      StepKeepsInv(s, events[0]);
      OrderStays(Apply(s, events[0]), events[1..], t);
    }
  }

  /** Without a resumption nothing happens any more once the owner is done. */
  lemma {:induction false} NothingHappens(s: World, events: seq<Event>, t: World)
    requires s.handles == 0 && (s.owner.Got? || s.owner == Threw) && Reaches(s, events, t)
    ensures t == s
    decreases |events|
  {
    forall e: Event ensures !Enabled(s, e) {}
  }

  /** A result that is there before `join`, and a resumption left after it: one more `send`. */
  lemma LateJoinBreaks(s: World)
    requires Inv(s) && Enabled(s, Join) && Settled(s.state) && s.handles > 0
    ensures !Guaranteed(Apply(s, Join))
  {
    var t := Apply(s, Join);
    var u := Apply(t, Send(0));
    assert Follow(u, []) == Some(u);
    assert [Send(0)][1..] == [];
    assert Reaches(t, [Send(0)], u);
    assert !Kept(u);
  }

  lemma EarlyJoinKeeps(s: World, events: seq<Event>, u: World)
    requires Inv(s) && Enabled(s, Join) && !(Settled(s.state) && s.handles > 0) && Reaches(Apply(s, Join), events, u)
    ensures Kept(u)
  {
    StepKeepsInv(s, Join);
    if Settled(s.state) {
      NothingHappens(Apply(s, Join), events, u);
    } else {
      OrderStays(Apply(s, Join), events, u);
    }
  }

  /** `suspend` promises that it returns and one value has been sent, or panics and none has.
      The code keeps this, and never resumes a coroutine that does not wait here, exactly
      if the call finds no result yet or no resumption is left: otherwise it takes the
      result, leaves `Joining` behind, and a further `send` reports success as well. */
  lemma SuspendKeepsItsGuarantee(s: World)
    requires Reachable(s) && Enabled(s, Join)
    ensures Guaranteed(Apply(s, Join)) <==> !(Settled(s.state) && s.handles > 0)
  {
    ReachableInv(s);
    if Settled(s.state) && s.handles > 0 {
      LateJoinBreaks(s);
    } else {
      var t := Apply(s, Join);
      forall events, u | Reaches(t, events, u) ensures Kept(u) { EarlyJoinKeeps(s, events, u); }
    }
  }

  lemma FollowOne(s: World, e: Event, events: seq<Event>, t: World)
    requires Enabled(s, e) && Reaches(Apply(s, e), events, t)
    ensures Reaches(s, [e] + events, t)
  {
    assert ([e] + events)[1..] == events;
  }

  /** Such a state is reached at once: a copy is made of the resumption and one is used. */
  lemma LateJoinIsReachable()
    ensures exists s :: Reachable(s) && Enabled(s, Join) && Settled(s.state) && s.handles > 0
  {
    var s := Apply(Initial(), Clone);
    var t := Apply(s, Send(4));
    assert Reaches(t, [], t);
    FollowOne(s, Send(4), [], t);
    FollowOne(Initial(), Clone, [Send(4)] + [], t);
    assert Reachable(t);
  }

  /** Even then, no more than one value too many is accepted and no more than one stray
      resumption is made. */
  lemma HowFarItGoes(s: World)
    requires Reachable(s)
    ensures |s.successes| <= 2 && s.strays <= 1
    ensures s.owner.Got? ==> s.successes != [] && s.successes[0] == s.owner.value
  {
    ReachableInv(s);
  }

  /** A select gets a permit only if the result is there, and finds it until it takes it. */
  lemma PermitMeansResult(s: World)
    requires Reachable(s) && s.owner == Idle && s.permits > 0
    ensures s.state.Holds? || s.state == Panicked
    ensures Enabled(s, Consume) && Apply(s, Consume).owner != Idle
  {
    ReachableInv(s);
  }

  /** None of the `unreachable!` of `join`, `take` and `watch_permit` is reached, as long as
      nobody else resumes the coroutine. */
  lemma TakeFindsAResult(s: World)
    requires Reachable(s)
    ensures s.owner == Runnable ==> Outcome(s.state).Some?
    ensures Enabled(s, Join) ==> s.state == Empty || s.state.Holds? || s.state == Panicked
    ensures Enabled(s, Watch) ==> s.state != Joining && s.state != Joined
  {
    ReachableInv(s);
  }

  /** The counter reaches zero only if no resumption was ever used, which is what "no
      resumption" says; and with no resumption left nobody is stranded. */
  lemma NobodyIsStranded(s: World)
    requires Reachable(s)
    ensures s.faulted ==> s.used == 0 && s.handles == 0
    ensures s.handles == 0 && s.used == 0 ==> s.faulted
    ensures s.handles == 0 ==> s.owner != Suspended
    ensures s.handles == 0 && s.owner == Idle ==> Settled(s.state)
  {
    ReachableInv(s);
  }

  // ----- what the agents are told -----

  /** `send` reports success exactly on a joint that is not settled, and then the value is what
      the owner takes out; the owner if it waits, or the select if one watches, is told. */
  lemma SendTells(s: World, v: Value)
    requires Inv(s) && Enabled(s, Send(v))
    ensures var t := Apply(s, Send(v));
      && (t.successes == s.successes + [v] <==> !Settled(s.state))
      && (Settled(s.state) ==> t.state == s.state && t.owner == s.owner && t.permits == s.permits)
      && (!Settled(s.state) ==> t.state == Holds(v))
      && (s.owner == Suspended ==> t.owner == Runnable)
      && t.permits == s.permits + (if s.state == Watched then 1 else 0)
      && t.handles == s.handles - 1
  {
  }

  /** A fault wakes the same parties with a panic, and so does the last resumption that is
      dropped if none was used; dropping the owner refuses later sends. */
  lemma FaultTells(s: World, e: Event)
    requires Inv(s) && Enabled(s, e) && (e.Fault? || e.DropHandle? || e.DropOwner? || e.Interrupt?)
    ensures var t := Apply(s, e); var faults := e.DropHandle? ==> s.handles == 1 && s.used == 0;
      if faults && !Settled(s.state) then
        && t.state == Panicked
        && t.permits == s.permits + (if s.state == Watched then 1 else 0)
        && (s.owner == Suspended ==> t.owner == Runnable)
        && (e.DropOwner? ==> t.owner == Dropped)
      else t.state == s.state && t.permits == s.permits && (e.DropOwner? ==> t.owner == Dropped)
  {
  }

  /** A copy is one more resumption; a dropped one is one fewer. */
  lemma HandlesTell(s: World, e: Event)
    requires Inv(s) && Enabled(s, e) && (e.Clone? || e.DropHandle?)
    ensures Apply(s, e).handles == s.handles + (if e.Clone? then 1 else -1)
    ensures e.Clone? ==> Apply(s, e) == s.(handles := s.handles + 1, wakers := s.wakers + 1)
  {
  }

  /** A select that watches is told at once if the result is there, and else when it comes;
      one that unwatches before leaves no trace. */
  lemma WatchTells(s: World)
    requires Inv(s) && Enabled(s, Watch)
    ensures var t := Apply(s, Watch);
      && (Settled(s.state) ==> t == s.(permits := s.permits + 1))
      && (!Settled(s.state) ==> t == s.(state := Watched) && Enabled(t, Unwatch) && Apply(t, Unwatch) == s)
  {
  }

  /** The owner takes what the joint holds: at once, after the suspension, or with the permit of
      a select. */
  lemma OwnerTakesTheResult(s: World)
    requires Inv(s)
    ensures Enabled(s, Join) ==>
              Apply(s, Join).owner == match s.state case Holds(v) => Got(v) case Panicked => Threw case _ => Suspended
    ensures Enabled(s, Take) && !s.lateJoin ==>
              Apply(s, Take).owner == match s.state case Holds(v) => Got(v) case _ => Threw
    ensures Enabled(s, Consume) ==>
              Apply(s, Consume).owner == match s.state case Holds(v) => Got(v) case _ => Threw
  {
  }

  /** A value that is held, or that the owner has, was sent. */
  ghost predicate AllSent(s: World, sent: set<Value>) { forall v :: v in s.successes ==> v in sent }

  function SentIn(events: seq<Event>): set<Value> {
    if events == [] then {} else SentIn(events[1..]) + if events[0].Send? then {events[0].value} else {}
  }

  lemma {:induction false} FollowSends(s: World, events: seq<Event>, t: World, sent: set<Value>)
    requires Reaches(s, events, t) && AllSent(s, sent)
    ensures AllSent(t, sent + SentIn(events))
    decreases |events|
  {
    if events != [] {
      var e := events[0];
      var now := sent + if e.Send? then {e.value} else {};
      assert AllSent(Apply(s, e), now);
      FollowSends(Apply(s, e), events[1..], t, now);
      assert now + SentIn(events[1..]) == sent + SentIn(events);
    }
  }

  /** In every run, the value that the owner gets was sent through a resumption. */
  lemma GotWhatWasSent(events: seq<Event>, s: World)
    requires Reaches(Initial(), events, s) && s.owner.Got?
    ensures s.owner.value in SentIn(events)
  {
    FollowKeepsInv(Initial(), events, s);
    FollowSends(Initial(), events, s, {});
    assert s.owner.value in s.successes;
  }
}
