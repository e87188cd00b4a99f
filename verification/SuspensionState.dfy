/** The fields and methods of `SuspensionJoint` in `src/coroutine/suspension.rs`. Each method
    makes the step of the state machine from the world `s`; what it tells the outside is
    its result. */
module SuspensionState {
  import opened Options
  import opened SuspensionProtocol

  /** What a method does outside the joint. */
  datatype Told = Nobody | Coroutine | Select

  class SuspensionJoint {
    var state: State
    var wakers: int

    constructor ()
      ensures Shows(Initial())
    {
      state, wakers := State.Empty, 1;
    }

    ghost predicate Shows(s: World)
      reads this
    {
      state == s.state && wakers == s.wakers
    }

    /** The end of `wake`, `fault` and `cancel`. */
    method Replace(next: State) returns (told: Told)
      modifies this`state
      ensures state == next
      ensures told == if old(state) == Joining then Coroutine else if old(state) == Watched then Select else Nobody
    {
      told := match state
        case Joining => Coroutine
        case Watched => Select
        case _ => Nobody;
      state := next;
    }

    /** `wake`: on a used resumption. */
    method Wake(v: Value, ghost s: World) returns (ok: bool, told: Told)
      requires Shows(s) && Enabled(s, Send(v))
      modifies this`state
      ensures Shows(Apply(s, Send(v)))
      ensures ok <==> Apply(s, Send(v)).successes == s.successes + [v]
      ensures told == Coroutine <==> Apply(s, Send(v)) != Apply(s, Send(v)).(owner := s.owner, strays := s.strays)
      ensures told == Select <==> Apply(s, Send(v)).permits == s.permits + 1
    {
      if state.Holds? || state.Panicked? || state.Joined? { return false, Nobody; }
      told := Replace(Holds(v));
      return true, told;
    }

    method Fault(ghost s: World) returns (told: Told)
      requires Shows(s)
      modifies this`state
      ensures Shows(FaultWith(s))
      ensures told == if s.state == Joining then Coroutine else if s.state == Watched then Select else Nobody
    {
      if state.Holds? || state.Panicked? || state.Joined? { return Nobody; }
      told := Replace(Panicked);
    }

    method Cancel(ghost s: World) returns (told: Told)
      requires Shows(s)
      modifies this`state
      ensures Shows(SuspensionProtocol.Cancel(s))
      ensures told == if s.state == Joining then Coroutine else if s.state == Watched then Select else Nobody
    {
      if state.Holds? || state.Panicked? || state.Joined? { return Nobody; }
      told := Replace(Panicked);
    }

    method AddWaker(ghost s: World)
      requires Shows(s) && Enabled(s, Clone)
      modifies this`wakers
      ensures Shows(Apply(s, Clone))
    {
      wakers := wakers + 1;
    }

    method RemoveWaker(ghost s: World) returns (told: Told)
      requires Shows(s) && Enabled(s, DropHandle)
      modifies this
      ensures Shows(Apply(s, DropHandle)) && (Inv(s) ==> (Apply(s, DropHandle).faulted <==> wakers == 0))
      ensures told == if wakers == 0 && s.state == Joining then Coroutine
                      else if wakers == 0 && s.state == Watched then Select else Nobody
    {
      wakers := wakers - 1;
      told := Nobody;
      if wakers == 0 { told := Fault(s.(wakers := 0, handles := s.handles - 1)); }
    }

    /** `join` up to the suspension, or to its end if there is none. */
    method Join(ghost s: World) returns (result: Option<Owner>)
      requires Shows(s) && Reachable(s) && Enabled(s, Event.Join)
      modifies this`state
      ensures Shows(Apply(s, Event.Join))
      ensures Apply(s, Event.Join).owner == if result.Some? then result.value else Suspended
    {
      ReachableInv(s);
      result := Outcome(state);
      state := Joining;
    }

    /** `take`, in `join` after the suspension. */
    method Take(ghost s: World) returns (result: Owner)
      requires Shows(s) && Reachable(s) && Enabled(s, Event.Take)
      modifies this`state
      ensures Shows(Apply(s, Event.Take)) && Apply(s, Event.Take).owner == result
    {
      ReachableInv(s);
      result := Outcome(state).value;
      state := State.Joined;
    }

    /** `watch_permit` */
    method WatchPermit(ghost s: World) returns (ready: bool)
      requires Shows(s) && Reachable(s) && Enabled(s, Watch)
      modifies this`state
      ensures Shows(Apply(s, Watch))
      ensures ready <==> Apply(s, Watch).permits == s.permits + 1
    {
      ReachableInv(s);
      ready := state.Holds? || state.Panicked? || state.Joined?;
      if !ready { state := Watched; }
    }

    method UnwatchPermit(ghost s: World)
      requires Shows(s) && Enabled(s, Unwatch)
      modifies this`state
      ensures Shows(Apply(s, Unwatch))
    {
      if state == Watched { state := State.Empty; }
    }
  }
}
