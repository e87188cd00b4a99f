/** Several rendezvous of one coroutine. A resumption wakes the coroutine that its joint has
    recorded, wherever that coroutine is suspended by then. */
module SuspensionPool {
  import opened Options
  import opened SuspensionProtocol

  type Jid = nat

  /** The joints, and whether `take` has come to its `unreachable!`. */
  datatype Pool = Pool(joints: map<Jid, World>, broken: bool)

  function Fresh(js: set<Jid>): Pool { Pool(map j | j in js :: Initial(), false) }

  datatype Move = On(joint: Jid, event: Event)

  /** What the coroutine does, while it runs. */
  predicate ByOwner(e: Event) { e.Join? || e.DropOwner? || e.Watch? || e.Unwatch? || e.Consume? }

  /** What others do, while it waits. */
  predicate ByOthers(e: Event) { !ByOwner(e) && !e.Take? }

  predicate Active(s: World) { s.owner == Suspended || s.owner == Runnable }

  predicate Can(p: Pool, m: Move) {
    && !p.broken && m.joint in p.joints && Enabled(p.joints[m.joint], m.event)
    && (ByOwner(m.event) ==> forall j :: j in p.joints ==> !Active(p.joints[j]))
  }

  /** `Task::resume` finds the coroutine among the suspended ones, whichever joint it is
      suspended in. */
  function Roused(s: World): World { if s.owner == Suspended then s.(owner := Runnable) else s }

  function Make(p: Pool, m: Move): Pool
    requires Can(p, m)
  {
    var s := p.joints[m.joint];
    var t := Apply(s, m.event);
    var joints := p.joints[m.joint := t];
    Pool(if t.strays > s.strays then map j | j in joints :: Roused(joints[j]) else joints,
         m.event.Take? && Outcome(s.state).None?)
  }

  function Follow(p: Pool, moves: seq<Move>): Option<Pool>
    decreases |moves|
  {
    if moves == [] then Some(p) else if Can(p, moves[0]) then Follow(Make(p, moves[0]), moves[1..]) else None
  }

  ghost predicate Reaches(p: Pool, moves: seq<Move>, q: Pool) { Follow(p, moves) == Some(q) }

  ghost predicate Reachable(p: Pool) { exists js, moves :: Reaches(Fresh(js), moves, p) }

  // ----- what every pool keeps -----

  predicate JointOk(s: World) {
    && (s.owner == Suspended ==> s.state == Joining && !s.lateJoin)
    && (s.owner == Idle ==> s.state != Joining && s.state != Joined)
    && (s.state == Joining && !Active(s) ==> s.lateJoin)
    && (s.lateJoin ==> s.owner.Got? || s.owner == Threw)
  }

  ghost predicate PoolOk(p: Pool) {
    p.broken ||
    (&& (forall j :: j in p.joints ==> JointOk(p.joints[j]))
     && (forall i, j :: i in p.joints && j in p.joints && Active(p.joints[i]) && Active(p.joints[j]) ==> i == j))
  }

  lemma JointStep(s: World, e: Event)
    requires JointOk(s) && Enabled(s, e) && !(e.Take? && Outcome(s.state).None?)
    ensures JointOk(Apply(s, e))
    ensures Active(Apply(s, e)) ==> Active(s) || e.Join?
  {
  }

  lemma StepKeepsPool(p: Pool, m: Move)
    requires PoolOk(p) && Can(p, m)
    ensures PoolOk(Make(p, m))
  {
    var q := Make(p, m);
    if !q.broken {
      JointStep(p.joints[m.joint], m.event);
      forall j | j in q.joints
        ensures JointOk(q.joints[j])
        ensures Active(q.joints[j]) ==> Active(p.joints[j]) || (m.event.Join? && j == m.joint)
      {
        assert j == m.joint || q.joints[j] == p.joints[j] || q.joints[j] == Roused(p.joints[j]);
      }
    }
  }

  lemma {:induction false} FollowKeepsPool(p: Pool, moves: seq<Move>, q: Pool)
    requires PoolOk(p) && Reaches(p, moves, q)
    ensures PoolOk(q)
    decreases |moves|
  {
    if moves != [] {
      StepKeepsPool(p, moves[0]);
      FollowKeepsPool(Make(p, moves[0]), moves[1..], q);
    }
  }

  lemma ReachablePool(p: Pool)
    requires Reachable(p)
    ensures PoolOk(p)
  {
    var js, moves :| Reaches(Fresh(js), moves, p);
    FollowKeepsPool(Fresh(js), moves, p);
  }

  // ----- when `take` finds nothing -----

  /** An earlier `join` was late, and a resumption of it is left. */
  predicate LeftBehind(s: World) { s.lateJoin && s.state == Joining && s.handles > 0 }

  /** The coroutine has been resumed and will find no result. */
  predicate TakesNothing(p: Pool, b: Jid) {
    b in p.joints && p.joints[b].owner == Runnable && Outcome(p.joints[b].state).None?
  }

  predicate AllByOthers(moves: seq<Move>) { forall k :: 0 <= k < |moves| ==> ByOthers(moves[k].event) }

  /** Others can bring that about before the coroutine runs again. */
  ghost predicate MayTakeNothing(p: Pool, b: Jid) {
    exists moves: seq<Move>, q: Pool :: Reaches(p, moves, q) && AllByOthers(moves) && TakesNothing(q, b)
  }

  /** The coroutine waits in `b`, or has been woken there by a result, and no other joint can
      resume it. */
  ghost predicate Undisturbed(p: Pool, b: Jid) {
    && b in p.joints && !p.joints[b].lateJoin
    && ((p.joints[b].owner == Suspended && p.joints[b].state == Joining)
        || (p.joints[b].owner == Runnable && (p.joints[b].state.Holds? || p.joints[b].state == Panicked)))
    && (forall a :: a in p.joints && a != b ==>
          !Active(p.joints[a]) && (p.joints[a].state == Joining ==> p.joints[a].handles == 0))
  }

  lemma OthersDisturbNobody(p: Pool, m: Move, b: Jid)
    requires Undisturbed(p, b) && Can(p, m) && ByOthers(m.event)
    ensures Undisturbed(Make(p, m), b)
  {
    var s := p.joints[m.joint];
    assert m.joint != b ==> s.state != Joining || m.event.Interrupt?;
    assert Apply(s, m.event).strays == s.strays;
  }

  lemma {:induction false} StaysUndisturbed(p: Pool, moves: seq<Move>, q: Pool, b: Jid)
    requires Undisturbed(p, b) && Reaches(p, moves, q) && AllByOthers(moves)
    ensures Undisturbed(q, b)
    decreases |moves|
  {
    if moves != [] {
      OthersDisturbNobody(p, moves[0], b);
      StaysUndisturbed(Make(p, moves[0]), moves[1..], q, b);
    }
  }

  lemma LeftBehindDisturbs(p: Pool, a: Jid, b: Jid)
    requires PoolOk(p) && !p.broken && a in p.joints && b in p.joints
    requires LeftBehind(p.joints[a]) && p.joints[b].owner == Suspended
    ensures MayTakeNothing(p, b)
  {
    var m := On(a, Send(0));
    var q := Make(p, m);
    assert [m][1..] == [];
    assert Follow(q, []) == Some(q);
    assert Reaches(p, [m], q);
    assert TakesNothing(q, b);
  }

  /** A coroutine that is suspended in `b` may be resumed without a result, and `take` then
      comes to its `unreachable!`, exactly if an earlier join of the coroutine was late and
      left a resumption. */
  lemma TakeFailsExactlyAfterALateJoin(p: Pool, b: Jid)
    requires Reachable(p) && !p.broken && b in p.joints && p.joints[b].owner == Suspended
    ensures MayTakeNothing(p, b) <==> exists a :: a in p.joints && LeftBehind(p.joints[a])
  {
    ReachablePool(p);
    if a :| a in p.joints && LeftBehind(p.joints[a]) {
      LeftBehindDisturbs(p, a, b);
    } else {
      forall a | a in p.joints && a != b
        ensures !Active(p.joints[a]) && (p.joints[a].state == Joining ==> p.joints[a].handles == 0)
      {
        assert !LeftBehind(p.joints[a]);
      }
      forall moves: seq<Move>, q: Pool | Reaches(p, moves, q) && AllByOthers(moves) ensures !TakesNothing(q, b) {
        StaysUndisturbed(p, moves, q, b);
      }
    }
  }

  /** Such a `take` breaks the pool. */
  lemma TakingNothingBreaks(p: Pool, b: Jid)
    requires !p.broken && TakesNothing(p, b)
    ensures Can(p, On(b, Take)) && Make(p, On(b, Take)).broken
  {
  }

  lemma FollowOne(p: Pool, m: Move, moves: seq<Move>, q: Pool)
    requires Can(p, m) && Reaches(Make(p, m), moves, q)
    ensures Reaches(p, [m] + moves, q)
  {
    assert ([m] + moves)[1..] == moves;
  }

  function Two(a: World, b: World): Pool { Pool(map[0 := a, 1 := b], false) }

  lemma FirstMakes(a: World, b: World, e: Event)
    requires Enabled(a, e) && !e.Take? && (ByOwner(e) ==> !Active(a) && !Active(b))
    requires Roused(Apply(a, e)) == Apply(a, e)
    ensures Can(Two(a, b), On(0, e))
    ensures Make(Two(a, b), On(0, e)) == Two(Apply(a, e), if Apply(a, e).strays > a.strays then Roused(b) else b)
  {
    var c := if Apply(a, e).strays > a.strays then Roused(b) else b;
    assert Make(Two(a, b), On(0, e)).joints == Two(Apply(a, e), c).joints;
  }

  lemma FirstMoves(a: World, b: World, e: Event, moves: seq<Move>, q: Pool)
    requires Enabled(a, e) && !e.Take? && (ByOwner(e) ==> !Active(a) && !Active(b))
    requires Reaches(Two(Apply(a, e), if Apply(a, e).strays > a.strays then Roused(b) else b), moves, q)
    requires Roused(Apply(a, e)) == Apply(a, e)
    ensures Reaches(Two(a, b), [On(0, e)] + moves, q)
  {
    FirstMakes(a, b, e);
    FollowOne(Two(a, b), On(0, e), moves, q);
  }

  lemma SecondJoinsAndTakes(a: World, v: Value) returns (moves: seq<Move>, p: Pool)
    requires a.handles > 0 && LeftBehind(a) && a.owner.Got?
    ensures Reaches(Two(a, Initial()), moves, p) && p.broken
  {
    var b := Apply(Initial(), Join);
    var c := Apply(a, Send(v));
    p := Make(Two(c, Roused(b)), On(1, Take));
    assert Reaches(p, [], p);
    FollowOne(Two(c, Roused(b)), On(1, Take), [], p);
    FirstMoves(a, b, Send(v), [On(1, Take)] + [], p);
    assert Make(Two(a, Initial()), On(1, Join)).joints == Two(a, b).joints;
    FollowOne(Two(a, Initial()), On(1, Join), [On(0, Send(v))] + ([On(1, Take)] + []), p);
    moves := [On(1, Join)] + ([On(0, Send(v))] + ([On(1, Take)] + []));
  }

  /** It happens with two: a value is sent through one resumption of the first, the join takes
      it at once, the coroutine suspends in the second, and the other resumption of the
      first is used. */
  lemma StrayResumptionBreaks() returns (moves: seq<Move>, p: Pool)
    ensures Reaches(Fresh({0, 1}), moves, p) && p.broken
  {
    moves, p := SecondJoinsAndTakes(Apply(Apply(Apply(Initial(), Clone), Send(4)), Join), 5);
    UpToTheLateJoin(moves, p);
    moves := [On(0, Clone)] + ([On(0, Send(4))] + ([On(0, Join)] + moves));
  }

  lemma UpToTheLateJoin(moves: seq<Move>, q: Pool)
    requires Reaches(Two(Apply(Apply(Apply(Initial(), Clone), Send(4)), Join), Initial()), moves, q)
    ensures Reaches(Fresh({0, 1}), [On(0, Clone)] + ([On(0, Send(4))] + ([On(0, Join)] + moves)), q)
  {
    var b := Initial();
    var a1 := Apply(b, Clone);
    var a2 := Apply(a1, Send(4));
    FirstMoves(a2, b, Join, moves, q);
    FirstMoves(a1, b, Send(4), [On(0, Join)] + moves, q);
    FirstMoves(b, b, Clone, [On(0, Send(4))] + ([On(0, Join)] + moves), q);
    assert Fresh({0, 1}).joints == Two(b, b).joints;
  }
}
