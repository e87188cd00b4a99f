/** The handles of `src/channel/shared.rs` and the counters of the parallel channel behind
    them. Threads clone, close and drop handles at any time; `fetch_sub` and the closing
    that may follow it are two steps. */
module SharedHandles {
  import opened Options

  type Handle = nat

  /** One end of the channel: its counter, the handles that still have their channel, those
      that have taken the counter to zero and are about to close, and how many have let go
      of the channel without touching the counter. */
  datatype End = End(count: int, live: set<Handle>, closing: set<Handle>, skipped: nat)

  datatype Side = Senders | Receivers

  datatype World = World(
    closed: bool,
    senders: End,
    receivers: End,
    byHand: bool,               // `Receiver::close` was called
    zeros: map<Side, nat>)      // how often a counter has reached zero

  function Initial(s: Handle, r: Handle): World {
    World(false, End(1, {s}, {}, 0), End(1, {r}, {}, 0), false, map[Senders := 0, Receivers := 0])
  }

  datatype Event =
    | Clone(side: Side, h: Handle, copy: Handle)
    | Sub(side: Side, h: Handle)          // `remove_sender` or `remove_receiver`: the atomic part
    | Shut(side: Side, h: Handle)         // ... and `State::close` under the lock
    | Skip(side: Side, h: Handle)         // a `Closed` permit is consumed
    | CloseByHand(h: Handle)              // `Receiver::close`

  function EndOf(s: World, side: Side): End { if side == Senders then s.senders else s.receivers }

  function With(s: World, side: Side, e: End): World {
    if side == Senders then s.(senders := e) else s.(receivers := e)
  }

  /** The channel gives `Closed` permits only when it is closed: `ParallelChannel.EndIsTrue`. */
  predicate Enabled(s: World, e: Event) {
    match e
    case Clone(side, h, copy) => h in EndOf(s, side).live && copy !in EndOf(s, side).live && copy !in EndOf(s, side).closing
    case Sub(side, h) => h in EndOf(s, side).live
    case Shut(side, h) => h in EndOf(s, side).closing
    case Skip(side, h) => h in EndOf(s, side).live && s.closed
    case CloseByHand(h) => h in s.receivers.live
  }

  function Apply(s: World, e: Event): World
    requires Enabled(s, e)
    requires Senders in s.zeros && Receivers in s.zeros
  {
    match e
    case Clone(side, _, copy) =>
      var n := EndOf(s, side);
      With(s, side, n.(count := n.count + 1, live := n.live + {copy}))
    case Sub(side, h) =>
      var n := EndOf(s, side);
      var m := n.(count := n.count - 1, live := n.live - {h});
      if n.count == 1 then With(s, side, m.(closing := n.closing + {h})).(zeros := s.zeros[side := s.zeros[side] + 1])
      else With(s, side, m)
    case Shut(side, h) => With(s, side, EndOf(s, side).(closing := EndOf(s, side).closing - {h})).(closed := true)
    case Skip(side, h) =>
      var n := EndOf(s, side);
      With(s, side, n.(live := n.live - {h}, skipped := n.skipped + 1))
    case CloseByHand(_) => s.(closed := true, byHand := true)
  }

  // ----- the invariant -----

  predicate EndOk(n: End, closed: bool, zeros: nat) {
    && n.count == |n.live| + n.skipped
    && (n.skipped > 0 ==> closed)
    && zeros <= 1
    && (zeros == 1 <==> n.count == 0)
    && |n.closing| <= zeros
    && (n.count == 0 && n.closing == {} ==> closed)
  }

  predicate Inv(s: World) {
    && Senders in s.zeros && Receivers in s.zeros
    && EndOk(s.senders, s.closed, s.zeros[Senders])
    && EndOk(s.receivers, s.closed, s.zeros[Receivers])
    && (s.closed ==> s.byHand || s.senders.live == {} || s.receivers.live == {})
    && (s.byHand ==> s.closed)
  }

  lemma CloneKeeps(s: World, e: Event)
    requires Inv(s) && Enabled(s, e) && e.Clone?
    ensures Inv(Apply(s, e))
  {
    var n := EndOf(s, e.side);
    assert n.live != {};
    assert |n.live| > 0;
  }

  lemma SubKeeps(s: World, e: Event)
    requires Inv(s) && Enabled(s, e) && e.Sub?
    ensures Inv(Apply(s, e))
  {
    var n := EndOf(s, e.side);
    assert |n.live - {e.h}| == |n.live| - 1;
    assert |n.live| > 0;
    assert |n.closing| == 0;
    assert n.closing == {};
  }

  lemma ShutKeeps(s: World, e: Event)
    requires Inv(s) && Enabled(s, e) && e.Shut?
    ensures Inv(Apply(s, e))
  {
    var n := EndOf(s, e.side);
    assert |n.closing - {e.h}| == |n.closing| - 1;
    assert |n.closing| == 1 && n.count == 0;
    assert n.live == {};
  }

  lemma SkipKeeps(s: World, e: Event)
    requires Inv(s) && Enabled(s, e) && e.Skip?
    ensures Inv(Apply(s, e))
  {
    var n := EndOf(s, e.side);
    assert |n.live - {e.h}| == |n.live| - 1;
  }

  lemma StepKeepsInv(s: World, e: Event)
    requires Inv(s) && Enabled(s, e)
    ensures Inv(Apply(s, e))
  {
    match e
    case Clone(_, _, _) => CloneKeeps(s, e);
    case Sub(_, _) => SubKeeps(s, e);
    case Shut(_, _) => ShutKeeps(s, e);
    case Skip(_, _) => SkipKeeps(s, e);
    case CloseByHand(_) =>
  }

  // ----- whole runs -----

  predicate Leads(s: World, e: Event, t: World) {
    Enabled(s, e) && Senders in s.zeros && Receivers in s.zeros && t == Apply(s, e)
  }

  ghost predicate IsRun(run: seq<World>, events: seq<Event>) {
    && |run| == |events| + 1
    && (exists s, r :: run[0] == Initial(s, r))
    && forall i {:trigger events[i]} :: 0 <= i < |events| ==> Leads(run[i], events[i], run[i + 1])
  }

  lemma {:induction false} RunsKeepInv(run: seq<World>, events: seq<Event>, i: nat)
    requires IsRun(run, events) && i < |run|
    ensures Inv(run[i])
  {
    if i > 0 {
      RunsKeepInv(run, events, i - 1);
      StepKeepsInv(run[i - 1], events[i - 1]);
    }
  }

  /** While the channel is open both counters are the numbers of live handles; afterwards
      they never fall below them, so no `fetch_sub` underflows. */
  lemma CountersAreHandles(run: seq<World>, events: seq<Event>, i: nat, side: Side)
    requires IsRun(run, events) && i < |run|
    ensures var n := EndOf(run[i], side);
      && n.count >= |n.live|
      && (!run[i].closed ==> n.count == |n.live|)
      && (n.live != {} ==> n.count > 0)
  {
    RunsKeepInv(run, events, i);
    var n := EndOf(run[i], side);
    if n.live != {} { assert |n.live| > 0; }
  }

  /** A counter reaches zero at most once, so at most one handle of an end closes the channel
      for being the last. */
  lemma LastHandleClosesOnce(run: seq<World>, events: seq<Event>, i: nat, side: Side)
    requires IsRun(run, events) && i < |run|
    ensures side in run[i].zeros && run[i].zeros[side] <= 1 && |EndOf(run[i], side).closing| <= 1
  {
    RunsKeepInv(run, events, i);
  }

  /** The channel is closed exactly when one of its ends has no handle left or a receiver
      closed it by hand, as soon as nobody is between `fetch_sub` and `close`. */
  lemma ClosedExactlyWhenAnEndIsGone(run: seq<World>, events: seq<Event>, i: nat)
    requires IsRun(run, events) && i < |run|
    ensures var s := run[i];
      && (s.closed ==> s.byHand || s.senders.live == {} || s.receivers.live == {})
      && (s.senders.closing == {} && s.receivers.closing == {} ==>
            (s.closed <==> s.byHand || s.senders.live == {} || s.receivers.live == {}))
  {
    RunsKeepInv(run, events, i);
  }

  /** Closed for good. */
  lemma {:induction false} ClosedStays(run: seq<World>, events: seq<Event>, i: nat, j: nat)
    requires IsRun(run, events) && i <= j < |run| && run[i].closed
    ensures run[j].closed
  {
    if i < j {
      ClosedStays(run, events, i, j - 1);
      assert Leads(run[j - 1], events[j - 1], run[j]);
    }
  }

  /** The other end of the channel. */
  function Other(side: Side): Side { if side == Senders then Receivers else Senders }

  /** A copy is live from then on; a handle that lets go is not; the last of an end closes. Nobody
      else is touched. */
  lemma HandleTells(s: World, e: Event)
    requires Inv(s) && Enabled(s, e)
    ensures var t := Apply(s, e);
      match e
      case Clone(side, h, copy) =>
        && EndOf(t, side).live == EndOf(s, side).live + {copy} && EndOf(t, side).count == EndOf(s, side).count + 1
        && EndOf(t, Other(side)) == EndOf(s, Other(side)) && t.closed == s.closed
      case Sub(side, h) =>
        && EndOf(t, side).live == EndOf(s, side).live - {h} && EndOf(t, side).count == EndOf(s, side).count - 1
        && (h in EndOf(t, side).closing <==> EndOf(t, side).count == 0 || h in EndOf(s, side).closing)
        && EndOf(t, Other(side)) == EndOf(s, Other(side)) && t.closed == s.closed
      case Shut(side, h) => t.closed && h !in EndOf(t, side).closing && EndOf(t, side).live == EndOf(s, side).live
      case Skip(side, h) =>
        && EndOf(t, side).live == EndOf(s, side).live - {h} && EndOf(t, side).count == EndOf(s, side).count
        && EndOf(t, Other(side)) == EndOf(s, Other(side)) && t.closed
      case CloseByHand(_) => t.closed && t.senders == s.senders && t.receivers == s.receivers
  {
  }
}
