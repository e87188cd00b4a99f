/** Where the outcome of a session comes from. */
module SessionAnswers {
  import opened Options
  import opened SessionProtocol

  /** What started the call `a` at event `k`: a waker that is used brings what it was used
      with, one that is dropped as the last brings a panic, and so does an interrupt. */
  predicate Starts(e: Event, a: Agent, o: Outcome) {
    match a
    case Waker(h) => e == Use(h, o) || (e == Release(h) && o.Panic?)
    case Interrupter(i) => o.Panic? && e == Interrupt(i, o.reason)
  }

  /** The state of the handle tells which of the two it was. */
  predicate AsTheHandleSays(s: State, e: Event, a: Agent)
    requires a.Waker? ==> a.h in s.handles
  {
    a.Waker? ==> (s.handles[a.h].Used? <==> e.Use?) && (s.handles[a.h].Gone? <==> e.Release?)
  }

  ghost predicate ComesFrom(s: State, events: seq<Event>, n: nat, a: Agent)
    requires a in s.given && n <= |events|
  {
    && (a.Waker? ==> a.h in s.handles)
    && exists k :: 0 <= k < n && Starts(events[k], a, s.given[a]) && AsTheHandleSays(s, events[k], a)
  }

  /** A call that has been made keeps its outcome, and its handle what has become of it. */
  lemma StepKeepsGiven(s: State, e: Event, a: Agent)
    requires Inv(s) && Enabled(s, e) && Safe(s, e) && a in s.given
    ensures var t := Apply(s, e);
      && a in t.given && t.given[a] == s.given[a]
      && (a.Waker? ==> a.h in s.handles && a.h in t.handles && t.handles[a.h] == s.handles[a.h])
  {
  }

  /** A new call is started by this event. */
  lemma StepStarts(s: State, e: Event, a: Agent)
    requires Inv(s) && Enabled(s, e) && Safe(s, e) && a !in s.given && a in Apply(s, e).given
    ensures var t := Apply(s, e);
      && Starts(e, a, t.given[a]) && (a.Waker? ==> a.h in t.handles) && AsTheHandleSays(t, e, a)
  {
  }

  /** In every run, each call has been started by an earlier event, which brought its outcome:
      the outcome of every dropped handle and of every interrupt is a panic. */
  lemma {:induction false} EveryCallWasStarted(run: seq<State>, events: seq<Event>, i: nat, a: Agent)
    requires IsRun(run, events) && i <= |events| && a in run[i].given
    ensures ComesFrom(run[i], events, i, a)
  {
    if i > 0 {
      RunsKeepInv(run, events, i - 1);
      if a in run[i - 1].given {
        EveryCallWasStarted(run, events, i - 1, a);
        StepKeepsGiven(run[i - 1], events[i - 1], a);
        var k :| 0 <= k < i - 1 && Starts(events[k], a, run[i - 1].given[a]) && AsTheHandleSays(run[i - 1], events[k], a);
        assert Starts(events[k], a, run[i].given[a]) && AsTheHandleSays(run[i], events[k], a);
      } else {
        StepStarts(run[i - 1], events[i - 1], a);
      }
    }
  }

  /** Dropping handles and interrupting never produce a value. */
  lemma OnlyUsesBringValues(run: seq<State>, events: seq<Event>, i: nat, a: Agent)
    requires IsRun(run, events) && i <= |events| && a in run[i].given && run[i].given[a].Value?
    ensures a.Waker? && a.h in run[i].handles && run[i].handles[a.h].Used?
    ensures exists k :: 0 <= k < i && events[k] == Use(a.h, run[i].given[a])
  {
    EveryCallWasStarted(run, events, i, a);
    var k :| 0 <= k < i && Starts(events[k], a, run[i].given[a]) && AsTheHandleSays(run[i], events[k], a);
    assert events[k] == Use(a.h, run[i].given[a]);
  }

  /** A value that the owner returns was sent: exactly one call has succeeded, it was made with
      a waker, and an earlier use of that waker brought this value. */
  lemma ReturnedValueWasSent(run: seq<State>, events: seq<Event>, i: nat, v: int)
    requires IsRun(run, events) && i <= |events| && run[i].owner == Returned(Value(v))
    ensures exists h, k :: Sent(run[i], events, i, h, k, v)
    ensures forall a, b :: a in run[i].setters && b in run[i].setters && run[i].setters[a].Woken? && run[i].setters[b].Woken? ==>
              a == b
  {
    var s := run[i];
    JoinGetsTheWinner(run, events, i, i);
    var w :| w in s.setters && s.setters[w].Woken?;
    assert s.given[w] == Value(v);
    OnlyUsesBringValues(run, events, i, w);
    var k :| 0 <= k < i && events[k] == Use(w.h, s.given[w]);
    assert Sent(s, events, i, w.h, k, v);
  }

  predicate Sent(s: State, events: seq<Event>, n: nat, h: nat, k: nat, v: int)
    requires n <= |events|
  {
    && k < n && events[k] == Use(h, Value(v))
    && Waker(h) in s.setters && s.setters[Waker(h)].Woken?
    && h in s.handles && s.handles[h].Used?
  }

  /** The other way round: if the only call that was ever started is the one for the last
      handle, dropped unused, an owner that returns has a panic. */
  lemma DroppedWakersPanic(run: seq<State>, events: seq<Event>, i: nat)
    requires IsRun(run, events) && i <= |events| && run[i].owner.Returned?
    requires forall h :: h in run[i].handles ==> !run[i].handles[h].Used?
    ensures run[i].owner.o.Panic?
  {
    if run[i].owner.o.Value? { ReturnedValueWasSent(run, events, i, run[i].owner.o.v); }
  }

  /** The last handle that is dropped unused starts the call that faults. */
  lemma LastDropFaults(s: State, h: nat)
    requires Inv(s) && Enabled(s, Release(h)) && Safe(s, Release(h)) && Waker(h) !in s.setters
    ensures var t := Apply(s, Release(h));
      Waker(h) in t.setters <==> forall k :: k in s.handles && k != h ==> s.handles[k].Gone?
  {
    assert h in s.counted;
    assert |s.counted - {h}| == s.wakers - 1;
    assert s.wakers == 1 <==> s.counted - {h} == {};
    assert s.counted - {h} == {} <==> forall k :: k in s.handles && k != h ==> s.handles[k].Gone?;
  }

  /** A copied handle is another one that can be used; a used or dropped one is spent, and a use
      starts a call with what it brings. */
  lemma HandlesTell(s: State, e: Event)
    requires Inv(s) && Enabled(s, e) && Safe(s, e)
    ensures var t := Apply(s, e);
      match e
      case Clone(h, copy) => t.handles == s.handles[copy := Live] && t.wakers == s.wakers + 1 && t.setters == s.setters
      case Use(h, o) =>
        t.handles == s.handles[h := Used] && t.wakers == s.wakers && t.setters == s.setters[Waker(h) := Start(o)]
      case Release(h) => t.handles == s.handles[h := Gone] && t.wakers == s.wakers - 1
      case Interrupt(i, reason) => t.handles == s.handles && t.setters == s.setters[Interrupter(i) := Start(Panic(reason))]
      case _ => t.handles == s.handles && t.wakers == s.wakers
  {
  }

  /** A `join` starts with the load of the status, and so does dropping the session, directly or
      when its last reference goes. */
  lemma OwnerStarts(s: State, e: Event)
    requires Inv(s) && Enabled(s, e) && Safe(s, e) && (e.Join? || e.DropSession? || e.Reclaim?)
    ensures Apply(s, e).owner == if e.Join? then JoinLoad(e.j) else DropLoad
    ensures Apply(s, e).memory == s.memory
  {
  }
}
