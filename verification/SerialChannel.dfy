/** The channel of `src/channel/serial.rs`, between coroutines of one task. A turn of the
    loops of `send` and `recv` runs without suspension and is one step; so is every other
    call. Parked coroutines wait in queues beside the selectors of multi-channel selects,
    which may have been applied by another channel in the meantime. */
module SerialChannel {
  import opened Options

  type Value = nat

  /** The waker of a suspended coroutine or of a select. */
  datatype Waker = Plain(co: nat) | Selector(sel: nat)

  datatype Side = Senders | Receivers

  /** A channel, and the wakers around it: selects that nobody has applied a permit to, and
      those that this channel has woken and that have not come back to it. */
  datatype Chan = Chan(
    closed: bool,
    bound: nat,
    deque: seq<Value>,
    senders: seq<Waker>,
    receivers: seq<Waker>,
    waiting: set<nat>,
    wokenSenders: set<Waker>,
    wokenReceivers: set<Waker>,
    // Values pushed and popped so far.
    pushed: seq<Value>,
    popped: seq<Value>)
  {
    predicate IsFull() { bound == |deque| }

    predicate IsSendable() { closed || !IsFull() }

    predicate IsRecvable() { deque != [] || closed }

    /** Waking it would succeed. */
    predicate Live(w: Waker) { w.Plain? || w.sel in waiting }

    /** `Waker::wake` */
    function Fire(w: Waker, side: Side): Chan {
      var c := this.(waiting := if w.Selector? then waiting - {w.sel} else waiting);
      if side == Senders then c.(wokenSenders := wokenSenders + {w}) else c.(wokenReceivers := wokenReceivers + {w})
    }

    /** `State::wake_sender` */
    function WakeSender(): Chan
      decreases |senders|
    {
      if senders == [] then this
      else
        var c := this.(senders := senders[1..]);
        if Live(senders[0]) then c.Fire(senders[0], Senders) else c.WakeSender()
    }

    /** `State::wake_receiver` */
    function WakeReceiver(): Chan
      decreases |receivers|
    {
      if receivers == [] then this
      else
        var c := this.(receivers := receivers[1..]);
        if Live(receivers[0]) then c.Fire(receivers[0], Receivers) else c.WakeReceiver()
    }

    function WakeAllSenders(): Chan
      decreases |senders|
    {
      if senders == [] then this
      else
        var c := this.(senders := senders[1..]);
        (if Live(senders[0]) then c.Fire(senders[0], Senders) else c).WakeAllSenders()
    }

    function WakeAllReceivers(): Chan
      decreases |receivers|
    {
      if receivers == [] then this
      else
        var c := this.(receivers := receivers[1..]);
        (if Live(receivers[0]) then c.Fire(receivers[0], Receivers) else c).WakeAllReceivers()
    }

    /** `State::close` */
    function Close(): Chan { this.(closed := true).WakeAllSenders().WakeAllReceivers() }

    function Push(v: Value): Chan { this.(deque := deque + [v], pushed := pushed + [v]) }

    function Pop(): Chan
      requires deque != []
    {
      this.(deque := deque[1..], popped := popped + [deque[0]])
    }

    /** A turn of the loop of `send`; no outcome if the coroutine `co` is parked. */
    function SendTurn(co: nat, trying: bool, v: Value): (Chan, Option<SendOutcome>) {
      if closed then (this, Some(Refused(v)))
      else if !IsFull() then (Push(v).WakeReceiver(), Some(Sent))
      else if trying then (this, Some(Full(v)))
      else (this.(senders := senders + [Plain(co)]), None)
    }

    /** A turn of the loop of `recv`. */
    function RecvTurn(co: nat, trying: bool): (Chan, Option<RecvOutcome>) {
      if deque != [] then (Pop().WakeSender(), Some(Received(deque[0])))
      else if closed then (this, Some(Drained))
      else if trying then (this, Some(Empty))
      else (this.(receivers := receivers + [Plain(co)]), None)
    }

    function WatchSend(sel: nat): Chan { this.(senders := senders + [Selector(sel)]) }

    function WatchRecv(sel: nat): Chan { this.(receivers := receivers + [Selector(sel)]) }

    function UnwatchSend(sel: nat): Chan { this.(senders := RemoveFirst(senders, Selector(sel))) }

    function UnwatchRecv(sel: nat): Chan { this.(receivers := RemoveFirst(receivers, Selector(sel))) }

    /** The coroutine or select is back, whatever it does next. */
    function Back(w: Waker): Chan {
      this.(wokenSenders := wokenSenders - {w}, wokenReceivers := wokenReceivers - {w})
    }
  }

  datatype SendOutcome = Sent | Full(value: Value) | Refused(value: Value)

  datatype RecvOutcome = Received(value: Value) | Empty | Drained

  function RemoveFirst(ws: seq<Waker>, w: Waker): seq<Waker> {
    if ws == [] then [] else if ws[0] == w then ws[1..] else [ws[0]] + RemoveFirst(ws[1..], w)
  }

  datatype Event =
    | Send(co: nat, trying: bool, value: Value)       // a call, or the next turn of one
    | Recv(co: nat, trying: bool)
    | Begin(sel: nat)                                 // a select creates its waker
    | WatchSend(sel: nat)
    | WatchRecv(sel: nat)
    | UnwatchSend(sel: nat)                           // after the wait of the select
    | UnwatchRecv(sel: nat)
    | ConsumeSend(sel: nat, value: Value)             // with a permit of this channel
    | ConsumeRecv(sel: nat)
    | Elsewhere(sel: nat)                             // another channel applies a permit
    | Close

  predicate Parked(c: Chan, w: Waker) { w in c.senders || w in c.receivers }

  predicate Enabled(c: Chan, e: Event) {
    match e
    case Send(co, _, _) => !Parked(c, Plain(co)) && Plain(co) !in c.wokenReceivers
    case Recv(co, _) => !Parked(c, Plain(co)) && Plain(co) !in c.wokenSenders
    case Begin(sel) =>
      && sel !in c.waiting && !Parked(c, Selector(sel))
      && Selector(sel) !in c.wokenSenders && Selector(sel) !in c.wokenReceivers
    // The asserts of the watch methods; a select that has a permit may still watch.
    case WatchSend(sel) => !c.IsSendable()
    case WatchRecv(sel) => !c.IsRecvable()
    case UnwatchSend(sel) => sel !in c.waiting
    case UnwatchRecv(sel) => sel !in c.waiting
    case ConsumeSend(sel, _) => sel !in c.waiting && Selector(sel) !in c.wokenReceivers
    case ConsumeRecv(sel) => sel !in c.waiting && Selector(sel) !in c.wokenSenders
    case Elsewhere(sel) => sel in c.waiting
    case Close => true
  }

  function Apply(c: Chan, e: Event): Chan {
    match e
    case Send(co, trying, v) => c.Back(Plain(co)).SendTurn(co, trying, v).0
    case Recv(co, trying) => c.Back(Plain(co)).RecvTurn(co, trying).0
    case Begin(sel) => c.(waiting := c.waiting + {sel})
    case WatchSend(sel) => c.WatchSend(sel)
    case WatchRecv(sel) => c.WatchRecv(sel)
    case UnwatchSend(sel) => c.UnwatchSend(sel)
    case UnwatchRecv(sel) => c.UnwatchRecv(sel)
    case ConsumeSend(sel, v) => c.Back(Selector(sel)).SendTurn(sel, true, v).0
    case ConsumeRecv(sel) => c.Back(Selector(sel)).RecvTurn(sel, true).0
    case Elsewhere(sel) => c.(waiting := c.waiting - {sel})
    case Close => c.Close()
  }

  function Initial(bound: nat): Chan { Chan(false, bound, [], [], [], {}, {}, {}, [], []) }

  // ----- the invariant -----

  /** Somebody in the queue is really parked: a coroutine, or a select without a permit. */
  ghost predicate AnyLive(ws: seq<Waker>, waiting: set<nat>) {
    exists i :: 0 <= i < |ws| && (ws[i].Plain? || ws[i].sel in waiting)
  }

  /** Buffered values are matched by receivers that have been woken for them, as long as a
      receiver is parked; so are free slots by senders. */
  ghost predicate NoLostWakeup(c: Chan) {
    && (AnyLive(c.receivers, c.waiting) ==> |c.deque| <= |c.wokenReceivers|)
    && (AnyLive(c.senders, c.waiting) ==> c.bound - |c.deque| <= |c.wokenSenders|)
  }

  /** A coroutine waits in one place; a select without a permit has not been woken. */
  ghost predicate Tidy(c: Chan) {
    && (forall w: Waker :: w.Plain? ==>
          multiset(c.senders)[w] + multiset(c.receivers)[w] + (if w in c.wokenSenders then 1 else 0)
          + (if w in c.wokenReceivers then 1 else 0) <= 1)
    && (forall s :: s in c.waiting ==> Selector(s) !in c.wokenSenders && Selector(s) !in c.wokenReceivers)
  }

  ghost predicate Sound(c: Chan) {
    && c.pushed == c.popped + c.deque
    && |c.deque| <= c.bound
    && (c.closed ==> c.senders == [] && c.receivers == [])
  }

  ghost predicate Inv(c: Chan) { Sound(c) && Tidy(c) && NoLostWakeup(c) }

  lemma LiveShrinks(ws: seq<Waker>, more: seq<Waker>, waiting: set<nat>, before: set<nat>)
    requires waiting <= before && (forall w :: w in ws ==> w in more) && AnyLive(ws, waiting)
    ensures AnyLive(more, before)
  {
    var i :| 0 <= i < |ws| && (ws[i].Plain? || ws[i].sel in waiting);
    assert ws[i] in more;
    var j :| 0 <= j < |more| && more[j] == ws[i];
  }

  /** The head of a queue is woken: it is not parked any more. */
  lemma FireReceiverKeepsTidy(c: Chan)
    requires Tidy(c) && c.receivers != [] && c.Live(c.receivers[0])
    ensures Tidy(c.(receivers := c.receivers[1..]).Fire(c.receivers[0], Receivers))
    ensures |c.wokenReceivers + {c.receivers[0]}| == |c.wokenReceivers| + 1
  {
    HeadCounts(c.receivers);
    HeadIsNotWoken(c.receivers, c.wokenReceivers, c.receivers[0]);
  }

  lemma FireSenderKeepsTidy(c: Chan)
    requires Tidy(c) && c.senders != [] && c.Live(c.senders[0])
    ensures Tidy(c.(senders := c.senders[1..]).Fire(c.senders[0], Senders))
    ensures |c.wokenSenders + {c.senders[0]}| == |c.wokenSenders| + 1
  {
    HeadCounts(c.senders);
    HeadIsNotWoken(c.senders, c.wokenSenders, c.senders[0]);
  }

  lemma HeadIsNotWoken(ws: seq<Waker>, woken: set<Waker>, w: Waker)
    requires ws != [] && w == ws[0] && (w in woken ==> multiset(ws)[w] == 0)
    ensures w !in woken
  {
    assert multiset(ws)[w] >= 1;
  }

  lemma HeadCounts(ws: seq<Waker>)
    requires ws != []
    ensures multiset(ws) == multiset(ws[1..]) + multiset{ws[0]}
  {
    assert ws == [ws[0]] + ws[1..];
  }

  lemma SkipKeepsTidy(c: Chan, d: Chan)
    requires Tidy(c)
    requires || (c.receivers != [] && d == c.(receivers := c.receivers[1..]))
             || (c.senders != [] && d == c.(senders := c.senders[1..]))
    ensures Tidy(d)
  {
    if c.receivers != [] { HeadCounts(c.receivers); }
    if c.senders != [] { HeadCounts(c.senders); }
  }

  /** `wake_receiver` skips stale selectors and wakes the first live waker, if any. */
  lemma {:induction false} WakeReceiverWakes(c: Chan)
    requires Tidy(c)
    ensures var d := c.WakeReceiver();
      && Tidy(d)
      && d == c.(receivers := d.receivers, waiting := d.waiting, wokenReceivers := d.wokenReceivers)
      && d.waiting <= c.waiting && (forall w :: w in d.receivers ==> w in c.receivers)
      && (if AnyLive(c.receivers, c.waiting) then |d.wokenReceivers| == |c.wokenReceivers| + 1
          else d == c.(receivers := []))
    decreases |c.receivers|
  {
    if c.receivers != [] {
      var d := c.(receivers := c.receivers[1..]);
      if c.Live(c.receivers[0]) {
        FireReceiverKeepsTidy(c);
        assert AnyLive(c.receivers, c.waiting);
      } else {
        SkipKeepsTidy(c, d);
        assert AnyLive(c.receivers, c.waiting) ==> AnyLive(d.receivers, d.waiting) by {
          assert forall i :: 0 < i < |c.receivers| ==> c.receivers[i] == d.receivers[i - 1];
        }
        if AnyLive(d.receivers, d.waiting) { LiveShrinks(d.receivers, c.receivers, d.waiting, c.waiting); }
        WakeReceiverWakes(d);
      }
    }
  }

  lemma {:induction false} WakeSenderWakes(c: Chan)
    requires Tidy(c)
    ensures var d := c.WakeSender();
      && Tidy(d)
      && d == c.(senders := d.senders, waiting := d.waiting, wokenSenders := d.wokenSenders)
      && d.waiting <= c.waiting && (forall w :: w in d.senders ==> w in c.senders)
      && (if AnyLive(c.senders, c.waiting) then |d.wokenSenders| == |c.wokenSenders| + 1
          else d == c.(senders := []))
    decreases |c.senders|
  {
    if c.senders != [] {
      var d := c.(senders := c.senders[1..]);
      if c.Live(c.senders[0]) {
        FireSenderKeepsTidy(c);
        assert AnyLive(c.senders, c.waiting);
      } else {
        SkipKeepsTidy(c, d);
        assert AnyLive(c.senders, c.waiting) ==> AnyLive(d.senders, d.waiting) by {
          assert forall i :: 0 < i < |c.senders| ==> c.senders[i] == d.senders[i - 1];
        }
        if AnyLive(d.senders, d.waiting) { LiveShrinks(d.senders, c.senders, d.waiting, c.waiting); }
        WakeSenderWakes(d);
      }
    }
  }

  // ----- every event keeps the invariant -----

  /** Counting allows one value, or one slot, more than has been woken for. */
  ghost predicate AlmostNoLostWakeup(c: Chan, values: nat, slots: nat) {
    && (AnyLive(c.receivers, c.waiting) ==> |c.deque| <= |c.wokenReceivers| + values)
    && (AnyLive(c.senders, c.waiting) ==> c.bound - |c.deque| <= |c.wokenSenders| + slots)
  }

  lemma WakeReceiverRestores(c: Chan)
    requires Sound(c) && Tidy(c) && AlmostNoLostWakeup(c, 1, 0)
    ensures Inv(c.WakeReceiver())
  {
    WakeReceiverWakes(c);
    var d := c.WakeReceiver();
    if AnyLive(d.receivers, d.waiting) { LiveShrinks(d.receivers, c.receivers, d.waiting, c.waiting); }
    if AnyLive(d.senders, d.waiting) { LiveShrinks(d.senders, c.senders, d.waiting, c.waiting); }
  }

  lemma WakeSenderRestores(c: Chan)
    requires Sound(c) && Tidy(c) && AlmostNoLostWakeup(c, 0, 1)
    ensures Inv(c.WakeSender())
  {
    WakeSenderWakes(c);
    var d := c.WakeSender();
    if AnyLive(d.receivers, d.waiting) { LiveShrinks(d.receivers, c.receivers, d.waiting, c.waiting); }
    if AnyLive(d.senders, d.waiting) { LiveShrinks(d.senders, c.senders, d.waiting, c.waiting); }
  }

  /** A woken sender that comes back takes its wakeup with it. */
  lemma BackKeeps(c: Chan, w: Waker)
    requires Inv(c)
    ensures var d := c.Back(w);
      && Sound(d) && Tidy(d)
      && AlmostNoLostWakeup(d, if w in c.wokenReceivers then 1 else 0, if w in c.wokenSenders then 1 else 0)
  {
    assert |c.wokenReceivers - {w}| >= |c.wokenReceivers| - 1;
    assert |c.wokenSenders - {w}| >= |c.wokenSenders| - 1;
  }

  lemma ParkKeeps(c: Chan, w: Waker, d: Chan)
    requires Sound(c) && Tidy(c) && AlmostNoLostWakeup(c, 1, 1) && !c.closed
    requires w.Plain? ==> !Parked(c, w) && w !in c.wokenReceivers && w !in c.wokenSenders
    requires || (c.IsFull() && AlmostNoLostWakeup(c, 0, 1) && d == c.(senders := c.senders + [w]))
             || (c.deque == [] && AlmostNoLostWakeup(c, 1, 0) && d == c.(receivers := c.receivers + [w]))
    ensures Inv(d)
  {
  }

  lemma SendTurnKeeps(c: Chan, co: nat, w: Waker, trying: bool, v: Value)
    requires Inv(c) && w !in c.wokenReceivers && (trying || w == Plain(co))
    requires w.Plain? ==> !Parked(c, w)
    ensures Inv(c.Back(w).SendTurn(co, trying, v).0)
  {
    BackKeeps(c, w);
    var d := c.Back(w);
    if d.closed {
    } else if !d.IsFull() {
      WakeReceiverRestores(d.Push(v));
    } else if !trying {
      ParkKeeps(d, w, d.SendTurn(co, trying, v).0);
    }
  }

  lemma RecvTurnKeeps(c: Chan, co: nat, w: Waker, trying: bool)
    requires Inv(c) && w !in c.wokenSenders && (trying || w == Plain(co))
    requires w.Plain? ==> !Parked(c, w)
    ensures Inv(c.Back(w).RecvTurn(co, trying).0)
  {
    BackKeeps(c, w);
    var d := c.Back(w);
    if d.deque != [] {
      WakeSenderRestores(d.Pop());
    } else if !d.closed && !trying {
      ParkKeeps(d, w, d.RecvTurn(co, trying).0);
    }
  }

  /** Closing wakes every live waker and leaves nobody parked. */
  lemma {:induction false} AllReceiversWoken(c: Chan)
    requires Tidy(c)
    ensures var d := c.WakeAllReceivers();
      && Tidy(d)
      && d == c.(receivers := [], waiting := d.waiting, wokenReceivers := d.wokenReceivers)
      && d.waiting <= c.waiting
    decreases |c.receivers|
  {
    if c.receivers != [] {
      var d := c.(receivers := c.receivers[1..]);
      if c.Live(c.receivers[0]) {
        FireReceiverKeepsTidy(c);
        AllReceiversWoken(d.Fire(c.receivers[0], Receivers));
      } else {
        SkipKeepsTidy(c, d);
        AllReceiversWoken(d);
      }
    }
  }

  lemma {:induction false} AllSendersWoken(c: Chan)
    requires Tidy(c)
    ensures var d := c.WakeAllSenders();
      && Tidy(d)
      && d == c.(senders := [], waiting := d.waiting, wokenSenders := d.wokenSenders)
      && d.waiting <= c.waiting
    decreases |c.senders|
  {
    if c.senders != [] {
      var d := c.(senders := c.senders[1..]);
      if c.Live(c.senders[0]) {
        FireSenderKeepsTidy(c);
        AllSendersWoken(d.Fire(c.senders[0], Senders));
      } else {
        SkipKeepsTidy(c, d);
        AllSendersWoken(d);
      }
    }
  }

  lemma {:induction false} EverySenderWoken(c: Chan)
    ensures var d := c.WakeAllSenders();
      && c.wokenSenders <= d.wokenSenders && d.waiting <= c.waiting
      && (forall w :: w in c.senders && c.Live(w) ==> w in d.wokenSenders)
      && d == c.(senders := [], waiting := d.waiting, wokenSenders := d.wokenSenders)
    decreases |c.senders|
  {
    if c.senders != [] {
      var d := c.(senders := c.senders[1..]);
      EverySenderWoken(if c.Live(c.senders[0]) then d.Fire(c.senders[0], Senders) else d);
    }
  }

  lemma {:induction false} EveryReceiverWoken(c: Chan)
    ensures var d := c.WakeAllReceivers();
      && c.wokenReceivers <= d.wokenReceivers && d.waiting <= c.waiting
      && (forall w :: w in c.receivers && c.Live(w) ==> w in d.wokenReceivers)
      && d == c.(receivers := [], waiting := d.waiting, wokenReceivers := d.wokenReceivers)
    decreases |c.receivers|
  {
    if c.receivers != [] {
      var d := c.(receivers := c.receivers[1..]);
      EveryReceiverWoken(if c.Live(c.receivers[0]) then d.Fire(c.receivers[0], Receivers) else d);
    }
  }

  lemma CloseKeeps(c: Chan)
    requires Inv(c)
    ensures Inv(c.Close())
    ensures c.Close().closed && c.Close().senders == [] && c.Close().receivers == [] && c.Close().deque == c.deque
    ensures forall co :: Plain(co) in c.receivers ==> Plain(co) in c.Close().wokenReceivers
    ensures forall co :: Plain(co) in c.senders ==> Plain(co) in c.Close().wokenSenders
  {
    var d := c.(closed := true);
    AllSendersWoken(d);
    AllReceiversWoken(d.WakeAllSenders());
    EverySenderWoken(d);
    EveryReceiverWoken(d.WakeAllSenders());
    assert !AnyLive([], c.Close().waiting);
  }

  lemma {:induction false} RemoveFirstCounts(ws: seq<Waker>, w: Waker)
    ensures multiset(RemoveFirst(ws, w)) == multiset(ws) - multiset{w}
    ensures forall x :: x in RemoveFirst(ws, w) ==> x in ws
  {
    if ws != [] {
      HeadCounts(ws);
      RemoveFirstCounts(ws[1..], w);
      if ws[0] != w { assert multiset(RemoveFirst(ws, w)) == multiset{ws[0]} + multiset(RemoveFirst(ws[1..], w)); }
    }
  }

  lemma UnwatchKeeps(c: Chan, sel: nat, d: Chan)
    requires Inv(c) && (d == c.UnwatchSend(sel) || d == c.UnwatchRecv(sel))
    ensures Inv(d)
  {
    RemoveFirstCounts(c.senders, Selector(sel));
    RemoveFirstCounts(c.receivers, Selector(sel));
    if AnyLive(d.receivers, d.waiting) { LiveShrinks(d.receivers, c.receivers, d.waiting, c.waiting); }
    if AnyLive(d.senders, d.waiting) { LiveShrinks(d.senders, c.senders, d.waiting, c.waiting); }
  }

  lemma SelectKeeps(c: Chan, sel: nat, d: Chan)
    requires Inv(c)
    requires || (d == c.(waiting := c.waiting + {sel}) && Enabled(c, Begin(sel)))
             || d == c.(waiting := c.waiting - {sel})
    ensures Inv(d)
  {
    if d.waiting <= c.waiting {
      if AnyLive(d.receivers, d.waiting) { LiveShrinks(d.receivers, c.receivers, d.waiting, c.waiting); }
      if AnyLive(d.senders, d.waiting) { LiveShrinks(d.senders, c.senders, d.waiting, c.waiting); }
    } else {
      assert forall w :: w in c.senders ==> w != Selector(sel);
      assert forall w :: w in c.receivers ==> w != Selector(sel);
    }
  }

  lemma StepKeepsInv(c: Chan, e: Event)
    requires Inv(c) && Enabled(c, e)
    ensures Inv(Apply(c, e))
  {
    match e
    case Send(co, trying, v) => SendTurnKeeps(c, co, Plain(co), trying, v);
    case Recv(co, trying) => RecvTurnKeeps(c, co, Plain(co), trying);
    case Begin(sel) => SelectKeeps(c, sel, Apply(c, e));
    case WatchSend(sel) => ParkKeeps(c, Selector(sel), c.WatchSend(sel));
    case WatchRecv(sel) => ParkKeeps(c, Selector(sel), c.WatchRecv(sel));
    case UnwatchSend(sel) => UnwatchKeeps(c, sel, Apply(c, e));
    case UnwatchRecv(sel) => UnwatchKeeps(c, sel, Apply(c, e));
    case ConsumeSend(sel, v) => SendTurnKeeps(c, sel, Selector(sel), true, v);
    case ConsumeRecv(sel) => RecvTurnKeeps(c, sel, Selector(sel), true);
    case Elsewhere(sel) => SelectKeeps(c, sel, Apply(c, e));
    case Close => CloseKeeps(c);
  }

  // ----- whole runs -----

  ghost predicate IsRun(bound: nat, run: seq<Chan>, events: seq<Event>) {
    && |run| == |events| + 1
    && run[0] == Initial(bound)
    && forall i {:trigger events[i]} :: 0 <= i < |events| ==>
         Enabled(run[i], events[i]) && run[i + 1] == Apply(run[i], events[i])
  }

  lemma {:induction false} RunsKeepInv(bound: nat, run: seq<Chan>, events: seq<Event>, i: nat)
    requires IsRun(bound, run, events) && i < |run|
    ensures Inv(run[i]) && run[i].bound == bound
  {
    if i > 0 {
      RunsKeepInv(bound, run, events, i - 1);
      StepKeepsInv(run[i - 1], events[i - 1]);
      SameBound(run[i - 1], events[i - 1]);
    } else {
      assert !AnyLive([], {});
    }
  }

  lemma SameBound(c: Chan, e: Event)
    requires Tidy(c)
    ensures Apply(c, e).bound == c.bound
  {
    match e
    case Send(co, trying, v) =>
      BackTidy(c, Plain(co));
      if !c.closed && !c.IsFull() { WakeReceiverWakes(c.Back(Plain(co)).Push(v)); }
    case Recv(co, trying) =>
      BackTidy(c, Plain(co));
      if c.deque != [] { WakeSenderWakes(c.Back(Plain(co)).Pop()); }
    case ConsumeSend(sel, v) =>
      BackTidy(c, Selector(sel));
      if !c.closed && !c.IsFull() { WakeReceiverWakes(c.Back(Selector(sel)).Push(v)); }
    case ConsumeRecv(sel) =>
      BackTidy(c, Selector(sel));
      if c.deque != [] { WakeSenderWakes(c.Back(Selector(sel)).Pop()); }
    case Close =>
      AllSendersWoken(c.(closed := true));
      AllReceiversWoken(c.(closed := true).WakeAllSenders());
    case _ =>
  }

  lemma BackTidy(c: Chan, w: Waker)
    requires Tidy(c)
    ensures Tidy(c.Back(w))
  {
  }

  /** No wakeup is lost: while a receiver is parked, every buffered value has a woken
      receiver that has not come back, and while a sender is parked, every free slot has a
      woken sender. Once all of them are back, a parked receiver means an empty channel and
      a parked sender a full one, and both an open one. */
  lemma NoWakeupIsLost(bound: nat, run: seq<Chan>, events: seq<Event>, i: nat)
    requires IsRun(bound, run, events) && i < |run|
    ensures var c := run[i];
      && (AnyLive(c.receivers, c.waiting) ==> |c.deque| <= |c.wokenReceivers| && !c.closed)
      && (AnyLive(c.senders, c.waiting) ==> bound - |c.deque| <= |c.wokenSenders| && !c.closed)
      && (AnyLive(c.receivers, c.waiting) && c.wokenReceivers == {} ==> c.deque == [])
      && (AnyLive(c.senders, c.waiting) && c.wokenSenders == {} ==> |c.deque| == bound)
  {
    RunsKeepInv(bound, run, events, i);
  }

  /** First in, first out: what was popped, followed by the buffer, is what was pushed. */
  lemma FirstInFirstOut(bound: nat, run: seq<Chan>, events: seq<Event>, i: nat)
    requires IsRun(bound, run, events) && i < |run|
    ensures run[i].pushed == run[i].popped + run[i].deque && |run[i].deque| <= bound
  {
    RunsKeepInv(bound, run, events, i);
  }

  /** A send reports success exactly when it has pushed its value, once; any other outcome
      hands the value back and leaves the buffer alone. */
  lemma SendTells(c: Chan, co: nat, trying: bool, v: Value)
    requires Inv(c)
    ensures var (d, outcome) := c.SendTurn(co, trying, v);
      && (outcome == Some(Sent) <==> d.pushed == c.pushed + [v])
      && (outcome != Some(Sent) ==>
            d.pushed == c.pushed && d.deque == c.deque && outcome in {None, Some(Full(v)), Some(Refused(v))})
      && d.popped == c.popped
      && (outcome == Some(Refused(v)) <==> c.closed)
      && (outcome == Some(Full(v)) <==> !c.closed && |c.deque| == c.bound && trying)
      && (outcome.None? <==> !c.closed && |c.deque| == c.bound && !trying)
      && (outcome.None? ==> d == c.(senders := c.senders + [Plain(co)]))
  {
    if !c.closed && !c.IsFull() { WakeReceiverWakes(c.Push(v)); }
  }

  /** A receive gets the oldest value not popped yet, and nothing only from an empty buffer. */
  lemma RecvTells(c: Chan, co: nat, trying: bool)
    requires Inv(c)
    ensures var (d, outcome) := c.RecvTurn(co, trying);
      && d.pushed == c.pushed
      && (outcome.Some? && outcome.value.Received? ==>
            && |c.popped| < |c.pushed| && outcome.value.value == c.pushed[|c.popped|]
            && d.popped == c.popped + [outcome.value.value])
      && (outcome.None? || !outcome.value.Received? ==> c.deque == [] && d.popped == c.popped)
      && (outcome == Some(Drained) <==> c.deque == [] && c.closed)
      && (outcome == Some(Empty) <==> c.deque == [] && !c.closed && trying)
      && (outcome.None? <==> c.deque == [] && !c.closed && !trying)
      && (outcome.None? ==> d == c.(receivers := c.receivers + [Plain(co)]))
  {
    if c.deque != [] { WakeSenderWakes(c.Pop()); }
  }

  // ----- who is served -----

  /** The position of the first waker that can still be woken, or the length of the queue. */
  function FirstLive(ws: seq<Waker>, waiting: set<nat>): (k: nat)
    ensures k <= |ws| && (k < |ws| ==> ws[k].Plain? || ws[k].sel in waiting)
    ensures forall i :: 0 <= i < k ==> !(ws[i].Plain? || ws[i].sel in waiting)
  {
    if ws == [] || ws[0].Plain? || ws[0].sel in waiting then 0 else 1 + FirstLive(ws[1..], waiting)
  }

  /** The first live waker in the queue is woken, those before it are gone, those behind it
      stay; a select that is woken is not waiting any more. */
  lemma {:induction false} ReceiversAreServedInTurn(c: Chan)
    ensures var d, k := c.WakeReceiver(), FirstLive(c.receivers, c.waiting);
      if k == |c.receivers| then d == c.(receivers := [])
      else
        var w := c.receivers[k];
        && d.receivers == c.receivers[k + 1..] && d.wokenReceivers == c.wokenReceivers + {w}
        && (w.Selector? ==> w.sel !in d.waiting)
        && d == c.(receivers := d.receivers, waiting := d.waiting, wokenReceivers := d.wokenReceivers)
    decreases |c.receivers|
  {
    if c.receivers != [] && !c.Live(c.receivers[0]) {
      ReceiversAreServedInTurn(c.(receivers := c.receivers[1..]));
      var k := FirstLive(c.receivers[1..], c.waiting);
      if k < |c.receivers[1..]| { assert c.receivers[1..][k + 1..] == c.receivers[k + 2..]; }
    }
  }

  lemma {:induction false} SendersAreServedInTurn(c: Chan)
    ensures var d, k := c.WakeSender(), FirstLive(c.senders, c.waiting);
      if k == |c.senders| then d == c.(senders := [])
      else
        var w := c.senders[k];
        && d.senders == c.senders[k + 1..] && d.wokenSenders == c.wokenSenders + {w}
        && (w.Selector? ==> w.sel !in d.waiting)
        && d == c.(senders := d.senders, waiting := d.waiting, wokenSenders := d.wokenSenders)
    decreases |c.senders|
  {
    if c.senders != [] && !c.Live(c.senders[0]) {
      SendersAreServedInTurn(c.(senders := c.senders[1..]));
      var k := FirstLive(c.senders[1..], c.waiting);
      if k < |c.senders[1..]| { assert c.senders[1..][k + 1..] == c.senders[k + 2..]; }
    }
  }

  /** Watching queues the select behind the others; unwatching takes it off once. */
  lemma WatchAndUnwatch(c: Chan, sel: nat)
    ensures c.WatchSend(sel) == c.(senders := c.senders + [Selector(sel)])
    ensures c.WatchRecv(sel) == c.(receivers := c.receivers + [Selector(sel)])
    ensures var d := c.UnwatchSend(sel);
      d == c.(senders := d.senders) && multiset(d.senders) == multiset(c.senders) - multiset{Selector(sel)}
    ensures var d := c.UnwatchRecv(sel);
      d == c.(receivers := d.receivers) && multiset(d.receivers) == multiset(c.receivers) - multiset{Selector(sel)}
    ensures Selector(sel) !in c.senders ==> c.WatchSend(sel).UnwatchSend(sel) == c
    ensures Selector(sel) !in c.receivers ==> c.WatchRecv(sel).UnwatchRecv(sel) == c
  {
    RemoveFirstCounts(c.senders, Selector(sel));
    RemoveFirstCounts(c.receivers, Selector(sel));
    RemoveLast(c.senders, Selector(sel));
    RemoveLast(c.receivers, Selector(sel));
  }

  lemma {:induction false} RemoveLast(ws: seq<Waker>, w: Waker)
    ensures w !in ws ==> RemoveFirst(ws + [w], w) == ws
  {
    if ws != [] {
      assert (ws + [w])[1..] == ws[1..] + [w];
      RemoveLast(ws[1..], w);
    }
  }
}
