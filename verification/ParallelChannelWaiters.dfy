/** Who waits beside what: senders beside free slots, receivers beside values, and what
    `unwatch_send_permit` does to them. */
module ParallelChannelWaiters {
  import opened Options
  import opened ParallelChannel

  // ----- senders beside free slots -----

  /** Exactly when a step leaves a sender parked beside a free slot. */
  lemma StepKeepsOrder(c: Chan, e: Event)
    requires Inv(c) && Orderly(c) && Enabled(c, e) && Safe(c, e)
    ensures Orderly(Apply(c, e)) <==> !FreesSlotSilently(c, e)
  {
    match e
    case DoSend(trying, inTask, id, x) => SendOrder(c, trying, inTask, id, x);
    case DoRecv(_, _, _) => if !c.IsEmpty() { WakeSenderKeeps(c.Pop()); }
    case DoConsumeSend(x) => ConsumeSendOrder(c, x);
    case DoConsumeRecv => ConsumeRecvOrder(c);
    case DoClose => CloseKeeps(c);
    case _ =>
  }

  lemma SendOrder(c: Chan, trying: bool, inTask: bool, id: Id, x: Value)
    requires Inv(c) && Orderly(c) && x !in c.fate
    ensures Orderly(Send(c, trying, inTask, id, x).0)
  {
    if !c.closed && !c.IsFull() {
      PushKeeps(c, x);
      WakeReceiverKeeps(c.Push(x));
    }
  }

  lemma ConsumeSendOrder(c: Chan, x: Value)
    requires Inv(c) && Orderly(c) && c.sendOut > 0 && x !in c.fate && CanConsumeSend(c)
    ensures Orderly(ConsumeSend(c, x)) <==> !FreesSlotSilently(c, DoConsumeSend(x))
  {
    if !c.closed {
      var d := c.(sendPermits := c.sendPermits - 1, sendOut := c.sendOut - 1);
      PushKeeps(d, x);
      WakeReceiverKeeps(d.Push(x));
    }
  }

  lemma ConsumeRecvOrder(c: Chan)
    requires Inv(c) && Orderly(c) && c.recvOut > 0
    ensures Orderly(ConsumeRecv(c).0)
  {
    var d := c.(recvPermits := c.recvPermits - 1, recvOut := c.recvOut - 1);
    if d.deque != [] {
      if c.closed && !d.Pop().IsRecvable() { CloseReceiversKeeps(d.Pop()); }
      if !c.closed && c.IsFull() { WakeSenderKeeps(d.Pop()); }
    }
  }

  /** Outside such steps a sender is parked only while the channel is open and full, so a
      new send cannot overtake it. */
  lemma {:induction false} ParkedMeansFull(run: seq<Chan>, events: seq<Event>, bound: nat, i: nat)
    requires IsRun(run, events, bound) && i < |run|
    requires forall k {:trigger events[k]} :: 0 <= k < |events| ==> !FreesSlotSilently(run[k], events[k])
    ensures run[i].senders != [] ==> !run[i].closed && |run[i].deque| + run[i].sendPermits == bound
  {
    RunsKeepInv(run, events, bound, i);
    if i > 0 {
      ParkedMeansFull(run, events, bound, i - 1);
      RunsKeepInv(run, events, bound, i - 1);
      StepKeepsOrder(run[i - 1], events[i - 1]);
      assert !FreesSlotSilently(run[i - 1], events[i - 1]);
    }
  }

  /** In particular in every run in which no thread parks to receive. */
  lemma {:induction false} NoThreadsNoSilence(run: seq<Chan>, events: seq<Event>, bound: nat, i: nat)
    requires IsRun(run, events, bound) && i < |events|
    requires forall k {:trigger events[k]} :: 0 <= k < |events| && events[k].DoRecv? ==> events[k].inTask
    ensures !FreesSlotSilently(run[i], events[i])
  {
    NoThreadParks(run, events, bound, i);
    NoThreadIsNext(run[i].receivers, run[i].open);
  }

  ghost predicate NoThreads(ws: seq<RecvWaiter>) {
    forall i :: 0 <= i < |ws| ==> !ws[i].RecvThread?
  }

  lemma {:induction false} NoThreadIsNext(ws: seq<RecvWaiter>, open: set<Id>)
    requires NoThreads(ws)
    ensures !ThreadIsNext(ws, open)
  {
    if ws != [] { NoThreadIsNext(ws[1..], open); }
  }

  lemma {:induction false} NoThreadParks(run: seq<Chan>, events: seq<Event>, bound: nat, i: nat)
    requires IsRun(run, events, bound) && i < |run|
    requires forall k {:trigger events[k]} :: 0 <= k < |events| && events[k].DoRecv? ==> events[k].inTask
    ensures NoThreads(run[i].receivers)
  {
    if i > 0 {
      NoThreadParks(run, events, bound, i - 1);
      RunsKeepInv(run, events, bound, i - 1);
      NewReceivers(run[i - 1], events[i - 1]);
    }
  }

  lemma NewReceivers(c: Chan, e: Event)
    requires Inv(c) && Enabled(c, e) && Safe(c, e) && NoThreads(c.receivers) && (e.DoRecv? ==> e.inTask)
    ensures NoThreads(Apply(c, e).receivers)
  {
    match e
    case DoSend(_, _, _, x) => if !c.closed && !c.IsFull() { WakeReceiverTail(c.Push(x)); }
    case DoRecv(_, _, _) => if !c.IsEmpty() { WakeSenderKeeps(c.Pop()); }
    case DoConsumeSend(x) => NewReceiversAfterSend(c, x);
    case DoConsumeRecv => NewReceiversAfterRecv(c);
    case DoClose =>
      var d := c.(closed := true);
      CloseSendersKeeps(d);
      if !d.CloseSenders().IsRecvable() { CloseReceiversKeeps(d.CloseSenders()); }
    case _ =>
  }

  lemma NewReceiversAfterSend(c: Chan, x: Value)
    requires Inv(c) && CanConsumeSend(c) && NoThreads(c.receivers)
    ensures NoThreads(ConsumeSend(c, x).receivers)
  {
    var d := c.(sendPermits := c.sendPermits - 1, sendOut := c.sendOut - 1).Push(x);
    if !c.closed { WakeReceiverTail(d); }
  }

  lemma NewReceiversAfterRecv(c: Chan)
    requires Inv(c) && c.recvPermits > 0 && NoThreads(c.receivers)
    ensures NoThreads(ConsumeRecv(c).0.receivers)
  {
    var d := c.(recvPermits := c.recvPermits - 1, recvOut := c.recvOut - 1);
    if d.deque != [] {
      if c.closed && !d.Pop().IsRecvable() { CloseReceiversKeeps(d.Pop()); }
      if !c.closed && c.IsFull() { WakeSenderBuffers(d.Pop()); }
    }
  }

  lemma {:induction false} WakeReceiverTail(c: Chan)
    requires c.deque != [] && NoThreads(c.receivers)
    ensures NoThreads(c.WakeReceiver().receivers)
    decreases |c.receivers|
  {
    if c.receivers != [] && c.receivers[0].id !in c.open { WakeReceiverTail(c.(receivers := c.receivers[1..])); }
  }

  /** A receiver parked as a thread, a permit taken by a select, a send parked behind it. */
  const ParkedBehindPermit: Chan :=
    Chan(false, 1, 0, 1, [], [SendTask(2, 7)], [RecvThread(1)], {2}, [], 1, 0, [], [], map[7 := Waiting], {2})

  /** The state above is reached by three calls on an empty channel of bound one. */
  lemma ParkedBehindPermitIsReachable()
    ensures var c0 := Initial;
      && Enabled(c0, DoRecv(false, false, 1)) && var c1 := Apply(c0, DoRecv(false, false, 1));
      && Enabled(c1, DoTakeSend) && var c2 := Apply(c1, DoTakeSend);
      && Enabled(c2, DoSend(false, true, 2, 7)) && Apply(c2, DoSend(false, true, 2, 7)) == ParkedBehindPermit
  {
    var c1 := Apply(Initial, DoRecv(false, false, 1));
    assert c1 == Initial.(receivers := [RecvThread(1)]);
    var c2 := Apply(c1, DoTakeSend);
    assert c2 == c1.(sendPermits := 1, sendOut := 1);
  }

  /** The permit used: its value has gone to the thread, and nobody was woken for the slot. */
  const SlotFreedSilently: Chan :=
    Chan(false, 0, 0, 1, [], [SendTask(2, 7)], [], {2}, [Delivered(1, 8)], 0, 0, [8], [8],
         map[7 := Waiting, 8 := Accepted], {2})

  lemma PermitFreesSlot()
    ensures var c := ParkedBehindPermit;
      CanConsumeSend(c) && ConsumeSend(c, 8) == SlotFreedSilently
  {
    var c := ParkedBehindPermit;
    var e := c.(sendPermits := 0, sendOut := 0).Push(8);
    assert e.deque == [8] && e.receivers == [RecvThread(1)];
    assert e.WakeReceiver() == e.(receivers := []).Pop().Say(Delivered(1, 8));
  }

  /** Using the permit then frees the slot silently, and a later send overtakes. */
  lemma OvertakingHappens()
    ensures var c := ParkedBehindPermit;
      && Enabled(c, DoConsumeSend(8)) && Safe(c, DoConsumeSend(8)) && FreesSlotSilently(c, DoConsumeSend(8))
      && var d := Apply(c, DoConsumeSend(8));
      && d.senders == [SendTask(2, 7)] && Send(d, true, true, 3, 9).1 == Sent
  {
    PermitFreesSlot();
  }

  // ----- unwatching a send permit -----

  /** `unwatch_send_permit` takes no selector off the senders, ever, and takes away the
      receiver at the position of its own, if there is one. */
  lemma UnwatchSendMisses(c: Chan, id: Id)
    ensures var d, p := UnwatchSend(c, id), SenderPosition(c.senders, id);
      && d.senders == c.senders && (p < |c.senders| <==> SendSelector(id) in c.senders)
      && (SendSelector(id) !in d.senders <==> SendSelector(id) !in c.senders)
      && (d.receivers != c.receivers <==> p < |c.senders| && p < |c.receivers|)
      && (p < |c.senders| && p < |c.receivers| ==>
            multiset(c.receivers) == multiset(d.receivers) + multiset{c.receivers[p]})
      && (d.notices != c.notices <==>
            p < |c.senders| && p < |c.receivers| && c.receivers[p].RecvTask? && c.receivers[p].id in c.open)
      && (d.notices != c.notices ==>
            d.notices == c.notices + [Faulted(c.receivers[p].id)] && c.receivers[p].id !in d.open)
  {
    var p := SenderPosition(c.senders, id);
    if p < |c.senders| {
      assert c.senders[p] in c.senders;
    } else {
      assert c.senders[..p] == c.senders;
    }
    if p < |c.receivers| {
      assert c.receivers == c.receivers[..p] + [c.receivers[p]] + c.receivers[p + 1..];
      assert |UnwatchSend(c, id).receivers| == |c.receivers| - if p < |c.senders| then 1 else 0;
    }
  }

  /** It does what it is for exactly if there is nothing for it to do. */
  lemma UnwatchSendWorksOnlyOnNothing(c: Chan, id: Id)
    ensures (SendSelector(id) !in UnwatchSend(c, id).senders && UnwatchSend(c, id).receivers == c.receivers) <==>
              SendSelector(id) !in c.senders
  {
    UnwatchSendMisses(c, id);
  }

  lemma Extend(run: seq<Chan>, events: seq<Event>, bound: nat, e: Event)
    requires IsRun(run, events, bound) && Enabled(run[|events|], e) && Safe(run[|events|], e)
    ensures IsRun(run + [Apply(run[|events|], e)], events + [e], bound)
  {
    var longer, more := run + [Apply(run[|events|], e)], events + [e];
    forall i {:trigger more[i]} | 0 <= i < |more|
      ensures Enabled(longer[i], more[i]) && (Safe(longer[i], more[i]) ==> longer[i + 1] == Apply(longer[i], more[i]))
    {
      if i < |events| { assert more[i] == events[i]; }
    }
  }

  /** The states of a run of a channel of bound one: a value is sent, a permit for it taken,
      a receiver parks, a select watches for a slot, is served elsewhere, and unwatches. */
  function LossState(inTask: bool, k: nat): Chan
    requires k <= 7
  {
    var sent := Initial.(deque := [7], pushed := [7], fate := map[7 := Accepted]);
    var parked := sent.(recvPermits := 1, recvOut := 1, receivers := [if inTask then RecvTask(9) else RecvThread(9)],
                        open := if inTask then {9} else {}, used := if inTask then {9} else {});
    if k == 0 then Initial
    else if k == 1 then sent
    else if k == 2 then sent.(recvPermits := 1, recvOut := 1)
    else if k == 3 then parked
    else if k == 4 then parked.(open := parked.open + {3}, used := parked.used + {3})
    else if k == 5 then parked.(open := parked.open + {3}, used := parked.used + {3}, senders := [SendSelector(3)])
    else if k == 6 then parked.(used := parked.used + {3}, senders := [SendSelector(3)])
    else parked.(used := parked.used + {3}, senders := [SendSelector(3)], receivers := [], open := {},
                 notices := if inTask then [Faulted(9)] else [])
  }

  function LossEvent(inTask: bool, k: nat): Event
    requires k < 7
  {
    [DoSend(true, false, 1, 7), DoTakeRecv, DoRecv(false, inTask, 9), OpenSession(3), DoWatchSend(3), ResolveSession(3),
     DoUnwatchSend(3)][k]
  }

  lemma LossStep(inTask: bool, k: nat)
    requires k < 7
    ensures var c, e := LossState(inTask, k), LossEvent(inTask, k);
      Enabled(c, e) && Safe(c, e) && Apply(c, e) == LossState(inTask, k + 1)
  {
    if k < 3 { EarlyLossStep(inTask, k); } else { LateLossStep(inTask, k); }
  }

  lemma EarlyLossStep(inTask: bool, k: nat)
    requires k < 3
    ensures var c, e := LossState(inTask, k), LossEvent(inTask, k);
      Enabled(c, e) && Safe(c, e) && Apply(c, e) == LossState(inTask, k + 1)
  {
  }

  lemma LateLossStep(inTask: bool, k: nat)
    requires 3 <= k < 7
    ensures var c, e := LossState(inTask, k), LossEvent(inTask, k);
      Enabled(c, e) && Safe(c, e) && Apply(c, e) == LossState(inTask, k + 1)
  {
    var c := LossState(inTask, k);
    if k == 6 {
      assert SenderPosition(c.senders, 3) == 0;
      assert c.receivers[..0] + c.receivers[1..] == [];
    }
  }

  /** A reachable loss: the parked task is faulted though the channel is open, or the parked
      thread is forgotten, while the selector stays. */
  lemma {:induction false} UnwatchLosesAReceiver(inTask: bool, k: nat) returns (run: seq<Chan>, events: seq<Event>)
    requires k <= 7
    ensures IsRun(run, events, 1) && |events| == k && run[k] == LossState(inTask, k)
    ensures k == 7 ==> !run[k].closed && run[k].receivers == [] && run[k].senders == [SendSelector(3)]
    ensures k == 7 ==> run[k].notices == if inTask then [Faulted(9)] else []
  {
    if k == 0 {
      run, events := [Initial], [];
    } else {
      run, events := UnwatchLosesAReceiver(inTask, k - 1);
      LossStep(inTask, k - 1);
      Extend(run, events, 1, LossEvent(inTask, k - 1));
      run, events := run + [Apply(run[k - 1], LossEvent(inTask, k - 1))], events + [LossEvent(inTask, k - 1)];
    }
  }

  // ----- receivers beside values that nobody was promised -----

  predicate Parked(w: RecvWaiter, open: set<Id>) { w.RecvThread? || w.id in open }

  /** Somebody who can still be woken is parked to receive. */
  predicate AnyParked(ws: seq<RecvWaiter>, open: set<Id>) { exists i :: 0 <= i < |ws| && Parked(ws[i], open) }

  /** While a receiver is parked, every buffered value is promised to a permit. */
  predicate Served(c: Chan) { AnyParked(c.receivers, c.open) ==> c.recvPermits >= |c.deque| }

  /** The sessions of waiting receivers have been made. */
  ghost predicate Known(c: Chan) { forall w :: w in c.receivers && !w.RecvThread? ==> w.id in c.used }

  /** The sender that the next `wake_sender` serves. */
  function NextSender(ws: seq<SendWaiter>, open: set<Id>): Option<SendWaiter> {
    if ws == [] then None
    else if ws[0].SendThread? || ws[0].id in open then Some(ws[0])
    else NextSender(ws[1..], open)
  }

  function OpenAfter(s: Option<SendWaiter>, open: set<Id>): set<Id> {
    if s.Some? && !s.value.SendThread? then open - {s.value.id} else open
  }

  /** The two steps that buffer a value for nobody: a permit of a closed channel is used to
      send, and one of a full channel to receive when a parked value takes the slot. */
  predicate BuffersForNobody(c: Chan, e: Event) {
    var s := NextSender(c.senders, c.open);
    || (e.DoConsumeSend? && c.closed && AnyParked(c.receivers, c.open))
    || (e.DoConsumeRecv? && !c.closed && c.IsFull() && s.Some? && !s.value.SendSelector?
        && AnyParked(c.receivers, OpenAfter(s, c.open)))
  }

  lemma ParkedShrinks(ws: seq<RecvWaiter>, more: seq<RecvWaiter>, open: set<Id>, before: set<Id>)
    requires open <= before && (forall w :: w in ws ==> w in more) && AnyParked(ws, open)
    ensures AnyParked(more, before)
  {
    var i :| 0 <= i < |ws| && Parked(ws[i], open);
    assert ws[i] in more;
    var j :| 0 <= j < |more| && more[j] == ws[i];
  }

  /** `wake_receiver` promises one value more, or hands one over, if anybody is parked. */
  lemma {:induction false} WakeReceiverPromises(c: Chan)
    requires c.deque != []
    ensures var d := c.WakeReceiver();
      && d.open <= c.open && d.used == c.used && (forall w :: w in d.receivers ==> w in c.receivers)
      && d.recvPermits - |d.deque| == c.recvPermits - |c.deque| + if AnyParked(c.receivers, c.open) then 1 else 0
    decreases |c.receivers|
  {
    if c.receivers != [] {
      var d := c.(receivers := c.receivers[1..]);
      if Parked(c.receivers[0], c.open) {
        assert AnyParked(c.receivers, c.open);
      } else {
        assert AnyParked(c.receivers, c.open) <==> AnyParked(d.receivers, d.open) by {
          assert forall i :: 0 < i < |c.receivers| ==> c.receivers[i] == d.receivers[i - 1];
          if AnyParked(d.receivers, d.open) { ParkedShrinks(d.receivers, c.receivers, d.open, c.open); }
        }
        WakeReceiverPromises(d);
      }
    }
  }

  lemma {:induction false} WakeSenderBuffers(c: Chan)
    ensures var d, s := c.WakeSender(), NextSender(c.senders, c.open);
      && d.receivers == c.receivers && d.recvPermits == c.recvPermits && d.used == c.used
      && d.open == OpenAfter(s, c.open)
      && |d.deque| == |c.deque| + if s.Some? && !s.value.SendSelector? then 1 else 0
    decreases |c.senders|
  {
    if c.senders != [] && !c.senders[0].SendThread? && c.senders[0].id !in c.open {
      WakeSenderBuffers(c.(senders := c.senders[1..]));
    }
  }

  lemma {:induction false} CloseLeavesReceivers(c: Chan)
    ensures var d := c.CloseSenders();
      && d.receivers == c.receivers && d.recvPermits == c.recvPermits && d.used == c.used && d.deque == c.deque
      && d.open <= c.open && d.sendPermits == c.sendPermits
    decreases |c.senders|
  {
    if c.senders != [] { CloseLeavesReceivers(CloseHead(c)); }
  }

  lemma {:induction false} ReceiversAllTold(c: Chan)
    ensures var d := c.CloseReceivers(); d.receivers == [] && d.used == c.used && d.open <= c.open
    decreases |c.receivers|
  {
    if c.receivers != [] {
      var w, d := c.receivers[0], c.(receivers := c.receivers[1..]);
      ReceiversAllTold(
        if w.RecvThread? then d.Say(Drained(w.id)) else if w.id in d.open then d.Tell(RecvPermit(w.id, Closed)) else d);
    }
  }

  /** A step that leaves the promises as they are, or has fewer receivers to serve. */
  lemma FewerStayServed(c: Chan, d: Chan)
    requires Known(c) && Served(c) && d.open <= c.open && c.used <= d.used
    requires forall w :: w in d.receivers ==> w in c.receivers
    requires AnyParked(c.receivers, c.open) && AnyParked(d.receivers, d.open) ==>
               d.recvPermits - |d.deque| >= c.recvPermits - |c.deque| || d.deque == []
    ensures Known(d) && Served(d)
  {
    if AnyParked(d.receivers, d.open) { ParkedShrinks(d.receivers, c.receivers, d.open, c.open); }
  }

  /** Exactly these two steps leave a parked receiver beside a value that nobody has been
      promised. */
  lemma StepKeepsServed(c: Chan, e: Event)
    requires Inv(c) && Known(c) && Served(c) && Enabled(c, e) && Safe(c, e)
    ensures Known(Apply(c, e))
    ensures Served(Apply(c, e)) <==> !BuffersForNobody(c, e)
  {
    match e
    case DoSend(trying, inTask, id, v) => SendServed(c, trying, inTask, id, v);
    case DoRecv(trying, inTask, id) => RecvServed(c, trying, inTask, id);
    case DoTakeSend => FewerStayServed(c, Apply(c, e));
    case DoTakeRecv => FewerStayServed(c, Apply(c, e));
    case DoWatchSend(_) => FewerStayServed(c, Apply(c, e));
    case DoWatchRecv(id) => WatchRecvServed(c, id);
    case DoUnwatchSend(_) => FewerStayServed(c, Apply(c, e));
    case DoUnwatchRecv(_) => FewerStayServed(c, Apply(c, e));
    case DoConsumeSend(v) => ConsumeSendServed(c, v);
    case DoConsumeRecv => ConsumeRecvServed(c);
    case DoClose => CloseServed(c);
    case OpenSession(id) => NewSessionServed(c, id);
    case ResolveSession(_) => FewerStayServed(c, Apply(c, e));
  }

  lemma NewSessionServed(c: Chan, id: Id)
    requires Known(c) && Served(c) && id !in c.used
    ensures var d := Apply(c, OpenSession(id)); Known(d) && Served(d)
  {
    var d := Apply(c, OpenSession(id));
    if AnyParked(d.receivers, d.open) {
      var i :| 0 <= i < |d.receivers| && Parked(d.receivers[i], d.open);
      assert d.receivers[i] in c.receivers && Parked(c.receivers[i], c.open);
    }
  }

  lemma SendServed(c: Chan, trying: bool, inTask: bool, id: Id, v: Value)
    requires Inv(c) && Known(c) && Served(c) && Enabled(c, DoSend(trying, inTask, id, v))
    ensures var d := Send(c, trying, inTask, id, v).0; Known(d) && Served(d)
  {
    var d := Send(c, trying, inTask, id, v).0;
    if !c.closed && !c.IsFull() {
      WakeReceiverPromises(c.Push(v));
      FewerStayServed(c, d);
    } else if d.open == c.open {
      FewerStayServed(c, d);
    } else {
      NewSessionServed(c, id);
    }
  }

  lemma RecvServed(c: Chan, trying: bool, inTask: bool, id: Id)
    requires Inv(c) && Known(c) && Served(c) && Enabled(c, DoRecv(trying, inTask, id))
    ensures var d := Recv(c, trying, inTask, id).0; Known(d) && Served(d)
  {
    if !c.IsEmpty() {
      WakeSenderBuffers(c.Pop());
      FewerStayServed(c, Recv(c, trying, inTask, id).0);
    }
  }

  lemma WatchRecvServed(c: Chan, id: Id)
    requires Inv(c) && Known(c) && Served(c) && id in c.used
    ensures var d := WatchRecv(c, id).0; Known(d) && Served(d)
  {
    if c.SelectRecv().1.Some? { FewerStayServed(c, WatchRecv(c, id).0); }
  }

  lemma ConsumeSendServed(c: Chan, v: Value)
    requires Inv(c) && Known(c) && Served(c) && c.sendOut > 0 && CanConsumeSend(c)
    ensures Known(ConsumeSend(c, v))
    ensures Served(ConsumeSend(c, v)) <==> !BuffersForNobody(c, DoConsumeSend(v))
  {
    var d := c.(sendPermits := c.sendPermits - 1, sendOut := c.sendOut - 1).Push(v);
    if !c.closed {
      WakeReceiverPromises(d);
      FewerStayServed(c, ConsumeSend(c, v));
    }
  }

  lemma ConsumeRecvServed(c: Chan)
    requires Inv(c) && Known(c) && Served(c) && c.recvOut > 0
    ensures Known(ConsumeRecv(c).0)
    ensures Served(ConsumeRecv(c).0) <==> !BuffersForNobody(c, DoConsumeRecv)
  {
    var d := c.(recvPermits := c.recvPermits - 1, recvOut := c.recvOut - 1);
    if d.deque != [] && !c.closed && c.IsFull() {
      WakeSenderBuffers(d.Pop());
      if !BuffersForNobody(c, DoConsumeRecv) { FewerStayServed(c, ConsumeRecv(c).0); }
      else { ParkedShrinks(c.receivers, c.receivers, OpenAfter(NextSender(c.senders, c.open), c.open), c.open); }
    } else {
      if d.deque != [] { ReceiversAllTold(d.Pop()); }
      FewerStayServed(c, ConsumeRecv(c).0);
    }
  }

  lemma CloseServed(c: Chan)
    requires Known(c) && Served(c)
    ensures Known(c.Close()) && Served(c.Close())
  {
    var d := c.(closed := true);
    CloseLeavesReceivers(d);
    ReceiversAllTold(d.CloseSenders());
    FewerStayServed(c, c.Close());
  }

  /** Outside such steps a parked receiver has no value waiting beside it. */
  lemma {:induction false} ParkedMeansNothingToGet(run: seq<Chan>, events: seq<Event>, bound: nat, i: nat)
    requires IsRun(run, events, bound) && i < |run|
    requires forall k {:trigger events[k]} :: 0 <= k < |events| ==> !BuffersForNobody(run[k], events[k])
    ensures Known(run[i])
    ensures AnyParked(run[i].receivers, run[i].open) ==> run[i].recvPermits >= |run[i].deque|
  {
    if i > 0 {
      ParkedMeansNothingToGet(run, events, bound, i - 1);
      RunsKeepInv(run, events, bound, i - 1);
      StepKeepsServed(run[i - 1], events[i - 1]);
      assert !BuffersForNobody(run[i - 1], events[i - 1]);
    }
  }

  /** Both happen: a receiver stays parked beside a value, on a closed channel or on an open
      one, in a run of four or five calls. */
  function BesideEvent(closing: bool, k: nat): Event
    requires k < if closing then 4 else 5
  {
    if closing then [DoTakeSend, DoRecv(false, true, 9), DoClose, DoConsumeSend(7)][k]
    else [DoSend(true, false, 1, 7), DoTakeRecv, DoRecv(false, true, 9), DoSend(false, false, 2, 8), DoConsumeRecv][k]
  }

  function BesideState(closing: bool, k: nat): Chan
    requires k <= if closing then 4 else 5
  {
    var a := Initial.(sendPermits := 1, sendOut := 1);
    var b := Initial.(deque := [7], pushed := [7], fate := map[7 := Accepted]);
    if k == 0 then Initial
    else if closing then
      if k == 1 then a
      else if k == 2 then a.(receivers := [RecvTask(9)], open := {9}, used := {9})
      else if k == 3 then a.(receivers := [RecvTask(9)], open := {9}, used := {9}, closed := true)
      else b.(receivers := [RecvTask(9)], open := {9}, used := {9}, closed := true)
    else
      if k == 1 then b
      else if k == 2 then b.(recvPermits := 1, recvOut := 1)
      else if k == 3 then b.(recvPermits := 1, recvOut := 1, receivers := [RecvTask(9)], open := {9}, used := {9})
      else if k == 4 then
        b.(recvPermits := 1, recvOut := 1, receivers := [RecvTask(9)], open := {9}, used := {9},
           senders := [SendThread(2, 8)], fate := map[7 := Accepted, 8 := Waiting])
      else
        b.(receivers := [RecvTask(9)], open := {9}, used := {9}, deque := [8], pushed := [7, 8], popped := [7],
           fate := map[7 := Accepted, 8 := Accepted], notices := [SendOk(2)])
  }

  lemma BesideStep(closing: bool, k: nat)
    requires k < if closing then 4 else 5
    ensures var c, e := BesideState(closing, k), BesideEvent(closing, k);
      Enabled(c, e) && Safe(c, e) && Apply(c, e) == BesideState(closing, k + 1)
  {
    if closing { ClosingStep(k); } else { RefillStep(k); }
  }

  lemma ClosingStep(k: nat)
    requires k < 4
    ensures var c, e := BesideState(true, k), BesideEvent(true, k);
      Enabled(c, e) && Safe(c, e) && Apply(c, e) == BesideState(true, k + 1)
  {
  }

  lemma RefillStep(k: nat)
    requires k < 5
    ensures var c, e := BesideState(false, k), BesideEvent(false, k);
      Enabled(c, e) && Safe(c, e) && Apply(c, e) == BesideState(false, k + 1)
  {
  }

  lemma {:induction false} ReceiverBesideAValue(closing: bool, k: nat) returns (run: seq<Chan>, events: seq<Event>)
    requires k <= if closing then 4 else 5
    ensures IsRun(run, events, 1) && |events| == k && run[k] == BesideState(closing, k)
    ensures k >= (if closing then 4 else 5) ==>
              run[k].closed == closing && |run[k].deque| == 1 && run[k].recvPermits == run[k].sendPermits == 0
              && run[k].receivers == [RecvTask(9)] && 9 in run[k].open
  {
    if k == 0 {
      run, events := [Initial], [];
    } else {
      run, events := ReceiverBesideAValue(closing, k - 1);
      BesideStep(closing, k - 1);
      Extend(run, events, 1, BesideEvent(closing, k - 1));
      run, events := run + [Apply(run[k - 1], BesideEvent(closing, k - 1))], events + [BesideEvent(closing, k - 1)];
    }
  }
}
