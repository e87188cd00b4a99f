/** What the callers and waiters of the parallel channel are given: which value a receive
    returns, who is served first, what a permit means, and who is told of the end. */
module ParallelChannelAnswers {
  import opened Options
  import opened ParallelChannel
  import opened ParallelChannelSenders
  import opened ParallelChannelWaiters

  // ----- values handed out -----

  /** The values that thread waiters are given. */
  function DeliveredIn(ns: seq<Notice>): seq<Value> {
    if ns == [] then []
    else DeliveredIn(ns[..|ns| - 1]) + if ns[|ns| - 1].Delivered? then [ns[|ns| - 1].value] else []
  }

  lemma {:induction false} DeliveredInBoth(a: seq<Notice>, b: seq<Notice>)
    ensures DeliveredIn(a + b) == DeliveredIn(a) + DeliveredIn(b)
  {
    if b == [] {
      assert a + b == a;
    } else {
      assert (a + b)[..|a + b| - 1] == a + b[..|b| - 1];
      DeliveredInBoth(a, b[..|b| - 1]);
    }
  }

  function NewNotices(c: Chan, d: Chan): seq<Notice>
    requires c.notices <= d.notices
  {
    d.notices[|c.notices|..]
  }

  /** Between `c` and `d`, what leaves the buffer is what thread waiters are given. */
  ghost predicate Delivers(c: Chan, d: Chan) {
    c.notices <= d.notices && d.popped == c.popped + DeliveredIn(NewNotices(c, d))
  }

  lemma SliceSum(a: seq<Notice>, b: seq<Notice>, c: seq<Notice>)
    requires a <= b <= c
    ensures c[|a|..] == b[|a|..] + c[|b|..]
  {
    assert b == c[..|b|];
  }

  lemma NewNoticesSum(c: Chan, d: Chan, e: Chan)
    requires c.notices <= d.notices && d.notices <= e.notices
    ensures c.notices <= e.notices && NewNotices(c, e) == NewNotices(c, d) + NewNotices(d, e)
  {
    SliceSum(c.notices, d.notices, e.notices);
  }

  lemma DeliversOnward(c: Chan, d: Chan, e: Chan)
    requires Delivers(c, d) && Delivers(d, e)
    ensures Delivers(c, e)
  {
    NewNoticesSum(c, d, e);
    DeliveredInBoth(NewNotices(c, d), NewNotices(d, e));
    Regroup(c.popped, DeliveredIn(NewNotices(c, d)), DeliveredIn(NewNotices(d, e)));
  }

  lemma Regroup(a: seq<Value>, b: seq<Value>, c: seq<Value>)
    ensures a + b + c == a + (b + c)
  {
  }

  lemma OneNotice(c: Chan, d: Chan, n: Notice)
    requires d.notices == c.notices + [n]
    ensures NewNotices(c, d) == [n] && DeliveredIn(NewNotices(c, d)) == if n.Delivered? then [n.value] else []
  {
    assert DeliveredIn([n]) == DeliveredIn([]) + if n.Delivered? then [n.value] else [];
  }

  lemma Unchanged(c: Chan, d: Chan)
    requires d.notices == c.notices && d.popped == c.popped
    ensures Delivers(c, d)
  {
    assert NewNotices(c, d) == [];
  }

  lemma OneDelivers(c: Chan, d: Chan, n: Notice)
    requires d.notices == c.notices + [n]
    requires d.popped == c.popped + if n.Delivered? then [n.value] else []
    ensures Delivers(c, d)
  {
    OneNotice(c, d, n);
  }

  /** The first parked receiver is served. */
  lemma ServedDelivers(c: Chan)
    requires c.deque != [] && c.receivers != [] && Parked(c.receivers[0], c.open)
    ensures Delivers(c, c.WakeReceiver())
  {
    ReceiversAreServedInTurn(c);
    var w := c.receivers[0];
    assert FirstParked(c.receivers, c.open) == 0;
    OneDelivers(c, c.WakeReceiver(), if w.RecvThread? then Delivered(w.id, c.deque[0]) else RecvPermit(w.id, Consume));
  }

  lemma {:induction false} WakeReceiverDelivers(c: Chan)
    requires c.deque != []
    ensures Delivers(c, c.WakeReceiver())
    decreases |c.receivers|
  {
    if c.receivers == [] {
      Unchanged(c, c.WakeReceiver());
    } else if Parked(c.receivers[0], c.open) {
      ServedDelivers(c);
    } else {
      var e := c.(receivers := c.receivers[1..]);
      WakeReceiverDelivers(e);
      Unchanged(c, e);
      DeliversOnward(c, e, c.WakeReceiver());
    }
  }

  lemma {:induction false} WakeSenderDelivers(c: Chan)
    ensures Delivers(c, c.WakeSender())
    decreases |c.senders|
  {
    var d := c.WakeSender();
    if c.senders == [] {
      Unchanged(c, d);
    } else if c.senders[0].SendThread? || c.senders[0].id in c.open {
      OneNotice(c, d, d.notices[|c.notices|]);
    } else {
      var e := c.(senders := c.senders[1..]);
      WakeSenderDelivers(e);
      Unchanged(c, e);
      DeliversOnward(c, e, d);
    }
  }

  lemma {:induction false} CloseSendersDelivers(c: Chan)
    ensures Delivers(c, c.CloseSenders())
    decreases |c.senders|
  {
    if c.senders == [] {
      Unchanged(c, c);
    } else {
      var e := CloseHead(c);
      if e.notices == c.notices { Unchanged(c, e); } else { OneNotice(c, e, e.notices[|c.notices|]); }
      CloseSendersDelivers(e);
      DeliversOnward(c, e, c.CloseSenders());
    }
  }

  /** One round of the loop of `close_receivers`. */
  function TellHead(c: Chan): Chan
    requires c.receivers != []
  {
    var w, d := c.receivers[0], c.(receivers := c.receivers[1..]);
    if w.RecvThread? then d.Say(Drained(w.id)) else if w.id in d.open then d.Tell(RecvPermit(w.id, Closed)) else d
  }

  lemma {:induction false} CloseReceiversDelivers(c: Chan)
    ensures Delivers(c, c.CloseReceivers())
    decreases |c.receivers|
  {
    if c.receivers == [] {
      Unchanged(c, c);
    } else {
      var e := TellHead(c);
      if e.notices == c.notices { Unchanged(c, e); } else { OneNotice(c, e, e.notices[|c.notices|]); }
      CloseReceiversDelivers(e);
      DeliversOnward(c, e, c.CloseReceivers());
    }
  }

  /** The value that the caller of this step is given, if any. */
  function Answered(c: Chan, e: Event): seq<Value>
    requires Safe(c, e)
  {
    match e
    case DoRecv(trying, inTask, id) =>
      var reply := Recv(c, trying, inTask, id).1;
      if reply.Received? then [reply.value] else []
    case DoConsumeRecv =>
      var reply := ConsumeRecv(c).1;
      if reply.Some? then [reply.value] else []
    case _ => []
  }

  /** A step takes out of the buffer what it answers, followed by what it delivers. */
  ghost predicate HandsOut(c: Chan, e: Event, d: Chan)
    requires Safe(c, e)
  {
    c.notices <= d.notices && d.popped == c.popped + Answered(c, e) + DeliveredIn(NewNotices(c, d))
  }

  lemma StepHandsOut(c: Chan, e: Event)
    requires Inv(c) && Enabled(c, e) && Safe(c, e)
    ensures HandsOut(c, e, Apply(c, e))
  {
    match e
    case DoSend(_, _, _, v) =>
      if !c.closed && !c.IsFull() {
        WakeReceiverDelivers(c.Push(v));
        Unchanged(c, c.Push(v));
        DeliversOnward(c, c.Push(v), Apply(c, e));
      } else {
        Unchanged(c, Apply(c, e));
      }
    case DoRecv(_, _, _) => RecvHandsOut(c, e);
    case DoConsumeSend(v) => ConsumeSendHandsOut(c, v);
    case DoConsumeRecv => ConsumeRecvHandsOut(c);
    case DoClose => CloseHandsOut(c);
    case _ => OthersHandOutNothing(c, e);
  }

  lemma OthersHandOutNothing(c: Chan, e: Event)
    requires Enabled(c, e) && Safe(c, e)
    requires e.DoTakeSend? || e.DoTakeRecv? || e.DoWatchSend? || e.DoWatchRecv? || e.DoUnwatchSend? || e.DoUnwatchRecv?
             || e.OpenSession? || e.ResolveSession?
    ensures HandsOut(c, e, Apply(c, e))
  {
    var d := Apply(c, e);
    OthersSayLittle(c, e);
    if d.notices == c.notices { Unchanged(c, d); } else { OneDelivers(c, d, d.notices[|c.notices|]); }
  }

  lemma OthersSayLittle(c: Chan, e: Event)
    requires Enabled(c, e) && Safe(c, e)
    requires e.DoTakeSend? || e.DoTakeRecv? || e.DoWatchSend? || e.DoWatchRecv? || e.DoUnwatchSend? || e.DoUnwatchRecv?
             || e.OpenSession? || e.ResolveSession?
    ensures var d := Apply(c, e);
      && d.popped == c.popped
      && (d.notices != c.notices ==>
            && |d.notices| == |c.notices| + 1 && d.notices == c.notices + [d.notices[|c.notices|]]
            && !d.notices[|c.notices|].Delivered?)
  {
  }

  lemma RecvHandsOut(c: Chan, e: Event)
    requires Inv(c) && e.DoRecv?
    ensures HandsOut(c, e, AfterRecv(c, e))
  {
    if c.IsEmpty() { Unchanged(c, AfterRecv(c, e)); } else { WakeSenderDelivers(c.Pop()); }
  }

  function AfterRecv(c: Chan, e: Event): Chan
    requires e.DoRecv?
  {
    Recv(c, e.trying, e.inTask, e.id).0
  }

  lemma ConsumeSendHandsOut(c: Chan, v: Value)
    requires Inv(c) && CanConsumeSend(c)
    ensures HandsOut(c, DoConsumeSend(v), ConsumeSend(c, v))
  {
    var d := c.(sendPermits := c.sendPermits - 1, sendOut := c.sendOut - 1).Push(v);
    Unchanged(c, d);
    WakeReceiverDelivers(d);
    CloseReceiversDelivers(d);
    Unchanged(d, d);
    DeliversOnward(c, d, ConsumeSend(c, v));
  }

  lemma ConsumeRecvHandsOut(c: Chan)
    requires Inv(c) && c.recvPermits > 0
    ensures HandsOut(c, DoConsumeRecv, ConsumeRecv(c).0)
  {
    var d := c.(recvPermits := c.recvPermits - 1, recvOut := c.recvOut - 1);
    if d.deque == [] {
      Unchanged(c, d);
    } else {
      WakeSenderDelivers(d.Pop());
      CloseReceiversDelivers(d.Pop());
      Unchanged(d.Pop(), d.Pop());
    }
  }

  lemma CloseHandsOut(c: Chan)
    ensures Delivers(c, c.Close())
  {
    var d := c.(closed := true);
    Unchanged(c, d);
    CloseSendersDelivers(d);
    DeliversOnward(c, d, d.CloseSenders());
    CloseReceiversDelivers(d.CloseSenders());
    DeliversOnward(c, d.CloseSenders(), d.CloseSenders().CloseReceivers());
  }

  /** Everything that receivers have been given up to step `i`, in order. */
  function HandedOut(run: seq<Chan>, events: seq<Event>, i: nat): seq<Value>
    requires i <= |events| < |run|
    requires forall k :: 0 <= k < i ==> Safe(run[k], events[k]) && run[k].notices <= run[k + 1].notices
  {
    if i == 0 then []
    else
      HandedOut(run, events, i - 1) + Answered(run[i - 1], events[i - 1]) + DeliveredIn(NewNotices(run[i - 1], run[i]))
  }

  lemma {:induction false} StepsHandOut(run: seq<Chan>, events: seq<Event>, bound: nat, i: nat)
    requires IsRun(run, events, bound) && i <= |events|
    ensures forall k :: 0 <= k < i ==> Safe(run[k], events[k]) && run[k].notices <= run[k + 1].notices
  {
    if i > 0 {
      StepsHandOut(run, events, bound, i - 1);
      RunsKeepInv(run, events, bound, i - 1);
      StepHandsOut(run[i - 1], events[i - 1]);
    }
  }

  /** In every run, what receives return, what consumed permits bring (of a closed channel
      too) and what parked threads are given is exactly what was pushed, in the order in
      which it was pushed, up to what is still buffered. */
  lemma {:induction false} ReceiversGetWhatWasPushed(run: seq<Chan>, events: seq<Event>, bound: nat, i: nat)
    requires IsRun(run, events, bound) && i <= |events|
    ensures forall k :: 0 <= k < i ==> Safe(run[k], events[k]) && run[k].notices <= run[k + 1].notices
    ensures HandedOut(run, events, i) + run[i].deque == run[i].pushed
    ensures HandedOut(run, events, i) == run[i].popped
  {
    StepsHandOut(run, events, bound, i);
    if i > 0 {
      ReceiversGetWhatWasPushed(run, events, bound, i - 1);
      RunsKeepInv(run, events, bound, i - 1);
      StepHandsOut(run[i - 1], events[i - 1]);
    }
    RunsKeepInv(run, events, bound, i);
  }

  // ----- replies -----

  /** A receive returns the oldest value that nobody has got, exactly if one is not promised
      to a permit; else it is told the end of a drained channel, or nothing, or it parks
      where the next value finds it. */
  lemma RecvTells(c: Chan, trying: bool, inTask: bool, id: Id)
    requires Inv(c) && Enabled(c, DoRecv(trying, inTask, id))
    ensures var (d, reply) := Recv(c, trying, inTask, id);
      && (reply.Received? <==> c.recvPermits < |c.deque|)
      && (reply.Received? ==>
            && |c.popped| < |c.pushed| && reply.value == c.pushed[|c.popped|]
            && d.popped == c.popped + [reply.value])
      && (!reply.Received? ==> d.popped == c.popped && d.pushed == c.pushed && d.deque == c.deque)
      && (reply == ChannelClosed <==> c.IsDrained())
      && (reply == NothingYet <==> trying && !reply.Received? && !c.IsDrained())
      && (reply == RecvParked ==>
            && d.receivers == c.receivers + [if inTask then RecvTask(id) else RecvThread(id)]
            && Parked(d.receivers[|c.receivers|], d.open))
  {
    if !c.IsEmpty() { WakeSenderKeeps(c.Pop()); }
  }

  /** A consumed permit brings the oldest value, exactly if there is one. */
  lemma PermitBringsTheOldest(c: Chan)
    requires Inv(c) && c.recvPermits > 0
    ensures var (d, reply) := ConsumeRecv(c);
      && (reply.Some? <==> c.deque != [])
      && (reply.Some? ==>
            && |c.popped| < |c.pushed| && reply.value == c.pushed[|c.popped|]
            && d.popped == c.popped + [reply.value])
      && (reply.None? ==> d.popped == c.popped)
      && d.recvOut == c.recvOut - 1
  {
    var d := c.(recvPermits := c.recvPermits - 1, recvOut := c.recvOut - 1);
    if d.deque != [] {
      WakeSenderDelivers(d.Pop());
      SendersAreServedInTurn(d.Pop());
      if c.closed && !d.Pop().IsRecvable() { CloseReceiversKeeps(d.Pop()); }
    }
  }

  /** A consumed permit puts its value into the channel. */
  lemma PermitPushesItsValue(c: Chan, v: Value)
    requires Inv(c) && Enabled(c, DoConsumeSend(v)) && CanConsumeSend(c)
    ensures var d := ConsumeSend(c, v); d.pushed == c.pushed + [v] && d.sendOut == c.sendOut - 1
  {
    var d := c.(sendPermits := c.sendPermits - 1, sendOut := c.sendOut - 1).Push(v);
    ReceiversAreServedInTurn(d);
  }

  /** A send that parks waits where the next free slot finds it, with its value. */
  lemma ParkedSendIsQueued(c: Chan, inTask: bool, id: Id, v: Value)
    requires Enabled(c, DoSend(false, inTask, id, v))
    ensures var (d, reply) := Send(c, false, inTask, id, v);
      && (reply == SendParked <==> !c.closed && c.IsFull())
      && (reply == SendParked ==>
            && d.senders == c.senders + [if inTask then SendTask(id, v) else SendThread(id, v)]
            && Live(d.senders[|c.senders|], d.open))
  {
  }

  // ----- who is served -----

  predicate Live(w: SendWaiter, open: set<Id>) { w.SendThread? || w.id in open }

  /** The position of the first sender that can be woken, or the length of the queue. */
  function FirstLive(ws: seq<SendWaiter>, open: set<Id>): (k: nat)
    ensures k <= |ws| && (k < |ws| ==> Live(ws[k], open))
    ensures forall i :: 0 <= i < k ==> !Live(ws[i], open)
  {
    if ws == [] || Live(ws[0], open) then 0 else 1 + FirstLive(ws[1..], open)
  }

  function FirstParked(ws: seq<RecvWaiter>, open: set<Id>): (k: nat)
    ensures k <= |ws| && (k < |ws| ==> Parked(ws[k], open))
    ensures forall i :: 0 <= i < k ==> !Parked(ws[i], open)
  {
    if ws == [] || Parked(ws[0], open) then 0 else 1 + FirstParked(ws[1..], open)
  }

  /** `wake_sender` serves the first sender that can be woken: its value is pushed and it is
      told so, or it is told of a slot that is reserved for it. Those behind it stay. */
  lemma {:induction false} SendersAreServedInTurn(c: Chan)
    ensures var d, k := c.WakeSender(), FirstLive(c.senders, c.open);
      if k == |c.senders| then d == c.(senders := [])
      else
        var w := c.senders[k];
        && d.senders == c.senders[k + 1..] && !Live(w, d.open) == !w.SendThread?
        && d.notices == c.notices + [if w.SendSelector? then SendPermit(w.id, Consume) else SendOk(w.id)]
        && d.pushed == c.pushed + (if w.SendSelector? then [] else [w.value])
        && d.deque == c.deque + (if w.SendSelector? then [] else [w.value])
        && d.sendPermits == c.sendPermits + (if w.SendSelector? then 1 else 0)
        && d.recvOut == c.recvOut && d.popped == c.popped
    decreases |c.senders|
  {
    if c.senders != [] && !Live(c.senders[0], c.open) {
      SendersAreServedInTurn(c.(senders := c.senders[1..]));
      var k := FirstLive(c.senders[1..], c.open);
      assert FirstLive(c.senders, c.open) == 1 + k;
      if k < |c.senders[1..]| { assert c.senders[1..][k + 1..] == c.senders[k + 2..]; }
    }
  }

  /** `wake_receiver` serves the first parked receiver: a thread gets the oldest value, any
      other a permit. Those behind it stay. */
  lemma {:induction false} ReceiversAreServedInTurn(c: Chan)
    requires c.deque != []
    ensures var d, k := c.WakeReceiver(), FirstParked(c.receivers, c.open);
      if k == |c.receivers| then d == c.(receivers := [])
      else
        var w := c.receivers[k];
        && d.receivers == c.receivers[k + 1..] && !Parked(w, d.open) == !w.RecvThread?
        && d.notices == c.notices + [if w.RecvThread? then Delivered(w.id, c.deque[0]) else RecvPermit(w.id, Consume)]
        && d.deque == (if w.RecvThread? then c.deque[1..] else c.deque)
        && d.recvPermits == c.recvPermits + (if w.RecvThread? then 0 else 1)
        && d.sendOut == c.sendOut && d.pushed == c.pushed
        && d.popped == c.popped + (if w.RecvThread? then [c.deque[0]] else [])
    decreases |c.receivers|
  {
    if c.receivers != [] && !Parked(c.receivers[0], c.open) {
      ReceiversAreServedInTurn(c.(receivers := c.receivers[1..]));
      var k := FirstParked(c.receivers[1..], c.open);
      assert FirstParked(c.receivers, c.open) == 1 + k;
      if k < |c.receivers[1..]| { assert c.receivers[1..][k + 1..] == c.receivers[k + 2..]; }
    }
  }

  // ----- permits -----

  /** A send permit is a slot, there exactly while the channel is open and not full. */
  lemma SendPermitIsASlot(c: Chan)
    requires Inv(c)
    ensures var (d, permit) := TakeSendPermit(c);
      && (permit == Some(Closed) <==> c.closed)
      && (permit == Some(Consume) <==> !c.closed && |c.deque| + c.sendPermits < c.bound)
      && d == if permit == Some(Consume) then c.(sendPermits := c.sendPermits + 1, sendOut := c.sendOut + 1) else c
  {
  }

  /** A receive permit is a value that nobody is promised, or, on a closed channel with all
      values promised and nothing on its way, a share in the rest. */
  lemma RecvPermitIsAValue(c: Chan)
    requires Inv(c)
    ensures var (d, permit) := TakeRecvPermit(c);
      && (permit == Some(Closed) <==> c.IsDrained())
      && (permit == Some(Consume) <==>
            || c.recvPermits < |c.deque|
            || (c.closed && c.sendPermits == 0 && c.deque != []))
      && d == if permit == Some(Consume) then c.(recvPermits := c.recvPermits + 1, recvOut := c.recvOut + 1) else c
  {
  }

  /** Watching does what taking the permit would do for a select that is still open, and tells
      it; it leaves the counters alone for one that is not, and queues one if there is no
      permit. */
  lemma WatchingIsTaking(c: Chan, id: Id)
    requires Inv(c) && id in c.used
    ensures var (d, ready) := WatchSend(c, id); var (e, permit) := TakeSendPermit(c);
      && ready == permit.Some?
      && (permit.None? ==> d == c.(senders := c.senders + [SendSelector(id)]))
      && (permit.Some? && id in c.open ==> d == e.(open := c.open - {id}, notices := c.notices + [SendPermit(id, permit.value)]))
      && (permit.Some? && id !in c.open ==> d == c)
    ensures var (d, ready) := WatchRecv(c, id); var (e, permit) := TakeRecvPermit(c);
      && ready == permit.Some?
      && (permit.None? ==> d == c.(receivers := c.receivers + [RecvSelector(id)]))
      && (permit.Some? && id in c.open ==> d == e.(open := c.open - {id}, notices := c.notices + [RecvPermit(id, permit.value)]))
      && (permit.Some? && id !in c.open ==> d == c)
  {
  }

  /** `unwatch_recv_permit` takes one selector of the select off the receivers, the first, and
      nobody else. */
  lemma UnwatchRecvTakesOff(c: Chan, id: Id)
    ensures var d := UnwatchRecv(c, id);
      && multiset(d.receivers) == multiset(c.receivers) - multiset{RecvSelector(id)}
      && d == c.(receivers := d.receivers)
      && (RecvSelector(id) !in c.receivers <==> d == c)
  {
    var p := ReceiverPosition(c.receivers, id);
    if p < |c.receivers| {
      assert c.receivers == c.receivers[..p] + [c.receivers[p]] + c.receivers[p + 1..];
      assert |UnwatchRecv(c, id).receivers| == |c.receivers| - 1;
    } else {
      assert c.receivers[..p] == c.receivers;
    }
  }

  // ----- the end -----

  predicate EndNoticeFor(n: Notice, w: RecvWaiter) {
    if w.RecvThread? then n == Drained(w.id) else n == RecvPermit(w.id, Closed)
  }

  lemma {:induction false} CloseReceiversTellsAll(c: Chan)
    ensures c.notices <= c.CloseReceivers().notices && c.CloseReceivers().receivers == []
    ensures forall i :: 0 <= i < |c.receivers| && Parked(c.receivers[i], c.open) ==>
              exists n :: n in NewNotices(c, c.CloseReceivers()) && EndNoticeFor(n, c.receivers[i])
    decreases |c.receivers|
  {
    if c.receivers != [] {
      var d, e := TellHead(c), c.CloseReceivers();
      CloseReceiversTellsAll(d);
      NewNoticesSum(c, d, e);
      forall i | 0 <= i < |c.receivers| && Parked(c.receivers[i], c.open)
        ensures exists n :: n in NewNotices(c, e) && EndNoticeFor(n, c.receivers[i])
      {
        var v, w := c.receivers[0], c.receivers[i];
        if Parked(v, c.open) && w.id == v.id && w.RecvThread? == v.RecvThread? {
          var n := d.notices[|c.notices|];
          assert n in NewNotices(c, d) && EndNoticeFor(n, c.receivers[i]);
        } else if i > 0 {
          assert d.receivers[i - 1] == c.receivers[i] && Parked(d.receivers[i - 1], d.open);
        }
      }
    }
  }

  /** Nobody before `i` in the queue uses up the session of the waiter there. */
  predicate AloneUpTo(ws: seq<SendWaiter>, i: nat)
    requires i < |ws|
  {
    ws[i].SendThread? || forall j :: 0 <= j < i ==> ws[j].SendThread? || ws[j].id != ws[i].id
  }

  /** It is a parked send that can be told of the end. */
  predicate CanHear(c: Chan, i: nat) {
    i < |c.senders| && !c.senders[i].SendSelector? && Live(c.senders[i], c.open) && AloneUpTo(c.senders, i)
  }

  lemma HeadHears(c: Chan, i: nat)
    requires i > 0 && CanHear(c, i)
    ensures CanHear(CloseHead(c), i - 1) && CloseHead(c).senders[i - 1] == c.senders[i]
  {
    assert forall j :: 0 <= j < i - 1 ==> CloseHead(c).senders[j] == c.senders[j + 1];
  }

  /** Closing tells every parked sender that can be told, with its own value. */
  lemma {:induction false} CloseSendersTellsAll(c: Chan)
    ensures c.notices <= c.CloseSenders().notices && c.CloseSenders().senders == []
    ensures forall i: nat :: CanHear(c, i) ==>
              SendClosed(c.senders[i].id, c.senders[i].value) in NewNotices(c, c.CloseSenders())
    decreases |c.senders|
  {
    if c.senders != [] {
      var d, e := CloseHead(c), c.CloseSenders();
      CloseSendersTellsAll(d);
      NewNoticesSum(c, d, e);
      forall i: nat | CanHear(c, i) ensures SendClosed(c.senders[i].id, c.senders[i].value) in NewNotices(c, e) {
        if i == 0 {
          assert NewNotices(c, d)[0] == SendClosed(c.senders[i].id, c.senders[i].value);
        } else {
          HeadHears(c, i);
        }
      }
    }
  }

  /** `close` refuses every parked sender, and tells every parked receiver if the channel is
      drained with it. */
  lemma CloseTellsEverybody(c: Chan)
    requires Inv(c)
    ensures var d := c.Close();
      && d.closed && d.senders == [] && c.notices <= d.notices
      && (forall i: nat :: CanHear(c, i) ==> SendClosed(c.senders[i].id, c.senders[i].value) in NewNotices(c, d))
      && (d.IsDrained() ==> d.receivers == [])
  {
    var d := c.(closed := true);
    CloseSendersTellsAll(d);
    assert forall i: nat :: CanHear(c, i) ==> CanHear(d, i);
    CloseLeavesReceivers(d);
    CloseSendersKeeps(d);
    var e := d.CloseSenders();
    CloseReceiversTellsAll(e);
    if !e.IsRecvable() {
      CloseReceiversKeeps(e);
      NewNoticesSum(c, e, c.Close());
    }
  }

  /** On a drained channel nobody is parked to receive. */
  predicate EndTold(c: Chan) { c.IsDrained() ==> !AnyParked(c.receivers, c.open) }

  /** The one step that drains a channel without a word: the last value of a closed channel is
      taken by a receive that was not parked, and somebody else is. */
  predicate EndsSilently(c: Chan, e: Event) {
    && e.DoRecv? && c.closed && c.sendPermits == 0 && |c.deque| == 1 && c.recvPermits == 0
    && AnyParked(c.receivers, c.open)
  }

  lemma FewerStayTold(c: Chan, d: Chan)
    requires EndTold(c) && d.open <= c.open && (d.IsDrained() ==> c.IsDrained())
    requires forall w :: w in d.receivers ==> w in c.receivers
    ensures EndTold(d)
  {
    if AnyParked(d.receivers, d.open) { ParkedShrinks(d.receivers, c.receivers, d.open, c.open); }
  }

  /** Exactly that step leaves a receiver parked on a drained channel. */
  lemma StepTellsTheEnd(c: Chan, e: Event)
    requires Inv(c) && Known(c) && EndTold(c) && Enabled(c, e) && Safe(c, e)
    ensures EndTold(Apply(c, e)) <==> !EndsSilently(c, e)
  {
    match e
    case DoSend(_, _, _, v) => if !c.closed && !c.IsFull() { SendStaysOpen(c, v); }
    case DoRecv(_, _, _) => RecvTellsTheEnd(c, e);
    case DoConsumeSend(v) => ConsumeSendTellsTheEnd(c, v);
    case DoConsumeRecv => ConsumeRecvTellsTheEnd(c);
    case DoClose => CloseTellsEverybody(c);
    case DoWatchRecv(_) => if Apply(c, e).receivers == c.receivers { FewerStayTold(c, Apply(c, e)); }
    case OpenSession(id) => NewSessionToldTheEnd(c, id);
    case _ => FewerStayTold(c, Apply(c, e));
  }

  lemma SendStaysOpen(c: Chan, v: Value)
    requires Inv(c) && v !in c.fate && !c.closed && !c.IsFull()
    ensures !c.Push(v).WakeReceiver().closed
  {
    PushKeeps(c, v);
    WakeReceiverKeeps(c.Push(v));
  }

  lemma NewSessionToldTheEnd(c: Chan, id: Id)
    requires Known(c) && EndTold(c) && id !in c.used
    ensures EndTold(Apply(c, OpenSession(id)))
  {
    var d := Apply(c, OpenSession(id));
    if AnyParked(d.receivers, d.open) {
      var i :| 0 <= i < |d.receivers| && Parked(d.receivers[i], d.open);
      assert d.receivers[i] in c.receivers && Parked(c.receivers[i], c.open);
    }
  }

  lemma RecvTellsTheEnd(c: Chan, e: Event)
    requires Inv(c) && EndTold(c) && e.DoRecv?
    ensures EndTold(AfterRecv(c, e)) <==> !EndsSilently(c, e)
  {
    if !c.IsEmpty() {
      WakeSenderKeeps(c.Pop());
      if c.closed { assert c.Pop().WakeSender() == c.Pop(); }
    }
  }

  lemma ConsumeSendTellsTheEnd(c: Chan, v: Value)
    requires Inv(c) && CanConsumeSend(c)
    ensures EndTold(ConsumeSend(c, v))
  {
    var d := c.(sendPermits := c.sendPermits - 1, sendOut := c.sendOut - 1).Push(v);
    if !c.closed { ReceiversAreServedInTurn(d); WakeReceiverLeavesOpen(d); }
  }

  lemma {:induction false} WakeReceiverLeavesOpen(c: Chan)
    requires c.deque != []
    ensures c.WakeReceiver().closed == c.closed
    decreases |c.receivers|
  {
    if c.receivers != [] && !Parked(c.receivers[0], c.open) { WakeReceiverLeavesOpen(c.(receivers := c.receivers[1..])); }
  }

  lemma ConsumeRecvTellsTheEnd(c: Chan)
    requires Inv(c) && EndTold(c) && c.recvPermits > 0
    ensures EndTold(ConsumeRecv(c).0)
  {
    var d := c.(recvPermits := c.recvPermits - 1, recvOut := c.recvOut - 1);
    if d.deque == [] {
      FewerStayTold(c, d);
    } else if c.closed {
      CloseReceiversTellsAll(d.Pop());
    } else if c.IsFull() {
      WakeSenderKeeps(d.Pop());
    }
  }

  /** A waiter hears of the end as a receiver, or as the sender that the same select also is. */
  predicate Hears(n: Notice, w: RecvWaiter) {
    EndNoticeFor(n, w) || (!w.RecvThread? && n.id == w.id && (n.SendClosed? || n == SendPermit(w.id, Closed)))
  }

  /** Otherwise, in the step that drains it, everybody who is parked is told the end. */
  lemma EveryReceiverHearsTheEnd(c: Chan, e: Event, i: nat)
    requires Inv(c) && Enabled(c, e) && Safe(c, e) && !c.IsDrained() && Apply(c, e).IsDrained() && !EndsSilently(c, e)
    requires i < |c.receivers| && Parked(c.receivers[i], c.open)
    ensures c.notices <= Apply(c, e).notices
    ensures WaiterHears(NewNotices(c, Apply(c, e)), c.receivers[i])
  {
    StepHandsOut(c, e);
    match e
    case DoSend(_, _, _, v) => if !c.closed && !c.IsFull() { SendStaysOpen(c, v); }
    case DoRecv(_, _, _) => RecvDrains(c, e);
    case DoConsumeSend(v) => ConsumeSendDoesNotDrain(c, v);
    case DoConsumeRecv => ConsumeRecvTellsAll(c, i);
    case DoClose => CloseTellsReceivers(c, i);
    case _ =>
  }

  lemma RecvDrains(c: Chan, e: Event)
    requires Inv(c) && e.DoRecv? && !c.IsDrained() && AfterRecv(c, e).IsDrained() && !EndsSilently(c, e)
    ensures !AnyParked(c.receivers, c.open)
  {
    if !c.IsEmpty() {
      WakeSenderKeeps(c.Pop());
      if c.closed { assert c.Pop().WakeSender() == c.Pop(); }
    }
  }

  lemma ConsumeSendDoesNotDrain(c: Chan, v: Value)
    requires Inv(c) && CanConsumeSend(c)
    ensures !ConsumeSend(c, v).IsDrained()
  {
    var d := c.(sendPermits := c.sendPermits - 1, sendOut := c.sendOut - 1).Push(v);
    if !c.closed { WakeReceiverLeavesOpen(d); }
  }

  lemma ConsumeRecvTellsAll(c: Chan, i: nat)
    requires Inv(c) && c.recvPermits > 0 && !c.IsDrained() && ConsumeRecv(c).0.IsDrained()
    requires i < |c.receivers| && Parked(c.receivers[i], c.open)
    ensures c.notices <= ConsumeRecv(c).0.notices && WaiterHears(NewNotices(c, ConsumeRecv(c).0), c.receivers[i])
  {
    var d := c.(recvPermits := c.recvPermits - 1, recvOut := c.recvOut - 1);
    if d.deque != [] {
      if c.closed {
        CloseReceiversTellsAll(d.Pop());
        var n :| n in NewNotices(d.Pop(), ConsumeRecv(c).0) && EndNoticeFor(n, c.receivers[i]);
        assert Hears(n, c.receivers[i]);
      } else if c.IsFull() {
        WakeSenderKeeps(d.Pop());
      }
    }
  }

  predicate SessionHears(ns: seq<Notice>, id: Id) {
    exists i :: 0 <= i < |ns| && ns[i].id == id && (ns[i].SendClosed? || ns[i] == SendPermit(id, Closed))
  }

  ghost predicate WaiterHears(ns: seq<Notice>, w: RecvWaiter) { exists n :: n in ns && Hears(n, w) }

  lemma SessionHearsInSum(a: seq<Notice>, b: seq<Notice>, id: Id)
    requires SessionHears(a, id) || SessionHears(b, id)
    ensures SessionHears(a + b, id)
  {
    if SessionHears(a, id) {
      var i :| 0 <= i < |a| && a[i].id == id && (a[i].SendClosed? || a[i] == SendPermit(id, Closed));
      assert (a + b)[i] == a[i];
    } else {
      var i :| 0 <= i < |b| && b[i].id == id && (b[i].SendClosed? || b[i] == SendPermit(id, Closed));
      assert (a + b)[|a| + i] == b[i];
    }
  }

  lemma HeadSessionHears(c: Chan, id: Id)
    requires c.senders != [] && id in c.open && id !in CloseHead(c).open
    ensures c.notices <= CloseHead(c).notices && SessionHears(NewNotices(c, CloseHead(c)), id)
  {
    var d := CloseHead(c);
    assert d.notices == c.notices + [d.notices[|c.notices|]];
    assert NewNotices(c, d)[0].id == id;
  }

  lemma {:induction false} ClosedSessionsHear(c: Chan, id: Id)
    requires id in c.open && id !in c.CloseSenders().open
    ensures c.notices <= c.CloseSenders().notices
    ensures SessionHears(NewNotices(c, c.CloseSenders()), id)
    decreases |c.senders|
  {
    if c.senders != [] {
      var d, e := CloseHead(c), c.CloseSenders();
      if id in d.open {
        ClosedSessionsHear(d, id);
        assert c.notices <= d.notices;
      } else {
        HeadSessionHears(c, id);
        CloseSendersDelivers(d);
      }
      NewNoticesSum(c, d, e);
      SessionHearsInSum(NewNotices(c, d), NewNotices(d, e), id);
    }
  }

  lemma CloseTellsReceivers(c: Chan, i: nat)
    requires Inv(c) && !c.IsDrained() && c.Close().IsDrained() && i < |c.receivers| && Parked(c.receivers[i], c.open)
    ensures c.notices <= c.Close().notices && WaiterHears(NewNotices(c, c.Close()), c.receivers[i])
  {
    var d := c.(closed := true);
    var e := d.CloseSenders();
    CloseSendersTellsAll(d);
    CloseLeavesReceivers(d);
    CloseSendersKeeps(d);
    assert !e.IsRecvable() && c.Close() == e.CloseReceivers();
    CloseReceiversTellsAll(e);
    var told, ended := NewNotices(d, e), NewNotices(e, c.Close());
    NewNoticesSum(d, e, c.Close());
    var w := e.receivers[i];
    if Parked(w, e.open) {
      var n :| n in ended && EndNoticeFor(n, w);
      assert n in told + ended && Hears(n, w);
    } else {
      ClosedSessionsHear(d, w.id);
      var k :| 0 <= k < |told| && told[k].id == w.id && (told[k].SendClosed? || told[k] == SendPermit(w.id, Closed));
      assert told[k] in told + ended && Hears(told[k], w);
    }
  }

  lemma StaysKnown(c: Chan, e: Event)
    requires Inv(c) && Known(c) && Enabled(c, e) && Safe(c, e)
    ensures Known(Apply(c, e))
  {
    match e
    case DoSend(_, _, _, v) => if !c.closed && !c.IsFull() { WakeReceiverPromises(c.Push(v)); }
    case DoRecv(_, _, _) => if !c.IsEmpty() { WakeSenderBuffers(c.Pop()); }
    case DoConsumeSend(v) =>
      var d := c.(sendPermits := c.sendPermits - 1, sendOut := c.sendOut - 1).Push(v);
      WakeReceiverPromises(d);
      ReceiversAllTold(d);
    case DoConsumeRecv =>
      var d := c.(recvPermits := c.recvPermits - 1, recvOut := c.recvOut - 1);
      if d.deque != [] {
        WakeSenderBuffers(d.Pop());
        ReceiversAllTold(d.Pop());
      }
    case DoClose =>
      CloseLeavesReceivers(c.(closed := true));
      ReceiversAllTold(c.(closed := true).CloseSenders());
    case _ =>
  }

  /** Outside such steps nobody is parked on a drained channel, in any run. */
  lemma {:induction false} EndIsTold(run: seq<Chan>, events: seq<Event>, bound: nat, i: nat)
    requires IsRun(run, events, bound) && i < |run|
    requires forall k {:trigger events[k]} :: 0 <= k < |events| ==> !EndsSilently(run[k], events[k])
    ensures Known(run[i]) && EndTold(run[i])
  {
    if i > 0 {
      EndIsTold(run, events, bound, i - 1);
      RunsKeepInv(run, events, bound, i - 1);
      StaysKnown(run[i - 1], events[i - 1]);
      StepTellsTheEnd(run[i - 1], events[i - 1]);
      assert !EndsSilently(run[i - 1], events[i - 1]);
    }
  }

  /** Such a step happens: a receiver is parked beside the last value of a closed channel, as
      in `ReceiverBesideAValue`, and somebody else takes the value. */
  lemma ReceiverMissesTheEnd() returns (run: seq<Chan>, events: seq<Event>)
    ensures |events| == 5 && IsRun(run, events, 1) && EndsSilently(run[4], events[4])
    ensures run[|events|].IsDrained() && run[|events|].receivers == [RecvTask(9)] && 9 in run[|events|].open
    ensures run[|events|].notices == []
  {
    run, events := ReceiverBesideAValue(true, 4);
    var c, e := run[4], DoRecv(true, false, 1);
    assert AnyParked(c.receivers, c.open) by { assert Parked(c.receivers[0], c.open); }
    Extend(run, events, 1, e);
    run, events := run + [Apply(c, e)], events + [e];
  }
}
