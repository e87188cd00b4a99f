/** What becomes of the values of parked senders, and what their senders are told. */
module ParallelChannelSenders {
  import opened Options
  import opened ParallelChannel

  // ----- senders whose task is aborted -----

  /** The value of a parked send whose session is gone (its task was aborted). */
  ghost predicate Abandoned(c: Chan, v: Value) {
    && v in c.fate && c.fate[v] == Waiting
    && forall i :: 0 <= i < |c.senders| && !c.senders[i].SendSelector? && c.senders[i].value == v ==>
         c.senders[i].SendTask? && c.senders[i].id !in c.open
  }

  lemma AbortAbandons(c: Chan, k: nat)
    requires Inv(c) && k < |c.senders| && c.senders[k].SendTask?
    ensures Abandoned(Apply(c, ResolveSession(c.senders[k].id)), c.senders[k].value)
  {
  }

  lemma {:induction false} WakeSenderAbandons(c: Chan, v: Value)
    requires Fair(c) && Abandoned(c, v)
    ensures Abandoned(c.WakeSender(), v)
    decreases |c.senders|
  {
    if c.senders != [] {
      var w := c.senders[0];
      var d := c.(senders := c.senders[1..]);
      assert Fair(d) && Abandoned(d, v);
      if !w.SendThread? && w.id !in c.open { WakeSenderAbandons(d, v); }
    }
  }

  lemma {:induction false} CloseSendersAbandons(c: Chan, v: Value)
    requires Fair(c) && Abandoned(c, v)
    ensures Abandoned(c.CloseSenders(), v)
    decreases |c.senders|
  {
    if c.senders != [] {
      var w := c.senders[0];
      var d := c.(senders := c.senders[1..]);
      assert Fair(d) && Abandoned(d, v);
      var e := match w
        case SendTask(id, x) => (if id in c.open then d.Tell(SendClosed(id, x)).(fate := d.fate[x := Refused]) else d)
        case SendThread(id, x) => d.Say(SendClosed(id, x)).(fate := d.fate[x := Refused])
        case SendSelector(id) => (if id in c.open then d.Tell(SendPermit(id, Closed)) else d);
      assert Fair(e) && Abandoned(e, v);
      CloseSendersAbandons(e, v);
    }
  }

  /** What abandons a value lasts while its waiter is only dropped and no session reopens. */
  lemma AbandonedFrom(c: Chan, d: Chan, v: Value)
    requires Fair(c) && Abandoned(c, v) && Forward(c, d)
    requires v in d.fate && d.fate[v] == Waiting
    requires forall w :: w in d.senders && !w.SendSelector? && w.value == v ==> w in c.senders
    ensures Abandoned(d, v)
  {
  }

  lemma AbandonedStays(c: Chan, e: Event, v: Value)
    requires Inv(c) && Enabled(c, e) && Safe(c, e) && Abandoned(c, v)
    ensures Abandoned(Apply(c, e), v)
  {
    match e
    case DoSend(trying, inTask, id, x) => SendAbandons(c, trying, inTask, id, x, v);
    case DoRecv(_, _, _) => if !c.IsEmpty() { WakeSenderAbandons(c.Pop(), v); }
    case DoConsumeSend(x) => ConsumeSendAbandons(c, x, v);
    case DoConsumeRecv => ConsumeRecvAbandons(c, v);
    case DoClose => CloseAbandons(c, v);
    case _ =>
  }

  lemma SendAbandons(c: Chan, trying: bool, inTask: bool, id: Id, x: Value, v: Value)
    requires Inv(c) && x !in c.fate && (inTask ==> id !in c.used) && Abandoned(c, v)
    ensures Abandoned(Send(c, trying, inTask, id, x).0, v)
  {
    if !c.closed && !c.IsFull() {
      PushThenWakeAbandons(c, x, v);
      SendKeeps(c, trying, inTask, id, x);
      AbandonedFrom(c, Send(c, trying, inTask, id, x).0, v);
    }
  }

  lemma ConsumeSendAbandons(c: Chan, x: Value, v: Value)
    requires Inv(c) && c.sendOut > 0 && x !in c.fate && CanConsumeSend(c) && Abandoned(c, v)
    ensures Abandoned(ConsumeSend(c, x), v)
  {
    var d := c.(sendPermits := c.sendPermits - 1, sendOut := c.sendOut - 1);
    if !c.closed {
      PushThenWakeAbandons(d, x, v);
      ConsumeSendKeeps(c, x);
      AbandonedFrom(c, ConsumeSend(c, x), v);
    }
  }

  lemma PushThenWakeAbandons(c: Chan, x: Value, v: Value)
    requires Fair(c) && Abandoned(c, v) && x !in c.fate && !c.closed && |c.deque| >= c.recvPermits
    requires Sound(c.Push(x))
    ensures var d := c.Push(x).WakeReceiver(); d.senders == c.senders && v in d.fate && d.fate[v] == Waiting
  {
    PushKeeps(c, x);
    WakeReceiverKeeps(c.Push(x));
  }

  lemma ConsumeRecvAbandons(c: Chan, v: Value)
    requires Inv(c) && c.recvOut > 0 && Abandoned(c, v)
    ensures Abandoned(ConsumeRecv(c).0, v)
  {
    var d := c.(recvPermits := c.recvPermits - 1, recvOut := c.recvOut - 1);
    if d.deque != [] {
      if c.closed && !d.Pop().IsRecvable() { CloseReceiversKeeps(d.Pop()); }
      WakeSenderAbandons(d.Pop(), v);
    }
  }

  lemma CloseAbandons(c: Chan, v: Value)
    requires Inv(c) && Abandoned(c, v)
    ensures Abandoned(c.Close(), v)
  {
    var d := c.(closed := true);
    CloseSendersAbandons(d, v);
    CloseSendersKeeps(d);
    if !d.CloseSenders().IsRecvable() { CloseReceiversKeeps(d.CloseSenders()); }
  }

  /** A blocked sender whose task is aborted never has its value pushed. */
  lemma {:induction false} AbandonedNeverArrives(
    run: seq<Chan>, events: seq<Event>, bound: nat, i: nat, j: nat, v: Value)
    requires IsRun(run, events, bound) && i <= j < |run| && Abandoned(run[i], v)
    ensures Abandoned(run[j], v) && v !in run[j].pushed
  {
    RunsKeepInv(run, events, bound, j);
    if i < j {
      AbandonedNeverArrives(run, events, bound, i, j - 1, v);
      RunsKeepInv(run, events, bound, j - 1);
      AbandonedStays(run[j - 1], events[j - 1], v);
    }
  }

  /** A task is aborted while it is parked to send: its value is never pushed. */
  lemma AbortedSenderNeverArrives(run: seq<Chan>, events: seq<Event>, bound: nat, i: nat, j: nat, k: nat)
    requires IsRun(run, events, bound) && i < j < |run| && k < |run[i].senders|
    requires run[i].senders[k].SendTask? && events[i] == ResolveSession(run[i].senders[k].id)
    ensures run[i].senders[k].value !in run[j].pushed
  {
    RunsKeepInv(run, events, bound, i);
    AbortAbandons(run[i], k);
    AbandonedNeverArrives(run, events, bound, i + 1, j, run[i].senders[k].value);
  }

  // ----- what senders are told -----

  /** The reply to a send is true: success means that the value is in the channel's history,
      as its newest entry, an error hands the value back and it is not, and a parked send
      has found the channel open and full. */
  lemma SendTells(c: Chan, trying: bool, inTask: bool, id: Id, v: Value)
    requires Inv(c) && Enabled(c, DoSend(trying, inTask, id, v))
    ensures var (d, reply) := Send(c, trying, inTask, id, v);
      && (reply == Sent <==> v in d.pushed)
      && d.pushed == (if reply == Sent then c.pushed + [v] else c.pushed)
      && (reply == SendParked ==> !trying && !c.closed && c.IsFull() && d.fate[v] == Waiting)
      && (reply != Sent && reply != SendParked ==>
            (reply == FullBack(v) || reply == ClosedBack(v)) && d.fate[v] == Refused)
      && (reply == ClosedBack(v) <==> c.closed)
  {
    if !c.closed && !c.IsFull() {
      PushKeeps(c, v);
      WakeReceiverKeeps(c.Push(v));
    }
  }

  predicate Holds(ws: seq<SendWaiter>, id: Id, v: Value) { SendTask(id, v) in ws || SendThread(id, v) in ws }

  /** A parked sender is told of success exactly in the step that pushes its value, and of
      the end only with its own value, which is then not in the channel. */
  ghost predicate Told(c: Chan, d: Chan) {
    && c.notices <= d.notices
    && (forall i {:trigger d.notices[i]} :: |c.notices| <= i < |d.notices| && d.notices[i].SendOk? ==>
          exists v :: Holds(c.senders, d.notices[i].id, v) && v !in c.pushed && v in d.pushed)
    && (forall i {:trigger d.notices[i]} :: |c.notices| <= i < |d.notices| && d.notices[i].SendClosed? ==>
          Holds(c.senders, d.notices[i].id, d.notices[i].value) && d.notices[i].value !in d.pushed)
    && (forall id, v :: Holds(c.senders, id, v) && v in d.pushed ==> SendOk(id) in d.notices[|c.notices|..])
  }

  /** No sender is told anything. */
  ghost predicate Silent(c: Chan, d: Chan) {
    && c.notices <= d.notices && d.pushed == c.pushed
    && (forall i {:trigger d.notices[i]} :: |c.notices| <= i < |d.notices| ==>
          !d.notices[i].SendOk? && !d.notices[i].SendClosed?)
  }

  lemma {:induction false} WakeReceiverSilent(c: Chan)
    requires c.deque != []
    ensures Silent(c, c.WakeReceiver())
    decreases |c.receivers|
  {
    if c.receivers != [] && !c.receivers[0].RecvThread? && c.receivers[0].id !in c.open {
      WakeReceiverSilent(c.(receivers := c.receivers[1..]));
    }
  }

  lemma {:induction false} CloseReceiversSilent(c: Chan)
    ensures Silent(c, c.CloseReceivers())
    decreases |c.receivers|
  {
    if c.receivers != [] {
      var w, d := c.receivers[0], c.(receivers := c.receivers[1..]);
      CloseReceiversSilent(
        if w.RecvThread? then d.Say(Drained(w.id)) else if w.id in d.open then d.Tell(RecvPermit(w.id, Closed)) else d);
    }
  }

  /** What a parked sender holds has not been pushed. */
  lemma HeldIsNotPushed(c: Chan, id: Id, v: Value)
    requires Fair(c) && Holds(c.senders, id, v)
    ensures v !in c.pushed && v in c.fate
  {
    var i :| 0 <= i < |c.senders| && (c.senders[i] == SendTask(id, v) || c.senders[i] == SendThread(id, v));
  }

  lemma SilentIsTold(c: Chan, d: Chan, e: Chan)
    requires Fair(c) && d.notices == c.notices && Silent(d, e)
    requires forall v :: v in d.pushed && v !in c.pushed ==> v !in c.fate
    ensures Told(c, e)
  {
    forall id, v | Holds(c.senders, id, v) ensures v !in e.pushed { HeldIsNotPushed(c, id, v); }
  }

  /** Two waiters do not hold the same value. */
  lemma HeadHoldsAlone(c: Chan, id: Id, v: Value)
    requires Fair(c) && c.senders != [] && !c.senders[0].SendSelector? && Holds(c.senders[1..], id, v)
    ensures c.senders[0].value != v
  {
    var tail := c.senders[1..];
    var i :| 0 <= i < |tail| && (tail[i] == SendTask(id, v) || tail[i] == SendThread(id, v));
    assert c.senders[1..][i] == c.senders[i + 1];
  }

  lemma HoldsHeadOrTail(ws: seq<SendWaiter>, id: Id, v: Value)
    requires ws != []
    ensures Holds(ws, id, v) <==> (!ws[0].SendSelector? && ws[0].id == id && ws[0].value == v) || Holds(ws[1..], id, v)
  {
    assert ws == [ws[0]] + ws[1..];
  }

  /** What a waiter holds, the head of the queue holds or one behind it. */
  lemma HeadOrTailHolds(ws: seq<SendWaiter>)
    requires ws != []
    ensures forall id, v ::
              Holds(ws, id, v) <==> (!ws[0].SendSelector? && ws[0].id == id && ws[0].value == v) || Holds(ws[1..], id, v)
  {
    forall id, v
      ensures Holds(ws, id, v) <==> (!ws[0].SendSelector? && ws[0].id == id && ws[0].value == v) || Holds(ws[1..], id, v)
    {
      HoldsHeadOrTail(ws, id, v);
    }
  }

  /** A head that cannot be woken is gone, and its value is not pushed. */
  lemma DeadHeadTold(c: Chan, r: Chan)
    requires Fair(c) && c.senders != [] && Told(c.(senders := c.senders[1..]), r)
    requires forall v :: v in r.pushed ==> v in c.pushed || exists id :: Holds(c.senders[1..], id, v)
    ensures Told(c, r)
    ensures forall v :: v in r.pushed ==> v in c.pushed || exists id :: Holds(c.senders, id, v)
  {
    HeadOrTailHolds(c.senders);
    var w := c.senders[0];
    if !w.SendSelector? {
      HeldIsNotPushed(c, w.id, w.value);
      forall id | Holds(c.senders[1..], id, w.value) ensures false { HeadHoldsAlone(c, id, w.value); }
    }
  }

  lemma HeadServedTold(c: Chan)
    requires Fair(c) && c.senders != [] && !c.senders[0].SendSelector? && (c.senders[0].SendThread? || c.senders[0].id in c.open)
    ensures Told(c, c.WakeSender())
    ensures forall v :: v in c.WakeSender().pushed ==> v in c.pushed || exists id :: Holds(c.senders, id, v)
  {
    var w, r := c.senders[0], c.WakeSender();
    assert r.notices == c.notices + [SendOk(w.id)] && r.pushed == c.pushed + [w.value];
    PushedHeadTold(c, r, w);
  }

  lemma PushedHeadTold(c: Chan, r: Chan, w: SendWaiter)
    requires Fair(c) && c.senders != [] && w == c.senders[0] && !w.SendSelector?
    requires r.notices == c.notices + [SendOk(w.id)] && r.pushed == c.pushed + [w.value]
    ensures Told(c, r)
    ensures forall v :: v in r.pushed ==> v in c.pushed || exists id :: Holds(c.senders, id, v)
  {
    HeadOrTailHolds(c.senders);
    HeldIsNotPushed(c, w.id, w.value);
    assert r.notices[|c.notices|..] == [SendOk(w.id)];
    forall id, v | Holds(c.senders, id, v) && v in r.pushed ensures id == w.id {
      HeldIsNotPushed(c, id, v);
      if Holds(c.senders[1..], id, v) { HeadHoldsAlone(c, id, v); }
    }
  }

  lemma {:induction false} WakeSenderTold(c: Chan)
    requires Fair(c)
    ensures Told(c, c.WakeSender())
    ensures forall v :: v in c.WakeSender().pushed ==> v in c.pushed || exists id :: Holds(c.senders, id, v)
    decreases |c.senders|
  {
    if c.senders == [] {
      assert forall id, v :: !Holds(c.senders, id, v);
    } else {
      var w, d := c.senders[0], c.(senders := c.senders[1..]);
      if !w.SendThread? && w.id !in c.open {
        assert Fair(d);
        WakeSenderTold(d);
        DeadHeadTold(c, c.WakeSender());
      } else if !w.SendSelector? {
        HeadServedTold(c);
      } else {
        forall id, v | Holds(c.senders, id, v) ensures v !in c.WakeSender().pushed { HeldIsNotPushed(c, id, v); }
      }
    }
  }

  lemma {:induction false} CloseSendersTold(c: Chan)
    requires Fair(c) && c.closed
    ensures Told(c, c.CloseSenders()) && c.CloseSenders().pushed == c.pushed
    decreases |c.senders|
  {
    var r := c.CloseSenders();
    if c.senders != [] {
      var w := c.senders[0];
      forall id, v
        ensures Holds(c.senders, id, v) <==> (!w.SendSelector? && w.id == id && w.value == v) || Holds(c.senders[1..], id, v)
      {
        HoldsHeadOrTail(c.senders, id, v);
      }
      if !w.SendSelector? { HeldIsNotPushed(c, w.id, w.value); }
      CloseHeadKeeps(c);
      CloseSendersTold(CloseHead(c));
    }
    forall id, v | Holds(c.senders, id, v) ensures v !in r.pushed { HeldIsNotPushed(c, id, v); }
  }

  lemma CloseTold(c: Chan)
    requires Inv(c)
    ensures Told(c, c.Close())
  {
    var d := c.(closed := true);
    CloseSendersTold(d);
    CloseReceiversSilent(d.CloseSenders());
    forall id, v | Holds(c.senders, id, v) ensures v !in c.Close().pushed { HeldIsNotPushed(c, id, v); }
  }

  lemma StepTells(c: Chan, e: Event)
    requires Inv(c) && Enabled(c, e) && Safe(c, e)
    ensures Told(c, Apply(c, e))
  {
    match e
    case DoSend(trying, inTask, id, v) =>
      if !c.closed && !c.IsFull() {
        WakeReceiverSilent(c.Push(v));
        SilentIsTold(c, c.Push(v), Apply(c, e));
      } else {
        SilentIsTold(c, c, Apply(c, e));
      }
    case DoRecv(_, _, _) =>
      if c.IsEmpty() { SilentIsTold(c, c, Apply(c, e)); } else { WakeSenderTold(c.Pop()); }
    case DoConsumeSend(v) => ConsumeSendTells(c, v);
    case DoConsumeRecv => ConsumeRecvTells(c);
    case DoClose => CloseTold(c);
    case _ => SilentIsTold(c, c, Apply(c, e));
  }

  lemma ConsumeSendTells(c: Chan, v: Value)
    requires Inv(c) && Enabled(c, DoConsumeSend(v)) && CanConsumeSend(c)
    ensures Told(c, ConsumeSend(c, v))
  {
    var d := c.(sendPermits := c.sendPermits - 1, sendOut := c.sendOut - 1).Push(v);
    WakeReceiverSilent(d);
    CloseReceiversSilent(d);
    SilentIsTold(c, d, ConsumeSend(c, v));
  }

  lemma ConsumeRecvTells(c: Chan)
    requires Inv(c) && c.recvPermits > 0
    ensures Told(c, ConsumeRecv(c).0)
  {
    var d := c.(recvPermits := c.recvPermits - 1, recvOut := c.recvOut - 1);
    if d.deque == [] {
      SilentIsTold(c, d, d);
    } else {
      WakeSenderTold(d.Pop());
      CloseReceiversSilent(d.Pop());
      if c.closed || !c.IsFull() { SilentIsTold(c, d, ConsumeRecv(c).0); }
    }
  }

  /** In every run. */
  lemma ParkedSendersAreTold(run: seq<Chan>, events: seq<Event>, bound: nat, i: nat)
    requires IsRun(run, events, bound) && i < |events|
    ensures Told(run[i], run[i + 1])
  {
    RunsKeepInv(run, events, bound, i);
    StepTells(run[i], events[i]);
  }
}
