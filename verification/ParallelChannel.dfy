/** The bounded channel of `src/channel/parallel.rs`. Every method body that holds the
    lock is one function on the channel state; the class of `ParallelChannelState` carries
    the same fields, and its methods, loops included, compute those functions. */
module ParallelChannel {
  import opened Options

  /** A value stands for the one send that brings it. */
  type Value = nat

  /** A one-shot session, parked thread or select that a waiter would wake. */
  type Id = nat

  datatype Permit = Closed | Consume

  datatype SendWaiter =
    | SendTask(id: Id, value: Value)
    | SendThread(id: Id, value: Value)
    | SendSelector(id: Id)

  datatype RecvWaiter = RecvSelector(id: Id) | RecvTask(id: Id) | RecvThread(id: Id)

  /** What reaches a waiter. */
  datatype Notice =
    | SendOk(id: Id)
    | SendClosed(id: Id, value: Value)
    | SendPermit(id: Id, permit: Permit)
    | RecvPermit(id: Id, permit: Permit)
    | Delivered(id: Id, value: Value)
    | Drained(id: Id)
    | Faulted(id: Id)    // the last waker of its session is gone

  /** What becomes of a send: its value is in the channel for good, came back to the
      caller, or is still (perhaps forever) held by a waiter. */
  datatype Fate = Waiting | Accepted | Refused

  /** The locked state, the sessions that can still be woken, and the history. */
  datatype Chan = Chan(
    closed: bool,
    sendPermits: nat,
    recvPermits: nat,
    bound: nat,
    deque: seq<Value>,
    senders: seq<SendWaiter>,
    receivers: seq<RecvWaiter>,
    open: set<Id>,
    notices: seq<Notice>,
    // Consume permits handed out and not consumed yet, as their holders count them.
    sendOut: int,
    recvOut: int,
    pushed: seq<Value>,
    popped: seq<Value>,
    fate: map<Value, Fate>,
    used: set<Id>)
  {
    predicate IsFull() { RecvableLen() == bound }
    function RecvableLen(): nat { |deque| + sendPermits }
    predicate IsEmpty() { recvPermits >= |deque| }
    predicate IsRecvable() { RecvableLen() != 0 }

    /** Closed, nothing buffered and nothing on its way. */
    predicate IsDrained() { closed && deque == [] && sendPermits == 0 }

    function Push(v: Value): Chan {
      this.(deque := deque + [v], pushed := pushed + [v], fate := fate[v := Accepted])
    }

    function Pop(): Chan
      requires deque != []
    {
      this.(deque := deque[1..], popped := popped + [deque[0]])
    }

    function Say(n: Notice): Chan { this.(notices := notices + [n]) }

    /** A successful wake: the one-shot session is used up. */
    function Tell(n: Notice): Chan { this.(open := open - {n.id}, notices := notices + [n]) }

    function WakeSender(): Chan
      decreases |senders|
    {
      if senders == [] then this
      else
        var c := this.(senders := senders[1..]);
        match senders[0]
        case SendTask(id, v) => if id in open then c.Tell(SendOk(id)).Push(v) else c.WakeSender()
        case SendThread(id, v) => c.Push(v).Say(SendOk(id))
        case SendSelector(id) =>
          if id in open then c.Tell(SendPermit(id, Consume)).(sendPermits := sendPermits + 1, sendOut := sendOut + 1)
          else c.WakeSender()
    }

    function WakeReceiver(): Chan
      requires deque != []
      decreases |receivers|
    {
      if receivers == [] then this
      else
        var c := this.(receivers := receivers[1..]);
        match receivers[0]
        case RecvThread(id) => c.Pop().Say(Delivered(id, deque[0]))
        case w =>
          if w.id in open then c.Tell(RecvPermit(w.id, Consume)).(recvPermits := recvPermits + 1, recvOut := recvOut + 1)
          else c.WakeReceiver()
    }

    function CloseSenders(): Chan
      decreases |senders|
    {
      if senders == [] then this
      else
        var c := this.(senders := senders[1..]);
        match senders[0]
        case SendTask(id, v) =>
          (if id in open then c.Tell(SendClosed(id, v)).(fate := fate[v := Refused]) else c).CloseSenders()
        case SendThread(id, v) => c.Say(SendClosed(id, v)).(fate := fate[v := Refused]).CloseSenders()
        case SendSelector(id) => (if id in open then c.Tell(SendPermit(id, Closed)) else c).CloseSenders()
    }

    function CloseReceivers(): Chan
      decreases |receivers|
    {
      if receivers == [] then this
      else
        var c := this.(receivers := receivers[1..]);
        match receivers[0]
        case RecvThread(id) => c.Say(Drained(id)).CloseReceivers()
        case w => (if w.id in open then c.Tell(RecvPermit(w.id, Closed)) else c).CloseReceivers()
    }

    function Close(): Chan {
      var c := this.(closed := true).CloseSenders();
      if c.IsRecvable() then c else c.CloseReceivers()
    }

    function SelectSend(): (Chan, Option<Permit>) {
      if closed then (this, Some(Permit.Closed))
      else if !IsFull() then (this.(sendPermits := sendPermits + 1), Some(Consume))
      else (this, None)
    }

    function SelectRecv(): (Chan, Option<Permit>) {
      if !IsEmpty() then (this.(recvPermits := recvPermits + 1), Some(Consume))
      else if closed then
        if sendPermits != 0 then (this, None)
        else if deque == [] then (this, Some(Permit.Closed))
        else (this.(recvPermits := recvPermits + 1), Some(Consume))
      else (this, None)
    }
  }

  datatype SendReply = Sent | FullBack(value: Value) | ClosedBack(value: Value) | SendParked

  function Send(c: Chan, trying: bool, inTask: bool, id: Id, v: Value): (Chan, SendReply)
  {
    if c.closed then (c.(fate := c.fate[v := Refused]), ClosedBack(v))
    else if !c.IsFull() then (c.Push(v).WakeReceiver(), Sent)
    else if trying then (c.(fate := c.fate[v := Refused]), FullBack(v))
    else if inTask then
      (c.(open := c.open + {id}, used := c.used + {id}, senders := c.senders + [SendTask(id, v)],
          fate := c.fate[v := Waiting]), SendParked)
    else (c.(senders := c.senders + [SendThread(id, v)], fate := c.fate[v := Waiting]), SendParked)
  }

  datatype RecvReply = Received(value: Value) | NothingYet | ChannelClosed | RecvParked

  function Recv(c: Chan, trying: bool, inTask: bool, id: Id): (Chan, RecvReply)
  {
    if c.IsEmpty() then
      if c.closed && !c.IsRecvable() then (c, ChannelClosed)
      else if trying then (c, NothingYet)
      else if inTask then
        (c.(open := c.open + {id}, used := c.used + {id}, receivers := c.receivers + [RecvTask(id)]), RecvParked)
      else (c.(receivers := c.receivers + [RecvThread(id)]), RecvParked)
    else (c.Pop().WakeSender(), Received(c.deque[0]))
  }

  function WatchSend(c: Chan, id: Id): (Chan, bool) {
    var (d, permit) := c.SelectSend();
    if permit.None? then (c.(senders := c.senders + [SendSelector(id)]), false)
    else if id in d.open then
      var t := d.Tell(SendPermit(id, permit.value));
      (if permit.value.Consume? then t.(sendOut := t.sendOut + 1) else t, true)
    else (if permit.value.Consume? then d.(sendPermits := d.sendPermits - 1) else d, true)
  }

  function WatchRecv(c: Chan, id: Id): (Chan, bool) {
    var (d, permit) := c.SelectRecv();
    if permit.None? then (c.(receivers := c.receivers + [RecvSelector(id)]), false)
    else if id in d.open then
      var t := d.Tell(RecvPermit(id, permit.value));
      (if permit.value.Consume? then t.(recvOut := t.recvOut + 1) else t, true)
    else (if permit.value.Consume? then d.(recvPermits := d.recvPermits - 1) else d, true)
  }

  function TakeSendPermit(c: Chan): (Chan, Option<Permit>) {
    var (d, permit) := c.SelectSend();
    (if permit == Some(Consume) then d.(sendOut := d.sendOut + 1) else d, permit)
  }

  function TakeRecvPermit(c: Chan): (Chan, Option<Permit>) {
    var (d, permit) := c.SelectRecv();
    (if permit == Some(Consume) then d.(recvOut := d.recvOut + 1) else d, permit)
  }

  /** The asserts of `consume_send_permit`. */
  predicate CanConsumeSend(c: Chan) {
    c.sendPermits > 0 && !c.(sendPermits := c.sendPermits - 1).IsFull()
  }

  function ConsumeSend(c: Chan, v: Value): Chan
    requires CanConsumeSend(c)
  {
    var d := c.(sendPermits := c.sendPermits - 1, sendOut := c.sendOut - 1).Push(v);
    if !d.closed then d.WakeReceiver()
    else if !d.IsRecvable() then d.CloseReceivers()
    else d
  }

  function ConsumeRecv(c: Chan): (Chan, Option<Value>)
    requires c.recvPermits > 0
  {
    var d := c.(recvPermits := c.recvPermits - 1, recvOut := c.recvOut - 1);
    if d.deque == [] then (d, None)
    else
      var e := d.Pop();
      (if e.closed then if !e.IsRecvable() then e.CloseReceivers() else e
       else if c.IsFull() then e.WakeSender()
       else e,
       Some(c.deque[0]))
  }

  /** The first waiter that belongs to the select `id`, or the length of the queue. */
  function SenderPosition(ws: seq<SendWaiter>, id: Id): (p: nat)
    ensures p <= |ws| && (p < |ws| ==> ws[p] == SendSelector(id)) && SendSelector(id) !in ws[..p]
  {
    if ws == [] || ws[0] == SendSelector(id) then 0
    else
      var p := 1 + SenderPosition(ws[1..], id);
      assert ws[..p] == [ws[0]] + ws[1..][..p - 1];
      p
  }

  function ReceiverPosition(ws: seq<RecvWaiter>, id: Id): (p: nat)
    ensures p <= |ws| && (p < |ws| ==> ws[p] == RecvSelector(id)) && RecvSelector(id) !in ws[..p]
  {
    if ws == [] || ws[0] == RecvSelector(id) then 0
    else
      var p := 1 + ReceiverPosition(ws[1..], id);
      assert ws[..p] == [ws[0]] + ws[1..][..p - 1];
      p
  }

  /** A waiter is dropped. With a parked receiver of a task goes the last waker of its session,
      which faults; a parked thread waits on; a selector shares its waker with others. */
  function DropReceiver(c: Chan, w: RecvWaiter): Chan {
    if w.RecvTask? && w.id in c.open then c.Tell(Faulted(w.id)) else c
  }

  /** As written: the position among the senders is removed from the receivers. */
  function UnwatchSend(c: Chan, id: Id): Chan {
    var p := SenderPosition(c.senders, id);
    if p < |c.senders| && p < |c.receivers| then
      DropReceiver(c.(receivers := c.receivers[..p] + c.receivers[p + 1..]), c.receivers[p])
    else c
  }

  function UnwatchRecv(c: Chan, id: Id): Chan {
    var p := ReceiverPosition(c.receivers, id);
    if p < |c.receivers| then c.(receivers := c.receivers[..p] + c.receivers[p + 1..]) else c
  }

  // ----- every method keeps the books -----

  /** Bound, permits and queue discipline. */
  ghost predicate Sound(c: Chan) {
    && c.RecvableLen() <= c.bound
    && (c.recvPermits > |c.deque| ==> c.closed && c.sendPermits == 0)
    && (c.closed ==> c.senders == [])
    && c.sendPermits == c.sendOut && c.recvPermits == c.recvOut
    && c.pushed == c.popped + c.deque
  }

  function ValueOf(w: SendWaiter): Option<Value> {
    if w.SendSelector? then None else Some(w.value)
  }

  /** Each send has one fate, and its value is in the channel's history once or never. */
  ghost predicate Fair(c: Chan) {
    && (forall i, j :: 0 <= i < j < |c.pushed| ==> c.pushed[i] != c.pushed[j])
    && (forall v :: v in c.pushed <==> v in c.fate && c.fate[v] == Accepted)
    && (forall i :: 0 <= i < |c.senders| && !c.senders[i].SendSelector? ==>
          c.senders[i].value in c.fate && c.fate[c.senders[i].value] == Waiting)
    && (forall i, j :: 0 <= i < j < |c.senders| && !c.senders[i].SendSelector? && !c.senders[j].SendSelector? ==>
          c.senders[i].value != c.senders[j].value)
    && c.open <= c.used
    && (forall i :: 0 <= i < |c.senders| && c.senders[i].SendTask? ==> c.senders[i].id in c.used)
  }

  /** A sender is parked only while the channel is open and full. */
  ghost predicate Orderly(c: Chan) {
    c.senders != [] ==> !c.closed && c.IsFull()
  }

  /** The next receiver that a wake reaches is a parked thread. */
  predicate ThreadIsNext(ws: seq<RecvWaiter>, open: set<Id>) {
    ws != [] && (ws[0].RecvThread? || (ws[0].id !in open && ThreadIsNext(ws[1..], open)))
  }

  /** The one step that leaves a sender parked beside a free slot: a permit holder's value
      goes straight to a parked thread, and nobody wakes a sender for the slot. */
  predicate FreesSlotSilently(c: Chan, e: Event) {
    e.DoConsumeSend? && !c.closed && c.senders != [] && ThreadIsNext(c.receivers, c.open)
  }

  lemma PushKeeps(c: Chan, v: Value)
    requires Fair(c) && v !in c.pushed
    requires forall i :: 0 <= i < |c.senders| && !c.senders[i].SendSelector? ==> c.senders[i].value != v
    ensures Fair(c.Push(v))
  {
    var d := c.Push(v);
    assert forall x :: x in d.pushed <==> x in c.pushed || x == v;
  }

  /** A message that says the channel has ended. */
  predicate EndNotice(n: Notice) { n.Drained? || (n.RecvPermit? && n.permit.Closed?) }

  /** The step from `c` to `d` tells nobody that the channel has ended unless it has. */
  ghost predicate Truthful(c: Chan, d: Chan) {
    && c.notices <= d.notices
    && forall i {:trigger d.notices[i]} :: |c.notices| <= i < |d.notices| && EndNotice(d.notices[i]) ==> d.IsDrained()
  }

  /** What a step may do to the history: values are only added, fates are only settled,
      and a session that is not open is not opened again. */
  ghost predicate Forward(c: Chan, d: Chan) {
    && c.pushed <= d.pushed && c.popped <= d.popped
    && d.bound == c.bound && (c.closed ==> d.closed)
    && c.used <= d.used && (d.open - c.open) !! c.used
    && (forall v :: v in c.fate ==> v in d.fate && (c.fate[v] != Waiting ==> d.fate[v] == c.fate[v]))
  }

  /** `wake_sender` moves one parked value or one slot to a live waiter, if there is one. */
  lemma {:induction false} WakeSenderKeeps(c: Chan)
    requires Sound(c) && Fair(c) && (c.senders != [] ==> !c.closed && !c.IsFull())
    ensures var d := c.WakeSender();
      && Sound(d) && Fair(d) && Forward(c, d) && Truthful(c, d)
      && d.receivers == c.receivers && d.popped == c.popped && d.closed == c.closed
      && c.deque <= d.deque && (d.senders != [] ==> d.RecvableLen() == c.RecvableLen() + 1)
      && (c.senders == [] ==> d == c)
    decreases |c.senders|
  {
    if c.senders != [] {
      var w := c.senders[0];
      var d := c.(senders := c.senders[1..]);
      assert Fair(d);
      if !w.SendThread? && w.id !in c.open { WakeSenderKeeps(d); }
      else if !w.SendSelector? { PushKeeps(d, w.value); }
    }
  }

  lemma {:induction false} WakeReceiverKeeps(c: Chan)
    requires Sound(c) && Fair(c) && c.recvPermits < |c.deque| && !c.closed
    ensures var d := c.WakeReceiver();
      && Sound(d) && Fair(d) && Forward(c, d) && Truthful(c, d)
      && d.senders == c.senders && d.pushed == c.pushed && d.closed == c.closed && d.fate == c.fate
      && d.RecvableLen() == c.RecvableLen() - if ThreadIsNext(c.receivers, c.open) then 1 else 0
    decreases |c.receivers|
  {
    if c.receivers != [] {
      var w := c.receivers[0];
      var d := c.(receivers := c.receivers[1..]);
      if !w.RecvThread? && w.id !in c.open { WakeReceiverKeeps(d); }
    }
  }

  /** One round of the loop of `close_senders`. */
  function CloseHead(c: Chan): Chan
    requires c.senders != []
  {
    var d := c.(senders := c.senders[1..]);
    match c.senders[0]
    case SendTask(id, v) => if id in c.open then d.Tell(SendClosed(id, v)).(fate := d.fate[v := Refused]) else d
    case SendThread(id, v) => d.Say(SendClosed(id, v)).(fate := d.fate[v := Refused])
    case SendSelector(id) => if id in c.open then d.Tell(SendPermit(id, Closed)) else d
  }

  lemma CloseHeadKeeps(c: Chan)
    requires Fair(c) && c.closed && c.senders != []
    ensures var e := CloseHead(c); Fair(e) && Forward(c, e) && Truthful(c, e)
  {
    assert Fair(c.(senders := c.senders[1..]));
  }

  lemma {:induction false} CloseSendersKeeps(c: Chan)
    requires Fair(c) && c.closed
    ensures var d := c.CloseSenders();
      && Fair(d) && Forward(c, d) && Truthful(c, d)
      && d == c.(senders := [], open := d.open, notices := d.notices, fate := d.fate)
    decreases |c.senders|
  {
    if c.senders != [] {
      CloseHeadKeeps(c);
      CloseSendersKeeps(CloseHead(c));
    }
  }

  lemma {:induction false} CloseReceiversKeeps(c: Chan)
    requires c.IsDrained()
    ensures var d := c.CloseReceivers();
      && Truthful(c, d) && d.open <= c.open
      && d == c.(receivers := [], open := d.open, notices := d.notices)
    decreases |c.receivers|
  {
    if c.receivers != [] {
      var w := c.receivers[0];
      var d := c.(receivers := c.receivers[1..]);
      var e := match w
        case RecvThread(id) => d.Say(Drained(id))
        case w => (if w.id in d.open then d.Tell(RecvPermit(w.id, Closed)) else d);
      CloseReceiversKeeps(e);
    }
  }

  // ----- runs -----

  datatype Event =
    | DoSend(trying: bool, inTask: bool, id: Id, value: Value)
    | DoRecv(trying: bool, inTask: bool, id: Id)
    | DoTakeSend | DoTakeRecv
    | DoWatchSend(id: Id) | DoWatchRecv(id: Id)
    | DoUnwatchSend(id: Id) | DoUnwatchRecv(id: Id)
    | DoConsumeSend(value: Value) | DoConsumeRecv
    | DoClose
    | OpenSession(id: Id)    // a select makes the session its selectors share
    | ResolveSession(id: Id) // another channel wins it, its task is aborted, or it faults elsewhere

  /** Sends bring new values, sessions are new, a select has made its session before it
      watches, and a permit is consumed by a holder. */
  predicate Enabled(c: Chan, e: Event) {
    match e
    case DoSend(_, inTask, id, v) => v !in c.fate && (inTask ==> id !in c.used)
    case DoRecv(_, inTask, id) => inTask ==> id !in c.used
    case DoConsumeSend(v) => c.sendOut > 0 && v !in c.fate
    case DoConsumeRecv => c.recvOut > 0
    case DoWatchSend(id) => id in c.used
    case DoWatchRecv(id) => id in c.used
    case OpenSession(id) => id !in c.used
    case _ => true
  }

  /** The asserts and the subtraction of the consuming methods. */
  predicate Safe(c: Chan, e: Event) {
    match e
    case DoConsumeSend(_) => CanConsumeSend(c)
    case DoConsumeRecv => c.recvPermits > 0
    case _ => true
  }

  function Apply(c: Chan, e: Event): Chan
    requires Enabled(c, e) && Safe(c, e)
  {
    match e
    case DoSend(trying, inTask, id, v) => Send(c, trying, inTask, id, v).0
    case DoRecv(trying, inTask, id) => Recv(c, trying, inTask, id).0
    case DoTakeSend => TakeSendPermit(c).0
    case DoTakeRecv => TakeRecvPermit(c).0
    case DoWatchSend(id) => WatchSend(c, id).0
    case DoWatchRecv(id) => WatchRecv(c, id).0
    case DoUnwatchSend(id) => UnwatchSend(c, id)
    case DoUnwatchRecv(id) => UnwatchRecv(c, id)
    case DoConsumeSend(v) => ConsumeSend(c, v)
    case DoConsumeRecv => ConsumeRecv(c).0
    case DoClose => c.Close()
    case OpenSession(id) => c.(open := c.open + {id}, used := c.used + {id})
    case ResolveSession(id) => c.(open := c.open - {id})
  }

  ghost predicate Inv(c: Chan) { Sound(c) && Fair(c) }

  lemma SendKeeps(c: Chan, trying: bool, inTask: bool, id: Id, v: Value)
    requires Inv(c) && v !in c.fate && (inTask ==> id !in c.used)
    ensures var d := Send(c, trying, inTask, id, v).0; Inv(d) && Forward(c, d) && Truthful(c, d)
  {
    if !c.closed && !c.IsFull() {
      PushKeeps(c, v);
      WakeReceiverKeeps(c.Push(v));
    }
  }

  lemma RecvKeeps(c: Chan, trying: bool, inTask: bool, id: Id)
    requires Inv(c) && (inTask ==> id !in c.used)
    ensures var d := Recv(c, trying, inTask, id).0; Inv(d) && Forward(c, d) && Truthful(c, d)
  {
    if !c.IsEmpty() { WakeSenderKeeps(c.Pop()); }
  }

  lemma ConsumeSendKeeps(c: Chan, v: Value)
    requires Inv(c) && c.sendOut > 0 && v !in c.fate
    ensures CanConsumeSend(c)
    ensures var d := ConsumeSend(c, v); Inv(d) && Forward(c, d) && Truthful(c, d)
  {
    var d := c.(sendPermits := c.sendPermits - 1, sendOut := c.sendOut - 1);
    PushKeeps(d, v);
    if !c.closed { WakeReceiverKeeps(d.Push(v)); }
  }

  lemma ConsumeRecvKeeps(c: Chan)
    requires Inv(c) && c.recvOut > 0
    ensures var d := ConsumeRecv(c).0; Inv(d) && Forward(c, d) && Truthful(c, d)
  {
    var d := c.(recvPermits := c.recvPermits - 1, recvOut := c.recvOut - 1);
    if d.deque != [] {
      var e := d.Pop();
      if e.closed {
        if !e.IsRecvable() { CloseReceiversKeeps(e); }
      } else if c.IsFull() {
        WakeSenderKeeps(e);
      }
    }
  }

  lemma CloseKeeps(c: Chan)
    requires Inv(c)
    ensures Inv(c.Close()) && Forward(c, c.Close()) && Truthful(c, c.Close()) && c.Close().senders == []
  {
    var d := c.(closed := true);
    CloseSendersKeeps(d);
    var e := d.CloseSenders();
    if !e.IsRecvable() { CloseReceiversKeeps(e); }
  }

  lemma TakeSendKeeps(c: Chan)
    requires Inv(c)
    ensures var d := TakeSendPermit(c).0; Inv(d) && Forward(c, d) && Truthful(c, d)
  {
  }

  lemma WatchSendKeeps(c: Chan, id: Id)
    requires Inv(c)
    ensures var d := WatchSend(c, id).0; Inv(d) && Forward(c, d) && Truthful(c, d)
  {
  }

  lemma TakeRecvKeeps(c: Chan)
    requires Inv(c)
    ensures var d := TakeRecvPermit(c).0; Inv(d) && Forward(c, d) && Truthful(c, d)
  {
  }

  lemma WatchRecvKeeps(c: Chan, id: Id)
    requires Inv(c)
    ensures var d := WatchRecv(c, id).0; Inv(d) && Forward(c, d) && Truthful(c, d)
  {
  }

  lemma UnwatchKeeps(c: Chan, id: Id)
    requires Inv(c)
    ensures var d := UnwatchSend(c, id); Inv(d) && Forward(c, d) && Truthful(c, d)
    ensures var d := UnwatchRecv(c, id); Inv(d) && Forward(c, d) && Truthful(c, d)
  {
  }

  lemma StepKeepsInv(c: Chan, e: Event)
    requires Inv(c) && Enabled(c, e)
    ensures Safe(c, e)
    ensures var d := Apply(c, e); Inv(d) && Forward(c, d) && Truthful(c, d)
  {
    match e
    case DoSend(trying, inTask, id, v) => SendKeeps(c, trying, inTask, id, v);
    case DoRecv(trying, inTask, id) => RecvKeeps(c, trying, inTask, id);
    case DoConsumeSend(v) => ConsumeSendKeeps(c, v);
    case DoConsumeRecv => ConsumeRecvKeeps(c);
    case DoClose => CloseKeeps(c);
    case DoUnwatchSend(id) => UnwatchKeeps(c, id);
    case DoUnwatchRecv(id) => UnwatchKeeps(c, id);
    case OpenSession(_) =>
    case ResolveSession(_) =>
    case DoTakeSend => TakeSendKeeps(c);
    case DoTakeRecv => TakeRecvKeeps(c);
    case DoWatchSend(id) => WatchSendKeeps(c, id);
    case DoWatchRecv(id) => WatchRecvKeeps(c, id);
  }

  /** Once drained, always drained, and nothing is ever pushed again. */
  lemma DrainedIsAbsorbing(c: Chan, e: Event)
    requires Inv(c) && Enabled(c, e) && Safe(c, e) && c.IsDrained()
    ensures Apply(c, e).IsDrained() && Apply(c, e).pushed == c.pushed
  {
    match e
    case DoClose =>
      CloseSendersKeeps(c);
      CloseReceiversKeeps(c.CloseSenders());
    case DoConsumeRecv => assert ConsumeRecv(c).1 == None;
    case _ =>
  }

  /** Nobody is told that the channel has ended before it has: not by the reply to a
      receive, not by a permit, not by a permit that turns out to bring nothing. */
  lemma EndIsTrue(c: Chan, inTask: bool, trying: bool, id: Id)
    requires Inv(c)
    ensures Recv(c, trying, inTask, id).1 == ChannelClosed <==> c.IsDrained()
    ensures TakeRecvPermit(c).1 == Some(Closed) ==> c.IsDrained()
    ensures TakeSendPermit(c).1 == Some(Closed) ==> c.closed
    ensures c.recvOut > 0 ==> (ConsumeRecv(c).1 == None ==> c.IsDrained())
    ensures c.recvOut > 0 && !c.closed ==> ConsumeRecv(c).1 == Some(c.deque[0])
  {
  }

  const Initial: Chan := Chan(false, 0, 0, 1, [], [], [], {}, [], 0, 0, [], [], map[], {})

  ghost predicate IsRun(run: seq<Chan>, events: seq<Event>, bound: nat) {
    && |run| == |events| + 1
    && run[0] == Initial.(bound := bound)
    && forall i {:trigger events[i]} :: 0 <= i < |events| ==>
         Enabled(run[i], events[i]) && (Safe(run[i], events[i]) ==> run[i + 1] == Apply(run[i], events[i]))
  }

  lemma {:induction false} RunsKeepInv(run: seq<Chan>, events: seq<Event>, bound: nat, i: nat)
    requires IsRun(run, events, bound) && i < |run|
    ensures Inv(run[i]) && run[i].bound == bound
    ensures i < |events| ==> Safe(run[i], events[i]) && run[i + 1] == Apply(run[i], events[i])
  {
    if i > 0 {
      RunsKeepInv(run, events, bound, i - 1);
      StepKeepsInv(run[i - 1], events[i - 1]);
    }
    if i < |events| { StepKeepsInv(run[i], events[i]); }
  }

  /** The bound holds over buffered values and reserved slots, and the counters are the
      permits in the hands of callers; the assertions of the methods never fail. */
  lemma BoundAndPermits(run: seq<Chan>, events: seq<Event>, bound: nat, i: nat)
    requires IsRun(run, events, bound) && i < |run|
    ensures |run[i].deque| + run[i].sendPermits <= bound
    ensures run[i].sendPermits == run[i].sendOut && run[i].recvPermits == run[i].recvOut
    ensures run[i].recvPermits > |run[i].deque| ==> run[i].closed && run[i].sendPermits == 0
    ensures i < |events| ==> Safe(run[i], events[i])
  {
    RunsKeepInv(run, events, bound, i);
  }

  /** First in, first out, nothing lost and nothing twice: what has been delivered is the
      start of what was pushed, and the rest is buffered. */
  lemma FirstInFirstOut(run: seq<Chan>, events: seq<Event>, bound: nat, i: nat, j: nat)
    requires IsRun(run, events, bound) && i <= j < |run|
    ensures run[j].pushed == run[j].popped + run[j].deque
    ensures run[i].pushed <= run[j].pushed && run[i].popped <= run[j].popped
    ensures forall a, b :: 0 <= a < b < |run[j].pushed| ==> run[j].pushed[a] != run[j].pushed[b]
    ensures forall v :: v in run[j].pushed <==> v in run[j].fate && run[j].fate[v] == Accepted
  {
    RunsGoForward(run, events, bound, i, j);
    RunsKeepInv(run, events, bound, j);
  }

  lemma {:induction false} RunsGoForward(run: seq<Chan>, events: seq<Event>, bound: nat, i: nat, j: nat)
    requires IsRun(run, events, bound) && i <= j < |run|
    ensures Forward(run[i], run[j])
  {
    if i < j {
      RunsGoForward(run, events, bound, i, j - 1);
      RunsKeepInv(run, events, bound, j - 1);
      StepKeepsInv(run[j - 1], events[j - 1]);
    }
  }

  /** Whoever is told during step `i` that the channel has ended is told the truth, and
      it stays true: no value is pushed from then on. */
  lemma {:induction false} EndNoticesAreFinal(run: seq<Chan>, events: seq<Event>, bound: nat, i: nat, j: nat, k: nat)
    requires IsRun(run, events, bound) && i < j < |run|
    requires |run[i].notices| <= k < |run[i + 1].notices| && EndNotice(run[i + 1].notices[k])
    ensures run[j].IsDrained() && run[j].pushed == run[i + 1].pushed && run[j].popped == run[j].pushed
  {
    RunsKeepInv(run, events, bound, i);
    StepKeepsInv(run[i], events[i]);
    DrainedForGood(run, events, bound, i + 1, j);
  }

  lemma {:induction false} DrainedForGood(run: seq<Chan>, events: seq<Event>, bound: nat, i: nat, j: nat)
    requires IsRun(run, events, bound) && i <= j < |run| && run[i].IsDrained()
    ensures run[j].IsDrained() && run[j].pushed == run[i].pushed && run[j].popped == run[j].pushed
  {
    RunsKeepInv(run, events, bound, j);
    if i < j {
      DrainedForGood(run, events, bound, i, j - 1);
      RunsKeepInv(run, events, bound, j - 1);
      DrainedIsAbsorbing(run[j - 1], events[j - 1]);
    }
  }
}
