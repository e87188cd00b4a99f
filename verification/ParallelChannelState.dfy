/** The fields and methods of `State` and `Channel` in `src/channel/parallel.rs`. Each
    method computes the function of the same name on the abstract state. */
module ParallelChannelState {
  import opened Options
  import opened ParallelChannel

  class State {
    var closed: bool
    var sendPermits: nat
    var recvPermits: nat
    const bound: nat
    var deque: seq<Value>
    var senders: seq<SendWaiter>
    var receivers: seq<RecvWaiter>
    // The sessions outside that a waker in a queue can still win.
    var open: set<Id>

    ghost var notices: seq<Notice>
    ghost var sendOut: int
    ghost var recvOut: int
    ghost var pushed: seq<Value>
    ghost var popped: seq<Value>
    ghost var fate: map<Value, Fate>
    ghost var used: set<Id>

    ghost function Abs(): Chan
      reads this
    {
      Chan(closed, sendPermits, recvPermits, bound, deque, senders, receivers, open,
           notices, sendOut, recvOut, pushed, popped, fate, used)
    }

    constructor (capacity: nat)
      requires capacity > 0
      ensures Abs() == Initial.(bound := capacity) && Sound(Abs()) && Fair(Abs())
    {
      closed, sendPermits, recvPermits, bound := false, 0, 0, capacity;
      deque, senders, receivers, open := [], [], [], {};
      notices, sendOut, recvOut, pushed, popped, fate, used := [], 0, 0, [], [], map[], {};
    }

    predicate IsFull()
      reads this
      ensures IsFull() == Abs().IsFull()
    {
      |deque| + sendPermits == bound
    }

    predicate IsEmpty()
      reads this
      ensures IsEmpty() == Abs().IsEmpty()
    {
      recvPermits >= |deque|
    }

    predicate IsRecvable()
      reads this
      ensures IsRecvable() == Abs().IsRecvable()
    {
      |deque| + sendPermits != 0
    }

    /** `waker.wake(..)` or `selector.apply(..)`: true for the first to reach the session. */
    method Wake(n: Notice) returns (won: bool)
      modifies this`open, this`notices
      ensures won == (n.id in old(open))
      ensures Abs() == if won then old(Abs()).Tell(n) else old(Abs())
    {
      won := n.id in open;
      if won {
        open := open - {n.id};
        notices := notices + [n];
      }
    }

    /** A thread waiter is woken under the lock and never misses. */
    method WakeThread(n: Notice)
      modifies this`notices
      ensures Abs() == old(Abs()).Say(n)
    {
      notices := notices + [n];
    }

    method PushBack(v: Value)
      modifies this`deque, this`pushed, this`fate
      ensures Abs() == old(Abs()).Push(v)
    {
      deque := deque + [v];
      pushed := pushed + [v];
      fate := fate[v := Accepted];
    }

    method PopFront() returns (v: Value)
      requires deque != []
      modifies this`deque, this`popped
      ensures Abs() == old(Abs()).Pop() && v == old(deque)[0]
    {
      v := deque[0];
      deque := deque[1..];
      popped := popped + [v];
    }

    method WakeSender()
      modifies this
      ensures Abs() == old(Abs()).WakeSender()
    {
      while senders != []
        invariant Abs().WakeSender() == old(Abs()).WakeSender()
        decreases |senders|
      {
        var sender := senders[0];
        senders := senders[1..];
        match sender
        case SendTask(id, value) =>
          var woken := Wake(SendOk(id));
          if woken {
            PushBack(value);
            return;
          }
        case SendThread(id, value) =>
          PushBack(value);
          WakeThread(SendOk(id));
          return;
        case SendSelector(id) =>
          var applied := Wake(SendPermit(id, Consume));
          if applied {
            sendPermits := sendPermits + 1;
            sendOut := sendOut + 1;
            return;
          }
      }
    }

    method WakeReceiver()
      requires deque != []
      modifies this
      ensures Abs() == old(Abs()).WakeReceiver()
    {
      while receivers != []
        invariant deque != [] && Abs().WakeReceiver() == old(Abs()).WakeReceiver()
        decreases |receivers|
      {
        var receiver := receivers[0];
        receivers := receivers[1..];
        if receiver.RecvThread? {
          var value := PopFront();
          WakeThread(Delivered(receiver.id, value));
          return;
        }
        var waked := Wake(RecvPermit(receiver.id, Consume));
        if waked {
          recvPermits := recvPermits + 1;
          recvOut := recvOut + 1;
          return;
        }
      }
    }

    method CloseSenders()
      modifies this
      ensures Abs() == old(Abs()).CloseSenders()
    {
      while senders != []
        invariant Abs().CloseSenders() == old(Abs()).CloseSenders()
        decreases |senders|
      {
        var waiter := senders[0];
        senders := senders[1..];
        match waiter
        case SendTask(id, value) =>
          var woken := Wake(SendClosed(id, value));
          if woken { fate := fate[value := Refused]; }
        case SendThread(id, value) =>
          WakeThread(SendClosed(id, value));
          fate := fate[value := Refused];
        case SendSelector(id) =>
          var applied := Wake(SendPermit(id, Closed));
      }
    }

    method CloseReceivers()
      modifies this
      ensures Abs() == old(Abs()).CloseReceivers()
    {
      while receivers != []
        invariant Abs().CloseReceivers() == old(Abs()).CloseReceivers()
        decreases |receivers|
      {
        var waker := receivers[0];
        receivers := receivers[1..];
        if waker.RecvThread? {
          WakeThread(Drained(waker.id));
        } else {
          var woken := Wake(RecvPermit(waker.id, Closed));
        }
      }
    }

    method Close()
      modifies this
      ensures Abs() == old(Abs()).Close()
    {
      closed := true;
      CloseSenders();
      if !IsRecvable() { CloseReceivers(); }
    }

    method SelectSendPermit() returns (permit: Option<Permit>)
      modifies this`sendPermits
      ensures (Abs(), permit) == old(Abs()).SelectSend()
    {
      if closed { return Some(Closed); }
      if !IsFull() {
        sendPermits := sendPermits + 1;
        return Some(Consume);
      }
      permit := None;
    }

    method SelectRecvPermit() returns (permit: Option<Permit>)
      modifies this`recvPermits
      ensures (Abs(), permit) == old(Abs()).SelectRecv()
    {
      if !IsEmpty() {
        recvPermits := recvPermits + 1;
        return Some(Consume);
      } else if closed {
        if sendPermits != 0 { return None; }
        if deque == [] { return Some(Closed); }
        recvPermits := recvPermits + 1;
        return Some(Consume);
      }
      permit := None;
    }

    /** `send`, up to the point where a blocking caller goes to sleep. */
    method Send(trying: bool, inTask: bool, id: Id, value: Value) returns (reply: SendReply)
      modifies this
      ensures (Abs(), reply) == ParallelChannel.Send(old(Abs()), trying, inTask, id, value)
    {
      if closed {
        fate := fate[value := Refused];
        return ClosedBack(value);
      } else if !IsFull() {
        PushBack(value);
        WakeReceiver();
        return Sent;
      } else if trying {
        fate := fate[value := Refused];
        return FullBack(value);
      } else if inTask {
        open := open + {id};
        used := used + {id};
        senders := senders + [SendTask(id, value)];
      } else {
        senders := senders + [SendThread(id, value)];
      }
      fate := fate[value := Waiting];
      reply := SendParked;
    }

    /** `recv`, up to the point where a blocking caller goes to sleep. */
    method Recv(trying: bool, inTask: bool, id: Id) returns (reply: RecvReply)
      modifies this
      ensures (Abs(), reply) == ParallelChannel.Recv(old(Abs()), trying, inTask, id)
    {
      if IsEmpty() {
        if closed && !IsRecvable() { return ChannelClosed; }
        if trying { return NothingYet; }
        if inTask {
          open := open + {id};
          used := used + {id};
          receivers := receivers + [RecvTask(id)];
        } else {
          receivers := receivers + [RecvThread(id)];
        }
        return RecvParked;
      }
      var value := PopFront();
      WakeSender();
      reply := Received(value);
    }

    method WatchSendPermit(id: Id) returns (applied: bool)
      modifies this
      ensures (Abs(), applied) == WatchSend(old(Abs()), id)
    {
      var permit := SelectSendPermit();
      if permit.Some? {
        var won := Wake(SendPermit(id, permit.value));
        if permit.value == Consume {
          if won { sendOut := sendOut + 1; } else { sendPermits := sendPermits - 1; }
        }
        return true;
      }
      senders := senders + [SendSelector(id)];
      applied := false;
    }

    method WatchRecvPermit(id: Id) returns (applied: bool)
      modifies this
      ensures (Abs(), applied) == WatchRecv(old(Abs()), id)
    {
      var permit := SelectRecvPermit();
      if permit.Some? {
        var won := Wake(RecvPermit(id, permit.value));
        if permit.value == Consume {
          if won { recvOut := recvOut + 1; } else { recvPermits := recvPermits - 1; }
        }
        return true;
      }
      receivers := receivers + [RecvSelector(id)];
      applied := false;
    }

    method UnwatchSendPermit(id: Id)
      modifies this
      ensures Abs() == UnwatchSend(old(Abs()), id)
    {
      var position := SenderPosition(senders, id);
      if position < |senders| && position < |receivers| {
        var receiver := receivers[position];
        receivers := receivers[..position] + receivers[position + 1..];
        if receiver.RecvTask? { var _ := Wake(Faulted(receiver.id)); }
      }
    }

    method UnwatchRecvPermit(id: Id)
      modifies this`receivers
      ensures Abs() == UnwatchRecv(old(Abs()), id)
    {
      var position := ReceiverPosition(receivers, id);
      if position < |receivers| { receivers := receivers[..position] + receivers[position + 1..]; }
    }

    method ConsumeSendPermit(value: Value)
      requires CanConsumeSend(Abs())
      modifies this
      ensures Abs() == ConsumeSend(old(Abs()), value)
    {
      sendPermits := sendPermits - 1;
      sendOut := sendOut - 1;
      assert !IsFull();
      PushBack(value);
      if !closed {
        WakeReceiver();
      } else {
        // The value just pushed is buffered, so the code's test for a drained channel fails.
        assert IsRecvable();
      }
    }

    method ConsumeRecvPermit() returns (value: Option<Value>)
      requires recvPermits > 0
      modifies this
      ensures (Abs(), value) == ConsumeRecv(old(Abs()))
    {
      var full := IsFull();
      recvPermits := recvPermits - 1;
      recvOut := recvOut - 1;
      if deque == [] { return None; }
      var v := PopFront();
      if closed {
        if !IsRecvable() { CloseReceivers(); }
      } else if full {
        WakeSender();
      }
      value := Some(v);
    }
  }
}
