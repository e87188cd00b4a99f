/** The fields and methods of `State` and `Channel` in `src/channel/serial.rs`. Each method
    computes the function of the same name on the abstract channel. */
module SerialChannelState {
  import opened Options
  import opened SerialChannel

  class State {
    var closed: bool
    const bound: nat
    var deque: seq<Value>
    var senders: seq<Waker>
    var receivers: seq<Waker>
    // The selects outside that nobody has applied a permit to.
    var waiting: set<nat>

    ghost var wokenSenders: set<Waker>
    ghost var wokenReceivers: set<Waker>
    ghost var pushed: seq<Value>
    ghost var popped: seq<Value>

    ghost function Abs(): Chan
      reads this
    {
      Chan(closed, bound, deque, senders, receivers, waiting, wokenSenders, wokenReceivers, pushed, popped)
    }

    constructor (bound: nat)
      ensures Abs() == Initial(bound)
    {
      closed, this.bound, deque, senders, receivers := false, bound, [], [], [];
      waiting, wokenSenders, wokenReceivers, pushed, popped := {}, {}, {}, [], [];
    }

    /** `Waker::wake`: a coroutine is always resumed, a select only by the first. */
    method Wake(waker: Waker, ghost side: Side) returns (woken: bool)
      modifies this`waiting, this`wokenSenders, this`wokenReceivers
      ensures woken == old(Abs()).Live(waker)
      ensures Abs() == if woken then old(Abs()).Fire(waker, side) else old(Abs())
    {
      match waker {
        case Plain(_) => woken := true;
        case Selector(sel) =>
          woken := sel in waiting;
          waiting := waiting - {sel};
      }
      if woken && side == Senders { wokenSenders := wokenSenders + {waker}; }
      if woken && side == Receivers { wokenReceivers := wokenReceivers + {waker}; }
    }

    method WakeSender()
      modifies this`senders, this`waiting, this`wokenSenders, this`wokenReceivers
      ensures Abs() == old(Abs()).WakeSender()
    {
      while senders != []
        invariant Abs().WakeSender() == old(Abs()).WakeSender()
        decreases |senders|
      {
        var waker := senders[0];
        senders := senders[1..];
        var woken := Wake(waker, Senders);
        if woken { return; }
      }
    }

    method WakeReceiver()
      modifies this`receivers, this`waiting, this`wokenSenders, this`wokenReceivers
      ensures Abs() == old(Abs()).WakeReceiver()
    {
      while receivers != []
        invariant Abs().WakeReceiver() == old(Abs()).WakeReceiver()
        decreases |receivers|
      {
        var waker := receivers[0];
        receivers := receivers[1..];
        var woken := Wake(waker, Receivers);
        if woken { return; }
      }
    }

    method Close()
      modifies this
      ensures Abs() == old(Abs()).Close()
    {
      closed := true;
      while senders != []
        invariant Abs().WakeAllSenders() == old(Abs()).(closed := true).WakeAllSenders()
        decreases |senders|
      {
        var waker := senders[0];
        senders := senders[1..];
        var _ := Wake(waker, Senders);
      }
      while receivers != []
        invariant Abs().WakeAllReceivers() == old(Abs()).Close()
        decreases |receivers|
      {
        var waker := receivers[0];
        receivers := receivers[1..];
        var _ := Wake(waker, Receivers);
      }
    }

    /** A turn of the loop of `Channel::send`, in the coroutine `co`. */
    method SendTurn(co: nat, trying: bool, v: Value) returns (outcome: Option<SendOutcome>)
      modifies this
      ensures (Abs(), outcome) == old(Abs()).SendTurn(co, trying, v)
    {
      if closed { return Some(Refused(v)); }
      if bound != |deque| {
        deque := deque + [v];
        pushed := pushed + [v];
        WakeReceiver();
        return Some(Sent);
      }
      if trying { return Some(Full(v)); }
      senders := senders + [Plain(co)];
      return None;
    }

    /** A turn of the loop of `Channel::recv`. */
    method RecvTurn(co: nat, trying: bool) returns (outcome: Option<RecvOutcome>)
      modifies this
      ensures (Abs(), outcome) == old(Abs()).RecvTurn(co, trying)
    {
      if |deque| != 0 {
        var value := deque[0];
        deque := deque[1..];
        popped := popped + [value];
        WakeSender();
        return Some(Received(value));
      }
      if closed { return Some(Drained); }
      if trying { return Some(SerialChannel.Empty); }
      receivers := receivers + [Plain(co)];
      return None;
    }

    method WatchSendPermit(sel: nat)
      requires Enabled(Abs(), Event.WatchSend(sel))
      modifies this`senders
      ensures Abs() == Apply(old(Abs()), Event.WatchSend(sel))
    {
      senders := senders + [Selector(sel)];
    }

    method WatchRecvPermit(sel: nat)
      requires Enabled(Abs(), Event.WatchRecv(sel))
      modifies this`receivers
      ensures Abs() == Apply(old(Abs()), Event.WatchRecv(sel))
    {
      receivers := receivers + [Selector(sel)];
    }

    method UnwatchSendPermit(sel: nat)
      modifies this`senders
      ensures Abs() == old(Abs()).UnwatchSend(sel)
    {
      senders := Without(senders, sel);
    }

    method UnwatchRecvPermit(sel: nat)
      modifies this`receivers
      ensures Abs() == old(Abs()).UnwatchRecv(sel)
    {
      receivers := Without(receivers, sel);
    }
  }

  /** Removes the first waker that matches the identifier, at the position found. */
  method Without(wakers: seq<Waker>, sel: nat) returns (rest: seq<Waker>)
    ensures rest == RemoveFirst(wakers, Selector(sel))
  {
    var i := 0;
    while i < |wakers| && wakers[i] != Selector(sel)
      invariant 0 <= i <= |wakers| && Selector(sel) !in wakers[..i]
    {
      i := i + 1;
    }
    FirstRemoved(wakers, Selector(sel), i);
    return if i == |wakers| then wakers else wakers[..i] + wakers[i + 1..];
  }

  lemma {:induction false} FirstRemoved(ws: seq<Waker>, w: Waker, i: nat)
    requires i <= |ws| && w !in ws[..i] && (i < |ws| ==> ws[i] == w)
    ensures RemoveFirst(ws, w) == if i == |ws| then ws else ws[..i] + ws[i + 1..]
  {
    if i > 0 {
      assert ws[0] in ws[..i] && ws[1..][..i - 1] == ws[..i][1..];
      FirstRemoved(ws[1..], w, i - 1);
    }
  }
}
