/** The handles of `src/channel/shared.rs` as objects: a sender or receiver keeps its channel
    until it finds out that the channel is closed, or lets go of it. One thread at a time:
    the two steps of the last handle follow each other. */
module SharedState {
  import opened SharedHandles

  /** What `Channel::{send, recv}` and the permits report, as far as handles look at it. */
  datatype Outcome = Done | WouldBlock | Closed

  /** The counters of a channel and its `closed` flag. */
  class Channel {
    var senders: int
    var receivers: int
    var closed: bool

    constructor ()
      ensures forall s, r :: Shows(Initial(s, r))
    {
      senders, receivers, closed := 1, 1, false;
    }

    ghost predicate Shows(s: World)
      reads this
    {
      senders == s.senders.count && receivers == s.receivers.count && closed == s.closed
    }

    method Add(side: Side, h: Handle, copy: Handle, ghost s: World)
      requires Shows(s) && Inv(s) && Enabled(s, Event.Clone(side, h, copy))
      modifies this`senders, this`receivers
      ensures Shows(Apply(s, Event.Clone(side, h, copy)))
    {
      if side == Senders { senders := senders + 1; } else { receivers := receivers + 1; }
    }

    /** `remove_sender` and `remove_receiver` */
    method Remove(side: Side, h: Handle, ghost s: World)
      requires Shows(s) && Inv(s) && Enabled(s, Sub(side, h))
      modifies this
      ensures Shows(Removed(s, side, h)) && Inv(Removed(s, side, h))
    {
      StepKeepsInv(s, Sub(side, h));
      var last: bool;
      if side == Senders {
        last := senders == 1;
        senders := senders - 1;
      } else {
        last := receivers == 1;
        receivers := receivers - 1;
      }
      if last {
        StepKeepsInv(Apply(s, Sub(side, h)), Shut(side, h));
        closed := true;
      }
    }

    method Close(ghost s: World, h: Handle)
      requires Shows(s) && Inv(s) && Enabled(s, CloseByHand(h))
      modifies this`closed
      ensures Shows(Apply(s, CloseByHand(h)))
    {
      closed := true;
    }
  }

  /** The world after a handle has let go and, if it was the last, closed the channel. */
  function Removed(s: World, side: Side, h: Handle): World
    requires Inv(s) && Enabled(s, Sub(side, h))
  {
    var t := Apply(s, Sub(side, h));
    if EndOf(s, side).count == 1 then Apply(t, Shut(side, h)) else t
  }

  /** A `Sender` or a `Receiver`. */
  class Peer {
    const side: Side
    const id: Handle
    var channel: Channel?

    constructor (side: Side, id: Handle, channel: Channel?)
      ensures this.side == side && this.id == id && this.channel == channel
    {
      this.side, this.id, this.channel := side, id, channel;
    }

    /** The handle has its channel exactly while it counts as live. */
    ghost predicate Holds(c: Channel, s: World)
      reads this, c
    {
      c.Shows(s) && Inv(s) && (channel == c <==> id in EndOf(s, side).live) && (channel == null || channel == c)
    }

    /** `Sender::close`, `Receiver::terminate` and both drops. */
    method Release(ghost c: Channel, ghost s: World)
      requires Holds(c, s)
      modifies this, c
      ensures Holds(c, if old(channel) == null then s else Removed(s, side, id))
      ensures channel == null
    {
      if channel != null {
        channel.Remove(side, id, s);
        channel := null;
      }
    }

    /** The end of `send`, `try_send`, `recv` and `try_recv`, and of consuming a permit that
        turned out closed: the handle goes when the channel reports that it is closed. */
    method Finish(result: Outcome, ghost c: Channel, ghost s: World) returns (reported: Outcome)
      requires Holds(c, s)
      modifies this, c
      ensures reported == if old(channel) == null then Closed else result
      ensures Holds(c, if old(channel) == null || result != Closed then s else Removed(s, side, id))
      ensures channel == if result == Closed then null else old(channel)
    {
      if channel == null { return Closed; }
      if result == Closed {
        channel.Remove(side, id, s);
        channel := null;
      }
      return result;
    }

    /** `consume_permit` with the `Closed` permit. */
    method ConsumeClosed(ghost c: Channel, ghost s: World)
      requires Holds(c, s) && (channel != null ==> s.closed)
      modifies this
      ensures Holds(c, if old(channel) == null then s else Apply(s, Skip(side, id)))
      ensures channel == null
    {
      if channel != null { StepKeepsInv(s, Skip(side, id)); }
      channel := null;
    }

    method Clone(copy: Handle, ghost c: Channel, ghost s: World) returns (other: Peer)
      requires Holds(c, s) && (channel != null ==> Enabled(s, Event.Clone(side, id, copy)))
      modifies c
      ensures fresh(other) && other.side == side && other.id == copy && other.channel == channel
      ensures channel != null ==> other.Holds(c, Apply(s, Event.Clone(side, id, copy)))
      ensures channel == null ==> c.Shows(s)
    {
      if channel != null {
        StepKeepsInv(s, Event.Clone(side, id, copy));
        channel.Add(side, id, copy, s);
      }
      other := new Peer(side, copy, channel);
    }
  }
}
