/** The timer of `src/time.rs`: one wheel of 2^14 slots and five coarser
    levels, holding owned list nodes and a free list of spent ones. */
module TimerWheel {
  import opened WheelArithmetic

  /** What `SessionWaker<()>` stands for: the identity of the session to wake. */
  type Session = nat

  class Node {
    var next: Node?
    var expire: nat
    var session: Session

    constructor ()
      ensures next == null && expire == 0
    {
      next, expire, session := null, 0, 0;
    }

    /** Reads the session out and marks the cell as empty. */
    method Wake() returns (woken: Session)
      modifies `expire
      ensures woken == session && expire == 0
    {
      woken := session;
      expire := 0;
    }
  }

  /** `last` is the node whose `next` field the tail pointer designates, or null
      when it designates `first` of the list itself. */
  datatype List = List(first: Node?, last: Node?)

  method Insert(list: List, node: Node) returns (r: List)
    modifies (if list.last == null then {} else {list.last})`next
    ensures list.last == null ==> r == List(node, node)
    ensures list.last != null ==> r == List(list.first, node) && list.last.next == node
  {
    var first := list.first;
    if list.last == null {
      first := node;
    } else {
      list.last.next := node;
    }
    r := List(first, node);
  }

  /** One call of `Timer::timeout`: the tick it came at and what it asked for. */
  datatype Call = Call(at: nat, timeout: nat, session: Session)

  /** The tick a call is to fire at. A zero timeout lands in the slot that has just
      been served and waits for a whole turn of the least wheel. */
  function Due(c: Call): (d: nat)
    ensures d > c.at
    ensures d == c.at + c.timeout <==> c.timeout > 0
  {
    if c.timeout == 0 then c.at + LEAST_VALUE else c.at + c.timeout
  }

  /** One `session.wake(())`: which call it answers and the tick it happened at. */
  datatype Wakeup = Wakeup(ticket: nat, session: Session, tick: nat)

  ghost predicate Fired(log: seq<Wakeup>, ticket: nat) {
    exists i :: 0 <= i < |log| && log[i].ticket == ticket
  }

  /** `log` is right for `calls` at `time`: it holds every call that is due, once,
      at exactly its tick and with its session, in the order of the ticks. */
  ghost predicate Exact(calls: seq<Call>, log: seq<Wakeup>, time: nat) {
    && (forall i :: 0 <= i < |log| ==>
          && log[i].ticket < |calls|
          && log[i].tick == Due(calls[log[i].ticket]) <= time
          && log[i].session == calls[log[i].ticket].session)
    && (forall i, j :: 0 <= i < j < |log| ==> log[i].tick <= log[j].tick && log[i].ticket != log[j].ticket)
    && (forall t :: 0 <= t < |calls| && Due(calls[t]) <= time ==> Fired(log, t))
  }

  /** The wakeup that a call which is due must get. */
  predicate IsAnswer(calls: seq<Call>, time: nat, w: Wakeup) {
    && w.ticket < |calls|
    && w == Wakeup(w.ticket, calls[w.ticket].session, Due(calls[w.ticket]))
    && w.tick <= time
  }

  lemma {:induction false} DistinctOnce(log: seq<Wakeup>, w: Wakeup)
    requires forall i, j :: 0 <= i < j < |log| ==> log[i].ticket != log[j].ticket
    ensures multiset(log)[w] == if w in log then 1 else 0
  {
    if log != [] {
      var last := |log| - 1;
      assert log == log[..last] + [log[last]];
      DistinctOnce(log[..last], w);
      if log[last] == w {
        assert w !in log[..last];
      }
    }
  }

  /** The wheel refines a plain multiset of deadlines: an exact log holds precisely the
      answers to the calls that are due, each once, so any two agree but for the order
      among equal ticks. */
  lemma ExactIsTheAnswers(calls: seq<Call>, log: seq<Wakeup>, time: nat, w: Wakeup)
    requires Exact(calls, log, time)
    ensures multiset(log)[w] == if IsAnswer(calls, time, w) then 1 else 0
  {
    DistinctOnce(log, w);
    if IsAnswer(calls, time, w) {
      assert Fired(log, w.ticket);
      var i :| 0 <= i < |log| && log[i].ticket == w.ticket;
      assert log[i] == w;
    } else {
      forall i | 0 <= i < |log| ensures log[i] != w { assert IsAnswer(calls, time, log[i]); }
    }
  }

  lemma ExactIsUnique(calls: seq<Call>, log: seq<Wakeup>, other: seq<Wakeup>, time: nat)
    requires Exact(calls, log, time) && Exact(calls, other, time)
    ensures multiset(log) == multiset(other)
  {
    forall w ensures multiset(log)[w] == multiset(other)[w] {
      ExactIsTheAnswers(calls, log, time, w);
      ExactIsTheAnswers(calls, other, time, w);
    }
  }

  /** Every call is answered in `log` once, in tick order and at its tick, or pending. */
  ghost predicate Books(calls: seq<Call>, log: seq<Wakeup>, pending: set<nat>, time: nat) {
    && (forall i :: 0 <= i < |log| ==>
          && log[i].ticket < |calls| && log[i].ticket !in pending
          && log[i].tick == Due(calls[log[i].ticket]) <= time
          && log[i].session == calls[log[i].ticket].session)
    && (forall i, j :: 0 <= i < j < |log| ==> log[i].tick <= log[j].tick && log[i].ticket != log[j].ticket)
    && (forall t :: 0 <= t < |calls| ==> t in pending || Fired(log, t))
  }

  lemma BooksAfterWakeup(calls: seq<Call>, log: seq<Wakeup>, pending: set<nat>, time: nat, t: nat)
    requires Books(calls, log, pending, time) && t in pending && t < |calls| && Due(calls[t]) == time
    ensures Books(calls, log + [Wakeup(t, calls[t].session, time)], pending - {t}, time)
  {
    var log' := log + [Wakeup(t, calls[t].session, time)];
    forall u | 0 <= u < |calls| && u !in pending - {t} ensures Fired(log', u) {
      if u == t {
        assert log'[|log|].ticket == t;
      } else {
        var i :| 0 <= i < |log| && log[i].ticket == u;
        assert log'[i].ticket == u;
      }
    }
  }

  lemma BooksLater(calls: seq<Call>, log: seq<Wakeup>, pending: set<nat>, time: nat)
    requires Books(calls, log, pending, time)
    ensures Books(calls, log, pending, time + 1)
  {
  }

  lemma BooksAfterCall(calls: seq<Call>, log: seq<Wakeup>, pending: set<nat>, time: nat, c: Call)
    requires Books(calls, log, pending, time)
    ensures Books(calls + [c], log, pending + {|calls|}, time)
  {
    forall t | 0 <= t < |calls| + 1 && t !in pending + {|calls|} ensures Fired(log, t) {
      assert t < |calls|;
    }
  }

  predicate LeastPlace(index: nat, expire: nat, due: nat, done: nat) {
    expire % 16384 == due % 16384 == index && done < due <= done + LEAST_VALUE
  }

  /** A node may wait in slot `s` when the levels have seen tick `t` and the least
      wheel has been served up to tick `done`. */
  predicate Place(s: Slot, expire: nat, due: nat, t: nat, done: nat) {
    match s
    case Least(i) => i < LEAST_VALUE && LeastPlace(i, expire, due, done)
    case Level(l, i) => l < LEVEL_COUNT && i < 1023 && due == expire && LevelPlace(l, i, expire, t)
  }

  /** Cascades left to a node in slot `s`, out of five. */
  function HopLimit(s: Slot): nat {
    match s
    case Least(_) => 5
    case Level(l, _) => if l <= 4 then 4 - l else 0
  }

  /** The level search of `tick` at a boundary: the lowest level whose digit is not zero,
      and the slot of that digit. */
  method BoundarySearch(time: nat) returns (lv: nat, index: nat)
    requires 0 < time < U64 && time % 16384 == 0
    ensures BoundaryLevel(lv, time) && index < 1023 && index + 1 == Block(lv, time) % 1024
  {
    var t := time / 16384;
    lv := 0;
    while t % 1024 == 0
      invariant lv <= 4 && t == Block(lv, time)
      invariant forall k :: 0 <= k < lv ==> Block(k, time) % 1024 == 0
      decreases 5 - lv
    {
      if lv == 4 { BoundaryLevelExists(time); }
      t := t / 1024;
      lv := lv + 1;
      assert lv <= 5;
    }
    index := t % 1024 - 1;
  }

  /** The level search of `queue_node`, in 64-bit words: `exp2 <<= 10` loses its only
      bit on the last level and `exp2 - 1` wraps to a mask of all ones. */
  method SearchLevel(time: nat, expire: nat) returns (lv: nat, index: nat)
    requires time < U64 && time + LEAST_VALUE <= expire < U64
    ensures SlotOf(time, expire) == Level(lv, index)
  {
    ghost var slot := SlotOf(time, expire);
    lv := 0;
    var exp2 := 16384;
    LevelUnit(0);
    while true
      invariant lv <= slot.level && exp2 == Pow2(14 + lv * 10)
      decreases 5 - lv
    {
      exp2 := exp2 * 1024 % U64;
      var mask := (exp2 + U64 - 1) % U64;
      MaskOfLevel(lv, exp2, mask);
      OrMaskCompares(lv + 1, expire, time);
      SearchDecides(lv, time, expire);
      if OrMask(expire, mask) == OrMask(time, mask) {
        ShiftIsBlock(lv, expire);
        index := Shr(expire, 14 + lv * 10) % 1024 - 1;
        break;
      }
      lv := lv + 1;
      assert lv <= 5;
    }
  }

  /** The list a node is in: a slot of the wheel, the free list, a list that has been
      taken out of its slot and is being worked through, or none. */
  datatype Home = Queue(slot: Slot) | Free | Loose | Hand

  /** What the proof knows of a node: where it is, what its fields hold, when and for
      which call it fires, whether its session cell is filled, and its cascades so far. */
  datatype Info = Info(home: Home, pos: nat, expire: nat, session: Session, due: nat, ticket: nat, live: bool, hops: nat)

  /** Every node of the timer, and the nodes of each list in order. Of the list under
      `Loose` the first `taken` nodes have been worked through. */
  datatype Lists = Lists(chains: imap<Home, seq<Node>>, info: map<Node, Info>, taken: nat) {
    ghost function At(h: Home): seq<Node> {
      if h in chains then chains[h] else []
    }

    ghost function Skip(h: Home): nat {
      if h.Loose? then taken else 0
    }

    /** Homes, positions and chains describe the same lists. */
    ghost predicate Consistent() {
      && (forall h: Home, i {:trigger At(h)[i]} :: !h.Hand? && Skip(h) <= i < |At(h)| ==>
            At(h)[i] in info && info[At(h)[i]].home == h && info[At(h)[i]].pos == i)
      && (forall n {:trigger info[n]} :: n in info && !info[n].home.Hand? ==> Sits(n))
      && taken <= |At(Loose)|
    }

    ghost predicate Sits(n: Node)
      requires n in info
    {
      Skip(info[n].home) <= info[n].pos < |At(info[n].home)| && At(info[n].home)[info[n].pos] == n
    }

    ghost function First(h: Home): Node? {
      if Skip(h) < |At(h)| then At(h)[Skip(h)] else null
    }

    ghost function Last(h: Home): Node? {
      if At(h) == [] then null else At(h)[|At(h)| - 1]
    }

    /** The free list is linked from its end, every other list from its start. */
    ghost function NextOf(n: Node): Node?
      requires n in info
    {
      var h, p := info[n].home, info[n].pos;
      if h.Hand? then null
      else if h.Free? then if 0 < p <= |At(h)| then At(h)[p - 1] else null
      else if p + 1 < |At(h)| then At(h)[p + 1] else null
    }

    ghost function Put(n: Node, i: Info): Lists {
      this.(info := info[n := i])
    }

    ghost function Append(h: Home, n: Node): (r: Lists)
      requires n in info
    {
      Lists(chains[h := At(h) + [n]], info[n := info[n].(home := h, pos := |At(h)|)], taken)
    }

    ghost function TakeTop(): Lists
      requires At(Free) != [] && Last(Free) in info
    {
      Lists(chains[Free := At(Free)[..|At(Free)| - 1]], info[Last(Free) := info[Last(Free)].(home := Hand)], taken)
    }

    /** Takes the list of a slot out; leaving a slot of a level counts as a cascade. */
    ghost function Detach(h: Home): Lists
      requires h.Queue?
    {
      var cost := if h.slot.Level? then 1 else 0;
      Lists(chains[Loose := At(h)][h := []],
            map n | n in info :: if info[n].home == h then info[n].(home := Loose, hops := info[n].hops + cost) else info[n],
            0)
    }

    ghost function Pop(): Lists
      requires taken < |At(Loose)| && At(Loose)[taken] in info
    {
      var n := At(Loose)[taken];
      Lists(chains, info[n := info[n].(home := Hand)], taken + 1)
    }

    lemma PutConsistent(n: Node, i: Info)
      requires Consistent() && i.home == Hand && (n !in info || info[n].home == Hand)
      ensures Put(n, i).Consistent() && Put(n, i).NextOf(n) == null
      ensures forall m {:trigger Put(n, i).NextOf(m)} :: m in info && m != n ==> Put(n, i).NextOf(m) == NextOf(m)
      ensures forall k: Home {:trigger Put(n, i).First(k)} {:trigger Put(n, i).Last(k)} ::
        Put(n, i).First(k) == First(k) && Put(n, i).Last(k) == Last(k)
    {
      var r := Put(n, i);
      assert forall k :: r.At(k) == At(k);
      forall m | m in r.info && !r.info[m].home.Hand? ensures r.Sits(m) {
        assert Sits(m);
      }
    }

    lemma AppendConsistent(h: Home, n: Node)
      requires Consistent() && n in info && info[n].home == Hand && (h.Queue? || h.Free?)
      ensures Append(h, n).Consistent()
      ensures h.Queue? && Last(h) != null ==> Last(h) in info && Last(h) != n
    {
      var r := Append(h, n);
      assert r.At(h) == At(h) + [n];
      assert forall k :: k != h ==> r.At(k) == At(k);
      assert At(h) != [] ==> At(h)[|At(h)| - 1] in info;
      forall m | m in r.info && !r.info[m].home.Hand? ensures r.Sits(m) {
        if m != n { assert Sits(m); }
      }
    }

    lemma AppendLinks(h: Home, n: Node)
      requires Consistent() && n in info && info[n].home == Hand && (h.Queue? || h.Free?)
      ensures Append(h, n).NextOf(n) == if h.Free? then Last(h) else null
      ensures forall m {:trigger Append(h, n).NextOf(m)} :: m in info && m != n ==>
        Append(h, n).NextOf(m) == if h.Queue? && m == Last(h) then n else NextOf(m)
    {
      var r := Append(h, n);
      assert r.At(h) == At(h) + [n];
      assert forall k :: k != h ==> r.At(k) == At(k);
      forall m | m in info && m != n
        ensures r.NextOf(m) == if h.Queue? && m == Last(h) then n else NextOf(m)
      {
        if !info[m].home.Hand? { assert Sits(m); }
        if Last(h) != null { assert At(h)[|At(h)| - 1] in info; }
      }
    }

    lemma AppendEnds(h: Home, n: Node)
      requires n in info && (h.Queue? || h.Free?)
      ensures Append(h, n).Last(h) == n
      ensures h.Queue? ==> Append(h, n).First(h) == if Last(h) == null then n else First(h)
      ensures h.Queue? ==> (Last(h) == null <==> First(h) == null)
      ensures forall k: Home {:trigger Append(h, n).First(k)} {:trigger Append(h, n).Last(k)} :: k != h ==>
        Append(h, n).First(k) == First(k) && Append(h, n).Last(k) == Last(k)
    {
      assert Append(h, n).At(h) == At(h) + [n];
      assert forall k :: k != h ==> Append(h, n).At(k) == At(k);
    }

    lemma TakeTopConsistent()
      requires Consistent() && At(Free) != []
      ensures Last(Free) in info && info[Last(Free)].home == Free && TakeTop().Consistent()
    {
      var n := At(Free)[|At(Free)| - 1];
      var r := TakeTop();
      assert forall k :: k != Free ==> r.At(k) == At(k);
      forall m | m in r.info && !r.info[m].home.Hand? ensures r.Sits(m) {
        assert Sits(m);
      }
    }

    lemma TakeTopLink(m: Node)
      requires Consistent() && At(Free) != [] && m in info
      ensures Last(Free) in info
      ensures TakeTop().NextOf(m) == if m == Last(Free) then null else NextOf(m)
    {
      var n := At(Free)[|At(Free)| - 1];
      assert n in info;
      if m != n && !info[m].home.Hand? {
        assert Sits(m);
        assert TakeTop().At(info[m].home) == if info[m].home.Free? then At(Free)[..|At(Free)| - 1] else At(info[m].home);
      }
    }

    lemma TakeTopLinks()
      requires Consistent() && At(Free) != []
      ensures Last(Free) in info && TakeTop().Last(Free) == NextOf(Last(Free))
      ensures forall m {:trigger TakeTop().NextOf(m)} :: m in info ==>
        TakeTop().NextOf(m) == if m == Last(Free) then null else NextOf(m)
    {
      var n := At(Free)[|At(Free)| - 1];
      assert n in info && Sits(n);
      var r := TakeTop();
      assert r.At(Free) == At(Free)[..|At(Free)| - 1];
      forall m | m in info ensures r.NextOf(m) == if m == n then null else NextOf(m) {
        TakeTopLink(m);
      }
    }

    lemma TakeTopEnds()
      requires At(Free) != [] && Last(Free) in info
      ensures forall k: Home {:trigger TakeTop().First(k)} {:trigger TakeTop().Last(k)} :: k != Free ==>
        TakeTop().First(k) == First(k) && TakeTop().Last(k) == Last(k)
    {
      assert forall k :: k != Free ==> TakeTop().At(k) == At(k);
    }

    lemma DetachConsistent(h: Home)
      requires Consistent() && h.Queue? && taken == |At(Loose)|
      ensures Detach(h).Consistent()
    {
      var r := Detach(h);
      assert forall k :: k != h && k != Loose ==> r.At(k) == At(k);
      forall m | m in r.info && !r.info[m].home.Hand? ensures r.Sits(m) {
        assert Sits(m);
      }
    }

    lemma DetachLinks(h: Home)
      requires Consistent() && h.Queue? && taken == |At(Loose)|
      ensures forall m {:trigger Detach(h).NextOf(m)} :: m in info ==> Detach(h).NextOf(m) == NextOf(m)
    {
      forall m | m in info ensures Detach(h).NextOf(m) == NextOf(m) {
        if !info[m].home.Hand? { assert Sits(m); }
      }
    }

    lemma DetachEnds(h: Home)
      requires h.Queue?
      ensures Detach(h).First(Loose) == First(h)
      ensures Detach(h).First(h) == Detach(h).Last(h) == null
      ensures forall k: Home {:trigger Detach(h).First(k)} {:trigger Detach(h).Last(k)} :: k != h && k != Loose ==>
        Detach(h).First(k) == First(k) && Detach(h).Last(k) == Last(k)
    {
      assert forall k :: k != h && k != Loose ==> Detach(h).At(k) == At(k);
    }

    lemma PopConsistent()
      requires Consistent() && taken < |At(Loose)|
      ensures var n := At(Loose)[taken]; n in info && info[n].home == Loose
      ensures Pop().Consistent() && Pop().First(Loose) == NextOf(At(Loose)[taken])
      ensures forall k: Home {:trigger Pop().First(k)} {:trigger Pop().Last(k)} :: k != Loose ==>
        Pop().First(k) == First(k) && Pop().Last(k) == Last(k)
      ensures forall m {:trigger Pop().NextOf(m)} :: m in info ==>
        Pop().NextOf(m) == if m == At(Loose)[taken] then null else NextOf(m)
    {
      var n := At(Loose)[taken];
      var r := Pop();
      assert forall k :: r.At(k) == At(k);
      forall m | m in r.info && !r.info[m].home.Hand? ensures r.Sits(m) {
        assert Sits(m);
      }
    }
  }

  ghost predicate Placed(i: Info, t: nat, done: nat) {
    && (i.home.Queue? ==>
          Place(i.home.slot, i.expire, i.due, t, done) && i.live && i.hops <= HopLimit(i.home.slot) && i.expire < U64)
    && (i.home.Free? ==> i.expire == 0 && !i.live)
  }

  ghost predicate Placement(g: Lists, t: nat, done: nat) {
    forall n {:trigger g.info[n]} :: n in g.info ==> Placed(g.info[n], t, done)
  }

  predicate Waiting(i: Info) { i.home.Queue? || i.home.Loose? }

  /** The waiting nodes are exactly one node for each pending call. */
  ghost predicate Tickets(g: Lists, calls: seq<Call>, nodeOf: map<nat, Node>) {
    && (forall t {:trigger nodeOf[t]} :: t in nodeOf ==>
          && t < |calls| && nodeOf[t] in g.info && Waiting(g.info[nodeOf[t]])
          && var i := g.info[nodeOf[t]]; i.ticket == t && i.due == Due(calls[t]) && i.session == calls[t].session)
    && (forall n {:trigger g.info[n]} :: n in g.info && Waiting(g.info[n]) ==>
          g.info[n].ticket in nodeOf && nodeOf[g.info[n].ticket] == n)
  }

  ghost predicate NoLoose(g: Lists) { g.taken == |g.At(Loose)| }

  /** What a cascade from level `v` at tick `time` knows of the nodes still to be queued. */
  ghost predicate Cascading(g: Lists, v: nat, time: nat) {
    forall n {:trigger g.info[n]} :: n in g.info && g.info[n].home == Loose ==>
      var i := g.info[n];
      i.live && i.due == i.expire && time <= i.expire < U64 && Block(v, i.expire) == Block(v, time) && i.hops + v <= 5
  }

  /** The nodes taken from the least slot of tick `time` are all due then. */
  ghost predicate Expiring(g: Lists, time: nat) {
    forall n {:trigger g.info[n]} :: n in g.info && g.info[n].home == Loose ==> g.info[n].live && g.info[n].due == time
  }

  /** Between two wakeups of a tick. */
  ghost predicate Firing(g: Lists, time: nat, calls: seq<Call>, log: seq<Wakeup>, nodeOf: map<nat, Node>) {
    && Expiring(g, time) && Placement(g, time, time)
    && Tickets(g, calls, nodeOf) && Books(calls, log, nodeOf.Keys, time)
  }

  /** Between two calls of the timer. */
  ghost predicate Settled(g: Lists, time: nat, calls: seq<Call>, log: seq<Wakeup>, nodeOf: map<nat, Node>) {
    && NoLoose(g) && time < U64
    && Placement(g, time, time) && Tickets(g, calls, nodeOf) && Books(calls, log, nodeOf.Keys, time)
  }

  /** Between two nodes of a cascade. */
  ghost predicate Queueing(g: Lists, v: nat, time: nat, calls: seq<Call>, nodeOf: map<nat, Node>) {
    0 < time < U64 && Cascading(g, v, time) && Placement(g, time, time - 1) && Tickets(g, calls, nodeOf)
  }

  /** Queueing the next cascaded node again. */
  ghost function Requeued(g: Lists, time: nat): Lists
    requires g.Consistent() && g.taken < |g.At(Loose)|
    requires time <= g.info[g.At(Loose)[g.taken]].expire < U64
  {
    var n := g.At(Loose)[g.taken];
    g.Pop().Append(Queue(SlotOf(time, g.info[n].expire)), n)
  }

  /** It is then on a strictly lower level or in the least wheel, with a cascade left
      for every level below it. */
  lemma RequeueKeeps(g: Lists, v: nat, time: nat, calls: seq<Call>, nodeOf: map<nat, Node>)
    requires g.Consistent() && g.taken < |g.At(Loose)| && 0 < time < U64
    requires Queueing(g, v, time, calls, nodeOf)
    ensures time <= g.info[g.At(Loose)[g.taken]].expire < U64
    ensures var g' := Requeued(g, time);
      && Queueing(g', v, time, calls, nodeOf)
      && g'.info.Keys == g.info.Keys && g'.At(Loose) == g.At(Loose) && g'.taken == g.taken + 1
    ensures var s := SlotOf(time, g.info[g.At(Loose)[g.taken]].expire); s.Level? ==> s.level < v
  {
    g.PopConsistent();
    var n := g.At(Loose)[g.taken];
    var g' := Requeued(g, time);
    assert g'.info == g.info[n := g'.info[n]];
    RequeueInfo(g, g', n, g'.info[n], v, time, calls, nodeOf);
  }

  lemma RequeueInfo(g: Lists, g': Lists, n: Node, i: Info, v: nat, time: nat, calls: seq<Call>, nodeOf: map<nat, Node>)
    requires 0 < time < U64 && n in g.info && g.info[n].home == Loose && g'.info == g.info[n := i]
    requires Cascading(g, v, time) && Placement(g, time, time - 1) && Tickets(g, calls, nodeOf)
    requires i == g.info[n].(home := Queue(SlotOf(time, g.info[n].expire)), pos := i.pos)
    ensures Cascading(g', v, time) && Placement(g', time, time - 1) && Tickets(g', calls, nodeOf)
    ensures i.home.slot.Level? ==> i.home.slot.level < v
  {
    CascadeDescends(v, time, i.expire);
    assert Placed(i, time, time - 1);
    assert forall m :: m in g.info && m != n ==> g'.info[m] == g.info[m];
  }

  /** Firing the next expired node: it goes to the free list, spent. */
  ghost function Spent(g: Lists): Lists
    requires g.Consistent() && g.taken < |g.At(Loose)|
  {
    var n := g.At(Loose)[g.taken];
    var p := g.Pop();
    p.Put(n, p.info[n].(expire := 0, live := false)).Append(Free, n)
  }

  lemma SpendKeeps(g: Lists, time: nat, calls: seq<Call>, nodeOf: map<nat, Node>)
    requires g.Consistent() && g.taken < |g.At(Loose)|
    requires Expiring(g, time) && Placement(g, time, time) && Tickets(g, calls, nodeOf)
    ensures var n := g.At(Loose)[g.taken]; var t := g.info[n].ticket;
      && t in nodeOf && t < |calls| && Due(calls[t]) == time && g.info[n].session == calls[t].session
      && Tickets(Spent(g), calls, nodeOf - {t})
    ensures var g' := Spent(g);
      && Expiring(g', time) && Placement(g', time, time)
      && g'.info.Keys == g.info.Keys && g'.At(Loose) == g.At(Loose) && g'.taken == g.taken + 1
  {
    g.PopConsistent();
    var n := g.At(Loose)[g.taken];
    var g' := Spent(g);
    assert g'.info == g.info[n := g'.info[n]];
    SpendInfo(g, g', n, g'.info[n], time, calls, nodeOf);
  }

  lemma SpendInfo(g: Lists, g': Lists, n: Node, i: Info, time: nat, calls: seq<Call>, nodeOf: map<nat, Node>)
    requires n in g.info && g.info[n].home == Loose && g'.info == g.info[n := i]
    requires i.home == Free && i.expire == 0 && !i.live
    requires Expiring(g, time) && Placement(g, time, time) && Tickets(g, calls, nodeOf)
    ensures Expiring(g', time) && Placement(g', time, time) && Tickets(g', calls, nodeOf - {g.info[n].ticket})
    ensures g.info[n].ticket in nodeOf
  {
    assert forall m :: m in g.info && m != n ==> g'.info[m] == g.info[m];
    var t := g.info[n].ticket;
    assert nodeOf[t] == n;
  }

  lemma DetachTickets(g: Lists, h: Home, calls: seq<Call>, nodeOf: map<nat, Node>)
    requires h.Queue? && Tickets(g, calls, nodeOf)
    ensures Tickets(g.Detach(h), calls, nodeOf)
  {
  }

  lemma NoLooseNodes(g: Lists)
    requires g.Consistent() && NoLoose(g)
    ensures forall n :: n in g.info ==> g.info[n].home != Loose
  {
    forall n | n in g.info ensures g.info[n].home != Loose {
      if g.info[n].home == Loose && !g.Sits(n) { assert false; }
    }
  }

  /** Entering a tick inside a least block leaves every level node ahead. */
  lemma StepInside(g: Lists, time: nat)
    requires time > 0 && time % 16384 != 0 && Placement(g, time - 1, time - 1)
    ensures Placement(g, time, time - 1)
  {
    forall n | n in g.info ensures Placed(g.info[n], time, time - 1) {
      var i := g.info[n];
      if i.home.Queue? && i.home.slot.Level? { LevelStays(time, i.home.slot.level, i.home.slot.index, i.expire); }
    }
  }

  /** Entering a tick at a boundary: the slot that is cleared holds exactly the nodes
      that are not ahead of the new tick on their level. */
  lemma BoundaryPlacement(g: Lists, v: nat, index: nat, time: nat)
    requires 0 < time < U64 && BoundaryLevel(v, time) && index + 1 == Block(v, time) % 1024
    requires Placement(g, time - 1, time - 1)
    requires forall n :: n in g.info ==> g.info[n].home != Loose
    ensures var g' := g.Detach(Queue(Level(v, index)));
      Placement(g', time, time - 1) && Cascading(g', v, time)
  {
    var h := Queue(Level(v, index));
    var g' := g.Detach(h);
    forall n | n in g.info
      ensures Placed(g'.info[n], time, time - 1)
      ensures g'.info[n].home == Loose ==>
        var i := g'.info[n];
        && i.live && i.due == i.expire && time <= i.expire < U64
        && Block(v, i.expire) == Block(v, time) && i.hops + v <= 5
    {
      var i := g.info[n];
      assert Placed(i, time - 1, time - 1);
      if i.home.Queue? && i.home.slot.Level? { LevelStep(v, time, i.home.slot.level, i.home.slot.index, i.expire); }
    }
  }

  lemma StepBoundary(g: Lists, v: nat, index: nat, time: nat, calls: seq<Call>, nodeOf: map<nat, Node>)
    requires 0 < time < U64 && BoundaryLevel(v, time) && index + 1 == Block(v, time) % 1024
    requires Placement(g, time - 1, time - 1)
    requires g.Consistent() && NoLoose(g) && Tickets(g, calls, nodeOf)
    ensures var g' := g.Detach(Queue(Level(v, index)));
      Placement(g', time, time - 1) && Cascading(g', v, time) && Tickets(g', calls, nodeOf)
  {
    NoLooseNodes(g);
    BoundaryPlacement(g, v, index, time);
    DetachTickets(g, Queue(Level(v, index)), calls, nodeOf);
  }

  lemma LeastDue(index: nat, expire: nat, due: nat, time: nat)
    requires time > 0 && LeastPlace(index, expire, due, time - 1)
    ensures due == time <==> index == time % 16384
    ensures due != time ==> LeastPlace(index, expire, due, time)
  {
  }

  /** The least slot of a tick holds exactly the nodes due at that tick. */
  lemma ServePlacement(g: Lists, time: nat)
    requires 0 < time < U64 && Placement(g, time, time - 1)
    requires forall n :: n in g.info ==> g.info[n].home != Loose
    ensures var g' := g.Detach(Queue(Least(time % 16384))); Placement(g', time, time) && Expiring(g', time)
  {
    var g' := g.Detach(Queue(Least(time % 16384)));
    forall n | n in g.info
      ensures Placed(g'.info[n], time, time)
      ensures g'.info[n].home == Loose ==> g'.info[n].live && g'.info[n].due == time
    {
      var i := g.info[n];
      assert Placed(i, time, time - 1);
      if i.home.Queue? && i.home.slot.Least? { LeastDue(i.home.slot.index, i.expire, i.due, time); }
    }
  }

  lemma ServeLeast(g: Lists, time: nat, calls: seq<Call>, nodeOf: map<nat, Node>)
    requires 0 < time < U64 && Placement(g, time, time - 1)
    requires g.Consistent() && NoLoose(g) && Tickets(g, calls, nodeOf)
    ensures var g' := g.Detach(Queue(Least(time % 16384)));
      Placement(g', time, time) && Expiring(g', time) && Tickets(g', calls, nodeOf)
  {
    NoLooseNodes(g);
    ServePlacement(g, time);
    DetachTickets(g, Queue(Least(time % 16384)), calls, nodeOf);
  }

  lemma Overwrite(info: map<Node, Info>, n: Node, i: Info, j: Info)
    ensures info[n := i][n := j] == info[n := j]
  {
  }

  /** A new call is pending, and its node is where its deadline belongs. */
  lemma CallPlacement(g: Lists, g': Lists, n: Node, time: nat, c: Call)
    requires Placement(g, time, time) && c.at == time && time + c.timeout < U64
    requires n in g'.info && g'.info == g.info[n := g'.info[n]]
    requires var i := g'.info[n];
      && i.home == Queue(SlotOf(time, time + c.timeout)) && i.expire == time + c.timeout
      && i.due == Due(c) && i.live && i.hops == 0
    ensures Placement(g', time, time)
  {
    assert forall m :: m in g.info && m != n ==> g'.info[m] == g.info[m];
    assert Placed(g'.info[n], time, time);
  }

  lemma CallTickets(g: Lists, g': Lists, n: Node, c: Call, calls: seq<Call>, nodeOf: map<nat, Node>)
    requires Tickets(g, calls, nodeOf) && (n in g.info ==> g.info[n].home == Free)
    requires n in g'.info && g'.info == g.info[n := g'.info[n]]
    requires var i := g'.info[n]; Waiting(i) && i.ticket == |calls| && i.due == Due(c) && i.session == c.session
    ensures Tickets(g', calls + [c], nodeOf[|calls| := n])
  {
    assert forall m :: m in g.info && m != n ==> g'.info[m] == g.info[m];
    assert forall t :: t in nodeOf ==> nodeOf[t] != n && t < |calls|;
  }

  lemma CallKeeps(
    g: Lists, g': Lists, n: Node, time: nat, c: Call, calls: seq<Call>, log: seq<Wakeup>, nodeOf: map<nat, Node>)
    requires Placement(g, time, time) && Tickets(g, calls, nodeOf) && Books(calls, log, nodeOf.Keys, time)
    requires c.at == time && time + c.timeout < U64 && (n in g.info ==> g.info[n].home == Free)
    requires n in g'.info && g'.info == g.info[n := g'.info[n]]
    requires var i := g'.info[n];
      i == Info(Queue(SlotOf(time, time + c.timeout)), i.pos, time + c.timeout, c.session, Due(c), |calls|, true, 0)
    requires NoLoose(g') && time < U64
    ensures Settled(g', time, calls + [c], log, nodeOf[|calls| := n])
  {
    BooksAfterCall(calls, log, nodeOf.Keys, time, c);
    CallPlacement(g, g', n, time, c);
    CallTickets(g, g', n, c, calls, nodeOf);
    assert nodeOf[|calls| := n].Keys == nodeOf.Keys + {|calls|};
  }

  lemma WakeupKeeps(g: Lists, time: nat, calls: seq<Call>, log: seq<Wakeup>, nodeOf: map<nat, Node>)
    requires g.Consistent() && g.taken < |g.At(Loose)|
    requires Firing(g, time, calls, log, nodeOf)
    ensures var n := g.At(Loose)[g.taken]; var t := g.info[n].ticket; var g' := Spent(g);
      && Firing(g', time, calls, log + [Wakeup(t, g.info[n].session, time)], nodeOf - {t})
      && g'.info.Keys == g.info.Keys && g'.At(Loose) == g.At(Loose) && g'.taken == g.taken + 1
  {
    SpendKeeps(g, time, calls, nodeOf);
    var t := g.info[g.At(Loose)[g.taken]].ticket;
    BooksAfterWakeup(calls, log, nodeOf.Keys, time, t);
    assert (nodeOf - {t}).Keys == nodeOf.Keys - {t};
  }

  class Timer {
    var time: nat
    const least: array<List>
    const level: array2<List>
    var nodes: Node?

    ghost var g: Lists
    // The last tick whose least slot has been served.
    ghost var done: nat
    ghost var calls: seq<Call>
    ghost var log: seq<Wakeup>
    ghost var nodeOf: map<nat, Node>

    /** The fields of the nodes are what `g` says. */
    ghost predicate Real()
      reads this`g, g.info.Keys
    {
      forall n {:trigger n.next} {:trigger n.expire} {:trigger n.session} :: n in g.info ==>
        n.next == g.NextOf(n) && n.expire == g.info[n].expire && n.session == g.info[n].session
    }

    /** The heads and tails of all lists are what `g` says. */
    ghost predicate Heads()
      reads this`g, this`nodes, least, level
    {
      && least.Length == LEAST_VALUE && level.Length0 == LEVEL_COUNT && level.Length1 == LEVEL_VALUE
      && (forall i {:trigger g.First(Queue(Least(i)))} {:trigger g.Last(Queue(Least(i)))} :: 0 <= i < LEAST_VALUE ==>
            least[i] == List(g.First(Queue(Least(i))), g.Last(Queue(Least(i)))))
      && (forall l, i {:trigger g.First(Queue(Level(l, i)))} {:trigger g.Last(Queue(Level(l, i)))} ::
            0 <= l < LEVEL_COUNT && 0 <= i < LEVEL_VALUE ==>
            level[l, i] == List(g.First(Queue(Level(l, i))), g.Last(Queue(Level(l, i)))))
      && nodes == g.Last(Free)
    }

    ghost predicate Shape()
      reads this`g, this`nodes, least, level, g.info.Keys
    {
      g.Consistent() && Real() && Heads()
    }

    ghost predicate Valid()
      reads this, least, level, g.info.Keys
    {
      Shape() && done == time && Settled(g, time, calls, log, nodeOf)
    }

    /** What `Valid` means to a caller of the timer. */
    lemma ValidIsExact()
      requires Valid()
      ensures Exact(calls, log, time)
    {
      forall t | 0 <= t < |calls| && Due(calls[t]) <= time
        ensures Fired(log, t)
      {
        if t in nodeOf {
          var i := g.info[nodeOf[t]];
          if i.home.Loose? && !g.Sits(nodeOf[t]) {
            assert false;
          } else if i.home.Queue? && i.home.slot.Level? {
            LevelIsAhead(i.home.slot.level, i.home.slot.index, i.expire, time);
          }
          assert false;
        }
      }
    }

    constructor ()
      ensures Valid() && time == 0 && calls == [] && log == []
      ensures fresh(least) && fresh(level) && g.info == map[]
    {
      time, nodes, done := 0, null, 0;
      least := new List[LEAST_VALUE](_ => List(null, null));
      level := new List[LEVEL_COUNT, LEVEL_VALUE]((_, _) => List(null, null));
      g := Lists(imap[], map[], 0);
      calls, log, nodeOf := [], [], map[];
    }

    /** Hands out a node from the free list, or a new one. */
    method NewNode() returns (node: Node)
      requires Shape() && Placement(g, time, done)
      modifies this`nodes, this`g, g.info.Keys`next
      ensures Shape() && node in g.info && g.info[node].home == Hand && !g.info[node].live
      ensures if node in old(g).info then old(g).info[node].home == Free else fresh(node)
      ensures g.info == old(g).info[node := g.info[node]] && (NoLoose(old(g)) ==> NoLoose(g))
    {
      if nodes != null {
        g.TakeTopConsistent();
        g.TakeTopLinks();
        g.TakeTopEnds();
        node := nodes;
        nodes := node.next;
        node.next := null;
        g := g.TakeTop();
      } else {
        node := new Node();
        ghost var blank := Info(Hand, 0, 0, node.session, 0, 0, false, 0);
        g.PutConsistent(node, blank);
        g := g.Put(node, blank);
      }
    }

    /** Puts a spent node on the free list. */
    method FreeNode(node: Node)
      requires Shape() && node in g.info && g.info[node].home == Hand && node.expire == 0
      modifies this`nodes, this`g, node`next
      ensures Shape() && g == old(g).Append(Free, node)
    {
      g.AppendConsistent(Free, node);
      g.AppendLinks(Free, node);
      g.AppendEnds(Free, node);
      node.next := nodes;
      nodes := node;
      g := g.Append(Free, node);
    }

    /** `List::insert`, for the list `list` of slot `slot`. */
    method Link(ghost slot: Slot, list: List, node: Node) returns (r: List)
      requires Shape() && node in g.info && g.info[node].home == Hand
      requires list == List(g.First(Queue(slot)), g.Last(Queue(slot)))
      modifies this`g, g.info.Keys`next
      ensures g == old(g).Append(Queue(slot), node) && g.Consistent() && Real()
      ensures r == List(g.First(Queue(slot)), g.Last(Queue(slot)))
    {
      ghost var h := Queue(slot);
      g.AppendConsistent(h, node);
      g.AppendLinks(h, node);
      g.AppendEnds(h, node);
      r := Insert(list, node);
      g := g.Append(h, node);
    }

    /** `self.least[index].insert(node)` */
    method LinkLeast(index: nat, node: Node)
      requires Shape() && node in g.info && g.info[node].home == Hand && index < LEAST_VALUE
      modifies this`g, least, g.info.Keys`next
      ensures Shape() && g == old(g).Append(Queue(Least(index)), node)
    {
      g.AppendEnds(Queue(Least(index)), node);
      assert least[index] == List(g.First(Queue(Least(index))), g.Last(Queue(Least(index))));
      least[index] := Link(Least(index), least[index], node);
    }

    /** `self.level[level][index].insert(node)` */
    method LinkLevel(lv: nat, index: nat, node: Node)
      requires Shape() && node in g.info && g.info[node].home == Hand
      requires lv < LEVEL_COUNT && index < LEVEL_VALUE
      modifies this`g, level, g.info.Keys`next
      ensures Shape() && g == old(g).Append(Queue(Level(lv, index)), node)
    {
      g.AppendEnds(Queue(Level(lv, index)), node);
      assert level[lv, index] == List(g.First(Queue(Level(lv, index))), g.Last(Queue(Level(lv, index))));
      level[lv, index] := Link(Level(lv, index), level[lv, index], node);
    }

    /** Links a node into the slot its deadline belongs to. */
    method QueueNode(node: Node)
      requires Shape() && node in g.info && g.info[node].home == Hand
      requires time <= node.expire < U64
      modifies this`g, least, level, g.info.Keys`next
      ensures Shape() && g == old(g).Append(Queue(SlotOf(time, node.expire)), node)
    {
      var expire := node.expire;
      if expire - time < LEAST_VALUE {
        LinkLeast(expire % LEAST_VALUE, node);
      } else {
        var lv, index := SearchLevel(time, expire);
        LinkLevel(lv, index, node);
      }
    }

    /** `self.least[index].clear()` */
    method ClearLeast(index: nat) returns (list: Node?)
      requires Shape() && NoLoose(g) && index < LEAST_VALUE
      modifies this`g, least
      ensures Shape() && g == old(g).Detach(Queue(Least(index))) && list == g.First(Loose)
    {
      ghost var h := Queue(Least(index));
      g.DetachConsistent(h);
      g.DetachLinks(h);
      g.DetachEnds(h);
      assert least[index] == List(g.First(h), g.Last(h));
      list := least[index].first;
      least[index] := List(null, null);
      g := g.Detach(h);
    }

    /** `self.level[level][index].clear()` */
    method ClearLevel(lv: nat, index: nat) returns (list: Node?)
      requires Shape() && NoLoose(g) && lv < LEVEL_COUNT && index < LEVEL_VALUE
      modifies this`g, level
      ensures Shape() && g == old(g).Detach(Queue(Level(lv, index))) && list == g.First(Loose)
    {
      ghost var h := Queue(Level(lv, index));
      g.DetachConsistent(h);
      g.DetachLinks(h);
      g.DetachEnds(h);
      assert level[lv, index] == List(g.First(h), g.Last(h));
      list := level[lv, index].first;
      level[lv, index] := List(null, null);
      g := g.Detach(h);
    }

    /** Takes the first node off a list that is being worked through. */
    method Pop(node: Node) returns (rest: Node?)
      requires Shape() && g.First(Loose) == node
      modifies this`g, node`next
      ensures Shape() && node in old(g).info && g == old(g).Pop() && rest == g.First(Loose)
      ensures old(g).taken < |old(g).At(Loose)| && old(g).At(Loose)[old(g).taken] == node
    {
      g.PopConsistent();
      rest := node.next;
      node.next := null;
      g := g.Pop();
    }

    method QueueList(first: Node?, ghost v: nat)
      requires Shape() && first == g.First(Loose) && 0 < time < U64
      requires Queueing(g, v, time, calls, nodeOf)
      modifies this`g, least, level, g.info.Keys`next
      ensures Shape() && NoLoose(g) && Placement(g, time, time - 1) && Tickets(g, calls, nodeOf)
      ensures g.info.Keys == old(g.info.Keys)
    {
      var list := first;
      while list != null
        invariant Shape() && list == g.First(Loose)
        invariant Queueing(g, v, time, calls, nodeOf)
        invariant g.info.Keys == old(g.info.Keys)
        decreases |g.At(Loose)| - g.taken
      {
        list := Requeue(list, v);
      }
    }

    /** One round of `queue_list`. */
    method Requeue(node: Node, ghost v: nat) returns (rest: Node?)
      requires Shape() && node == g.First(Loose) && 0 < time < U64
      requires Queueing(g, v, time, calls, nodeOf)
      modifies this`g, least, level, g.info.Keys`next
      ensures Shape() && rest == g.First(Loose)
      ensures Queueing(g, v, time, calls, nodeOf)
      ensures g.info.Keys == old(g.info.Keys) && g.At(Loose) == old(g.At(Loose)) && g.taken == old(g.taken) + 1
    {
      RequeueKeeps(g, v, time, calls, nodeOf);
      rest := Pop(node);
      QueueNode(node);
    }

    /** One round of `wake`: `node.wake()` and `free_node(node)`. */
    method FireNode(node: Node) returns (rest: Node?, session: Session)
      requires Shape() && node == g.First(Loose) && g.info[node].live
      modifies this`g, this`nodes, node
      ensures Shape() && rest == g.First(Loose) && session == old(g.info[node].session)
      ensures old(g).taken < |old(g).At(Loose)| && old(g).At(Loose)[old(g).taken] == node && g == Spent(old(g))
    {
      g.PopConsistent();
      rest := Pop(node);
      session := WakeNode(node);
      FreeNode(node);
    }

    method WakeOne(node: Node) returns (rest: Node?)
      requires Shape() && node == g.First(Loose)
      requires Firing(g, time, calls, log, nodeOf)
      modifies this`g, this`nodes, this`log, this`nodeOf, node
      ensures Shape() && rest == g.First(Loose)
      ensures Firing(g, time, calls, log, nodeOf)
      ensures g.info.Keys == old(g.info.Keys) && g.At(Loose) == old(g.At(Loose)) && g.taken == old(g.taken) + 1
      ensures old(log) <= log
    {
      WakeupKeeps(g, time, calls, log, nodeOf);
      ghost var t := g.info[node].ticket;
      var session;
      rest, session := FireNode(node);
      log := log + [Wakeup(t, session, time)];
      nodeOf := nodeOf - {t};
    }

    method WakeNode(node: Node) returns (session: Session)
      requires Shape() && node in g.info && g.info[node].home == Hand && g.info[node].live
      modifies this`g, node`expire
      ensures Shape() && session == node.session == old(g.info[node].session) && node.expire == 0
      ensures g == old(g).Put(node, old(g).info[node].(expire := 0, live := false))
    {
      ghost var i := g.info[node].(expire := 0, live := false);
      g.PutConsistent(node, i);
      session := node.Wake();
      g := g.Put(node, i);
    }

    method WakeList(first: Node?)
      requires Shape() && first == g.First(Loose) && done == time < U64
      requires Firing(g, time, calls, log, nodeOf)
      modifies this`g, this`nodes, this`log, this`nodeOf, g.info.Keys
      ensures Valid() && old(log) <= log && g.info.Keys == old(g.info.Keys)
    {
      var list := first;
      while list != null
        invariant Shape() && list == g.First(Loose)
        invariant Firing(g, time, calls, log, nodeOf)
        invariant g.info.Keys == old(g.info.Keys) && old(log) <= log
        decreases |g.At(Loose)| - g.taken
      {
        list := WakeOne(list);
      }
    }

    /** The first half of a boundary: finds the level and takes the one list to cascade. */
    method TakeBoundaryList() returns (list: Node?, ghost v: nat)
      requires Shape() && NoLoose(g) && 0 < time < U64 && time % 16384 == 0
      requires Placement(g, time - 1, time - 1) && Tickets(g, calls, nodeOf)
      modifies this`g, level
      ensures Shape() && list == g.First(Loose) && g.info.Keys == old(g.info.Keys)
      ensures Cascading(g, v, time) && Placement(g, time, time - 1) && Tickets(g, calls, nodeOf)
    {
      var lv, index := BoundarySearch(time);
      StepBoundary(g, lv, index, time, calls, nodeOf);
      list := ClearLevel(lv, index);
      v := lv;
    }

    method Cascade()
      requires Shape() && NoLoose(g) && 0 < time < U64 && time % 16384 == 0
      requires Placement(g, time - 1, time - 1) && Tickets(g, calls, nodeOf)
      modifies this`g, least, level, g.info.Keys`next
      ensures Shape() && NoLoose(g) && Placement(g, time, time - 1) && Tickets(g, calls, nodeOf)
      ensures g.info.Keys == old(g.info.Keys)
    {
      var list;
      ghost var v;
      list, v := TakeBoundaryList();
      QueueList(list, v);
    }

    method Tick()
      requires Valid() && time + 1 < U64
      modifies this, least, level, g.info.Keys
      ensures Valid() && time == old(time) + 1 && calls == old(calls) && old(log) <= log
      ensures g.info.Keys == old(g.info.Keys)
    {
      BooksLater(calls, log, nodeOf.Keys, time);
      Advance();
      ServeTick();
    }

    method Count()
      requires Valid() && time + 1 < U64
      modifies this`time
      ensures time == old(time) + 1 && Shape() && NoLoose(g)
      ensures Placement(g, time - 1, time - 1) && Tickets(g, calls, nodeOf)
    {
      time := time + 1;
    }

    /** The first part of `tick`: the levels follow the clock. */
    method Advance()
      requires Valid() && time + 1 < U64
      modifies this`time, this`g, least, level, g.info.Keys`next
      ensures time == old(time) + 1 && Shape() && NoLoose(g) && g.info.Keys == old(g.info.Keys)
      ensures Placement(g, time, time - 1) && Tickets(g, calls, nodeOf)
    {
      Count();
      if time % LEAST_VALUE == 0 {
        Cascade();
      } else {
        StepInside(g, time);
      }
    }

    /** The end of `tick`: everything in the least slot of the tick fires. */
    method ServeTick()
      requires Shape() && NoLoose(g) && 0 < time < U64
      requires Placement(g, time, time - 1) && Tickets(g, calls, nodeOf) && Books(calls, log, nodeOf.Keys, time)
      modifies this`g, this`nodes, this`log, this`nodeOf, this`done, least, g.info.Keys
      ensures Valid() && old(log) <= log && g.info.Keys == old(g.info.Keys)
    {
      var index := time % LEAST_VALUE;
      ServeLeast(g, time, calls, nodeOf);
      var list := ClearLeast(index);
      done := time;
      WakeList(list);
    }

    /** Serves every tick up to `now`. */
    method Update(now: nat)
      requires Valid() && now < U64
      modifies this, least, level, g.info.Keys
      ensures Valid() && time == (if old(time) < now then now else old(time))
      ensures calls == old(calls) && old(log) <= log && g.info.Keys == old(g.info.Keys)
    {
      while time < now
        invariant Valid() && calls == old(calls) && old(log) <= log && g.info.Keys == old(g.info.Keys)
        invariant old(time) <= time && (time <= now || time == old(time))
      {
        Tick();
      }
    }

    /** A node filled in for a call, not queued yet. */
    method Arm(timeout: nat, session: Session, ghost i: Info) returns (node: Node)
      requires Shape() && NoLoose(g) && Placement(g, time, done)
      requires i.home == Hand && i.expire == time + timeout && i.session == session
      modifies this`nodes, this`g, g.info.Keys
      ensures Shape() && NoLoose(g) && node in g.info && g.info == old(g).info[node := i]
      ensures if node in old(g).info then old(g).info[node].home == Free else fresh(node)
    {
      node := NewNode();
      WriteNode(node, timeout, session, i);
    }

    method WriteNode(node: Node, timeout: nat, session: Session, ghost i: Info)
      requires Shape() && node in g.info && g.info[node].home == Hand
      requires i.home == Hand && i.expire == time + timeout && i.session == session
      modifies this`g, node`expire, node`session
      ensures Shape() && g == old(g).Put(node, i)
    {
      g.PutConsistent(node, i);
      node.expire := time + timeout;
      node.session := session;
      g := g.Put(node, i);
    }

    method ArmAndQueue(timeout: nat, session: Session, ghost i: Info) returns (node: Node)
      requires Shape() && NoLoose(g) && Placement(g, time, done) && time + timeout < U64
      requires i.home == Hand && i.expire == time + timeout && i.session == session
      modifies this`nodes, this`g, least, level, g.info.Keys
      ensures Shape() && NoLoose(g) && node in g.info && g.info == old(g).info[node := g.info[node]]
      ensures if node in old(g).info then old(g).info[node].home == Free else fresh(node)
      ensures g.info[node] == i.(home := Queue(SlotOf(time, time + timeout)), pos := g.info[node].pos)
    {
      ghost var info := g.info;
      node := Arm(timeout, session, i);
      QueueNode(node);
      Overwrite(info, node, i, g.info[node]);
    }

    method Timeout(timeout: nat, session: Session)
      requires Valid() && time + timeout < U64
      modifies this, least, level, g.info.Keys
      ensures Valid() && time == old(time) && log == old(log)
      ensures calls == old(calls) + [Call(old(time), timeout, session)]
      ensures fresh(g.info.Keys - old(g.info.Keys))
    {
      ghost var g0 := g;
      ghost var call := Call(time, timeout, session);
      var node := ArmAndQueue(timeout, session, Info(Hand, 0, time + timeout, session, Due(call), |calls|, true, 0));
      Enter(g0, node, call);
    }

    /** Ghost side of `timeout`: the call is on the books, its node is its ticket. */
    ghost method Enter(g0: Lists, node: Node, call: Call)
      requires Shape() && NoLoose(g) && done == time < U64
      requires Placement(g0, time, time) && Tickets(g0, calls, nodeOf) && Books(calls, log, nodeOf.Keys, time)
      requires node in g0.info ==> g0.info[node].home == Free
      requires call.at == time && time + call.timeout < U64
      requires node in g.info && g.info == g0.info[node := g.info[node]]
      requires g.info[node] == Info(Queue(SlotOf(time, time + call.timeout)), g.info[node].pos, time + call.timeout,
                                    call.session, Due(call), |calls|, true, 0)
      modifies this`calls, this`nodeOf
      ensures Valid() && calls == old(calls) + [call]
    {
      CallKeeps(g0, g, node, time, call, calls, log, nodeOf);
      calls := calls + [call];
      nodeOf := nodeOf[|calls| - 1 := node];
    }
  }

  datatype Message = Timeout(timeout: nat, session: Session) | UpdateTime(time: nat) | Stop

  /** The tick after a run of messages. */
  function Clock(ms: seq<Message>): nat {
    if ms == [] then 0
    else
      var t := Clock(ms[..|ms| - 1]);
      match ms[|ms| - 1]
      case UpdateTime(now) => if t < now then now else t
      case _ => t
  }

  /** The calls a run of messages makes, each a tick later than it was asked for. */
  function CallsOf(ms: seq<Message>): seq<Call> {
    if ms == [] then []
    else
      var init := ms[..|ms| - 1];
      match ms[|ms| - 1]
      case Timeout(timeout, session) => CallsOf(init) + [Call(Clock(init), timeout + 1, session)]
      case _ => CallsOf(init)
  }

  /** No tick in the run leaves 64 bits. */
  ghost predicate Fits(ms: seq<Message>) {
    forall i :: 0 <= i < |ms| ==>
      match ms[i]
      case Timeout(timeout, _) => Clock(ms[..i]) + timeout + 1 < U64
      case UpdateTime(now) => now < U64
      case Stop => true
  }

  method Handle(timer: Timer, message: Message, ghost before: seq<Message>)
    requires timer.Valid() && timer.calls == CallsOf(before) && timer.time == Clock(before)
    requires message.Timeout? ==> timer.time + message.timeout + 1 < U64
    requires message.UpdateTime? ==> message.time < U64
    modifies timer, timer.least, timer.level, timer.g.info.Keys
    ensures timer.Valid() && timer.calls == CallsOf(before + [message]) && timer.time == Clock(before + [message])
    ensures fresh(timer.g.info.Keys - old(timer.g.info.Keys))
  {
    assert (before + [message])[..|before|] == before;
    match message
    case Timeout(timeout, session) => timer.Timeout(timeout + 1, session);
    case UpdateTime(now) => timer.Update(now);
    case Stop =>
  }

  /** The message loop of the timer task. */
  method RunTimer(messages: seq<Message>) returns (timer: Timer)
    requires Fits(messages)
    ensures timer.calls == CallsOf(messages) && timer.time == Clock(messages)
    ensures Exact(timer.calls, timer.log, timer.time)
  {
    timer := new Timer();
    for k := 0 to |messages|
      invariant timer.Valid() && timer.calls == CallsOf(messages[..k]) && timer.time == Clock(messages[..k])
      invariant fresh(timer) && fresh(timer.least) && fresh(timer.level) && fresh(timer.g.info.Keys)
    {
      assert messages[..k + 1] == messages[..k] + [messages[k]];
      Handle(timer, messages[k], messages[..k]);
    }
    assert messages[..|messages|] == messages;
    timer.ValidIsExact();
  }

  // ----- what the message loop promises to sleepers -----

  function Timeouts(ms: seq<Message>): nat {
    if ms == [] then 0 else Timeouts(ms[..|ms| - 1]) + if ms[|ms| - 1].Timeout? then 1 else 0
  }

  /** The number of the call that message `i` makes. */
  function TicketOf(ms: seq<Message>, i: nat): nat
    requires i < |ms|
  {
    Timeouts(ms[..i])
  }

  lemma {:induction false} CallsAreCounted(ms: seq<Message>)
    ensures |CallsOf(ms)| == Timeouts(ms)
  {
    if ms != [] { CallsAreCounted(ms[..|ms| - 1]); }
  }

  /** Every timeout message is one call, made at the tick of the clock then, and due when more
      than its timeout has passed; there is no other call. */
  lemma {:induction false} EachTimeoutIsACall(ms: seq<Message>, i: nat)
    requires i < |ms| && ms[i].Timeout?
    ensures TicketOf(ms, i) < |CallsOf(ms)|
    ensures var c := CallsOf(ms)[TicketOf(ms, i)];
      c.session == ms[i].session && c.at == Clock(ms[..i]) && Due(c) == Clock(ms[..i]) + ms[i].timeout + 1
  {
    var init := ms[..|ms| - 1];
    CallsAreCounted(init);
    if i == |ms| - 1 {
      assert ms[..i] == init;
    } else {
      EachTimeoutIsACall(init, i);
      assert init[..i] == ms[..i];
    }
  }

  lemma {:induction false} EachCallIsATimeout(ms: seq<Message>, ticket: nat) returns (i: nat)
    requires ticket < |CallsOf(ms)|
    ensures i < |ms| && ms[i].Timeout? && TicketOf(ms, i) == ticket
  {
    var init := ms[..|ms| - 1];
    CallsAreCounted(init);
    if ticket < |CallsOf(init)| {
      i := EachCallIsATimeout(init, ticket);
      assert init[..i] == ms[..i];
    } else {
      i := |ms| - 1;
      assert ms[..i] == init;
    }
  }

  /** `sleep` lasts at least as long as asked for: a session is woken only for a timeout message
      of its own, at the tick that comes one after its timeout has passed, and every message
      whose tick has come has had its wakeup. */
  lemma SleepersSleepLongEnough(ms: seq<Message>, log: seq<Wakeup>, j: nat) returns (i: nat)
    requires Exact(CallsOf(ms), log, Clock(ms)) && j < |log|
    ensures i < |ms| && ms[i].Timeout? && log[j].session == ms[i].session && log[j].ticket == TicketOf(ms, i)
    ensures log[j].tick == Clock(ms[..i]) + ms[i].timeout + 1 <= Clock(ms)
  {
    i := EachCallIsATimeout(ms, log[j].ticket);
    EachTimeoutIsACall(ms, i);
  }

  lemma SleepersAreWoken(ms: seq<Message>, log: seq<Wakeup>, i: nat)
    requires Exact(CallsOf(ms), log, Clock(ms)) && i < |ms| && ms[i].Timeout?
    ensures Fired(log, TicketOf(ms, i)) <==> Clock(ms[..i]) + ms[i].timeout + 1 <= Clock(ms)
  {
    EachTimeoutIsACall(ms, i);
    var t := TicketOf(ms, i);
    if Fired(log, t) {
      var j :| 0 <= j < |log| && log[j].ticket == t;
      assert log[j].tick == Due(CallsOf(ms)[t]) <= Clock(ms);
    }
  }

  /** The clock is the latest time that was announced, and does not go back. */
  lemma {:induction false} ClockIsTheLatest(ms: seq<Message>, i: nat)
    requires i <= |ms|
    ensures Clock(ms[..i]) <= Clock(ms)
    ensures i < |ms| && ms[i].UpdateTime? ==> ms[i].time <= Clock(ms)
    ensures Clock(ms) > 0 ==> UpdateTime(Clock(ms)) in ms
  {
    if ms != [] {
      var init := ms[..|ms| - 1];
      ClockIsTheLatest(init, if i < |ms| then i else |init|);
      if i < |ms| { assert init[..i] == ms[..i]; } else { assert ms[..i] == ms; }
      if Clock(ms) == Clock(init) && Clock(ms) > 0 {
        assert UpdateTime(Clock(init)) in init;
      } else if Clock(ms) > 0 {
        assert ms[|ms| - 1] == UpdateTime(Clock(ms));
      }
    } else {
      assert ms[..i] == ms;
    }
  }
}
