/** The request table of `src/io/poller/uring.rs`. The kernel is the other party: it completes
    each submitted entry once, in any order, with any result. */
module UringTable {
  import opened Options

  /** `SessionWaker::user_data`: an address, unique among sessions that are alive. */
  type Key = nat

  /** The session whose waker a request carries. */
  type Session = nat

  datatype Operation = Plain | Cancel(target: Key)

  datatype Request = Request(key: Key, session: Session, operation: Operation)

  datatype Answer = Done(value: nat) | Failed(code: nat)

  const ECANCELED: nat := 125

  /** What a session has been woken with, in order. */
  datatype Wakeup = Wakeup(session: Session, answer: Answer)

  datatype Table = Table(
    entries: seq<Key>,              // prepared, not submitted
    requests: map<Key, Request>,
    kernel: set<Key>,               // submitted, not completed
    wakeups: seq<Wakeup>,
    arrived: set<Session>)          // sessions of all requests so far
  {
    function Say(s: Session, a: Answer): Table { this.(wakeups := wakeups + [Wakeup(s, a)]) }

    /** The tail of `push`. */
    function Insert(r: Request): Table {
      this.(requests := requests[r.key := r], entries := entries + [r.key])
    }

    /** The target of a cancel was prepared but not submitted. */
    function DropPrepared(target: Key): Table
      requires target in requests && target in entries
    {
      this.(entries := SwapRemove(entries, IndexOf(entries, target)), requests := requests - {target})
          .Say(requests[target].session, Failed(ECANCELED))
    }

    /** `State::push` */
    function Push(r: Request): Table {
      var t := this.(arrived := arrived + {r.session});
      match r.operation
      case Plain => t.Insert(r)
      case Cancel(target) =>
        if target !in requests then t.Say(r.session, Done(0))
        else if target in entries then t.Say(r.session, Done(0)).DropPrepared(target)
        else t.Insert(r)
    }

    /** The end of `submit`: the kernel has the entries. */
    function Submit(): Table { this.(entries := [], kernel := kernel + (set k | k in entries)) }

    /** One round of the loop of `consume`, for an entry with this result. */
    function Complete(key: Key, result: int): Table
      requires key in requests
    {
      this.(kernel := kernel - {key}, requests := requests - {key}).Say(requests[key].session, AnswerOf(result))
    }
  }

  /** The kernel reports an error as its number, negated. */
  function AnswerOf(result: int): Answer { if result < 0 then Failed(-result) else Done(result) }

  function IndexOf(ks: seq<Key>, k: Key): (i: nat)
    requires k in ks
    ensures i < |ks| && ks[i] == k && k !in ks[..i]
  {
    if ks[0] == k then 0 else 1 + IndexOf(ks[1..], k)
  }

  /** `Vec::swap_remove` */
  function SwapRemove(ks: seq<Key>, i: nat): (rest: seq<Key>)
    requires i < |ks|
    ensures |rest| == |ks| - 1
    ensures multiset(rest) + multiset{ks[i]} == multiset(ks)
  {
    var last := |ks| - 1;
    assert ks == ks[..last] + [ks[last]];
    if i == last then ks[..last]
    else
      assert ks[..last] == ks[..i] + [ks[i]] + ks[i + 1..last];
      ks[..i] + [ks[last]] + ks[i + 1..last]
  }

  datatype Event =
    | Push(request: Request)
    | Submit
    | Complete(key: Key, result: int)

  /** A request comes with a session of its own, which is alive: its address is not that of a
      request in the table. The kernel completes what it has. */
  predicate Enabled(t: Table, e: Event) {
    match e
    case Push(r) => r.session !in t.arrived && r.key !in t.requests
    case Submit => true
    case Complete(key, _) => key in t.kernel
  }

  function Apply(t: Table, e: Event): Table
    requires Enabled(t, e)
    requires e.Complete? ==> e.key in t.requests
  {
    match e
    case Push(r) => t.Push(r)
    case Submit => t.Submit()
    case Complete(key, result) => t.Complete(key, result)
  }

  // ----- the invariant -----

  /** Pending keys are the prepared entries and those the kernel has, each once. */
  ghost predicate KeysOk(t: Table) {
    multiset(t.entries) + multiset(t.kernel) == multiset(t.requests.Keys)
  }

  ghost function Answered(ws: seq<Wakeup>): multiset<Session> {
    if ws == [] then multiset{} else Answered(ws[..|ws| - 1]) + multiset{ws[|ws| - 1].session}
  }

  ghost function Waiting(requests: map<Key, Request>): set<Session> {
    set k | k in requests :: requests[k].session
  }

  /** Every session that has arrived is waiting or has been woken, once. */
  ghost predicate SessionsOk(t: Table) {
    && (forall j, k :: j in t.requests && k in t.requests && j != k ==> t.requests[j].session != t.requests[k].session)
    && (forall k :: k in t.requests ==> t.requests[k].key == k)
    && Answered(t.wakeups) + multiset(Waiting(t.requests)) == multiset(t.arrived)
  }

  ghost predicate Inv(t: Table) { KeysOk(t) && SessionsOk(t) }

  lemma OneMore(xs: set<nat>, x: nat)
    requires x !in xs
    ensures multiset(xs + {x}) == multiset(xs) + multiset{x}
  {
  }

  lemma OneLess(xs: set<nat>, x: nat)
    requires x in xs
    ensures multiset(xs) == multiset(xs - {x}) + multiset{x}
  {
    assert xs == (xs - {x}) + {x};
  }

  lemma BothLess(xs: multiset<nat>, ys: multiset<nat>, x: nat)
    requires xs + multiset{x} == ys + multiset{x}
    ensures xs == ys
  {
    assert xs == xs + multiset{x} - multiset{x};
    assert ys == ys + multiset{x} - multiset{x};
  }

  lemma SaidOnce(t: Table, s: Session, a: Answer)
    ensures Answered(t.Say(s, a).wakeups) == Answered(t.wakeups) + multiset{s}
  {
    assert t.Say(s, a).wakeups[..|t.wakeups|] == t.wakeups;
  }

  lemma InsertKeepsKeys(t: Table, r: Request)
    requires KeysOk(t) && r.key !in t.requests
    ensures KeysOk(t.Insert(r))
  {
    var u := t.Insert(r);
    assert u.requests.Keys == t.requests.Keys + {r.key};
    OneMore(t.requests.Keys, r.key);
    assert multiset(u.entries) == multiset(t.entries) + multiset{r.key};
  }

  lemma InsertKeeps(t: Table, r: Request)
    requires Inv(t) && Enabled(t, Event.Push(r))
    ensures Inv(t.(arrived := t.arrived + {r.session}).Insert(r))
  {
    var u := t.(arrived := t.arrived + {r.session}).Insert(r);
    InsertKeepsKeys(t.(arrived := t.arrived + {r.session}), r);
    assert u.requests.Keys == t.requests.Keys + {r.key};
    assert Waiting(u.requests) == Waiting(t.requests) + {r.session};
    forall k | k in t.requests ensures t.requests[k].session in t.arrived {
      assert t.requests[k].session in Waiting(t.requests);
      assert t.requests[k].session in multiset(t.arrived);
    }
    OneMore(t.arrived, r.session);
    OneMore(Waiting(t.requests), r.session);
  }

  /** A pending request is answered and leaves the table. */
  lemma AnswerKeeps(t: Table, key: Key, u: Table, a: Answer)
    requires SessionsOk(t) && key in t.requests
    requires u.requests == t.requests - {key} && u.arrived == t.arrived
    requires u.wakeups == t.wakeups + [Wakeup(t.requests[key].session, a)]
    ensures SessionsOk(u)
  {
    SaidOnce(t, t.requests[key].session, a);
    var session := t.requests[key].session;
    assert session in Waiting(t.requests);
    forall s ensures s in Waiting(u.requests) <==> s in Waiting(t.requests) - {session} {
      if s in Waiting(t.requests) - {session} {
        var k :| k in t.requests && t.requests[k].session == s;
        assert k in u.requests && u.requests[k].session == s;
      }
    }
    OneLess(Waiting(t.requests), session);
  }

  /** A cancel is answered without entering the table. */
  lemma CancelKeeps(t: Table, r: Request)
    requires Inv(t) && Enabled(t, Event.Push(r))
    ensures Inv(t.(arrived := t.arrived + {r.session}).Say(r.session, Done(0)))
  {
    SaidOnce(t, r.session, Done(0));
    OneMore(t.arrived, r.session);
  }

  lemma DropPreparedKeeps(t: Table, target: Key)
    requires Inv(t) && target in t.requests && target in t.entries
    ensures Inv(t.DropPrepared(target))
  {
    var u := t.DropPrepared(target);
    AnswerKeeps(t, target, u, Failed(ECANCELED));
    assert u.requests.Keys == t.requests.Keys - {target};
    OneLess(t.requests.Keys, target);
    assert multiset(u.entries) + multiset{target} == multiset(t.entries);
    BothLess(multiset(u.entries) + multiset(u.kernel), multiset(u.requests.Keys), target);
  }

  lemma PushKeeps(t: Table, r: Request)
    requires Inv(t) && Enabled(t, Event.Push(r))
    ensures Inv(t.Push(r))
  {
    if r.operation.Plain? || (r.operation.target in t.requests && r.operation.target !in t.entries) {
      InsertKeeps(t, r);
    } else {
      CancelKeeps(t, r);
      if r.operation.target in t.requests {
        DropPreparedKeeps(t.(arrived := t.arrived + {r.session}).Say(r.session, Done(0)), r.operation.target);
      }
    }
  }

  lemma SubmitKeeps(t: Table)
    requires Inv(t)
    ensures Inv(t.Submit())
  {
    EntriesOnce(t);
    var keys := set k | k in t.entries;
    assert multiset(keys) == multiset(t.entries);
    assert keys !! t.kernel;
    assert multiset(keys + t.kernel) == multiset(keys) + multiset(t.kernel);
  }

  /** No key is prepared twice, or prepared and submitted. */
  lemma EntriesOnce(t: Table)
    requires KeysOk(t)
    ensures forall k :: multiset(t.entries)[k] <= 1
    ensures forall k :: k in t.entries ==> k !in t.kernel && k in t.requests
    ensures forall k :: k in t.kernel ==> k in t.requests
  {
    forall k
      ensures multiset(t.entries)[k] <= 1
      ensures (k in t.entries ==> k !in t.kernel && k in t.requests) && (k in t.kernel ==> k in t.requests)
    {
      assert multiset(t.requests.Keys)[k] == multiset(t.entries)[k] + multiset(t.kernel)[k];
      assert k in t.entries <==> multiset(t.entries)[k] > 0;
    }
  }

  lemma CompleteKeeps(t: Table, key: Key, result: int)
    requires Inv(t) && key in t.kernel
    ensures key in t.requests && Inv(t.Complete(key, result))
  {
    EntriesOnce(t);
    var u := t.Complete(key, result);
    AnswerKeeps(t, key, u, AnswerOf(result));
    assert u.requests.Keys == t.requests.Keys - {key};
    OneLess(t.requests.Keys, key);
    OneLess(t.kernel, key);
    BothLess(multiset(u.entries) + multiset(u.kernel), multiset(u.requests.Keys), key);
  }

  /** The lookup of a completed request never fails. */
  lemma StepKeepsInv(t: Table, e: Event)
    requires Inv(t) && Enabled(t, e)
    ensures e.Complete? ==> e.key in t.requests
    ensures Inv(Apply(t, e))
  {
    match e
    case Push(r) => PushKeeps(t, r);
    case Submit => SubmitKeeps(t);
    case Complete(key, result) => CompleteKeeps(t, key, result);
  }

  // ----- whole runs -----

  const Initial: Table := Table([], map[], {}, [], {})

  predicate Leads(t: Table, e: Event, u: Table) {
    Enabled(t, e) && (e.Complete? ==> e.key in t.requests) && u == Apply(t, e)
  }

  ghost predicate IsRun(run: seq<Table>, events: seq<Event>) {
    && |run| == |events| + 1
    && run[0] == Initial
    && forall i {:trigger events[i]} :: 0 <= i < |events| ==>
         && Enabled(run[i], events[i])
         && (Leads(run[i], events[i], run[i + 1]) || (events[i].Complete? && events[i].key !in run[i].requests))
  }

  /** The lookup of `consume` finds every request that the kernel completes. */
  lemma {:induction false} LookupNeverFails(run: seq<Table>, events: seq<Event>, i: nat)
    requires IsRun(run, events) && i < |run|
    ensures Inv(run[i])
    ensures i < |events| ==> Leads(run[i], events[i], run[i + 1])
  {
    if i > 0 {
      LookupNeverFails(run, events, i - 1);
      StepKeepsInv(run[i - 1], events[i - 1]);
    } else {
      assert Waiting(run[0].requests) == {};
    }
    if i < |events| { StepKeepsInv(run[i], events[i]); }
  }

  /** Pending keys are the disjoint union of the prepared entries and the submitted ones. */
  lemma PendingIsPreparedOrSubmitted(run: seq<Table>, events: seq<Event>, i: nat, k: Key)
    requires IsRun(run, events) && i < |run|
    ensures k in run[i].requests <==> (k in run[i].entries) != (k in run[i].kernel)
    ensures multiset(run[i].entries)[k] <= 1
  {
    LookupNeverFails(run, events, i);
    EntriesOnce(run[i]);
    var t := run[i];
    assert multiset(t.requests.Keys)[k] == multiset(t.entries)[k] + multiset(t.kernel)[k];
    assert k in t.entries <==> multiset(t.entries)[k] > 0;
  }

  /** Every request's waker fires once, and it has fired exactly when the request is not
      pending any more. */
  lemma EachWakerFiresOnce(run: seq<Table>, events: seq<Event>, i: nat, s: Session)
    requires IsRun(run, events) && i < |run| && s in run[i].arrived
    ensures Answered(run[i].wakeups)[s] == if s in Waiting(run[i].requests) then 0 else 1
  {
    LookupNeverFails(run, events, i);
    var t := run[i];
    assert (Answered(t.wakeups) + multiset(Waiting(t.requests)))[s] == multiset(t.arrived)[s];
  }

  /** The table is empty exactly when all sessions have been woken, so a poller that stops on
      an empty table leaves nobody waiting. */
  lemma EmptyMeansAllAnswered(run: seq<Table>, events: seq<Event>, i: nat)
    requires IsRun(run, events) && i < |run|
    ensures run[i].requests == map[] <==> Answered(run[i].wakeups) == multiset(run[i].arrived)
  {
    LookupNeverFails(run, events, i);
    var t := run[i];
    assert |Answered(t.wakeups) + multiset(Waiting(t.requests))| == |Answered(t.wakeups)| + |Waiting(t.requests)|;
    assert Waiting(t.requests) == {} <==> t.requests == map[] by {
      assert forall k :: k in t.requests ==> t.requests[k].session in Waiting(t.requests);
    }
  }

  /** A cancel that is answered at once leaves its target out of the table: either it had
      been answered before, or it has been now, with `ECANCELED`. Any other cancel waits. */
  lemma CancelAnsweredMeansGone(t: Table, r: Request)
    requires Inv(t) && Enabled(t, Event.Push(r)) && r.operation.Cancel? && r.operation.target != r.key
    ensures var u := t.Push(r);
      && (r.key !in u.requests <==> r.operation.target !in u.requests)
      && (r.key !in u.requests ==> Wakeup(r.session, Done(0)) in u.wakeups)
      && (r.key !in u.requests && r.operation.target in t.requests ==>
            u.wakeups[|u.wakeups| - 1] == Wakeup(t.requests[r.operation.target].session, Failed(ECANCELED)))
      && (r.key in u.requests ==> r.operation.target in t.kernel && u.wakeups == t.wakeups)
  {
    EntriesOnce(t);
    var target := r.operation.target;
    if target in t.requests && target !in t.entries {
      assert multiset(t.requests.Keys)[target] == multiset(t.entries)[target] + multiset(t.kernel)[target];
      assert target in multiset(t.requests.Keys);
      assert multiset(t.entries)[target] == 0;
    } else {
      var u := t.(arrived := t.arrived + {r.session}).Say(r.session, Done(0));
      assert u.wakeups[|t.wakeups|] == Wakeup(r.session, Done(0));
      assert t.Push(r).wakeups[|t.wakeups|] == Wakeup(r.session, Done(0));
    }
  }

  // ----- the poller -----

  class Uring {
    var entries: seq<Key>
    var requests: map<Key, Request>
    ghost var kernel: set<Key>
    ghost var wakeups: seq<Wakeup>
    ghost var arrived: set<Session>

    ghost function Abs(): Table
      reads this
    {
      Table(entries, requests, kernel, wakeups, arrived)
    }

    constructor ()
      ensures Abs() == Initial
    {
      entries, requests, kernel, wakeups, arrived := [], map[], {}, [], {};
    }

    method Wake(s: Session, a: Answer)
      modifies this`wakeups
      ensures Abs() == old(Abs()).Say(s, a)
    {
      wakeups := wakeups + [Wakeup(s, a)];
    }

    method Push(request: Request)
      modifies this
      ensures Abs() == old(Abs()).Push(request)
    {
      arrived := arrived + {request.session};
      if request.operation.Cancel? {
        var target := request.operation.target;
        if target !in requests {
          Wake(request.session, Done(0));
          return;
        }
        var i, found := Position(target);
        if found {
          Wake(request.session, Done(0));
          entries := SwapRemove(entries, i);
          var cancelled := requests[target];
          requests := requests - {target};
          Wake(cancelled.session, Failed(ECANCELED));
          return;
        }
      }
      requests := requests[request.key := request];
      entries := entries + [request.key];
    }

    method Position(key: Key) returns (i: nat, found: bool)
      ensures found == (key in entries)
      ensures found ==> i == IndexOf(entries, key)
    {
      i := 0;
      while i < |entries| && entries[i] != key
        invariant 0 <= i <= |entries| && key !in entries[..i]
      {
        i := i + 1;
      }
      found := i < |entries|;
      if found { FirstIndex(entries, key, i); } else { assert entries[..i] == entries; }
    }

    /** `submit`, with the requests that wait in the channel and the room that the submission
        queue has: it takes some of them beside its own, and `push_multiple` fails, which
        its `unwrap` turns into a panic, exactly if the queue has no room at all for a
        request that has to go in. */
    method Submit(request: Request, waiting: seq<Request>, room: nat) returns (taken: nat, fits: bool)
      requires entries == []
      modifies this
      ensures taken <= |waiting|
      ensures fits <==> room > 0 || |old(Abs()).Push(request).entries| == 0
      ensures Abs() == var t := PushAll(old(Abs()), [request] + waiting[..taken]); if fits then t.Submit() else t
      ensures fits ==> |PushAll(old(Abs()), [request] + waiting[..taken]).entries| <= room
    {
      ghost var all := [];
      PushAllNext(Abs(), all, request);
      Push(request);
      taken, all := 0, [request];
      while |entries| < room && taken < |waiting|
        invariant taken <= |waiting| && (room > 0 ==> |entries| <= room) && (room == 0 ==> taken == 0)
        invariant all == [request] + waiting[..taken]
        invariant Abs() == PushAll(old(Abs()), all)
        decreases |waiting| - taken
      {
        PushAllNext(old(Abs()), all, waiting[taken]);
        Push(waiting[taken]);
        all := all + [waiting[taken]];
        taken := taken + 1;
      }
      fits := |entries| <= room;
      if fits {
        kernel := kernel + (set k | k in entries);
        entries := [];
      }
    }

    /** `consume`, with the completions that the kernel has ready. */
    method Consume(completions: seq<(Key, int)>)
      requires Inv(Abs()) && CanComplete(Abs(), completions)
      modifies this
      ensures Inv(Abs()) && entries == old(entries)
      ensures Abs() == CompleteAll(old(Abs()), completions)
    {
      var i := 0;
      while i < |completions|
        invariant i <= |completions| && Inv(Abs()) && entries == old(entries)
        invariant CanComplete(Abs(), completions[i..])
        invariant CompleteAll(Abs(), completions[i..]) == CompleteAll(old(Abs()), completions)
      {
        var (key, result) := completions[i];
        assert completions[i..][0] == completions[i] && completions[i..][1..] == completions[i + 1..];
        CompleteKeeps(Abs(), key, result);
        var request := requests[key];
        requests, kernel := requests - {key}, kernel - {key};
        Wake(request.session, if result < 0 then Failed(-result) else Done(result));
        i := i + 1;
      }
      assert completions[i..] == [];
    }
  }

  lemma {:induction false} FirstIndex(ks: seq<Key>, k: Key, i: nat)
    requires i < |ks| && ks[i] == k && k !in ks[..i]
    ensures IndexOf(ks, k) == i
  {
    if i > 0 {
      assert ks[0] in ks[..i];
      assert ks[1..][..i - 1] == ks[..i][1..];
      FirstIndex(ks[1..], k, i - 1);
    }
  }

  function PushAll(t: Table, rs: seq<Request>): Table {
    if rs == [] then t else PushAll(t, rs[..|rs| - 1]).Push(rs[|rs| - 1])
  }

  lemma PushAllNext(t: Table, rs: seq<Request>, r: Request)
    ensures PushAll(t, rs + [r]) == PushAll(t, rs).Push(r)
    ensures |PushAll(t, rs + [r]).entries| <= |PushAll(t, rs).entries| + 1
  {
    assert (rs + [r])[..|rs|] == rs;
  }

  /** The kernel reports keys it has, each once. */
  predicate CanComplete(t: Table, cs: seq<(Key, int)>) {
    && (forall i :: 0 <= i < |cs| ==> cs[i].0 in t.kernel)
    && (forall i, j :: 0 <= i < j < |cs| ==> cs[i].0 != cs[j].0)
  }

  function CompleteAll(t: Table, cs: seq<(Key, int)>): Table
    decreases |cs|
  {
    if cs == [] || cs[0].0 !in t.requests then t else CompleteAll(t.Complete(cs[0].0, cs[0].1), cs[1..])
  }
}
