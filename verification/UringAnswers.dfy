/** Which answer each request of the table gets. */
module UringAnswers {
  import opened Options
  import opened UringTable

  /** What a step answers, and to whom: a completion, with the result of the kernel, to the
      request it is for; a cancel at once, if the kernel does not have its target, and then
      the target too, if it is in the table. */
  function AnsweredBy(t: Table, e: Event): seq<Wakeup>
    requires e.Complete? ==> e.key in t.requests
  {
    match e
    case Complete(key, result) =>
      [Wakeup(t.requests[key].session, if result >= 0 then Done(result) else Failed(-result))]
    case Push(r) =>
      if r.operation.Plain? || r.operation.target in t.kernel then []
      else
        [Wakeup(r.session, Done(0))]
        + if r.operation.target in t.requests
          then [Wakeup(t.requests[r.operation.target].session, Failed(ECANCELED))] else []
    case Submit => []
  }

  lemma StepAnswers(t: Table, e: Event, u: Table)
    requires Inv(t) && Leads(t, e, u)
    ensures u.wakeups == t.wakeups + AnsweredBy(t, e)
  {
    match e
    case Push(r) => PushAnswers(t, r);
    case Submit =>
    case Complete(_, _) =>
  }

  lemma PushAnswers(t: Table, r: Request)
    requires Inv(t)
    ensures t.Push(r).wakeups == t.wakeups + AnsweredBy(t, Push(r))
  {
    EntriesOnce(t);
    if r.operation.Cancel? {
      PendingHere(t, r.operation.target);
      if r.operation.target in t.requests && r.operation.target in t.entries {
        var own := [Wakeup(r.session, Done(0))];
        var other := [Wakeup(t.requests[r.operation.target].session, Failed(ECANCELED))];
        assert t.Push(r).wakeups == t.wakeups + own + other == t.wakeups + (own + other);
      }
    }
  }

  /** What is not answered at once is prepared, behind the others, and submitting hands all
      that is prepared to the kernel. */
  lemma RequestsGoToTheKernel(t: Table, r: Request)
    requires Inv(t) && Enabled(t, Push(r))
    ensures AnsweredBy(t, Push(r)) == [] ==>
              var u := t.Push(r); u.entries == t.entries + [r.key] && u.requests == t.requests[r.key := r] && u.kernel == t.kernel
    ensures var u := t.Submit();
      u.entries == [] && u.requests == t.requests && forall k :: k in u.kernel <==> k in t.kernel || k in t.entries
  {
    EntriesOnce(t);
    if r.operation.Cancel? { PendingHere(t, r.operation.target); }
  }

  lemma PendingHere(t: Table, k: Key)
    requires KeysOk(t)
    ensures k in t.requests <==> k in t.entries || k in t.kernel
  {
    assert multiset(t.requests.Keys)[k] == multiset(t.entries)[k] + multiset(t.kernel)[k];
    assert k in t.entries <==> multiset(t.entries)[k] > 0;
  }

  /** A request that the kernel completes is woken with the kernel's result. */
  lemma CompletionReachesItsRequest(run: seq<Table>, events: seq<Event>, i: nat, key: Key, result: int)
    requires IsRun(run, events) && i < |events| && events[i] == Complete(key, result)
    ensures key in run[i].requests && key !in run[i + 1].requests
    ensures run[i + 1].wakeups ==
              run[i].wakeups + [Wakeup(run[i].requests[key].session, if result >= 0 then Done(result) else Failed(-result))]
  {
    LookupNeverFails(run, events, i);
    StepAnswers(run[i], events[i], run[i + 1]);
  }

  function AllAnswers(run: seq<Table>, events: seq<Event>, i: nat): seq<Wakeup>
    requires i <= |events| < |run|
    requires forall k :: 0 <= k < i ==> events[k].Complete? ==> events[k].key in run[k].requests
  {
    if i == 0 then [] else AllAnswers(run, events, i - 1) + AnsweredBy(run[i - 1], events[i - 1])
  }

  lemma LookupsSucceed(run: seq<Table>, events: seq<Event>, i: nat)
    requires IsRun(run, events) && i <= |events|
    ensures forall k :: 0 <= k < i ==> events[k].Complete? ==> events[k].key in run[k].requests
  {
    forall k | 0 <= k < i ensures events[k].Complete? ==> events[k].key in run[k].requests {
      LookupNeverFails(run, events, k);
    }
  }

  /** In every run, the wakeups are the answers of the steps, in order, and no others. */
  lemma {:induction false} WakeupsAreTheAnswers(run: seq<Table>, events: seq<Event>, i: nat)
    requires IsRun(run, events) && i <= |events|
    ensures forall k :: 0 <= k < i ==> events[k].Complete? ==> events[k].key in run[k].requests
    ensures run[i].wakeups == AllAnswers(run, events, i)
  {
    LookupsSucceed(run, events, i);
    if i > 0 {
      WakeupsAreTheAnswers(run, events, i - 1);
      LookupNeverFails(run, events, i - 1);
      StepAnswers(run[i - 1], events[i - 1], run[i]);
    }
  }

  /** The one wakeup of a session comes from its own completion, from a cancel of it before it
      was submitted, or, if it is a cancel itself, from being answered at once. */
  predicate Explains(t: Table, e: Event, w: Wakeup) {
    match e
    case Complete(key, result) =>
      key in t.requests && w == Wakeup(t.requests[key].session, if result >= 0 then Done(result) else Failed(-result))
    case Push(r) =>
      && r.operation.Cancel? && r.operation.target !in t.kernel
      && (|| w == Wakeup(r.session, Done(0))
          || (r.operation.target in t.requests && w == Wakeup(t.requests[r.operation.target].session, Failed(ECANCELED))))
    case Submit => false
  }

  lemma AnswersAreExplained(t: Table, e: Event, w: Wakeup)
    requires e.Complete? ==> e.key in t.requests
    requires w in AnsweredBy(t, e)
    ensures Explains(t, e, w)
  {
  }

  lemma {:induction false} EveryWakeupIsExplained(run: seq<Table>, events: seq<Event>, i: nat, j: nat)
    requires IsRun(run, events) && i <= |events| && j < |run[i].wakeups|
    ensures exists k :: 0 <= k < i && Explains(run[k], events[k], run[i].wakeups[j])
  {
    if i > 0 {
      var s, e, t := run[i - 1], events[i - 1], run[i];
      LookupNeverFails(run, events, i - 1);
      StepAnswers(s, e, t);
      if j < |s.wakeups| {
        EveryWakeupIsExplained(run, events, i - 1, j);
        assert t.wakeups[j] == s.wakeups[j];
      } else {
        assert t.wakeups[j] == AnsweredBy(s, e)[j - |s.wakeups|];
        AnswersAreExplained(s, e, t.wakeups[j]);
      }
    }
  }

  /** `consume` wakes, in order, the request of each completion with its result. */
  lemma {:induction false} ConsumeAnswersEach(t: Table, cs: seq<(Key, int)>)
    requires Inv(t) && CanComplete(t, cs)
    ensures var n, ws := |t.wakeups|, CompleteAll(t, cs).wakeups;
      && |ws| == n + |cs| && t.wakeups <= ws
      && (forall i {:trigger cs[i]} :: 0 <= i < |cs| ==>
            cs[i].0 in t.requests && ws[n + i] == Wakeup(t.requests[cs[i].0].session, AnswerOf(cs[i].1)))
    decreases |cs|
  {
    EntriesOnce(t);
    if cs != [] {
      CompleteKeeps(t, cs[0].0, cs[0].1);
      var u, tail := t.Complete(cs[0].0, cs[0].1), cs[1..];
      assert forall i {:trigger tail[i]} :: 0 <= i < |tail| ==> tail[i] == cs[i + 1];
      ConsumeAnswersEach(u, tail);
      var ws := CompleteAll(t, cs).wakeups;
      forall i {:trigger cs[i]} | 0 <= i < |cs|
        ensures cs[i].0 in t.requests && ws[|t.wakeups| + i] == Wakeup(t.requests[cs[i].0].session, AnswerOf(cs[i].1))
      {
        if i > 0 { assert tail[i - 1] == cs[i]; }
      }
    }
  }

  /** No two results of the kernel give the same answer, and the errors are those below zero. */
  lemma ResultsAreKept(result: int, other: int)
    ensures AnswerOf(result) == AnswerOf(other) ==> result == other
    ensures AnswerOf(result).Failed? <==> result < 0
  {
  }
}
