/** `src/select.rs`: how a select asks its candidates for a permit, registers with all of them
    when none is ready, and takes itself off again. */
module SelectProtocol {
  import opened Options

  // ----- the order of the enumerator -----

  /** `Enumerator::new` and `Enumerator::next`: the candidate at position `k` of the round. */
  function Visit(rand: nat, n: nat, k: nat): (index: nat)
    requires n > 0
    ensures index < n
  {
    (rand % n + k) % n
  }

  /** Wrapping around once. */
  lemma Wrap(m: nat, n: nat)
    requires 0 < n && m < 2 * n
    ensures m % n == if m < n then m else m - n
  {
    if m >= n { assert m == n + (m - n); }
  }

  /** One round visits every candidate exactly once. */
  lemma EveryCandidateOnce(rand: nat, n: nat, index: nat)
    requires index < n
    ensures exists k :: 0 <= k < n && Visit(rand, n, k) == index
    ensures forall j, k :: 0 <= j < k < n ==> Visit(rand, n, j) != Visit(rand, n, k)
  {
    var start := rand % n;
    var k := if index >= start then index - start else index + n - start;
    Wrap(start + k, n);
    assert Visit(rand, n, k) == index;
    forall i, j | 0 <= i < j < n ensures Visit(rand, n, i) != Visit(rand, n, j) {
      Wrap(start + i, n);
      Wrap(start + j, n);
    }
  }

  /** The round starts where `rand` says and goes on cyclically. */
  lemma RoundFollowsRand(rand: nat, n: nat, k: nat)
    requires k < n
    ensures Visit(rand, n, 0) == rand % n
    ensures k + 1 < n ==> Visit(rand, n, k + 1) == if Visit(rand, n, k) + 1 == n then 0 else Visit(rand, n, k) + 1
  {
    var start := rand % n;
    Wrap(start, n);
    Wrap(start + k, n);
    if k + 1 < n { Wrap(start + k + 1, n); }
  }

  // ----- asking -----

  datatype Permit = Permit(primitive: nat)

  /** What `select_permit` answers; `Absent` is a disabled candidate. */
  datatype Answer = Absent | Granted(permit: Permit) | WouldBlock | Completed

  datatype Tried = Selected(index: nat, permit: Permit) | AllCompleted | Blocked

  /** `Select::try_select`: the first permit in the order of the round, and else whether
      anything is left to wait for. */
  method TrySelect(answers: seq<Answer>, rand: nat) returns (tried: Tried)
    requires answers != []
    ensures tried.Selected? <==> exists i :: 0 <= i < |answers| && answers[i].Granted?
    ensures tried.Selected? ==>
              exists k :: 0 <= k < |answers|
                && tried.index == Visit(rand, |answers|, k) && answers[tried.index] == Granted(tried.permit)
                && forall j :: 0 <= j < k ==> !answers[Visit(rand, |answers|, j)].Granted?
    ensures tried == AllCompleted <==> forall i :: 0 <= i < |answers| ==> answers[i].Absent? || answers[i].Completed?
  {
    var n := |answers|;
    tried := AllCompleted;
    var k := 0;
    while k < n
      invariant k <= n
      invariant forall j :: 0 <= j < k ==> !answers[Visit(rand, n, j)].Granted?
      invariant tried == if exists j :: 0 <= j < k && answers[Visit(rand, n, j)] == WouldBlock then Blocked else AllCompleted
    {
      var index := Visit(rand, n, k);
      match answers[index] {
        case Granted(permit) => return Selected(index, permit);
        case WouldBlock => tried := Blocked;
        case _ =>
      }
      k := k + 1;
    }
    forall i | 0 <= i < n ensures !answers[i].Granted? && (tried == AllCompleted ==> answers[i] != WouldBlock) {
      EveryCandidateOnce(rand, n, i);
      var j :| 0 <= j < n && Visit(rand, n, j) == i;
    }
  }

  // ----- registering -----

  /** What `watch_permit` does with the selector: nothing (a disabled or finished candidate),
      apply a permit at once, or put it into the queue of a channel of this task, of the
      senders or receivers of a channel between tasks, or into a join handle. */
  datatype Watch = Ignores | Applies | QueuesSerial | QueuesSender | QueuesReceiver | QueuesJoin

  predicate Queues(w: Watch) { !w.Ignores? && !w.Applies? }

  /** Other threads can apply a permit to a selector in the queue. */
  predicate Parallel(w: Watch) { w.QueuesSender? || w.QueuesReceiver? }

  /** `winner` is the position that has won the waker, `stopped` whether the loop has been
      left by `break`. The waiter is ready as soon as somebody has won: the status of a
      session is read without its release bit, and a parker is set under its lock. */
  datatype Round = Round(checked: nat, queued: set<nat>, winner: Option<nat>, stopped: bool)

  const Start: Round := Round(0, {}, None, false)

  /** `watch_permit` of the candidate at position `k`; `Selector::apply` succeeds once. */
  function Watched(r: Round, w: Watch, k: nat): (Round, bool) {
    match w
    case Ignores => (r, false)
    case Applies => (if r.winner.None? then r.(winner := Some(k)) else r, true)
    case QueuesSerial => (r.(queued := r.queued + {k}), true)
    case _ => (r.(queued := r.queued + {k}), false)
  }

  /** Another thread wins through the selector at `race`, if it is there and nobody has won. */
  function Raced(r: Round, watches: seq<Watch>, race: Option<nat>): Round {
    if r.winner.None? && race.Some? && race.value in r.queued && race.value < |watches| && Parallel(watches[race.value])
    then r.(winner := race) else r
  }

  /** A round of the loop of `select`, at position `k`. */
  function Step(r: Round, watches: seq<Watch>, k: nat, race: Option<nat>): Round
    requires k < |watches|
  {
    var (w, answer) := Watched(r, watches[k], k);
    var t := Raced(w, watches, race);
    if answer && t.winner.Some? then t.(stopped := true) else t.(checked := t.checked + 1)
  }

  /** The loop up to position `k`. */
  function Register(watches: seq<Watch>, races: seq<Option<nat>>, k: nat): Round
    requires k <= |watches| == |races|
  {
    if k == 0 then Start
    else
      var r := Register(watches, races, k - 1);
      if r.stopped then r else Step(r, watches, k - 1, races[k - 1])
  }

  /** The loop of `select`; `watches` and `races` are in the order of the round. */
  method Enroll(watches: seq<Watch>, races: seq<Option<nat>>) returns (checked: nat, round: Round)
    requires |watches| == |races|
    ensures round == Register(watches, races, |watches|) && checked == round.checked
  {
    round := Start;
    checked := 0;
    var k := 0;
    while k < |watches|
      invariant k <= |watches| && !round.stopped
      invariant round == Register(watches, races, k) && checked == round.checked
    {
      round := Step(round, watches, k, races[k]);
      if round.stopped {
        Stays(watches, races, k + 1, |watches|);
        return;
      }
      checked := checked + 1;
      k := k + 1;
    }
  }

  lemma {:induction false} Stays(watches: seq<Watch>, races: seq<Option<nat>>, i: nat, j: nat)
    requires i <= j <= |watches| == |races| && Register(watches, races, i).stopped
    ensures Register(watches, races, j) == Register(watches, races, i)
  {
    if i < j { Stays(watches, races, i, j - 1); }
  }

  /** No candidate before `k` has a permit when it is asked. */
  predicate Early(watches: seq<Watch>, k: nat)
    requires k <= |watches|
  {
    forall q :: 0 <= q < k ==> !watches[q].Applies?
  }

  /** A candidate with a permit ends the loop, so there is none before the last one asked. */
  ghost predicate RoundOk(r: Round, watches: seq<Watch>, k: nat)
    requires k <= |watches|
  {
    && (if r.stopped then r.checked < k else r.checked == k)
    && Early(watches, r.checked)
    && (forall q :: q in r.queued <==>
          0 <= q < k && Queues(watches[q]) && (q < r.checked || (r.stopped && q == r.checked)))
    && (r.winner.Some? ==> r.winner.value < k && r.winner.value <= r.checked)
    && (r.winner.Some? && watches[r.winner.value].Applies? ==> r.stopped && r.winner.value == r.checked)
    && (r.winner.Some? && !watches[r.winner.value].Applies? ==>
          Parallel(watches[r.winner.value]) && r.winner.value in r.queued)
    && (r.stopped ==> r.winner.Some? && (watches[r.checked].Applies? || watches[r.checked].QueuesSerial?))
  }

  lemma {:induction false} RegisterOk(watches: seq<Watch>, races: seq<Option<nat>>, k: nat)
    requires k <= |watches| == |races|
    ensures RoundOk(Register(watches, races, k), watches, k)
  {
    if k > 0 { RegisterOk(watches, races, k - 1); }
  }

  /** The candidate that wins either had a permit when it was asked, or has the selector in
      its queue; and until somebody wins, every selector is in its queue. */
  lemma WinnerIsACandidate(watches: seq<Watch>, races: seq<Option<nat>>)
    requires |watches| == |races|
    ensures var r := Register(watches, races, |watches|);
      && (r.winner.Some? ==>
            r.winner.value < |watches| && (watches[r.winner.value].Applies? || r.winner.value in r.queued))
      && (r.winner.None? ==> r.queued == set q | 0 <= q < |watches| && Queues(watches[q]))
      && (r.winner.None? ==> Early(watches, |watches|))
  {
    RegisterOk(watches, races, |watches|);
  }

  // ----- what is left behind -----

  /** Who has the permit when the wait ends: the winner of the round, or else any candidate
      that holds the selector. */
  predicate CanWin(r: Round, winner: nat) {
    if r.winner.Some? then r.winner == Some(winner) else winner in r.queued
  }

  /** What `unwatch_permit` takes out: a sender of a channel between tasks looks the selector
      up among the senders and removes from the receivers. */
  predicate Unwatches(w: Watch) { !w.QueuesSender? }

  /** The selectors that are still queued after `Witness::drop`, as long as no other waking
      pops them: the winner's was popped by the channel, and the candidates visited before
      the loop ended have been unwatched. */
  function Leftover(watches: seq<Watch>, r: Round, winner: Option<nat>): set<nat> {
    set k | k in r.queued && Some(k) != winner && (k >= r.checked || (k < |watches| && !Unwatches(watches[k])))
  }

  /** Two kinds of selector stay behind: that of a serial channel which has queued it and
      answered true while somebody else had won, and those of senders between tasks. */
  lemma LeftoverIsTheBreakAndTheSenders(watches: seq<Watch>, races: seq<Option<nat>>, winner: Option<nat>)
    requires |watches| == |races|
    ensures var r := Register(watches, races, |watches|);
      Leftover(watches, r, if r.winner.Some? then r.winner else winner) ==
        (if r.stopped && r.checked < |watches| && watches[r.checked].QueuesSerial? then {r.checked} else {})
        + set k | 0 <= k < r.checked && k < |watches| && watches[k].QueuesSender?
                  && Some(k) != if r.winner.Some? then r.winner else winner
  {
    RegisterOk(watches, races, |watches|);
  }

  /** A serial channel is asked after a channel between tasks has queued the selector. */
  predicate SerialAfterParallel(watches: seq<Watch>) {
    exists i, j :: 0 <= i < j < |watches| && ParallelThenSerial(watches, i, j)
  }

  predicate ParallelThenSerial(watches: seq<Watch>, i: nat, j: nat)
    requires i < j < |watches|
  {
    Parallel(watches[i]) && watches[j].QueuesSerial? && Early(watches, j)
  }

  /** A sender between tasks queues the selector, and somebody else may win. */
  predicate SenderAmongOthers(watches: seq<Watch>) {
    exists k, m :: 0 <= k < |watches| && 0 <= m < |watches| && SenderAnd(watches, k, m)
  }

  predicate SenderAnd(watches: seq<Watch>, k: nat, m: nat)
    requires k < |watches| && m < |watches|
  {
    && watches[k].QueuesSender? && Early(watches, k)
    && m != k && !watches[m].Ignores? && Early(watches, m)
  }

  ghost predicate LeavesNothing(watches: seq<Watch>) {
    forall races, winner {:trigger CanWin(Register(watches, races, |watches|), winner)} ::
      |races| == |watches| && CanWin(Register(watches, races, |watches|), winner) ==>
        Leftover(watches, Register(watches, races, |watches|), Some(winner)) == {}
  }

  /** A select takes itself off every candidate, whatever other threads do, exactly if no
      serial channel is asked after a channel between tasks and no sender between tasks is
      registered with beside another candidate that may win. */
  lemma WitnessUnwatchesAll(watches: seq<Watch>)
    ensures LeavesNothing(watches) <==> !SerialAfterParallel(watches) && !SenderAmongOthers(watches)
  {
    if SerialAfterParallel(watches) {
      var i, j :| 0 <= i < j < |watches| && ParallelThenSerial(watches, i, j);
      LateRaceLeaves(watches, i, j);
    } else if SenderAmongOthers(watches) {
      var k, m :| 0 <= k < |watches| && 0 <= m < |watches| && SenderAnd(watches, k, m);
      SenderLeaves(watches, k, m);
    } else {
      forall races, winner | |races| == |watches| && CanWin(Register(watches, races, |watches|), winner)
        ensures Leftover(watches, Register(watches, races, |watches|), Some(winner)) == {}
      {
        NothingLeft(watches, races, winner);
      }
    }
  }

  lemma NothingLeft(watches: seq<Watch>, races: seq<Option<nat>>, winner: nat)
    requires |races| == |watches| && CanWin(Register(watches, races, |watches|), winner)
    requires !SerialAfterParallel(watches) && !SenderAmongOthers(watches)
    ensures Leftover(watches, Register(watches, races, |watches|), Some(winner)) == {}
  {
    RegisterOk(watches, races, |watches|);
    var r := Register(watches, races, |watches|);
    forall q | q in r.queued && q != winner ensures q < r.checked && Unwatches(watches[q]) {
      if q == r.checked { assert ParallelThenSerial(watches, winner, q); }
      if watches[q].QueuesSender? { assert SenderAnd(watches, q, winner); }
    }
  }

  /** Another thread wins through the candidate at `i` just before the loop asks whether the
      waiter is ready, at `j`. */
  function LateRace(watches: seq<Watch>, i: nat, j: nat): seq<Option<nat>>
    requires i < j < |watches|
  {
    seq(|watches|, k => if k == j then Some(i) else None)
  }

  lemma {:induction false} NobodyWins(watches: seq<Watch>, races: seq<Option<nat>>, k: nat)
    requires k <= |watches| == |races| && Early(watches, k)
    requires forall q :: 0 <= q < k ==> races[q].None?
    ensures var r := Register(watches, races, k); !r.stopped && r.winner.None? && r.checked == k
  {
    if k > 0 { NobodyWins(watches, races, k - 1); }
  }

  lemma LateRaceLeaves(watches: seq<Watch>, i: nat, j: nat)
    requires i < j < |watches| && ParallelThenSerial(watches, i, j)
    ensures !LeavesNothing(watches)
  {
    var races := LateRace(watches, i, j);
    NobodyWins(watches, races, j);
    RegisterOk(watches, races, j);
    assert i in Register(watches, races, j).queued;
    Stays(watches, races, j + 1, |watches|);
    var r := Register(watches, races, |watches|);
    assert CanWin(r, i) && j in Leftover(watches, r, Some(i));
  }

  /** The first candidate with a permit. */
  lemma {:induction false} FirstPermit(watches: seq<Watch>, k: nat) returns (p: nat)
    requires k <= |watches| && !Early(watches, k)
    ensures p < k && watches[p].Applies? && Early(watches, p)
  {
    if Early(watches, k - 1) { p := k - 1; } else { p := FirstPermit(watches, k - 1); }
  }

  lemma SenderLeaves(watches: seq<Watch>, k: nat, m: nat)
    requires k < |watches| && m < |watches| && SenderAnd(watches, k, m)
    ensures !LeavesNothing(watches)
  {
    var races := seq(|watches|, _ => None);
    var winner := m;
    if Early(watches, |watches|) {
      NobodyWins(watches, races, |watches|);
    } else {
      winner := FirstPermit(watches, |watches|);
      NobodyWins(watches, races, winner);
      Stays(watches, races, winner + 1, |watches|);
    }
    RegisterOk(watches, races, |watches|);
    var r := Register(watches, races, |watches|);
    assert CanWin(r, winner) && k in Leftover(watches, r, Some(winner));
  }

  /** A wait that the abort of its task ends leaves the senders, all of them. */
  lemma AbortLeavesTheSenders(watches: seq<Watch>, races: seq<Option<nat>>)
    requires |races| == |watches| && Register(watches, races, |watches|).winner.None?
    ensures Leftover(watches, Register(watches, races, |watches|), None)
              == set k | 0 <= k < |watches| && watches[k].QueuesSender?
  {
    RegisterOk(watches, races, |watches|);
  }
}
