/** The one-shot rendezvous of `src/task/session.rs`: an atomic status word whose
    least bit releases an untagged cell, shared by one owner, its waker handles and
    interrupting calls. Every load, compare-and-swap, cell access and store is one
    step; the steps of all agents interleave freely. */
module SessionProtocol {

  import opened Options

  /** What a call to `set_value` brings. */
  datatype Outcome = Value(v: int) | Panic(reason: int)

  const NO_WAKEUP := Panic(0)

  /** Whom to wake: a coroutine of a task, or a parked thread. */
  datatype Joiner = Task(co: nat) | Thread

  /** The untagged union, with the tag the code does not store. */
  datatype Cell = Vacant | HoldsJoiner(joiner: Joiner) | HoldsValue(o: Outcome)

  // Status words: bit 0 is the release flag.
  const EMPTY: nat := 0
  const VALUE: nat := 2
  const VALUE_RELEASED: nat := 3
  const JOINING: nat := 4
  const JOINING_RELEASED: nat := 5
  const JOINED_RELEASED: nat := 7

  /** `SessionStatus::from_bits`: the status without its release flag. */
  function FromBits(bits: nat): nat { bits / 2 * 2 }

  /** What all agents share. `took` and `unparked` record which joiner was taken out of
      the cell and whether its thread was unparked. */
  datatype Memory = Memory(status: nat, cell: Cell, took: Option<Joiner>, unparked: bool)

  // ----- a call of set_value -----

  /** Where a call of `set_value` is. */
  datatype Setter =
    | Start(o: Outcome)                  // before the status load
    | TryEmpty(o: Outcome)               // before the exchange 0 -> 2
    | WriteFirst(o: Outcome)             // before writing the value of an unjoined session
    | PublishFirst                       // before the store of 3
    | TryJoining(o: Outcome)             // before the exchange 5 -> 2
    | TakeJoiner(o: Outcome)             // before taking the joiner out of the cell
    | WriteJoined(o: Outcome, j: Joiner) // before writing the value over it
    | Unpark                             // before unparking a joining thread
    | PublishJoined(task: Option<nat>)   // before the store of 3
    | Woken(task: Option<nat>)           // returned Ok, with the coroutine to wake if any
    | Lost(o: Outcome)                   // returned Err with its value

  /** After the status is known in `set_value`. */
  function Route(status: nat, o: Outcome): Setter {
    if status == JOINING then TryJoining(o) else Lost(o)
  }

  /** One step of `set_value`; a weak exchange may fail spuriously. */
  function SetterStep(m: Memory, p: Setter, spurious: bool): (Memory, Setter)
    requires p.TakeJoiner? ==> m.cell.HoldsJoiner?
  {
    match p
    case Start(o) => (m, if FromBits(m.status) == EMPTY then TryEmpty(o) else Route(FromBits(m.status), o))
    case TryEmpty(o) =>
      if m.status == EMPTY then (m.(status := VALUE), WriteFirst(o)) else (m, Route(FromBits(m.status), o))
    case WriteFirst(o) => (m.(cell := HoldsValue(o)), PublishFirst)
    case PublishFirst => (m.(status := VALUE_RELEASED), Woken(None))
    case TryJoining(o) =>
      if m.status == JOINING_RELEASED && !spurious then (m.(status := VALUE), TakeJoiner(o))
      else if FromBits(m.status) != JOINING then (m, Lost(o))
      else (m, p)
    case TakeJoiner(o) => (m.(cell := Vacant, took := Some(m.cell.joiner)), WriteJoined(o, m.cell.joiner))
    case WriteJoined(o, j) => (m.(cell := HoldsValue(o)), if j.Task? then PublishJoined(Some(j.co)) else Unpark)
    case Unpark => (m.(unparked := true), PublishJoined(None))
    case PublishJoined(task) => (m.(status := VALUE_RELEASED), Woken(task))
    case Woken(_) => (m, p)
    case Lost(_) => (m, p)
  }

  predicate Finished(p: Setter) { p.Woken? || p.Lost? }

  /** The call has won and is between its exchange and its store of 3. */
  predicate Writing(p: Setter) {
    p.WriteFirst? || p.PublishFirst? || p.TakeJoiner? || p.WriteJoined? || p.Unpark? || p.PublishJoined?
  }

  predicate FromJoined(p: Setter) {
    p.TakeJoiner? || p.WriteJoined? || p.Unpark? || p.PublishJoined?
  }

  // ----- the owner: join_value or drop_value -----

  datatype Owner =
    | Idle
    | JoinLoad(j: Joiner) | JoinTry(j: Joiner) | JoinWrite(j: Joiner) | JoinPublish(j: Joiner)
    | JoinWait(j: Joiner) | JoinClaim(j: Joiner) | JoinTake
    | DropLoad | DropTry | DropClaim | DropTake
    | Returned(o: Outcome) | Dropped | Forgotten
    | Unreachable

  /** The rest of `join_value` once its local status is `status`. */
  function JoinRoute(status: nat, j: Joiner): Owner {
    if status == JOINING then JoinWait(j) else if status == VALUE then JoinClaim(j) else Unreachable
  }

  /** The rest of `drop_value` once its local status is `status`. */
  function DropRoute(status: nat): Owner {
    if status == VALUE then DropClaim else Dropped
  }

  function OwnerStep(m: Memory, p: Owner, spurious: bool): (Memory, Owner)
    requires p.JoinTake? || p.DropTake? ==> m.cell.HoldsValue?
  {
    match p
    case JoinLoad(j) => (m, if FromBits(m.status) == EMPTY then JoinTry(j) else JoinRoute(FromBits(m.status), j))
    case JoinTry(j) =>
      if m.status == EMPTY then (m.(status := JOINING), JoinWrite(j)) else (m, JoinRoute(FromBits(m.status), j))
    case JoinWrite(j) => (m.(cell := HoldsJoiner(j)), JoinPublish(j))
    case JoinPublish(j) => (m.(status := JOINING_RELEASED), JoinWait(j))
    case JoinWait(j) => (m, JoinRoute(FromBits(m.status), j))
    case JoinClaim(_) =>
      if m.status == VALUE_RELEASED && !spurious then (m.(status := JOINED_RELEASED), JoinTake)
      else if FromBits(m.status) != VALUE then (m, Unreachable)
      else (m, p)
    case JoinTake => (m.(cell := Vacant), Returned(m.cell.o))
    case DropLoad => (m, if FromBits(m.status) == EMPTY then DropTry else DropRoute(FromBits(m.status)))
    case DropTry =>
      if m.status == EMPTY then (m.(status := JOINED_RELEASED), Dropped) else (m, DropRoute(FromBits(m.status)))
    case DropClaim =>
      if m.status == VALUE_RELEASED && !spurious then (m.(status := JOINED_RELEASED), DropTake)
      else (m, DropRoute(FromBits(m.status)))
    case DropTake => (m.(cell := Vacant), DropClaim)  // the loop goes round once more
    case _ => (m, p)
  }

  // ----- all agents together -----

  /** A waker handle, or an attempt to interrupt the blocked owner. */
  datatype Agent = Waker(h: nat) | Interrupter(i: nat)

  datatype Handle = Live | Used | Gone

  datatype State = State(
    memory: Memory,
    wakers: nat,
    owner: Owner,
    setters: map<Agent, Setter>,
    handles: map<nat, Handle>,
    // History: who won, what each call brought, and the handles still counted.
    winner: Option<Agent>,
    given: map<Agent, Outcome>,
    counted: set<nat>)

  const Initial := State(Memory(EMPTY, Vacant, None, false), 1, Idle, map[], map[0 := Live], None, map[], {0})

  datatype Event =
    | Clone(h: nat, copy: nat)
    | Use(h: nat, o: Outcome)
    | Release(h: nat)
    | Interrupt(i: nat, reason: int)
    | Run(a: Agent, spurious: bool)
    | Join(j: Joiner)
    | DropSession
    | Forget
    | Reclaim
    | RunOwner(spurious: bool)

  predicate Enabled(s: State, e: Event) {
    match e
    case Clone(h, copy) => h in s.handles && s.handles[h].Live? && copy !in s.handles
    case Use(h, _) => h in s.handles && s.handles[h].Live?
    case Release(h) => h in s.handles && s.handles[h].Live?
    case Interrupt(i, _) => s.owner.JoinWait? && Interrupter(i) !in s.setters
    case Run(a, _) => a in s.setters && !Finished(s.setters[a])
    case Join(_) => s.owner.Idle?
    case DropSession => s.owner.Idle?
    case Forget => s.owner.Idle?
    case Reclaim => s.owner.Forgotten?
    case RunOwner(_) => true
  }

  /** The cell holds the variant the next step takes out of it, and the counter does not
      go below zero: what `Apply` relies on and `Inv` provides. */
  predicate Safe(s: State, e: Event)
    requires Enabled(s, e)
  {
    match e
    case Release(_) => s.wakers > 0
    case Run(a, _) => s.setters[a].TakeJoiner? ==> s.memory.cell.HoldsJoiner?
    case RunOwner(_) => s.owner.JoinTake? || s.owner.DropTake? ==> s.memory.cell.HoldsValue?
    case _ => true
  }

  function Begin(s: State, a: Agent, o: Outcome): State {
    s.(setters := s.setters[a := Start(o)], given := s.given[a := o])
  }

  function Apply(s: State, e: Event): State
    requires Enabled(s, e) && Safe(s, e)
  {
    match e
    case Clone(h, copy) =>
      s.(wakers := s.wakers + 1, handles := s.handles[copy := Live], counted := s.counted + {copy})
    case Use(h, o) => Begin(s.(handles := s.handles[h := Used]), Waker(h), o)
    case Release(h) =>
      var t := s.(wakers := s.wakers - 1, handles := s.handles[h := Gone], counted := s.counted - {h});
      if s.wakers == 1 then Begin(t, Waker(h), NO_WAKEUP) else t
    case Interrupt(i, reason) => Begin(s, Interrupter(i), Panic(reason))
    case Run(a, spurious) =>
      var (m, p) := SetterStep(s.memory, s.setters[a], spurious);
      s.(memory := m, setters := s.setters[a := p],
         winner := if Writing(p) && !Writing(s.setters[a]) then Some(a) else s.winner)
    case Join(j) => s.(owner := JoinLoad(j))
    case DropSession => s.(owner := DropLoad)
    case Forget => s.(owner := Forgotten)
    case Reclaim => s.(owner := DropLoad)
    case RunOwner(spurious) =>
      var (m, p) := OwnerStep(s.memory, s.owner, spurious);
      s.(memory := m, owner := p)
  }

  // ----- the invariant -----

  /** Someone has won: the session is not open to `set_value` any more, ever. */
  predicate Settled(status: nat) { FromBits(status) != EMPTY && FromBits(status) != JOINING }

  /** The winner has told the joiner it took: it returns the coroutine of a task to be
      woken, and has unparked a thread. */
  predicate Announced(m: Memory, task: Option<nat>) {
    match m.took
    case None => task == None
    case Some(Task(co)) => task == Some(co)
    case Some(Thread) => task == None && m.unparked
  }

  /** The cell while the winner is at `p`, bringing `o`. */
  predicate WinnerOk(m: Memory, p: Setter, o: Outcome) {
    match p
    case WriteFirst(x) => m.status == VALUE && m.took == None && m.cell == Vacant && x == o
    case PublishFirst => m.status == VALUE && m.took == None && m.cell == HoldsValue(o)
    case TakeJoiner(x) => m.status == VALUE && m.took == None && m.cell.HoldsJoiner? && x == o
    case WriteJoined(x, j) => m.status == VALUE && m.took == Some(j) && m.cell == Vacant && x == o
    case Unpark => m.status == VALUE && m.took == Some(Thread) && m.cell == HoldsValue(o)
    case PublishJoined(t) => m.status == VALUE && m.took.Some? && m.cell == HoldsValue(o) && Announced(m, t)
    case Woken(t) => m.status in {VALUE_RELEASED, JOINED_RELEASED} && Announced(m, t)
    case _ => false
  }

  /** The owner against the memory, the winner's position `w` and its outcome `o`. */
  predicate OwnerOk(m: Memory, p: Owner, w: Option<Setter>, o: Outcome) {
    match p
    case JoinWrite(j) => m.status == JOINING && m.cell == Vacant
    case JoinPublish(j) => m.status == JOINING && m.cell == HoldsJoiner(j)
    case JoinWait(j) =>
      && (m.status == JOINING_RELEASED ==> m.cell == HoldsJoiner(j))
      && m.status in {JOINING_RELEASED, VALUE, VALUE_RELEASED}
      && (w.Some? ==> TookFrom(m, w.value, j))
    case JoinClaim(j) =>
      && m.status in {VALUE, VALUE_RELEASED}
      && w.Some? && (m.took.Some? || FromJoined(w.value) ==> TookFrom(m, w.value, j))
    case JoinTake => m.status == JOINED_RELEASED && w.Some? && m.cell == HoldsValue(o)
    case Returned(x) => m.status == JOINED_RELEASED && w.Some? && x == o && m.cell == Vacant
    case DropClaim => m.took == None && m.status in {VALUE, VALUE_RELEASED, JOINED_RELEASED} && w.Some? && !FromJoined(w.value)
      && (m.status == JOINED_RELEASED ==> m.cell == Vacant)
    case DropTake => m.took == None && m.status == JOINED_RELEASED && w.Some? && m.cell == HoldsValue(o)
    case Dropped => m.took == None && m.status == JOINED_RELEASED && m.cell == Vacant
    case Unreachable => false
    case _ => m.took == None && m.status in {EMPTY, VALUE, VALUE_RELEASED} && (w.Some? ==> !FromJoined(w.value))
  }

  /** The winner is taking, or has taken, the joiner `j` that still waits. */
  predicate TookFrom(m: Memory, w: Setter, j: Joiner) {
    if w.TakeJoiner? then m.cell == HoldsJoiner(j) else m.took == Some(j)
  }

  /** Memory, owner and winner fit together; everyone else is on the outside. */
  predicate Core(m: Memory, p: Owner, w: Option<Setter>, o: Outcome) {
    && m.status in {EMPTY, VALUE, VALUE_RELEASED, JOINING, JOINING_RELEASED, JOINED_RELEASED}
    && (w.Some? ==> WinnerOk(m, w.value, o))
    && (w.None? ==> m.took == None && m.status in {EMPTY, JOINING, JOINING_RELEASED, JOINED_RELEASED})
    && (m.status in {EMPTY, JOINING, JOINING_RELEASED} ==> w.None?)
    && (m.status == VALUE_RELEASED ==> m.cell == HoldsValue(o))
    && (m.status == EMPTY ==> m.cell == Vacant)
    && (m.status == JOINING ==> p.JoinWrite? || p.JoinPublish?)
    && (m.status == JOINING_RELEASED ==> p.JoinWait?)
    && OwnerOk(m, p, w, o)
  }

  function WinnerAt(s: State): Option<Setter> {
    if s.winner.Some? && s.winner.value in s.setters then Some(s.setters[s.winner.value]) else None
  }

  function WinningOutcome(s: State): Outcome {
    if s.winner.Some? && s.winner.value in s.given then s.given[s.winner.value] else NO_WAKEUP
  }

  /** A call that has not won holds its own value and knows no more than is true. */
  predicate ContenderOk(m: Memory, p: Setter, o: Outcome) {
    match p
    case Start(x) => x == o
    case TryEmpty(x) => x == o
    case TryJoining(x) => x == o && m.status != EMPTY
    case Lost(x) => x == o && Settled(m.status)
    case _ => false
  }

  ghost predicate Calls(s: State) {
    && s.given.Keys == s.setters.Keys
    && (s.winner.Some? ==> s.winner.value in s.setters)
    && (forall a :: a in s.setters && s.winner != Some(a) ==> ContenderOk(s.memory, s.setters[a], s.given[a]))
  }

  ghost predicate Handles(s: State) {
    && s.wakers == |s.counted|
    && 0 in s.handles
    && s.given.Keys == s.setters.Keys
    && (forall h :: h in s.counted <==> h in s.handles && !s.handles[h].Gone?)
    && (forall h :: h in s.handles && s.handles[h].Used? ==> Waker(h) in s.setters)
    && (forall h :: Waker(h) in s.setters ==> h in s.handles && !s.handles[h].Live?)
    && (forall h :: Waker(h) in s.setters && s.handles[h].Gone? ==> s.counted == {} && s.given[Waker(h)] == NO_WAKEUP)
    && (s.counted == {} ==> exists h :: Waker(h) in s.setters)
  }

  ghost predicate Inv(s: State) {
    Calls(s) && Core(s.memory, s.owner, WinnerAt(s), WinningOutcome(s)) && Handles(s)
  }

  lemma InitialInv()
    ensures Inv(Initial)
  {
  }

  // ----- every step keeps the invariant -----

  lemma WinnerStepKeeps(m: Memory, p: Owner, w: Setter, o: Outcome, spurious: bool)
    requires Core(m, p, Some(w), o) && Writing(w)
    ensures w.TakeJoiner? ==> m.cell.HoldsJoiner?
    ensures var (m', w') := SetterStep(m, w, spurious); Core(m', p, Some(w'), o)
    ensures Settled(SetterStep(m, w, spurious).0.status)
  {
  }

  lemma WinningStepKeeps(m: Memory, p: Owner, c: Setter, o: Outcome, spurious: bool, before: Outcome)
    requires Core(m, p, None, before) && ContenderOk(m, c, o) && Writing(SetterStep(m, c, spurious).1)
    ensures var (m', c') := SetterStep(m, c, spurious); Core(m', p, Some(c'), o)
  {
  }

  lemma ContenderStepKeeps(m: Memory, c: Setter, o: Outcome, spurious: bool, p: Owner, w: Option<Setter>, x: Outcome)
    requires Core(m, p, w, x) && ContenderOk(m, c, o)
    ensures var (m', c') := SetterStep(m, c, spurious);
      if Writing(c') then w.None? && Settled(m'.status) else m' == m && ContenderOk(m, c', o)
  {
  }

  lemma OwnerStepKeeps(m: Memory, p: Owner, w: Option<Setter>, o: Outcome, spurious: bool)
    requires Core(m, p, w, o)
    ensures p.JoinTake? || p.DropTake? ==> m.cell.HoldsValue?
    ensures var (m', p') := OwnerStep(m, p, spurious); Core(m', p', w, o)
    ensures var (m', _) := OwnerStep(m, p, spurious);
      (Settled(m.status) ==> Settled(m'.status)) && (m.status != EMPTY ==> m'.status != EMPTY)
  {
  }

  /** No step that can happen takes the wrong variant out of the cell or underflows the
      waker count: the `unreachable_unchecked` of the union is never met. */
  lemma StepsAreSafe(s: State, e: Event)
    requires Inv(s) && Enabled(s, e)
    ensures Safe(s, e)
  {
    match e
    case Release(h) =>
      assert h in s.counted;
    case Run(a, spurious) =>
      if s.winner == Some(a) { WinnerStepKeeps(s.memory, s.owner, s.setters[a], s.given[a], spurious); }
    case RunOwner(spurious) =>
      OwnerStepKeeps(s.memory, s.owner, WinnerAt(s), WinningOutcome(s), spurious);
    case _ =>
  }

  lemma StepKeepsInv(s: State, e: Event)
    requires Inv(s) && Enabled(s, e)
    ensures Safe(s, e) && Inv(Apply(s, e))
  {
    StepsAreSafe(s, e);
    match e
    case Run(a, spurious) => RunKeepsInv(s, a, spurious);
    case RunOwner(spurious) => OwnerStepKeeps(s.memory, s.owner, WinnerAt(s), WinningOutcome(s), spurious);
    case Release(h) => ReleaseKeepsInv(s, h);
    case Use(h, o) => UseKeepsInv(s, h, o);
    case Interrupt(i, reason) => InterruptKeepsInv(s, i, reason);
    case Clone(h, copy) => CloneKeepsInv(s, h, copy);
    case _ =>
  }

  lemma RunKeepsInv(s: State, a: Agent, spurious: bool)
    requires Inv(s) && Enabled(s, Run(a, spurious)) && Safe(s, Run(a, spurious))
    ensures Inv(Apply(s, Run(a, spurious)))
  {
    var p := s.setters[a];
    var t := Apply(s, Run(a, spurious));
    var (m', p') := SetterStep(s.memory, p, spurious);
    assert t.memory == m' && t.setters[a] == p' && t.given == s.given;
    if s.winner == Some(a) {
      WinnerStepKeeps(s.memory, s.owner, p, s.given[a], spurious);
      assert t.winner == Some(a) && WinnerAt(t) == Some(p');
    } else {
      ContenderStepKeeps(s.memory, p, s.given[a], spurious, s.owner, WinnerAt(s), WinningOutcome(s));
      if Writing(p') {
        WinningStepKeeps(s.memory, s.owner, p, s.given[a], spurious, WinningOutcome(s));
        assert t.winner == Some(a) && WinnerAt(t) == Some(p');
      } else {
        assert t.winner == s.winner && WinnerAt(t) == WinnerAt(s);
      }
    }
    OthersStillContend(s, t, a);
  }

  /** The calls that do not move keep their place when the memory only moves forward. */
  lemma OthersStillContend(s: State, t: State, a: Agent)
    requires Calls(s) && a in s.setters && a in t.setters && t.given == s.given && t.setters == s.setters[a := t.setters[a]]
    requires t.winner == Some(a) || (t.winner == s.winner && ContenderOk(t.memory, t.setters[a], t.given[a]))
    requires s.winner.Some? ==> t.winner == s.winner
    requires Settled(s.memory.status) ==> Settled(t.memory.status)
    requires s.memory.status != EMPTY ==> t.memory.status != EMPTY
    ensures Calls(t)
  {
    forall b | b in t.setters && t.winner != Some(b) ensures ContenderOk(t.memory, t.setters[b], t.given[b]) {
      if b != a { assert ContenderOk(s.memory, s.setters[b], s.given[b]); }
    }
  }

  lemma ReleaseKeepsInv(s: State, h: nat)
    requires Inv(s) && Enabled(s, Release(h)) && Safe(s, Release(h))
    ensures Inv(Apply(s, Release(h)))
  {
    var t := Apply(s, Release(h));
    assert h in s.counted && t.counted == s.counted - {h} && |t.counted| == |s.counted| - 1;
    BeginKeepsCore(s, t);
    if s.wakers == 1 {
      assert Waker(h) in t.setters;
    } else {
      assert t.setters == s.setters;
    }
  }

  lemma UseKeepsInv(s: State, h: nat, o: Outcome)
    requires Inv(s) && Enabled(s, Use(h, o))
    ensures Inv(Apply(s, Use(h, o)))
  {
    BeginKeepsCore(s, Apply(s, Use(h, o)));
  }

  lemma InterruptKeepsInv(s: State, i: nat, reason: int)
    requires Inv(s) && Enabled(s, Interrupt(i, reason))
    ensures Inv(Apply(s, Interrupt(i, reason)))
  {
    BeginKeepsCore(s, Apply(s, Interrupt(i, reason)));
  }

  lemma CloneKeepsInv(s: State, h: nat, copy: nat)
    requires Inv(s) && Enabled(s, Clone(h, copy))
    ensures Inv(Apply(s, Clone(h, copy)))
  {
    BeginKeepsCore(s, Apply(s, Clone(h, copy)));
    assert h in s.counted && copy !in s.counted;
  }

  /** A new call starts outside: it has not won, and nobody else moves. */
  lemma BeginKeepsCore(s: State, t: State)
    requires Inv(s) && t.memory == s.memory && t.owner == s.owner && t.winner == s.winner
    requires t.setters.Keys == t.given.Keys
    requires forall a :: a in s.setters ==> a in t.setters && t.setters[a] == s.setters[a] && t.given[a] == s.given[a]
    requires forall a :: a in t.setters && a !in s.setters ==> t.setters[a] == Start(t.given[a])
    ensures Calls(t) && Core(t.memory, t.owner, WinnerAt(t), WinningOutcome(t))
  {
  }

  // ----- runs -----

  /** Any interleaving. A step that would take the wrong variant out of the cell may lead
      anywhere, so that no run is left out by assuming the memory is used well. */
  ghost predicate IsRun(run: seq<State>, events: seq<Event>) {
    && |run| == |events| + 1
    && run[0] == Initial
    && forall i {:trigger events[i]} :: 0 <= i < |events| ==>
         Enabled(run[i], events[i]) && (Safe(run[i], events[i]) ==> run[i + 1] == Apply(run[i], events[i]))
  }

  lemma {:induction false} RunsKeepInv(run: seq<State>, events: seq<Event>, i: nat)
    requires IsRun(run, events) && i < |run|
    ensures Inv(run[i])
    ensures i < |events| ==> Safe(run[i], events[i]) && run[i + 1] == Apply(run[i], events[i])
  {
    if i > 0 {
      RunsKeepInv(run, events, i - 1);
      StepKeepsInv(run[i - 1], events[i - 1]);
    }
    if i < |events| { StepsAreSafe(run[i], events[i]); }
  }

  /** The `unreachable!` at the end of `join_value` cannot run, nor can any access to the cell
      that expects another variant, nor an underflow of the waker count. */
  lemma UnreachableIsNotReached(run: seq<State>, events: seq<Event>, i: nat)
    requires IsRun(run, events) && i < |run|
    ensures run[i].owner != Unreachable
    ensures i < |events| ==> Safe(run[i], events[i])
  {
    RunsKeepInv(run, events, i);
  }

  /** Its next step reads or writes the cell. */
  predicate SetterAccesses(p: Setter) { p.WriteFirst? || p.TakeJoiner? || p.WriteJoined? }

  predicate OwnerAccesses(p: Owner) { p.JoinWrite? || p.JoinTake? || p.DropTake? }

  /** In every reachable state one agent at most is about to touch the cell; whoever takes
      finds the variant it expects, and whoever writes overwrites nothing that is owned. */
  lemma CellIsExclusive(run: seq<State>, events: seq<Event>, i: nat)
    requires IsRun(run, events) && i < |run|
    ensures var s := run[i];
      && (forall a, b :: a in s.setters && b in s.setters && SetterAccesses(s.setters[a]) && SetterAccesses(s.setters[b]) ==>
            a == b)
      && (forall a :: a in s.setters && SetterAccesses(s.setters[a]) ==> !OwnerAccesses(s.owner))
      && (forall a :: a in s.setters && s.setters[a].TakeJoiner? ==> s.memory.cell.HoldsJoiner?)
      && (forall a :: a in s.setters && (s.setters[a].WriteFirst? || s.setters[a].WriteJoined?) ==>
            s.memory.cell == Vacant)
      && (s.owner.JoinWrite? ==> s.memory.cell == Vacant)
      && (s.owner.JoinTake? || s.owner.DropTake? ==> s.memory.cell.HoldsValue?)
  {
    RunsKeepInv(run, events, i);
    var s := run[i];
    forall a | a in s.setters && SetterAccesses(s.setters[a]) ensures s.winner == Some(a) {
      assert s.winner != Some(a) ==> ContenderOk(s.memory, s.setters[a], s.given[a]);
    }
  }

  /** What the owner got is what the one successful call brought, for good: no other call
      has succeeded or ever will, and every failed call has its own value back. */
  lemma JoinGetsTheWinner(run: seq<State>, events: seq<Event>, i: nat, j: nat)
    requires IsRun(run, events) && i <= j < |run| && run[i].owner.Returned?
    ensures run[j].owner == run[i].owner
    ensures var s := run[j];
      && s.given.Keys == s.setters.Keys
      && (exists w :: w in s.setters && s.setters[w].Woken?)
      && (forall w :: w in s.setters && s.setters[w].Woken? ==> s.given[w] == s.owner.o)
      && (forall v, w :: v in s.setters && w in s.setters && s.setters[v].Woken? && s.setters[w].Woken? ==> v == w)
      && (forall a :: a in s.setters && s.setters[a].Lost? ==> s.setters[a].o == s.given[a])
  {
    OwnerStays(run, events, i, j);
    RunsKeepInv(run, events, j);
    var s := run[j];
    assert s.setters[s.winner.value].Woken?;
    forall a | a in s.setters && s.setters[a].Woken? ensures s.winner == Some(a) {
      assert s.winner != Some(a) ==> ContenderOk(s.memory, s.setters[a], s.given[a]);
    }
    forall a | a in s.setters && s.setters[a].Lost? ensures s.setters[a].o == s.given[a] {
      assert s.winner != Some(a) ==> ContenderOk(s.memory, s.setters[a], s.given[a]);
    }
  }

  lemma {:induction false} OwnerStays(run: seq<State>, events: seq<Event>, i: nat, j: nat)
    requires IsRun(run, events) && i <= j < |run| && run[i].owner.Returned?
    ensures run[j].owner == run[i].owner
  {
    if i < j {
      OwnerStays(run, events, i, j - 1);
      RunsKeepInv(run, events, j - 1);
    }
  }

  /** The documented guarantee of `Session::wait`: either it panics and no `wake` has
      reported or will report success, or it returns a value and exactly one did. */
  lemma PanicMeansNoWake(run: seq<State>, events: seq<Event>, i: nat, j: nat, a: Agent)
    requires IsRun(run, events) && i <= j < |run| && run[i].owner.Returned? && run[i].owner.o.Panic?
    requires a in run[j].setters && a in run[j].given && run[j].given[a].Value?
    ensures !run[j].setters[a].Woken?
  {
    JoinGetsTheWinner(run, events, i, j);
  }

  /** Once every handle has been used or dropped and every call made through one has
      returned, somebody has won: the owner is not left waiting on an open session. */
  lemma JoinerIsNotStranded(run: seq<State>, events: seq<Event>, i: nat)
    requires IsRun(run, events) && i < |run|
    requires forall h :: h in run[i].handles ==> !run[i].handles[h].Live?
    requires forall h :: Waker(h) in run[i].setters ==> Finished(run[i].setters[Waker(h)])
    ensures Settled(run[i].memory.status)
  {
    RunsKeepInv(run, events, i);
    var s := run[i];
    assert exists h :: Waker(h) in s.setters by {
      if s.counted != {} {
        var h :| h in s.counted;
        assert s.handles[h].Used?;
      }
    }
    var h :| Waker(h) in s.setters;
    if s.winner != Some(Waker(h)) { assert ContenderOk(s.memory, s.setters[Waker(h)], s.given[Waker(h)]); }
  }

  /** The "no wakeup" fault is raised only when every handle was dropped unused. */
  lemma FaultMeansNoUse(run: seq<State>, events: seq<Event>, i: nat, h: nat)
    requires IsRun(run, events) && i < |run|
    requires Waker(h) in run[i].setters && h in run[i].handles && run[i].handles[h].Gone?
    ensures Waker(h) in run[i].given && run[i].given[Waker(h)] == NO_WAKEUP
    ensures forall k :: k in run[i].handles ==> run[i].handles[k].Gone?
  {
    RunsKeepInv(run, events, i);
  }

  /** While the winner is about to unpark the thread it took, that thread is still inside
      `join_value`, so its handle is alive. */
  lemma UnparkedThreadStillJoins(run: seq<State>, events: seq<Event>, i: nat, a: Agent)
    requires IsRun(run, events) && i < |run|
    requires a in run[i].setters && run[i].setters[a].Unpark?
    ensures run[i].owner == JoinWait(Thread) || run[i].owner == JoinClaim(Thread)
  {
    RunsKeepInv(run, events, i);
    assert run[i].winner != Some(a) ==> ContenderOk(run[i].memory, run[i].setters[a], run[i].given[a]);
  }

  predicate AnnouncedTo(s: State, a: Agent)
    requires s.owner.JoinWait? && a in s.setters && s.setters[a].Woken?
  {
    match s.owner.j
    case Task(co) => s.setters[a].task == Some(co)
    case Thread => s.memory.unparked && s.setters[a].task == None
  }

  /** An owner that still waits on a released value is one its winner has announced itself
      to: its thread was unparked, or its coroutine is what the winning call returned. */
  lemma WaitingOwnerIsAnnounced(run: seq<State>, events: seq<Event>, i: nat)
    requires IsRun(run, events) && i < |run|
    requires run[i].owner.JoinWait? && run[i].memory.status == VALUE_RELEASED
    ensures exists a :: a in run[i].setters && run[i].setters[a].Woken? && AnnouncedTo(run[i], a)
  {
    RunsKeepInv(run, events, i);
    assert run[i].setters[run[i].winner.value].Woken?;
  }

  lemma {:induction false} DroppedStays(run: seq<State>, events: seq<Event>, i: nat, j: nat)
    requires IsRun(run, events) && i <= j < |run| && run[i].owner.Dropped?
    ensures run[j].owner.Dropped?
  {
    if i < j {
      DroppedStays(run, events, i, j - 1);
      RunsKeepInv(run, events, j - 1);
    }
  }

  /** A session that was dropped is closed for good, and a value that had been set is out of
      its cell. */
  lemma DroppedLeavesNothing(run: seq<State>, events: seq<Event>, i: nat, j: nat)
    requires IsRun(run, events) && i <= j < |run| && run[i].owner.Dropped?
    ensures run[j].owner.Dropped? && run[j].memory.status == JOINED_RELEASED && run[j].memory.cell == Vacant
  {
    DroppedStays(run, events, i, j);
    RunsKeepInv(run, events, j);
  }

  lemma {:induction false} NoWinnerAfterDrop(run: seq<State>, events: seq<Event>, i: nat, j: nat)
    requires IsRun(run, events) && i <= j < |run| && run[i].owner.Dropped?
    ensures run[j].winner == run[i].winner
  {
    if i < j {
      NoWinnerAfterDrop(run, events, i, j - 1);
      DroppedLeavesNothing(run, events, i, j - 1);
      RunsKeepInv(run, events, j - 1);
      var s, t := run[j - 1], run[j];
      if events[j - 1].Run? && s.winner != Some(events[j - 1].a) {
        assert ContenderOk(s.memory, s.setters[events[j - 1].a], s.given[events[j - 1].a]);
      }
    }
  }

  /** No call is writing to a dropped session, then or later, and a call succeeds only if it
      had won before the drop. */
  lemma DroppedRefusesCalls(run: seq<State>, events: seq<Event>, i: nat, j: nat, a: Agent)
    requires IsRun(run, events) && i <= j < |run| && run[i].owner.Dropped? && a in run[j].setters
    ensures !Writing(run[j].setters[a]) && !run[j].setters[a].Unpark?
    ensures run[j].setters[a].Woken? ==> run[i].winner == Some(a)
  {
    DroppedStays(run, events, i, j);
    NoWinnerAfterDrop(run, events, i, j);
    RunsKeepInv(run, events, j);
    assert run[j].winner != Some(a) ==> ContenderOk(run[j].memory, run[j].setters[a], run[j].given[a]);
  }

  // ----- refinement of an atomic one-shot cell -----

  datatype OneShot = Open | Decided(o: Outcome) | Consumed(o: Outcome) | Closed

  function Abstract(s: State): OneShot {
    if s.winner.None? then if s.memory.status == JOINED_RELEASED then Closed else Open
    else if s.memory.status == JOINED_RELEASED then Consumed(WinningOutcome(s))
    else Decided(WinningOutcome(s))
  }

  ghost predicate OneShotStep(s: State, e: Event, t: State)
    requires e.Run? ==> e.a in s.setters && e.a in s.given && e.a in t.setters
  {
    var x, y := Abstract(s), Abstract(t);
    && (|| x == y
        || (x == Open && e.Run? && t.winner == Some(e.a) && y == Decided(s.given[e.a]))
        || (x == Open && e.RunOwner? && y == Closed && t.owner == Dropped)
        || (x.Decided? && e.RunOwner? && y == Consumed(x.o) && (t.owner == JoinTake || t.owner == DropTake)))
    && (e.Run? && t.setters[e.a].Lost? ==> x != Open)
    && (e.Run? && t.setters[e.a].Woken? ==> x == Decided(s.given[e.a]))
  }

  /** Every step is one step of the atomic cell or none: a call decides an open cell with
      its own outcome, the owner closes an open cell or consumes a decided one, a call
      fails only on a cell that is not open any more, and succeeds only on a cell that it
      has decided. */
  lemma StepRefinesOneShot(s: State, e: Event)
    requires Inv(s) && Enabled(s, e) && Safe(s, e)
    ensures e.Run? ==> e.a in s.given
    ensures OneShotStep(s, e, Apply(s, e))
  {
    match e
    case Run(a, spurious) => RunRefines(s, a, spurious);
    case RunOwner(spurious) => OwnerRefines(s, spurious);
    case _ => CallsRefine(s, e);
  }

  lemma CallsRefine(s: State, e: Event)
    requires Inv(s) && Enabled(s, e) && Safe(s, e) && !e.Run? && !e.RunOwner?
    ensures OneShotStep(s, e, Apply(s, e))
  {
    StepKeepsInv(s, e);
  }

  lemma OwnerRefines(s: State, spurious: bool)
    requires Inv(s) && Safe(s, RunOwner(spurious))
    ensures OneShotStep(s, RunOwner(spurious), Apply(s, RunOwner(spurious)))
  {
    OwnerStepKeeps(s.memory, s.owner, WinnerAt(s), WinningOutcome(s), spurious);
  }

  lemma RunRefines(s: State, a: Agent, spurious: bool)
    requires Inv(s) && Enabled(s, Run(a, spurious)) && Safe(s, Run(a, spurious))
    ensures a in s.given
    ensures OneShotStep(s, Run(a, spurious), Apply(s, Run(a, spurious)))
  {
    if s.winner == Some(a) {
      WinnerStepKeeps(s.memory, s.owner, s.setters[a], s.given[a], spurious);
    } else {
      ContenderStepKeeps(s.memory, s.setters[a], s.given[a], spurious, s.owner, WinnerAt(s), WinningOutcome(s));
    }
  }
}
