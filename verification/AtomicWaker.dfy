/** AtomicWaker as a state machine: one poller, any number of threads that call `wake`.

    `Step` performs one atomic operation (the slot's mutex is taken in one step and released
    in another); None is a panic. The last four fields of a Cell are history: they record
    what has happened, and neither `poll` nor `wake` depends on them. */
module AtomicWaker {
  import opened Prelude

  type Tid = nat

  datatype WakerState = EMPTY | UPDATING | WAITING | NOTIFIED

  /** Where the poller is inside `poll`; ctx names the waker of the context it was given. */
  datatype PollPc =
    | Idle
    | LoadFlag(ctx: Option<nat>) | LoadState(ctx: Option<nat>)
    | Claim(seen: WakerState, k: nat) | LockSlot(k: nat) | InSlot(k: nat) | Publish(k: nat)
    | SetFlag | Clear

  /** Where a caller of `wake` is once it has seen WAITING. */
  datatype WakePc = ToLock | Holding | Firing(waker: nat)

  datatype Lock = Free | ByPoller | ByTaker(t: Tid)

  /** The result of a poll, with the context it was given. */
  datatype Answer = Ready | Pending(ctx: Option<nat>)

  datatype Cell = Cell(
    state: WakerState,
    flag: bool,                    // `notified`
    slot: Option<nat>, lock: Lock, // the mutex around the stored waker
    poller: PollPc,
    takers: map<Tid, WakePc>,
    registered: Option<nat>,       // the context last stored, while no poll has answered Ready or begun to replace it
    owed: bool,                    // a wake has happened since it was stored
    fired: bool,                   // it has been woken since it was stored
    answers: seq<Answer>)          // the results of all polls

  datatype Event =
    | Poll(ctx: Option<nat>) | PollStep
    | Wake(t: Tid) | WakeStep(t: Tid)
    | Reset

  const New: Cell := Cell(EMPTY, false, None, Free, Idle, map[], None, false, false, [])

  function Step(c: Cell, e: Event): (r: Option<Cell>) {
    match e
    case Poll(ctx) => Some(if c.poller.Idle? then c.(poller := LoadFlag(ctx)) else c)
    case PollStep => PollNext(c)
    case Wake(t) => Some(if t in c.takers then c else WakeUpdate(c, t))
    case WakeStep(t) => Some(if t in c.takers then WakeNext(c, t) else c)
    case Reset => if !c.poller.Idle? then Some(c) else if c.flag then Some(c.(flag := false)) else None
  }

  function Run(c: Cell, es: seq<Event>): (r: Option<Cell>)
    decreases |es|
  {
    if es == [] then Some(c)
    else match Step(c, es[0])
      case None => None
      case Some(c') => Run(c', es[1..])
  }

  function Return(c: Cell, answer: Answer): (r: Cell) { c.(poller := Idle, answers := c.answers + [answer]) }

  function PollNext(c: Cell): (r: Option<Cell>) {
    var p := c.poller;
    if p.Idle? then Some(c)
    else if p.LoadFlag? then Some(if c.flag then Return(c, Ready) else c.(poller := LoadState(p.ctx)))
    else if p.LoadState? then
      if c.state == UPDATING then None
      else if c.state == NOTIFIED then Some(c.(poller := SetFlag))
      else Some(if p.ctx.None? then Return(c, Pending(None)) else c.(poller := Claim(c.state, p.ctx.value)))
    else if p.Claim? then
      if c.state == p.seen then Some(c.(state := UPDATING, poller := LockSlot(p.k), registered := None))
      else if c.state == NOTIFIED then Some(c.(poller := SetFlag))
      else None
    else if p.LockSlot? then
      if c.lock.Free? then Some(c.(lock := ByPoller, poller := InSlot(p.k))) else None
    else if p.InSlot? then
      Some(c.(slot := Some(p.k), lock := Free, poller := Publish(p.k),
              registered := Some(p.k), owed := c.state == NOTIFIED, fired := false))
    else if p.Publish? then
      if c.state == UPDATING then Some(Return(c.(state := WAITING), Pending(Some(p.k))))
      else if c.state == NOTIFIED then Some(c.(poller := SetFlag, registered := None))
      else None
    else if p.SetFlag? then Some(c.(flag := true, poller := Clear))
    else Some(Return(c.(state := EMPTY, registered := None), Ready))
  }

  /** The `fetch_update` of `wake`. */
  function WakeUpdate(c: Cell, t: Tid): (r: Cell) {
    c.(state := NOTIFIED, owed := true,
       takers := if c.state == WAITING then c.takers[t := ToLock] else c.takers)
  }

  function WakeNext(c: Cell, t: Tid): (r: Cell)
    requires t in c.takers
  {
    match c.takers[t]
    case ToLock => if c.lock.Free? then c.(lock := ByTaker(t), takers := c.takers[t := Holding]) else c
    case Holding =>
      c.(lock := Free, slot := None,
         takers := if c.slot.Some? then c.takers[t := Firing(c.slot.value)] else c.takers - {t})
    case Firing(w) => c.(takers := c.takers - {t}, fired := c.fired || c.registered == Some(w))
  }

  // ---- invariants ----------------------------------------------------------------------------

  predicate InFlight(pc: WakePc) { pc.ToLock? || pc.Holding? }

  ghost predicate SlotTaker(c: Cell) { exists t :: t in c.takers && InFlight(c.takers[t]) }

  ghost predicate Fires(c: Cell, w: nat) { exists t :: t in c.takers && c.takers[t] == Firing(w) }

  predicate Updating(p: PollPc) { p.LockSlot? || p.InSlot? || p.Publish? }

  /** The states agree with the place of the poller. */
  predicate Ordered(c: Cell) {
    && (c.state == UPDATING ==> Updating(c.poller))
    && (Updating(c.poller) ==> c.state == UPDATING || c.state == NOTIFIED)
    && (c.poller.Claim? ==>
          && (c.poller.seen == EMPTY || c.poller.seen == WAITING)
          && (c.state == c.poller.seen || c.state == NOTIFIED))
    && (c.poller.SetFlag? || c.poller.Clear? ==> c.state == NOTIFIED)
    && (c.poller.LoadState? || c.poller.Claim? || Updating(c.poller) || c.poller.SetFlag? ==> !c.flag)
    && (c.poller.Clear? ==> c.flag)
  }

  ghost predicate Locks(c: Cell) {
    && (c.lock.ByPoller? <==> c.poller.InSlot?)
    && (forall t :: c.lock == ByTaker(t) <==> t in c.takers && c.takers[t].Holding?)
  }

  /** A registered context is in the slot, about to be woken, or has been woken; after a wake
      a context still in the slot has a taker coming for it, unless its own poll is going on
      and will answer Ready. */
  ghost predicate Registered(c: Cell) {
    && (c.poller.Publish? ==> c.registered == Some(c.poller.k))
    && (c.registered.Some? ==>
          && !c.poller.LockSlot? && !c.poller.InSlot? && (c.flag ==> c.poller.Clear?)
          && (c.state == NOTIFIED <==> c.owed)
          && (c.state == NOTIFIED || c.state == WAITING || (c.state == UPDATING && c.poller.Publish?))
          && (c.slot == c.registered || c.fired || Fires(c, c.registered.value))
          && (c.owed && c.slot == c.registered && !c.poller.Publish? ==>
                c.fired || Fires(c, c.registered.value) || SlotTaker(c)))
  }

  ghost predicate Inv(c: Cell) { Ordered(c) && Locks(c) && Registered(c) }

  /** The poller and a taker cannot meet in the slot: while a taker is on its way the next
      poll stops before the slot. */
  ghost predicate Calm(c: Cell) {
    SlotTaker(c) ==> c.flag || (c.state == NOTIFIED && !Updating(c.poller))
  }

  lemma FiresKept(c: Cell, c': Cell, w: nat, t: Tid)
    requires Fires(c, w) && forall u | u in c.takers && u != t :: u in c'.takers && c'.takers[u] == c.takers[u]
    requires t in c.takers && c.takers[t] == Firing(w) ==> t in c'.takers && c'.takers[t] == Firing(w)
    ensures Fires(c', w)
  {
    var u :| u in c.takers && c.takers[u] == Firing(w);
    assert u in c'.takers && c'.takers[u] == Firing(w);
  }

  /** `poll` leaves the takers alone, so what they owe stays the same. */
  lemma PollTakers(c: Cell)
    requires PollNext(c).Some?
    ensures var c' := PollNext(c).value;
      && c'.takers == c.takers
      && (SlotTaker(c') <==> SlotTaker(c))
      && (forall w :: Fires(c', w) <==> Fires(c, w))
  {
    var c' := PollNext(c).value;
    assert c'.takers == c.takers;
  }

  lemma PollOrdered(c: Cell)
    requires Ordered(c) && Locks(c) && PollNext(c).Some?
    ensures Ordered(PollNext(c).value) && Locks(PollNext(c).value)
    ensures Calm(c) ==> Calm(PollNext(c).value)
  {
    PollTakers(c);
  }

  lemma PollKeeps(c: Cell)
    requires Inv(c) && PollNext(c).Some?
    ensures Inv(PollNext(c).value)
    ensures Calm(c) ==> Calm(PollNext(c).value)
  {
    PollTakers(c);
    PollOrdered(c);
    hide Locks, Calm, SlotTaker, Fires;
  }

  /** Without a taker that could hold the slot no step of `poll` panics. */
  lemma PollSafe(c: Cell)
    requires Inv(c) && (c.poller.LockSlot? ==> !SlotTaker(c))
    ensures PollNext(c).Some?
  {
    if c.poller.LockSlot? && c.lock.ByTaker? {
      assert c.lock.t in c.takers && InFlight(c.takers[c.lock.t]);
    }
  }

  lemma WakeKeeps(c: Cell, t: Tid)
    requires Inv(c) && t !in c.takers
    ensures Inv(WakeUpdate(c, t))
    ensures Calm(c) ==> Calm(WakeUpdate(c, t))
  {
    var c' := WakeUpdate(c, t);
    if c.state == WAITING { assert t in c'.takers && InFlight(c'.takers[t]); }
    if c.registered.Some? && Fires(c, c.registered.value) { FiresKept(c, c', c.registered.value, t); }
    if SlotTaker(c) {
      var u :| u in c.takers && InFlight(c.takers[u]);
      assert u in c'.takers && InFlight(c'.takers[u]);
    }
    if SlotTaker(c') && c.state != WAITING { assert SlotTaker(c); }
  }

  /** A taker that goes on leaves the others' business alone. */
  lemma TakerPlaces(c: Cell, t: Tid)
    requires Ordered(c) && Locks(c) && t in c.takers
    ensures var c' := WakeNext(c, t);
      && Ordered(c') && Locks(c') && (SlotTaker(c') ==> SlotTaker(c))
  {
    var c' := WakeNext(c, t);
    if SlotTaker(c') {
      var u :| u in c'.takers && InFlight(c'.takers[u]);
      assert u in c.takers && InFlight(c.takers[u]);
    }
  }

  lemma TakerRegistered(c: Cell, t: Tid)
    requires Inv(c) && t in c.takers
    ensures Registered(WakeNext(c, t))
  {
    var c' := WakeNext(c, t);
    if c.registered.Some? {
      var k := c.registered.value;
      if c.takers[t].Holding? && c.slot == Some(k) { assert c'.takers[t] == Firing(k); }
      if Fires(c, k) && c.takers[t] != Firing(k) { FiresKept(c, c', k, t); }
      if c.takers[t].ToLock? { assert t in c'.takers && InFlight(c'.takers[t]); }
      if c.takers[t].Firing? && SlotTaker(c) {
        var u :| u in c.takers && InFlight(c.takers[u]);
        assert u in c'.takers && InFlight(c'.takers[u]);
      }
    }
  }

  lemma WakeStepKeeps(c: Cell, t: Tid)
    requires Inv(c) && t in c.takers
    ensures Inv(WakeNext(c, t))
    ensures Calm(c) ==> Calm(WakeNext(c, t))
  {
    TakerPlaces(c, t);
    TakerRegistered(c, t);
    hide SlotTaker, Registered, Locks, Ordered;
  }

  lemma StepKeeps(c: Cell, e: Event)
    requires Inv(c) && Step(c, e).Some?
    ensures Inv(Step(c, e).value)
    ensures Calm(c) && !e.Reset? ==> Calm(Step(c, e).value)
  {
    match e
    case Poll(_) =>
      var c' := Step(c, e).value;
      assert SlotTaker(c') <==> SlotTaker(c);
      if c.registered.Some? { assert Fires(c', c.registered.value) <==> Fires(c, c.registered.value); }
    case PollStep => PollKeeps(c);
    case Wake(t) => if t !in c.takers { WakeKeeps(c, t); }
    case WakeStep(t) => if t in c.takers { WakeStepKeeps(c, t); }
    case Reset =>
      var c' := Step(c, e).value;
      assert SlotTaker(c') <==> SlotTaker(c);
      if c.registered.Some? { assert Fires(c', c.registered.value) <==> Fires(c, c.registered.value); }
  }

  lemma RunKeeps(c: Cell, es: seq<Event>)
    requires Inv(c) && Run(c, es).Some?
    ensures Inv(Run(c, es).value)
    decreases |es|
  {
    if es != [] {
      StepKeeps(c, es[0]);
      RunKeeps(Step(c, es[0]).value, es[1..]);
    }
  }

  lemma NewOk()
    ensures Inv(New) && Calm(New)
  {
  }

  // ---- what it promises ----------------------------------------------------------------------

  predicate NoReset(es: seq<Event>) { forall e | e in es :: !e.Reset? }

  /** From a calm state no run panics before the next reset: `try_lock().unwrap()` is safe and
      no `unreachable!` or `assert_eq!` is hit. */
  lemma CalmRunSafe(c: Cell, es: seq<Event>)
    requires Inv(c) && Calm(c) && NoReset(es)
    ensures Run(c, es).Some? && Inv(Run(c, es).value) && Calm(Run(c, es).value)
    decreases |es|
  {
    if es != [] {
      assert es[0] in es;
      if es[0].PollStep? { PollSafe(c); }
      StepKeeps(c, es[0]);
      CalmRunSafe(Step(c, es[0]).value, es[1..]);
    }
  }

  lemma NeverPanics(es: seq<Event>)
    requires NoReset(es)
    ensures Run(New, es).Some?
  {
    NewOk();
    CalmRunSafe(New, es);
  }

  ghost predicate Reachable(c: Cell) { exists es: seq<Event> :: Run(New, es) == Some(c) }

  lemma ReachableInv(c: Cell)
    requires Reachable(c)
    ensures Inv(c)
  {
    var es: seq<Event> :| Run(New, es) == Some(c);
    NewOk();
    RunKeeps(New, es);
  }

  /** With `reset` a late taker can meet the poller in the slot. Exactly when: a taker is on its
      way at the reset and the state is back at EMPTY. */
  lemma ResetSafety(c: Cell, c': Cell)
    requires Reachable(c) && c.poller.Idle? && Step(c, Reset) == Some(c')
    ensures (exists es :: NoReset(es) && Run(c', es) == None) <==> SlotTaker(c') && c'.state != NOTIFIED
  {
    ReachableInv(c);
    StepKeeps(c, Reset);
    if SlotTaker(c') && c'.state != NOTIFIED {
      ResetPanics(c');
    } else {
      forall es | NoReset(es) ensures Run(c', es).Some? { CalmRunSafe(c', es); }
    }
  }

  /** A poll that finds the slot locked. */
  const FivePolls: seq<Event> := [Poll(Some(0)), PollStep, PollStep, PollStep, PollStep]

  lemma ResetPanics(c: Cell)
    requires Inv(c) && SlotTaker(c) && c.state != NOTIFIED && !c.flag && c.poller.Idle?
    ensures exists es :: NoReset(es) && Run(c, es) == None
  {
    if c.lock.Free? {
      var t :| t in c.takers && InFlight(c.takers[t]);
      TakerFirst(c, t);
    } else {
      LockedNow(c);
      assert NoReset(FivePolls) && Run(c, FivePolls) == None;
    }
  }

  lemma LockedNow(c: Cell)
    requires Ordered(c) && !c.lock.Free? && c.state != NOTIFIED && !c.flag && c.poller.Idle?
    ensures Run(c, FivePolls) == None
  {
    SlotBusyPanics(c);
    hide Run;
  }

  /** The taker gets the lock first. */
  lemma TakerFirst(c: Cell, t: Tid)
    requires Inv(c) && c.lock.Free? && t in c.takers && InFlight(c.takers[t])
    requires c.state != NOTIFIED && !c.flag && c.poller.Idle?
    ensures exists es :: NoReset(es) && Run(c, es) == None
  {
    var c1 := WakeNext(c, t);
    assert c.takers[t].ToLock?;
    WakeStepKeeps(c, t);
    LockedNow(c1);
    hide Inv, Ordered, Locks, Registered;
    var es := [WakeStep(t)] + FivePolls;
    assert es[1..] == FivePolls;
    assert NoReset(es) && Run(c, es) == None;
  }

  lemma SlotBusyPanics(c: Cell)
    requires !c.lock.Free? && (c.state == EMPTY || c.state == WAITING) && !c.flag && c.poller.Idle?
    ensures Run(c, [Poll(Some(0)), PollStep, PollStep, PollStep, PollStep]) == None
  {
    var c1 := c.(poller := LoadFlag(Some(0)));
    var c2 := c.(poller := LoadState(Some(0)));
    var c3 := c.(poller := Claim(c.state, 0));
    var c4 := c3.(state := UPDATING, poller := LockSlot(0), registered := None);
    assert Step(c, Poll(Some(0))) == Some(c1);
    assert Step(c1, PollStep) == Some(c2);
    assert Step(c2, PollStep) == Some(c3);
    assert Step(c3, PollStep) == Some(c4);
    assert Step(c4, PollStep) == None;
    assert [Poll(Some(0)), PollStep, PollStep, PollStep, PollStep][1..] == [PollStep, PollStep, PollStep, PollStep];
    assert [PollStep, PollStep, PollStep, PollStep][1..] == [PollStep, PollStep, PollStep];
    assert [PollStep, PollStep, PollStep][1..] == [PollStep, PollStep];
    assert [PollStep, PollStep][1..] == [PollStep];
  }

  /** A run in which that happens: a poll registers, a wake comes, and the next poll answers Ready
      and is followed by a reset before the waking thread has reached the slot. */
  lemma ResetCanPanic()
    ensures exists es: seq<Event> :: Run(New, es) == None
  {
    hide Step, SlotTaker, Inv, Reachable;
    var es := ReachesReset();
    var c := AfterReset();
    assert Reachable(c) by { ShowReachable(c, es); }
    ReachableInv(c);
    LateTaker();
    ResetPanics(c);
    var more :| NoReset(more) && Run(c, more) == None;
    RunConcat(New, es, more);
  }

  lemma ShowReachable(c: Cell, es: seq<Event>)
    requires Run(New, es) == Some(c)
    ensures Reachable(c)
  {
  }

  lemma LateTaker()
    ensures SlotTaker(AfterReset()) && AfterReset().state == EMPTY && !AfterReset().flag && AfterReset().poller.Idle?
  {
    assert 1 in AfterReset().takers && InFlight(AfterReset().takers[1]);
  }

  lemma ReachesReset() returns (es: seq<Event>)
    ensures Run(New, es) == Some(AfterReset())
  {
    var p, q := [Poll(Some(0))] + Steps(6), [Wake(1)] + ([Poll(Some(0))] + Steps(4));
    es := p + q + [Reset];
    assert [Reset][1..] == [] && Run(Woken0(), [Reset]) == Some(AfterReset());
    hide Run, Steps;
    FirstPoll();
    SecondPoll();
    RunConcat(New, p, q);
    RunConcat(New, p + q, [Reset]);
  }

  function Steps(n: nat): (es: seq<Event>) { if n == 0 then [] else [PollStep] + Steps(n - 1) }

  /** The first poll has registered context 0. */
  function Waiting0(): (c: Cell) {
    New.(state := WAITING, slot := Some(0), registered := Some(0), answers := [Pending(Some(0))])
  }

  function Woken0(): (c: Cell) {
    Waiting0().(state := EMPTY, flag := true, takers := map[1 := ToLock], registered := None, owed := true,
      answers := [Pending(Some(0)), Ready])
  }

  function AfterReset(): (c: Cell) { Woken0().(flag := false) }

  lemma OneStep(c: Cell, n: nat)
    requires n > 0 && PollNext(c).Some?
    ensures Run(c, Steps(n)) == Run(PollNext(c).value, Steps(n - 1))
  {
    assert Steps(n)[1..] == Steps(n - 1);
  }

  lemma BeginPoll(c: Cell, rest: seq<Event>)
    requires c.poller.Idle?
    ensures Run(c, [Poll(Some(0))] + rest) == Run(c.(poller := LoadFlag(Some(0))), rest)
  {
    assert ([Poll(Some(0))] + rest)[1..] == rest;
  }

  /** The cell in the middle of the first poll. */
  function Claimed0(): (c: Cell) { New.(state := UPDATING, poller := LockSlot(0)) }

  lemma FirstHalf()
    ensures Run(New.(poller := LoadFlag(Some(0))), Steps(6)) == Run(Claimed0(), Steps(3))
  {
    hide Run, Steps;
    OneStep(New.(poller := LoadFlag(Some(0))), 6);
    OneStep(New.(poller := LoadState(Some(0))), 5);
    OneStep(New.(poller := Claim(EMPTY, 0)), 4);
  }

  lemma SecondHalf()
    ensures Run(Claimed0(), Steps(3)) == Some(Waiting0())
  {
    hide Run, Steps;
    assert [] + [Pending(Some(0))] == [Pending(Some(0))];
    OneStep(Claimed0(), 3);
    OneStep(Claimed0().(poller := InSlot(0), lock := ByPoller), 2);
    OneStep(Claimed0().(poller := Publish(0), slot := Some(0), registered := Some(0)), 1);
    NoSteps(Waiting0());
  }

  lemma FirstPoll()
    ensures Run(New, [Poll(Some(0))] + Steps(6)) == Some(Waiting0())
  {
    hide Run, Steps;
    BeginPoll(New, Steps(6));
    FirstHalf();
    SecondHalf();
  }

  lemma NoSteps(c: Cell)
    ensures Run(c, Steps(0)) == Some(c)
  {
  }

  lemma SecondPoll()
    ensures Run(Waiting0(), [Wake(1)] + ([Poll(Some(0))] + Steps(4))) == Some(Woken0())
  {
    var c := WakeUpdate(Waiting0(), 1);
    hide Run, Steps;
    BeginWake(Waiting0(), [Poll(Some(0))] + Steps(4));
    BeginPoll(c, Steps(4));
    SecondSteps(c);
  }

  lemma BeginWake(c: Cell, rest: seq<Event>)
    requires 1 !in c.takers
    ensures Run(c, [Wake(1)] + rest) == Run(WakeUpdate(c, 1), rest)
  {
    assert ([Wake(1)] + rest)[1..] == rest;
  }

  lemma SecondSteps(c: Cell)
    requires c == WakeUpdate(Waiting0(), 1)
    ensures Run(c.(poller := LoadFlag(Some(0))), Steps(4)) == Some(Woken0())
  {
    hide Run, Steps;
    assert [Pending(Some(0))] + [Ready] == [Pending(Some(0)), Ready];
    OneStep(c.(poller := LoadFlag(Some(0))), 4);
    OneStep(c.(poller := LoadState(Some(0))), 3);
    OneStep(c.(poller := SetFlag), 2);
    OneStep(c.(poller := Clear, flag := true), 1);
    NoSteps(Woken0());
  }

  lemma {:induction false} RunConcat(c: Cell, a: seq<Event>, b: seq<Event>)
    requires Run(c, a).Some?
    ensures Run(c, a + b) == Run(Run(c, a).value, b)
    decreases |a|
  {
    if a == [] {
      assert a + b == b;
    } else {
      assert (a + b)[1..] == a[1..] + b;
      RunConcat(Step(c, a[0]).value, a[1..], b);
    }
  }

  // ---- waiters ---------------------------------------------------------------------------------

  predicate BeforeClaim(p: PollPc) { p.Idle? || p.LoadFlag? || p.LoadState? || p.Claim? }

  /** The last poll that has ended answered Pending for context k, and none has touched the slot
      since. */
  predicate WaitsFor(c: Cell, k: nat) {
    c.answers != [] && c.answers[|c.answers| - 1] == Pending(Some(k)) && BeforeClaim(c.poller)
  }

  /** Such a context is the one that is registered. */
  ghost predicate Linked(c: Cell) { forall k: nat | WaitsFor(c, k) :: c.registered == Some(k) }

  lemma LinkKeeps(c: Cell, e: Event)
    requires Inv(c) && Linked(c) && Step(c, e).Some?
    ensures Linked(Step(c, e).value)
  {
    var c' := Step(c, e).value;
    forall k: nat | WaitsFor(c', k) ensures c'.registered == Some(k) {
      assert WaitsFor(c, k) <==>
        (c.answers != [] && c.answers[|c.answers| - 1] == Pending(Some(k)) && BeforeClaim(c.poller));
    }
  }

  lemma {:induction false} LinkedRun(c: Cell, es: seq<Event>)
    requires Inv(c) && Linked(c) && Run(c, es).Some?
    ensures Linked(Run(c, es).value)
    decreases |es|
  {
    if es != [] {
      StepKeeps(c, es[0]);
      LinkKeeps(c, es[0]);
      LinkedRun(Step(c, es[0]).value, es[1..]);
    }
  }

  /** A context for which a poll answered Pending is registered. */
  lemma PendingIsRegistered(c: Cell, k: nat)
    requires Reachable(c) && WaitsFor(c, k)
    ensures c.registered == Some(k)
  {
    var es: seq<Event> :| Run(New, es) == Some(c);
    NewOk();
    LinkedRun(New, es);
  }

  /** No lost notification, resets or not: after a poll has answered Pending for context k, a wake
      leaves k woken, or a thread in the middle of `wake` that will wake it. */
  lemma WaiterIsWoken(c: Cell, k: nat)
    requires Reachable(c) && WaitsFor(c, k) && c.owed
    ensures c.fired || Fires(c, k) || (c.slot == Some(k) && SlotTaker(c))
    ensures c.takers == map[] ==> c.fired
  {
    PendingIsRegistered(c, k);
    RegisteredIsWoken(c);
  }

  /** Until a wake, k stays where the next one finds it, or is woken early. */
  lemma WaiterIsKept(c: Cell, k: nat)
    requires Reachable(c) && WaitsFor(c, k) && !c.owed
    ensures c.state == WAITING && !c.flag && (c.slot == Some(k) || c.fired || Fires(c, k))
  {
    PendingIsRegistered(c, k);
    RegisteredIsKept(c);
  }

  /** A wake is answered, resets or not: the state is NOTIFIED after it, and then the next answer of
      any run is Ready. */
  lemma WakeIsAnswered(c: Cell, es: seq<Event>)
    requires Reachable(c) && c.state == NOTIFIED && Run(c, es).Some?
    ensures var a := Run(c, es).value.answers; |a| > |c.answers| ==> a[|c.answers|] == Ready
  {
    ReachableInv(c);
    NotifiedAnswers(c, es, |c.answers|);
  }

  lemma {:induction false} NotifiedAnswers(c: Cell, es: seq<Event>, n: nat)
    requires Inv(c) && c.state == NOTIFIED && |c.answers| == n && Run(c, es).Some?
    ensures var a := Run(c, es).value.answers; |a| > n ==> a[n] == Ready
    decreases |es|
  {
    if es != [] {
      var c' := Step(c, es[0]).value;
      StepKeeps(c, es[0]);
      NotifiedLasts(c, es[0]);
      if |c'.answers| == n { NotifiedAnswers(c', es[1..], n); } else { AnswersGrow(c', es[1..]); }
    }
  }

  lemma NotifiedLasts(c: Cell, e: Event)
    requires Inv(c) && c.state == NOTIFIED && Step(c, e).Some?
    ensures var c' := Step(c, e).value;
      c'.answers == c.answers + [Ready] || (c'.answers == c.answers && c'.state == NOTIFIED)
  {
  }

  /** No lost notification, resets or not: after a Pending poll that registered a context, a
      wake leaves that context woken, or a thread in the middle of `wake` that will wake it. */
  lemma RegisteredIsWoken(c: Cell)
    requires Reachable(c) && c.registered.Some? && c.owed && !c.poller.Publish?
    ensures c.fired || Fires(c, c.registered.value) || (c.slot == c.registered && SlotTaker(c))
    ensures c.takers == map[] ==> c.fired
  {
    ReachableInv(c);
  }

  /** ... and until a wake the context stays where the next one finds it, or is woken early. */
  lemma RegisteredIsKept(c: Cell)
    requires Reachable(c) && c.registered.Some? && !c.owed && !c.poller.Publish?
    ensures c.state == WAITING && !c.flag
    ensures c.slot == c.registered || c.fired || Fires(c, c.registered.value)
  {
    ReachableInv(c);
  }

  /** ... and the poll that follows the wake answers Ready. */
  lemma NextPollReady(c: Cell, es: seq<Event>)
    requires Reachable(c) && c.poller.Idle? && c.registered.Some? && c.owed && Run(c, es).Some?
    ensures var n := |c.answers|; var a := Run(c, es).value.answers;
      |a| > n ==> a[n] == Ready
  {
    ReachableInv(c);
    FirstAnswer(c, es, |c.answers|);
  }

  lemma FirstAnswer(c: Cell, es: seq<Event>, n: nat)
    requires Inv(c) && c.registered.Some? && c.owed && !c.poller.Publish? && |c.answers| == n && Run(c, es).Some?
    ensures var a := Run(c, es).value.answers; |a| > n ==> a[n] == Ready
    decreases |es|
  {
    if es != [] {
      var c' := Step(c, es[0]).value;
      StepKeeps(c, es[0]);
      StaysOwed(c, es[0]);
      if |c'.answers| == n { FirstAnswer(c', es[1..], n); } else { AnswersGrow(c', es[1..]); }
    }
  }

  /** An owed registration ends only with the answer Ready. */
  lemma StaysOwed(c: Cell, e: Event)
    requires Inv(c) && c.registered.Some? && c.owed && !c.poller.Publish? && Step(c, e).Some?
    ensures var c' := Step(c, e).value;
      || c'.answers == c.answers + [Ready]
      || (c'.answers == c.answers && c'.registered.Some? && c'.owed && !c'.poller.Publish?)
  {
  }

  lemma StepAnswers(c: Cell, e: Event)
    requires Step(c, e).Some?
    ensures c.answers <= Step(c, e).value.answers
  {
  }

  lemma AnswersGrow(c: Cell, es: seq<Event>)
    requires Run(c, es).Some?
    ensures c.answers <= Run(c, es).value.answers
    decreases |es|
  {
    if es != [] {
      StepAnswers(c, es[0]);
      AnswersGrow(Step(c, es[0]).value, es[1..]);
    }
  }
}
