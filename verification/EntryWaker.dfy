/** The waker of a timer entry over all the sleeps that the entry serves, one after the other: it is
    woken when an expired delay is processed, and it is never reset.

    One sleep at a time holds the entry. The threads that process expired entries take steps of
    their own, and an entry can be recycled while it is still in a list of expired ones, so that a
    wake comes late. The last three fields are history. */
module EntryWaker {
  import opened Prelude
  import Aw = AtomicWaker

  datatype State = State(
    cell: Aw.Cell,
    held: bool,        // a sleep has scheduled a delay with this entry and not completed it
    queued: bool,      // that delay is in the timer queue
    listed: bool,      // it has expired and is in a list of expired entries
    late: nat,         // the entry's places in such lists that are left from earlier sleeps
    processed: bool,   // that delay has expired and been processed
    sleeps: nat,       // sleeps served so far, with the one that holds the entry
    early: nat)        // sleeps that ended before their delays were processed

  datatype Event =
    | Schedule
    | Expire                                   // the timer queue's poll finds the delay due
    | Call(k: nat) | PollStep                  // the sleep is polled with context k
    | Cancel                                   // the sleep is dropped
    | Process(t: Aw.Tid, own: bool)            // a place in a list is processed: this delay's, or a late one
    | WakeStep(t: Aw.Tid)

  const Init: State := State(Aw.New, false, false, false, 0, false, 0, 0)

  function Step(s: State, e: Event): (r: Option<State>) {
    match e
    case Schedule =>
      Some(if s.held then s else s.(held := true, queued := true, processed := false, sleeps := s.sleeps + 1))
    case Expire => Some(if s.held && s.queued then s.(queued := false, listed := true) else s)
    case Call(k) => if s.held then WithCell(s, Aw.Step(s.cell, Aw.Poll(Some(k)))) else Some(s)
    case PollStep => PollNext(s)
    case Cancel => Some(if s.held && s.cell.poller.Idle? then Left(s) else s)
    case Process(t, own) => Some(if Wakes(s, e) then Processed(s, t, own) else s)
    case WakeStep(t) => WithCell(s, Aw.Step(s.cell, Aw.WakeStep(t)))
  }

  /** This event wakes: the place in a list that it processes is there. */
  predicate Wakes(s: State, e: Event) {
    e.Process? && e.t !in s.cell.takers && if e.own then s.held && s.listed else s.late > 0
  }

  function Processed(s: State, t: Aw.Tid, own: bool): (r: State)
    requires Wakes(s, Process(t, own))
  {
    var c := Aw.WakeUpdate(s.cell, t);
    if own then s.(cell := c, listed := false, processed := true) else s.(cell := c, late := s.late - 1)
  }

  /** `complete`: the entry is taken out of the queue and recycled, but not out of any list. */
  function Left(s: State): (r: State) {
    s.(held := false, queued := false, listed := false, late := s.late + B(s.listed))
  }

  function WithCell(s: State, c: Option<Aw.Cell>): (r: Option<State>) {
    match c case None => None case Some(c) => Some(s.(cell := c))
  }

  /** A poll that ends with Ready completes the delay, which frees the entry. */
  function PollNext(s: State): (r: Option<State>) {
    match Aw.Step(s.cell, Aw.PollStep)
    case None => None
    case Some(c) =>
      Some(if !s.cell.poller.Idle? && c.poller.Idle? && EndsReady(c)
           then Left(s.(cell := c, early := s.early + B(!s.processed)))
           else s.(cell := c))
  }

  predicate EndsReady(c: Aw.Cell) { c.answers != [] && c.answers[|c.answers| - 1].Ready? }

  function Run(s: State, es: seq<Event>): (r: Option<State>)
    decreases |es|
  {
    if es == [] then Some(s)
    else match Step(s, es[0])
      case None => None
      case Some(s') => Run(s', es[1..])
  }

  // ---- the invariant ---------------------------------------------------------------------------

  /** A wake has been recorded, or has been answered. */
  predicate Woken(c: Aw.Cell) { c.flag || c.state == Aw.NOTIFIED }

  ghost predicate Inv(s: State) {
    && Aw.Inv(s.cell) && Aw.Calm(s.cell) && Aw.Linked(s.cell)
    && (!s.cell.poller.Idle? ==> s.held)
    && (s.held ==> s.sleeps > 0 && B(s.queued) + B(s.listed) + B(s.processed) == 1)
    && (!s.held ==> !s.queued && !s.listed)
    && (s.sleeps <= B(s.held) ==> s.late == 0)
    && (s.held && s.processed ==> Woken(s.cell))
    && (s.sleeps <= 1 && !(s.held && s.processed) && (s.held || s.sleeps == 0) ==> !Woken(s.cell))
    && (s.sleeps <= 1 ==> s.early == 0)
  }

  /** What any step of the waker keeps: nothing forgets a wake. */
  lemma CellKeeps(c: Aw.Cell, e: Aw.Event)
    requires Aw.Inv(c) && Aw.Calm(c) && Aw.Linked(c) && !e.Reset?
    ensures var r := Aw.Step(c, e);
      && r.Some? && Aw.Inv(r.value) && Aw.Calm(r.value) && Aw.Linked(r.value)
      && (Woken(c) ==> Woken(r.value))
      && (!e.Wake? ==> (Woken(r.value) ==> Woken(c)))
  {
    if e.PollStep? { Aw.PollSafe(c); }
    Aw.StepKeeps(c, e);
    Aw.LinkKeeps(c, e);
    hide Aw.Linked, Aw.Calm, Aw.Locks, Aw.Registered;
  }

  /** A poll answers Ready exactly if it ends after a wake. */
  lemma AnswerIsWoken(c: Aw.Cell)
    requires Aw.Inv(c) && !c.poller.Idle? && Aw.PollNext(c).Some?
    ensures var c' := Aw.PollNext(c).value;
      && (!c'.poller.Idle? ==> c'.answers == c.answers)
      && (c'.poller.Idle? ==> exists a :: c'.answers == c.answers + [a] && (a.Ready? <==> Woken(c)))
  {
    var c' := Aw.PollNext(c).value;
    if c'.poller.Idle? {
      assert c'.answers == c.answers + [c'.answers[|c.answers|]];
    }
  }

  lemma StepKeeps(s: State, e: Event)
    requires Inv(s)
    ensures Step(s, e).Some? && Inv(Step(s, e).value)
  {
    match e
    case Schedule =>
    case Expire =>
    case Call(k) => CellKeeps(s.cell, Aw.Poll(Some(k))); hide Aw.Inv, Aw.Calm, Aw.Linked;
    case PollStep =>
      CellKeeps(s.cell, Aw.PollStep);
      if !s.cell.poller.Idle? { AnswerIsWoken(s.cell); }
      hide Aw.Inv, Aw.Calm, Aw.Linked;
    case Cancel =>
    case Process(t, own) => CellKeeps(s.cell, Aw.Wake(t)); hide Aw.Inv, Aw.Calm, Aw.Linked;
    case WakeStep(t) => CellKeeps(s.cell, Aw.WakeStep(t)); hide Aw.Inv, Aw.Calm, Aw.Linked;
  }

  lemma {:induction false} RunKeeps(s: State, es: seq<Event>)
    requires Inv(s)
    ensures Run(s, es).Some? && Inv(Run(s, es).value)
    decreases |es|
  {
    hide Inv, Step;
    if es != [] {
      StepKeeps(s, es[0]);
      RunKeeps(Step(s, es[0]).value, es[1..]);
    }
  }

  ghost predicate Reachable(s: State) { exists es: seq<Event> :: Run(Init, es) == Some(s) }

  lemma ReachableInv(s: State)
    requires Reachable(s)
    ensures Inv(s)
  {
    var es: seq<Event> :| Run(Init, es) == Some(s);
    Aw.NewOk();
    assert Inv(Init);
    RunKeeps(Init, es);
  }

  // ---- what it promises ------------------------------------------------------------------------

  /** Without resets the waker never panics, however often the entry is recycled. */
  lemma NeverPanics(es: seq<Event>)
    ensures Run(Init, es).Some?
  {
    Aw.NewOk();
    assert Inv(Init);
    RunKeeps(Init, es);
  }

  /** The next answer of a run without wakes is Ready exactly if a wake was recorded before it; with
      wakes, it still is if one was. */
  lemma {:induction false} NextAnswer(s: State, es: seq<Event>)
    requires Inv(s)
    ensures Run(s, es).Some?
    ensures var a, n := Run(s, es).value.cell.answers, |s.cell.answers|;
      && |a| >= n
      && (|a| > n && Woken(s.cell) ==> a[n].Ready?)
      && (|a| > n && NoProcess(es) && a[n].Ready? ==> Woken(s.cell))
    decreases |es|
  {
    if es != [] {
      var s' := Step(s, es[0]).value;
      StepKeeps(s, es[0]);
      StepAnswers(s, es[0]);
      hide Inv, Step, Woken;
      NextAnswer(s', es[1..]);
      RunAnswers(s', es[1..]);
    }
  }

  predicate NoProcess(es: seq<Event>) { forall e | e in es :: !e.Process? }

  lemma StepAnswers(s: State, e: Event)
    requires Inv(s)
    ensures Step(s, e).Some?
    ensures var c, c' := s.cell, Step(s, e).value.cell;
      && c.answers <= c'.answers
      && (c'.answers == c.answers ==> (Woken(c) ==> Woken(c')) && (!e.Process? ==> (Woken(c') ==> Woken(c))))
      && (c'.answers != c.answers ==> |c'.answers| == |c.answers| + 1 && (c'.answers[|c.answers|].Ready? <==> Woken(c)))
  {
    StepKeeps(s, e);
    match e
    case Schedule =>
    case Expire =>
    case Call(k) => CellKeeps(s.cell, Aw.Poll(Some(k))); hide Aw.Inv, Aw.Calm, Aw.Linked;
    case PollStep =>
      CellKeeps(s.cell, Aw.PollStep);
      if !s.cell.poller.Idle? { AnswerIsWoken(s.cell); }
      hide Aw.Inv, Aw.Calm, Aw.Linked;
    case Cancel =>
    case Process(t, own) => CellKeeps(s.cell, Aw.Wake(t)); hide Aw.Inv, Aw.Calm, Aw.Linked;
    case WakeStep(t) => CellKeeps(s.cell, Aw.WakeStep(t)); hide Aw.Inv, Aw.Calm, Aw.Linked;
  }

  lemma {:induction false} RunAnswers(s: State, es: seq<Event>)
    requires Inv(s)
    ensures Run(s, es).Some? && s.cell.answers <= Run(s, es).value.cell.answers
    decreases |es|
  {
    if es != [] {
      StepKeeps(s, es[0]);
      StepAnswers(s, es[0]);
      hide Inv, Step, Woken;
      RunAnswers(Step(s, es[0]).value, es[1..]);
    }
  }

  // ---- wakes in a run --------------------------------------------------------------------------

  /** Some event of the run wakes. */
  ghost predicate WokenIn(s: State, es: seq<Event>)
    decreases |es|
  {
    es != [] && Step(s, es[0]).Some? && (Wakes(s, es[0]) || WokenIn(Step(s, es[0]).value, es[1..]))
  }

  /** Some event of the run wakes for an earlier sleep's delay. */
  ghost predicate LateIn(s: State, es: seq<Event>)
    decreases |es|
  {
    es != [] && Step(s, es[0]).Some?
    && ((Wakes(s, es[0]) && !es[0].own) || LateIn(Step(s, es[0]).value, es[1..]))
  }

  lemma StepWoken(s: State, e: Event)
    requires Inv(s)
    ensures Step(s, e).Some? && (Woken(Step(s, e).value.cell) <==> Woken(s.cell) || Wakes(s, e))
  {
    StepKeeps(s, e);
    match e
    case Schedule =>
    case Expire =>
    case Call(k) => CellKeeps(s.cell, Aw.Poll(Some(k))); hide Aw.Inv, Aw.Calm, Aw.Linked;
    case PollStep => CellKeeps(s.cell, Aw.PollStep); hide Aw.Inv, Aw.Calm, Aw.Linked;
    case Cancel =>
    case Process(t, own) => CellKeeps(s.cell, Aw.Wake(t)); hide Aw.Inv, Aw.Calm, Aw.Linked;
    case WakeStep(t) => CellKeeps(s.cell, Aw.WakeStep(t)); hide Aw.Inv, Aw.Calm, Aw.Linked;
  }

  /** The waker is woken after a run exactly if it was before or some event of the run wakes it. */
  lemma {:induction false} RunWoken(s: State, es: seq<Event>)
    requires Inv(s)
    ensures Run(s, es).Some? && (Woken(Run(s, es).value.cell) <==> Woken(s.cell) || WokenIn(s, es))
    decreases |es|
  {
    hide Inv, Step, Woken, Wakes;
    if es != [] {
      StepKeeps(s, es[0]);
      StepWoken(s, es[0]);
      RunWoken(Step(s, es[0]).value, es[1..]);
    }
  }

  lemma StepSleeps(s: State, e: Event)
    requires Step(s, e).Some?
    ensures var s' := Step(s, e).value;
      && s'.sleeps >= s.sleeps
      && (s'.sleeps == s.sleeps ==> (s'.held ==> s.held) && (s'.held && s.processed ==> s'.processed))
      && (Wakes(s, e) && e.own ==> s'.processed && s'.held)
  {
  }

  /** While one sleep holds the entry, its delay is processed once and for all. */
  lemma {:induction false} RunSleeps(s: State, es: seq<Event>)
    requires Run(s, es).Some?
    ensures var s' := Run(s, es).value;
      && s'.sleeps >= s.sleeps
      && (s'.sleeps == s.sleeps ==> (s'.held ==> s.held) && (s'.held && s.processed ==> s'.processed))
    decreases |es|
  {
    if es != [] {
      StepSleeps(s, es[0]);
      hide Step;
      RunSleeps(Step(s, es[0]).value, es[1..]);
    }
  }

  /** As long as the sleep's own delay is not processed, whatever wakes is late. */
  lemma {:induction false} WakesAreLate(s: State, es: seq<Event>)
    requires Run(s, es).Some?
    requires var s' := Run(s, es).value; s'.held && s'.sleeps == s.sleeps && !s'.processed
    ensures WokenIn(s, es) <==> LateIn(s, es)
    decreases |es|
  {
    if es != [] {
      var s' := Step(s, es[0]).value;
      StepSleeps(s, es[0]);
      RunSleeps(s', es[1..]);
      hide Step, Wakes;
      WakesAreLate(s', es[1..]);
    }
  }

  // ---- what a sleep is told --------------------------------------------------------------------

  /** Once a sleep's delay has expired and been processed, its next poll is answered Ready, whatever
      the entry has served before. */
  lemma ProcessedIsReady(s: State, es: seq<Event>)
    requires Reachable(s) && s.held && s.processed
    ensures Run(s, es).Some?
    ensures var a := Run(s, es).value.cell.answers; |a| > |s.cell.answers| ==> a[|s.cell.answers|].Ready?
  {
    ReachableInv(s);
    NextAnswer(s, es);
  }

  /** ... and if it was waiting for context k, k has been woken, or is about to be. */
  lemma WaiterIsWoken(s: State, k: nat)
    requires Reachable(s) && s.held && s.processed && s.cell.poller.Idle? && Aw.WaitsFor(s.cell, k)
    ensures s.cell.fired || Aw.Fires(s.cell, k) || (s.cell.slot == Some(k) && Aw.SlotTaker(s.cell))
    ensures s.cell.takers == map[] ==> s.cell.fired
  {
    ReachableInv(s);
  }

  /** The next step of the sleep's poll ends the poll, with this answer. */
  predicate PollEnds(s: State, ready: bool) {
    !s.cell.poller.Idle? && PollNext(s).Some? &&
    var c := PollNext(s).value.cell;
    c.poller.Idle? && ready == EndsReady(c)
  }

  /** A poll ends with Ready exactly if the waker has been woken, and then the sleep ends and gives
      its delay back. */
  lemma PollEndsWoken(s: State)
    requires Inv(s) && !s.cell.poller.Idle? && PollNext(s).Some? && PollNext(s).value.cell.poller.Idle?
    ensures PollEnds(s, Woken(s.cell))
    ensures var s' := PollNext(s).value;
      s'.held == !Woken(s.cell) && s'.early == s.early + B(Woken(s.cell) && !s.processed)
  {
    AnswerIsWoken(s.cell);
  }

  /** When a sleep ends before its delay. In every run from the moment at which a sleep is given the
      entry, a poll of this sleep that ends while its own delay has not been processed answers Ready,
      and so ends the sleep early, exactly if the entry's waker had been woken before that moment or a
      place in a list that an earlier sleep has left was processed since. */
  lemma EarlyExactly(s: State, es: seq<Event>)
    requires Reachable(s) && !s.held
    ensures Step(s, Schedule).Some? && Run(s, [Schedule] + es).Some?
    ensures var first, last := Step(s, Schedule).value, Run(s, [Schedule] + es).value;
      last.held && last.sleeps == first.sleeps && !last.processed
      && !last.cell.poller.Idle? && PollNext(last).Some? && PollNext(last).value.cell.poller.Idle? ==>
        var ready := Woken(s.cell) || LateIn(first, es);
        PollEnds(last, ready) && PollNext(last).value.early == last.early + B(ready)
  {
    ReachableInv(s);
    StepKeeps(s, Schedule);
    var first := Step(s, Schedule).value;
    RunFirst(s, Schedule, es);
    RunKeeps(first, es);
    RunWoken(first, es);
    var last := Run(first, es).value;
    assert Woken(first.cell) == Woken(s.cell);
    hide Inv, Step, Run, Woken, PollNext, Reachable;
    if last.held && last.sleeps == first.sleeps && !last.processed {
      WakesAreLate(first, es);
      if !last.cell.poller.Idle? && PollNext(last).Some? && PollNext(last).value.cell.poller.Idle? {
        PollEndsWoken(last);
      }
    }
  }

  /** In particular, if nothing is processed meanwhile, the first poll ends the sleep exactly if the
      waker of the entry it is given has been woken before. */
  lemma EndsAtOnceExactly(s: State, es: seq<Event>)
    requires Reachable(s) && !s.held && NoProcess(es)
    ensures var r, n := Run(s, [Schedule] + es), |s.cell.answers|;
      && r.Some?
      && (|r.value.cell.answers| > n ==> (r.value.cell.answers[n].Ready? <==> Woken(s.cell)))
  {
    ReachableInv(s);
    StepKeeps(s, Schedule);
    assert ([Schedule] + es)[1..] == es;
    NextAnswer(Step(s, Schedule).value, es);
  }

  /** The first sleep that an entry serves never ends early. */
  lemma FirstSleepIsInTime(s: State)
    requires Reachable(s) && s.sleeps <= 1
    ensures s.early == 0
  {
    ReachableInv(s);
  }

  // ---- runs in which a sleep ends early --------------------------------------------------------

  function PollSteps(n: nat): (es: seq<Event>) { if n == 0 then [] else [PollStep] + PollSteps(n - 1) }

  lemma RunFirst(s: State, e: Event, es: seq<Event>)
    requires Step(s, e).Some?
    ensures Run(s, [e] + es) == Run(Step(s, e).value, es)
  {
    assert ([e] + es)[1..] == es;
  }

  /** One step of the waker's poll, in the middle of it. */
  lemma MidPoll(s: State, c: Aw.Cell, c': Aw.Cell, n: nat, rest: seq<Event>)
    requires n > 0 && Aw.PollNext(c) == Some(c') && !c'.poller.Idle?
    ensures Run(s.(cell := c), PollSteps(n) + rest) == Run(s.(cell := c'), PollSteps(n - 1) + rest)
  {
    assert PollSteps(n) + rest == [PollStep] + (PollSteps(n - 1) + rest);
    RunFirst(s.(cell := c), PollStep, PollSteps(n - 1) + rest);
  }

  /** The state after a poll that finds the waker NOTIFIED. */
  function Ended(s: State): (r: State) {
    var c := s.cell.(state := Aw.EMPTY, flag := true, registered := None, answers := s.cell.answers + [Aw.Ready]);
    Left(s.(cell := c, early := s.early + B(!s.processed)))
  }

  lemma NotifiedEnds(s: State, rest: seq<Event>)
    requires s.held && s.cell.poller.Idle? && s.cell.state == Aw.NOTIFIED && !s.cell.flag
    ensures Run(s, [Call(0)] + (PollSteps(4) + rest)) == Run(Ended(s), rest)
  {
    var c := s.cell;
    var d := c.(poller := Aw.Clear, flag := true);
    hide Run, Step, PollSteps, Ended;
    BeginPoll(s, PollSteps(4) + rest);
    LastStep(s, rest);
    MidPoll(s, c.(poller := Aw.LoadFlag(Some(0))), c.(poller := Aw.LoadState(Some(0))), 4, rest);
    MidPoll(s, c.(poller := Aw.LoadState(Some(0))), c.(poller := Aw.SetFlag), 3, rest);
    MidPoll(s, c.(poller := Aw.SetFlag), d, 2, rest);
  }

  lemma BeginPoll(s: State, rest: seq<Event>)
    requires s.held && s.cell.poller.Idle?
    ensures Run(s, [Call(0)] + rest) == Run(s.(cell := s.cell.(poller := Aw.LoadFlag(Some(0)))), rest)
  {
    RunFirst(s, Call(0), rest);
  }

  lemma LastStep(s: State, rest: seq<Event>)
    requires s.cell.poller.Idle?
    ensures Run(s.(cell := s.cell.(poller := Aw.Clear, flag := true)), PollSteps(1) + rest) == Run(Ended(s), rest)
  {
    assert PollSteps(1) + rest == [PollStep] + rest;
    RunFirst(s.(cell := s.cell.(poller := Aw.Clear, flag := true)), PollStep, rest);
  }

  lemma FlaggedEnds(s: State)
    requires !s.held && s.cell.flag && s.cell.poller.Idle?
    ensures var r := Run(s, [Schedule] + ([Call(0)] + PollSteps(1))); r.Some? && r.value.early == s.early + 1
  {
    var s1 := Step(s, Schedule).value;
    var s2 := s1.(cell := s.cell.(poller := Aw.LoadFlag(Some(0))));
    RunFirst(s, Schedule, [Call(0)] + PollSteps(1));
    RunFirst(s1, Call(0), PollSteps(1));
    assert PollSteps(1) == [PollStep] + [];
    RunFirst(s2, PollStep, []);
  }

  /** The entry has been scheduled and its delay has expired. */
  function Due(): (s: State) { Init.(held := true, listed := true, sleeps := 1) }

  lemma BecomesDue(rest: seq<Event>)
    ensures Run(Init, [Schedule] + ([Expire] + rest)) == Run(Due(), rest)
  {
    RunFirst(Init, Schedule, [Expire] + rest);
    RunFirst(Init.(held := true, queued := true, sleeps := 1), Expire, rest);
  }

  /** The first delay of an entry is processed, its sleep is polled to the end, and the next sleep
      that gets the entry ends at its first poll. */
  lemma RecycledEndsEarly()
    ensures exists es: seq<Event> :: Run(Init, es).Some? && Run(Init, es).value.early > 0
  {
    hide Run, Step, PollSteps;
    var second := [Schedule] + ([Call(0)] + PollSteps(1));
    var rest := [Process(1, true)] + ([Call(0)] + (PollSteps(4) + second));
    BecomesDue(rest);
    RecycledRun(second, rest);
    FlaggedEnds(Ended(Processed(Due(), 1, true)));
    var es := [Schedule] + ([Expire] + rest);
    assert Run(Init, es).Some? && Run(Init, es).value.early > 0;
  }

  lemma RecycledRun(second: seq<Event>, rest: seq<Event>)
    requires rest == [Process(1, true)] + ([Call(0)] + (PollSteps(4) + second))
    ensures Run(Due(), rest) == Run(Ended(Processed(Due(), 1, true)), second)
  {
    hide Run, PollSteps;
    var s := Processed(Due(), 1, true);
    assert Step(Due(), Process(1, true)) == Some(s);
    RunFirst(Due(), Process(1, true), [Call(0)] + (PollSteps(4) + second));
    NotifiedEnds(s, second);
  }

  /** The first sleep of an entry is dropped while its expired delay waits to be processed. The next
      sleep that gets the entry, whose waker has never been woken, is woken in its place. */
  lemma LateWakeEndsEarly()
    ensures exists s: State, es: seq<Event> ::
      Reachable(s) && !s.held && !Woken(s.cell)
      && Run(s, [Schedule] + es).Some? && Run(s, [Schedule] + es).value.early == s.early + 1
  {
    hide Run, Step, Reachable, Left;
    var s := Left(Due());
    var es := [Process(7, false)] + ([Call(0)] + (PollSteps(4) + []));
    LeftReachable();
    LateRun(es);
    assert Run(s, [Schedule] + es).Some?;
  }

  lemma LateRun(es: seq<Event>)
    requires es == [Process(7, false)] + ([Call(0)] + (PollSteps(4) + []))
    ensures var s := Left(Due());
      && !s.held && !Woken(s.cell)
      && Run(s, [Schedule] + es).Some? && Run(s, [Schedule] + es).value.early == s.early + 1
  {
    hide Run, PollSteps;
    var s := Left(Due());
    var s1 := s.(held := true, queued := true, sleeps := 2);
    var s2 := Processed(s1, 7, false);
    assert Step(s, Schedule) == Some(s1) && Step(s1, Process(7, false)) == Some(s2);
    RunFirst(s, Schedule, es);
    RunFirst(s1, Process(7, false), [Call(0)] + (PollSteps(4) + []));
    NotifiedEnds(s2, []);
    NothingRuns(Ended(s2));
  }

  lemma NothingRuns(s: State)
    ensures Run(s, []) == Some(s)
  {
  }

  lemma LeftReachable()
    ensures Reachable(Left(Due()))
  {
    BecomesDue([Cancel] + []);
    RunFirst(Due(), Cancel, []);
    var es := [Schedule] + ([Expire] + ([Cancel] + []));
    assert Run(Left(Due()), []) == Some(Left(Due()));
    assert Run(Init, es) == Some(Left(Due()));
  }
}
