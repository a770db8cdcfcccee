/** One kind of I/O on one pollable: its waker, the loop of `poll_io` that polls the waker, attempts
    the operation and resets the waker when that would block, and the threads that report readiness.

    The pollable's user and each waking thread take steps in any order. When the pollable is dropped
    its waker is woken once more and the entry serves another pollable, with the waker as it is. None
    is a panic of the waker, which a late waker can cause (`LoopCanPanic`); what is said here holds in
    every run up to that point. The last four fields are history. */
module Readiness {
  import opened Prelude
  import Aw = AtomicWaker

  datatype Op =
    | Out                                 // no call of poll_io
    | Asking(ctx: Option<nat>)            // inside the waker's poll
    | Attempting(ctx: Option<nat>)
    | Resetting(ctx: Option<nat>)         // the attempt would have blocked
    | Dropping(t: Aw.Tid)                 // t is in the wake that drop makes

  datatype State = State(
    cell: Aw.Cell, op: Op,
    reported: bool,       // readiness has been reported since the last attempt
    attempts: nat,
    waits: nat,        // polls of the waker that were answered Pending
    lives: nat)        // pollables that the entry has served before

  /** What an attempt returns; Yield is a task that is out of budget and makes none. */
  datatype Io = Interrupted | WouldBlock | Done | Yield

  datatype Event =
    | Call(ctx: Option<nat>) | Next(io: Io)
    | Wake(t: Aw.Tid) | WakeStep(t: Aw.Tid)      // a thread that reports readiness
    | Drop(t: Aw.Tid) | Reuse                    // the end of one pollable, and the next one

  const Init: State := State(Aw.New, Out, false, 0, 0, 0)

  function Step(s: State, e: Event): (r: Option<State>) {
    match e
    case Call(ctx) => if s.op.Out? then Ask(s, ctx) else Some(s)
    case Next(io) => OpStep(s, io)
    case Wake(t) => Some(if t in s.cell.takers then s else Report(s, t))
    case Drop(t) =>
      Some(if s.op.Out? && t !in s.cell.takers then Report(s, t).(op := Dropping(t)) else s)
    case Reuse =>
      Some(if s.op.Dropping? && s.op.t !in s.cell.takers then s.(op := Out, lives := s.lives + 1) else s)
    case WakeStep(t) => Some(if t in s.cell.takers then s.(cell := Aw.WakeNext(s.cell, t)) else s)
  }

  function Run(s: State, es: seq<Event>): (r: Option<State>)
    decreases |es|
  {
    if es == [] then Some(s)
    else match Step(s, es[0])
      case None => None
      case Some(s') => Run(s', es[1..])
  }

  function Report(s: State, t: Aw.Tid): (r: State)
    requires t !in s.cell.takers
  {
    s.(cell := Aw.WakeUpdate(s.cell, t), reported := true)
  }

  function Ask(s: State, ctx: Option<nat>): (r: Option<State>) {
    match Aw.Step(s.cell, Aw.Poll(ctx))
    case None => None
    case Some(c) => Some(s.(cell := c, op := Asking(ctx)))
  }

  function OpStep(s: State, io: Io): (r: Option<State>) {
    match s.op
    case Out => Some(s)
    case Dropping(_) => Some(s)
    case Asking(ctx) =>
      (match Aw.Step(s.cell, Aw.PollStep)
       case None => None
       case Some(c) => Some(Answered(s.(cell := c), ctx)))
    case Attempting(ctx) =>
      Some(if io.Yield? then s.(op := Out)
           else s.(reported := false, attempts := s.attempts + 1,
                   op := if io.Done? then Out else if io.WouldBlock? then Resetting(ctx) else s.op))
    case Resetting(ctx) =>
      match Aw.Step(s.cell, Aw.Reset)
      case None => None
      case Some(c) => Ask(s.(cell := c), ctx)
  }

  /** After a step of the waker's poll. */
  function Answered(s: State, ctx: Option<nat>): (r: State) {
    if !s.cell.poller.Idle? then s
    else if s.cell.answers != [] && s.cell.answers[|s.cell.answers| - 1].Ready? then s.(op := Attempting(ctx))
    else s.(op := Out, waits := s.waits + 1)
  }

  // ---- the invariant ---------------------------------------------------------------------------

  ghost predicate Inv(s: State) {
    && Aw.Inv(s.cell) && Aw.Linked(s.cell)
    && (s.op.Asking? <==> !s.cell.poller.Idle?)
    && (s.op.Attempting? || s.op.Resetting? ==> s.cell.flag) && (s.op.Dropping? ==> s.reported)
    && (s.reported ==> s.cell.state == Aw.NOTIFIED || (s.cell.flag && !s.op.Resetting?))
  }

  /** A step of the waker's poll that ends with Pending finds no readiness to answer. */
  lemma AskingKeeps(c: Aw.Cell)
    requires Aw.Inv(c) && Aw.Linked(c) && !c.poller.Idle? && Aw.PollNext(c).Some?
    ensures var c' := Aw.PollNext(c).value;
      && Aw.Inv(c') && Aw.Linked(c')
      && (c.state == Aw.NOTIFIED || c.flag ==>
            c'.state == Aw.NOTIFIED || (c'.flag && (c'.poller.Idle? || c'.poller.Clear?)))
      && (c'.poller.Idle? ==> |c'.answers| == |c.answers| + 1)
      && (c'.poller.Idle? && c'.answers[|c.answers|].Ready? ==> c'.flag)
      && (c'.poller.Idle? && c'.answers[|c.answers|].Pending? ==> c.state != Aw.NOTIFIED && !c.flag)
  {
    Aw.StepKeeps(c, Aw.PollStep);
    Aw.LinkKeeps(c, Aw.PollStep);
    hide Aw.Linked, Aw.Registered, Aw.Locks;
  }

  lemma OpKeeps(s: State, io: Io)
    requires Inv(s) && OpStep(s, io).Some?
    ensures Inv(OpStep(s, io).value)
    ensures s.op.Asking? && OpStep(s, io).value.waits > s.waits ==> !s.reported
  {
    if s.op.Asking? {
      AskingKeeps(s.cell);
      hide Aw.Inv, Aw.Linked;
    } else if s.op.Resetting? {
      ResetKeeps(s.cell, s.op.ctx);
      hide Aw.Inv, Aw.Linked;
    }
  }

  /** The reset, and the poll that begins after it. */
  lemma ResetKeeps(c: Aw.Cell, ctx: Option<nat>)
    requires Aw.Inv(c) && Aw.Linked(c) && c.poller.Idle? && c.flag
    ensures var c' := c.(flag := false, poller := Aw.LoadFlag(ctx));
      && Aw.Step(c, Aw.Reset) == Some(c.(flag := false)) && Aw.Step(c.(flag := false), Aw.Poll(ctx)) == Some(c')
      && Aw.Inv(c') && Aw.Linked(c')
  {
    Aw.StepKeeps(c, Aw.Reset);
    Aw.LinkKeeps(c, Aw.Reset);
    CallKeeps(c.(flag := false), ctx);
  }

  lemma CallKeeps(c: Aw.Cell, ctx: Option<nat>)
    requires Aw.Inv(c) && Aw.Linked(c) && c.poller.Idle?
    ensures var c' := c.(poller := Aw.LoadFlag(ctx));
      Aw.Step(c, Aw.Poll(ctx)) == Some(c') && Aw.Inv(c') && Aw.Linked(c')
  {
    Aw.StepKeeps(c, Aw.Poll(ctx));
    Aw.LinkKeeps(c, Aw.Poll(ctx));
  }

  lemma WakeKeeps(c: Aw.Cell, t: Aw.Tid)
    requires Aw.Inv(c) && Aw.Linked(c)
    ensures t !in c.takers ==> var c' := Aw.WakeUpdate(c, t);
      Aw.Inv(c') && Aw.Linked(c') && c'.state == Aw.NOTIFIED && c'.flag == c.flag && c'.poller == c.poller
    ensures t in c.takers ==> var c' := Aw.WakeNext(c, t);
      Aw.Inv(c') && Aw.Linked(c') && c'.state == c.state && c'.flag == c.flag && c'.poller == c.poller
  {
    var e := if t in c.takers then Aw.WakeStep(t) else Aw.Wake(t);
    Aw.StepKeeps(c, e);
    Aw.LinkKeeps(c, e);
  }

  lemma StepKeeps(s: State, e: Event)
    requires Inv(s) && Step(s, e).Some?
    ensures var s' := Step(s, e).value;
      && Inv(s') && s'.attempts >= s.attempts && s'.waits >= s.waits
      && (s.reported && s'.attempts == s.attempts ==> s'.reported && s'.waits == s.waits)
  {
    match e
    case Call(ctx) => if s.op.Out? { CallKeeps(s.cell, ctx); hide Aw.Inv, Aw.Linked; }
    case Next(io) => OpKeeps(s, io); hide Inv;
    case Wake(t) => WakeKeeps(s.cell, t); hide Aw.Inv, Aw.Linked;
    case WakeStep(t) => WakeKeeps(s.cell, t); hide Aw.Inv, Aw.Linked;
    case Drop(t) => WakeKeeps(s.cell, t); hide Aw.Inv, Aw.Linked;
    case Reuse =>
  }

  lemma {:induction false} RunKeeps(s: State, es: seq<Event>)
    requires Inv(s) && Run(s, es).Some?
    ensures var s' := Run(s, es).value;
      && Inv(s') && s'.attempts >= s.attempts && s'.waits >= s.waits
      && (s.reported && s'.attempts == s.attempts ==> s'.reported && s'.waits == s.waits)
    decreases |es|
  {
    if es != [] {
      hide Inv, Step;
      StepKeeps(s, es[0]);
      RunKeeps(Step(s, es[0]).value, es[1..]);
    }
  }

  // ---- what it promises ------------------------------------------------------------------------

  ghost predicate Reachable(s: State) { exists es: seq<Event> :: Run(Init, es) == Some(s) }

  lemma ReachableInv(s: State)
    requires Reachable(s)
    ensures Inv(s)
  {
    var es: seq<Event> :| Run(Init, es) == Some(s);
    Aw.NewOk();
    assert Inv(Init);
    RunKeeps(Init, es);
  }

  /** No readiness is lost across resets, or from one pollable of an entry to the next: once it has
      been reported, by an event or by a drop, no poll of the waker is answered Pending before the
      operation has been attempted again. */
  lemma NoReadinessLost(s: State, es: seq<Event>)
    requires Reachable(s) && s.reported && Run(s, es).Some?
    ensures var s' := Run(s, es).value;
      && s'.waits >= s.waits && s'.attempts >= s.attempts
      && (s'.waits > s.waits ==> s'.attempts > s.attempts)
  {
    ReachableInv(s);
    RunKeeps(s, es);
  }

  /** An operation that waits for context k and to which readiness has been reported since its last
      attempt has been woken, or a thread in the middle of its `wake` will wake it. */
  lemma WaiterIsWoken(s: State, k: nat)
    requires Reachable(s) && s.op.Out? && Aw.WaitsFor(s.cell, k) && s.reported
    ensures s.cell.fired || Aw.Fires(s.cell, k) || (s.cell.slot == Some(k) && Aw.SlotTaker(s.cell))
    ensures s.cell.takers == map[] ==> s.cell.fired
  {
    ReachableInv(s);
  }

  /** The assertion of `reset` holds whenever the loop calls it. */
  lemma ResetAllowed(s: State)
    requires Reachable(s) && s.op.Resetting?
    ensures Aw.Step(s.cell, Aw.Reset).Some? && Step(s, Next(Done)).Some?
  {
    ReachableInv(s);
    ResetKeeps(s.cell, s.op.ctx);
  }

  /** A pollable whose entry has served another makes an attempt before it waits for the first time,
      as a new one does not. */
  lemma ReusedAttemptsFirst(s: State, es: seq<Event>)
    requires Reachable(s) && s.op.Dropping? && s.op.t !in s.cell.takers && Run(s, [Reuse] + es).Some?
    ensures var s' := Run(s, [Reuse] + es).value;
      s'.lives > s.lives && (s'.waits > s.waits ==> s'.attempts > s.attempts)
  {
    ReachableInv(s);
    assert ([Reuse] + es)[1..] == es;
    RunKeeps(s, [Reuse] + es);
    LivesGrow(Step(s, Reuse).value, es);
  }

  lemma {:induction false} LivesGrow(s: State, es: seq<Event>)
    requires Run(s, es).Some?
    ensures Run(s, es).value.lives >= s.lives
    decreases |es|
  {
    if es != [] {
      StepLives(s, es[0]);
      hide Step;
      LivesGrow(Step(s, es[0]).value, es[1..]);
    }
  }

  lemma StepLives(s: State, e: Event)
    requires Step(s, e).Some?
    ensures Step(s, e).value.lives >= s.lives
  {
  }

  // ---- a run that panics -----------------------------------------------------------------------

  function Nexts(n: nat): (es: seq<Event>) { if n == 0 then [] else [Next(Interrupted)] + Nexts(n - 1) }

  lemma {:induction false} RunConcat(s: State, a: seq<Event>, b: seq<Event>)
    requires Run(s, a).Some?
    ensures Run(s, a + b) == Run(Run(s, a).value, b)
    decreases |a|
  {
    if a == [] {
      assert a + b == b;
    } else {
      assert (a + b)[1..] == a[1..] + b;
      RunConcat(Step(s, a[0]).value, a[1..], b);
    }
  }

  /** One step of the waker's poll, in the middle of it. */
  lemma OneNext(s: State, c: Aw.Cell, c': Aw.Cell, n: nat)
    requires n > 0 && Aw.PollNext(c) == Some(c') && !c.poller.Idle? && !c'.poller.Idle?
    ensures Run(InPoll(s, c), Nexts(n)) == Run(InPoll(s, c'), Nexts(n - 1))
  {
    assert Nexts(n)[1..] == Nexts(n - 1);
  }

  /** The last step of the waker's poll. */
  lemma LastNext(s: State, c: Aw.Cell, c': Aw.Cell)
    requires Aw.PollNext(c) == Some(c') && !c.poller.Idle? && c'.poller.Idle?
    ensures Run(InPoll(s, c), Nexts(1)) == Some(Answered(s.(cell := c', op := Asking(Some(0))), Some(0)))
  {
    assert Nexts(1)[1..] == [] && Nexts(1)[0] == Next(Interrupted);
    var s' := Step(InPoll(s, c), Next(Interrupted)).value;
    assert Run(s', []) == Some(s');
  }

  lemma RunFirst(s: State, e: Event, es: seq<Event>)
    requires Step(s, e).Some?
    ensures Run(s, [e] + es) == Run(Step(s, e).value, es)
  {
    assert ([e] + es)[1..] == es;
  }

  function InPoll(s: State, c: Aw.Cell): (r: State) { s.(cell := c, op := Asking(Some(0))) }

  /** The first call waits for context 0. */
  function Waiting(): (s: State) { Init.(cell := Aw.Waiting0(), waits := 1) }

  /** The cell in the middle of the first call. */
  function Claiming(): (c: Aw.Cell) { Aw.New.(state := Aw.UPDATING, poller := Aw.LockSlot(0)) }

  lemma FirstHalf()
    ensures Run(InPoll(Init, Aw.New.(poller := Aw.LoadFlag(Some(0)))), Nexts(6)) ==
      Run(InPoll(Init, Claiming()), Nexts(3))
  {
    var c := Aw.New;
    hide Run, Nexts, InPoll;
    OneNext(Init, c.(poller := Aw.LoadFlag(Some(0))), c.(poller := Aw.LoadState(Some(0))), 6);
    OneNext(Init, c.(poller := Aw.LoadState(Some(0))), c.(poller := Aw.Claim(Aw.EMPTY, 0)), 5);
    OneNext(Init, c.(poller := Aw.Claim(Aw.EMPTY, 0)), Claiming(), 4);
  }

  lemma SecondHalf()
    ensures Run(InPoll(Init, Claiming()), Nexts(3)) == Some(Waiting())
  {
    hide Run, Nexts, InPoll;
    var d := Claiming().(poller := Aw.InSlot(0), lock := Aw.ByPoller);
    var e := Claiming().(poller := Aw.Publish(0), slot := Some(0), registered := Some(0));
    OneNext(Init, Claiming(), d, 3);
    OneNext(Init, d, e, 2);
    Published(e);
  }

  lemma Published(e: Aw.Cell)
    requires e == Claiming().(poller := Aw.Publish(0), slot := Some(0), registered := Some(0))
    ensures Run(InPoll(Init, e), Nexts(1)) == Some(Waiting())
  {
    hide Run, Nexts, InPoll;
    assert [] + [Aw.Pending(Some(0))] == [Aw.Pending(Some(0))];
    assert Aw.PollNext(e) == Some(Aw.Waiting0());
    LastNext(Init, e, Aw.Waiting0());
  }

  lemma FirstCall()
    ensures Run(Init, [Call(Some(0))] + Nexts(6)) == Some(Waiting())
  {
    RunFirst(Init, Call(Some(0)), Nexts(6));
    FirstHalf();
    SecondHalf();
    hide Run, Nexts;
  }

  /** Readiness is reported, and the second call finds it before the waking thread is at the slot. */
  function Attempt(): (s: State) { Waiting().(cell := Aw.Woken0(), op := Attempting(Some(0)), reported := true) }

  lemma SecondCall()
    ensures Run(Waiting(), [Wake(1)] + ([Call(Some(0))] + Nexts(4))) == Some(Attempt())
  {
    hide Run, Nexts;
    var c := Aw.WakeUpdate(Aw.Waiting0(), 1);
    var s := Waiting().(cell := c, reported := true);
    RunFirst(Waiting(), Wake(1), [Call(Some(0))] + Nexts(4));
    RunFirst(s, Call(Some(0)), Nexts(4));
    assert Ask(s, Some(0)) == Some(InPoll(s, c.(poller := Aw.LoadFlag(Some(0)))));
    hide Step, Ask, InPoll;
    SecondPolls(s, c);
  }

  lemma SecondPolls(s: State, c: Aw.Cell)
    requires c == Aw.WakeUpdate(Aw.Waiting0(), 1) && s == Waiting().(cell := c, reported := true)
    ensures Run(InPoll(s, c.(poller := Aw.LoadFlag(Some(0)))), Nexts(4)) == Some(Attempt())
  {
    hide Run, Nexts, InPoll, Answered;
    OneNext(s, c.(poller := Aw.LoadFlag(Some(0))), c.(poller := Aw.LoadState(Some(0))), 4);
    OneNext(s, c.(poller := Aw.LoadState(Some(0))), c.(poller := Aw.SetFlag), 3);
    OneNext(s, c.(poller := Aw.SetFlag), c.(poller := Aw.Clear, flag := true), 2);
    Cleared(s, c.(poller := Aw.Clear, flag := true));
  }

  lemma Cleared(s: State, d: Aw.Cell)
    requires d == Aw.WakeUpdate(Aw.Waiting0(), 1).(poller := Aw.Clear, flag := true)
    requires s == Waiting().(cell := s.cell, reported := true)
    ensures Run(InPoll(s, d), Nexts(1)) == Some(Attempt())
  {
    hide Run, Nexts, InPoll;
    assert [Aw.Pending(Some(0))] + [Aw.Ready] == [Aw.Pending(Some(0)), Aw.Ready];
    assert Aw.PollNext(d) == Some(Aw.Woken0());
    LastNext(s, d, Aw.Woken0());
  }

  /** The attempt would block, the waker is reset, the waking thread gets the slot's lock, and the
      poll that the loop makes next cannot. */
  lemma LastPoll()
    ensures Run(Attempt(), [Next(WouldBlock)] + ([Next(Interrupted)] + ([WakeStep(1)] + Nexts(4)))) == None
  {
    var s := Attempt().(reported := false, attempts := 1);
    var c := Aw.AfterReset().(poller := Aw.LoadFlag(Some(0)));
    hide Nexts;
    assert c.takers[1 := Aw.Holding] == map[1 := Aw.Holding];
    RunFirst(Attempt(), Next(WouldBlock), [Next(Interrupted)] + ([WakeStep(1)] + Nexts(4)));
    RunFirst(s.(op := Resetting(Some(0))), Next(Interrupted), [WakeStep(1)] + Nexts(4));
    RunFirst(InPoll(s, c), WakeStep(1), Nexts(4));
    SlotIsTaken(s, c.(lock := Aw.ByTaker(1), takers := map[1 := Aw.Holding]));
    hide Run;
  }

  lemma SlotIsTaken(s: State, d: Aw.Cell)
    requires d.state == Aw.EMPTY && !d.flag && d.lock.ByTaker? && d.poller == Aw.LoadFlag(Some(0))
    ensures Run(InPoll(s, d), Nexts(4)) == None
  {
    var e := d.(state := Aw.UPDATING, poller := Aw.LockSlot(0), registered := None);
    assert Nexts(1)[0] == Next(Interrupted) && Step(InPoll(s, e), Next(Interrupted)) == None;
    assert Run(InPoll(s, e), Nexts(1)) == None;
    hide Run, Nexts, InPoll;
    OneNext(s, d, d.(poller := Aw.LoadState(Some(0))), 4);
    OneNext(s, d.(poller := Aw.LoadState(Some(0))), d.(poller := Aw.Claim(Aw.EMPTY, 0)), 3);
    OneNext(s, d.(poller := Aw.Claim(Aw.EMPTY, 0)), e, 2);
  }

  /** The loop can panic: readiness is reported, found by the next call, and followed by an attempt
      that would block and so by a reset, before the waking thread has reached the slot. */
  lemma LoopCanPanic()
    ensures exists es: seq<Event> :: Run(Init, es) == None
  {
    var a, b := [Call(Some(0))] + Nexts(6), [Wake(1)] + ([Call(Some(0))] + Nexts(4));
    var c := [Next(WouldBlock)] + ([Next(Interrupted)] + ([WakeStep(1)] + Nexts(4)));
    hide Run, Nexts, Step;
    FirstCall();
    SecondCall();
    LastPoll();
    RunConcat(Init, a, b);
    RunConcat(Init, a + b, c);
    assert Run(Init, a + b + c) == None;
  }
}
