/** One task: its state word, its data under a try-lock, the copies of its runnable, its join
    handle, and any number of threads that wake, run or queue it.

    `Step` performs one atomic operation; None is a panic. A call of `wake` made by the future
    while it is polled is a call of its own, under its own name. The last three fields of a
    Task are history. */
module TaskProtocol {
  import opened Prelude
  import Aw = AtomicWaker

  type Tid = nat
  type Qid = nat     // the injector, a worker's run queue, or an intercept or ready deque
  type Output = nat  // `Result<F::Output, TaskError>`

  datatype TaskState = IDLE | SCHEDULED | RUNNING | NOTIFIED

  datatype TaskData = Pending | Polling | Ready(r: Output) | Joined

  datatype Pc =
    // holding the runnable: on the way into a queue, or out of one
    | Scheduling | InHand | StoreRunning
    // Task::run between the two transitions
    | LockData | TakeFuture | PollFuture | PutBack | Finish(r: Output)
    | ToIdle | FromNotified | StoreScheduled
    // Task::run after completion
    | WakeJoiner | Waking

  datatype Lock = Free | ByRunner(t: Tid) | ByJoiner

  datatype JoinPc = JIdle | JPolling | JLock | JTake | JDone(r: Output)

  datatype Task = Task(
    state: TaskState,
    data: TaskData, lock: Lock,
    pcs: map<Tid, Pc>,
    queued: multiset<Qid>,
    cell: Aw.Cell,
    join: JoinPc,
    polls: nat,               // polls of the future that have begun
    last: Option<Output>,     // the result of the last poll that has ended, if it was Ready
    woken: bool)              // a wake has happened since the last poll began

  datatype Event =
    | Wake(t: Tid)                              // Wake::wake or wake_by_ref
    | Pop(t: Tid, q: Qid)                       // a thread takes the runnable from a queue
    | Move(q: Qid, q': Qid)                     // steal_batch, swap or drain between queues
    | Advance(t: Tid, q: Qid, res: Option<Output>)
    | JoinPoll(k: nat) | JoinStep

  /** After `Task::spawn` has made the task SCHEDULED and before it has queued it. */
  function Spawned(t: Tid): (r: Task) {
    Task(SCHEDULED, Pending, Free, map[t := Scheduling], multiset{}, Aw.New, JIdle, 0, None, false)
  }

  function Step(s: Task, e: Event): (r: Option<Task>) {
    match e
    case Wake(t) => Some(if t in s.pcs then s else WakeStep(s, t))
    case Pop(t, q) =>
      Some(if t !in s.pcs && q in s.queued
           then s.(pcs := s.pcs[t := InHand], queued := s.queued - multiset{q}) else s)
    case Move(q, q') => Some(if q in s.queued then s.(queued := s.queued - multiset{q} + multiset{q'}) else s)
    case Advance(t, q, res) =>
      if t !in s.pcs then Some(s)
      else if HoldsRunnable(s.pcs[t]) then QueueStep(s, t, q)
      else if Wakes(s.pcs[t]) then WakeJoinerStep(s, t)
      else if s.pcs[t].ToIdle? || s.pcs[t].FromNotified? || s.pcs[t].StoreScheduled? then EndStep(s, t)
      else RunStep(s, t, res)
    case JoinPoll(k) => JoinPollStep(s, k)
    case JoinStep => JoinNext(s)
  }

  function Run(s: Task, es: seq<Event>): (r: Option<Task>)
    decreases |es|
  {
    if es == [] then Some(s)
    else match Step(s, es[0])
      case None => None
      case Some(s') => Run(s', es[1..])
  }

  predicate HoldsRunnable(pc: Pc) { pc.Scheduling? || pc.InHand? || pc.StoreRunning? }

  predicate Wakes(pc: Pc) { pc.WakeJoiner? || pc.Waking? }

  function At(s: Task, t: Tid, pc: Pc): (r: Task) { s.(pcs := s.pcs[t := pc]) }

  function Gone(s: Task, t: Tid): (r: Task) { s.(pcs := s.pcs - {t}) }

  /** `transition_to_scheduled`, and on true the runnable is the caller's to queue. */
  function WakeStep(s: Task, t: Tid): (r: Task) {
    match s.state
    case IDLE => At(s, t, Scheduling).(state := SCHEDULED, woken := true)
    case RUNNING => s.(state := NOTIFIED, woken := true)
    case _ => s.(woken := true)
  }

  /** Queueing, and `transition_to_running` with its load and its plain store. */
  function QueueStep(s: Task, t: Tid, q: Qid): (r: Option<Task>)
    requires t in s.pcs && HoldsRunnable(s.pcs[t])
  {
    match s.pcs[t]
    case Scheduling => Some(Gone(s, t).(queued := s.queued + multiset{q}))
    case InHand => if s.state.SCHEDULED? then Some(At(s, t, StoreRunning)) else None
    case StoreRunning => Some(At(s, t, LockData).(state := RUNNING, polls := s.polls + 1, woken := false))
  }

  /** The part of `run` that works on the data; res is what the future answers. */
  function RunStep(s: Task, t: Tid, res: Option<Output>): (r: Option<Task>)
    requires t in s.pcs
  {
    var pc := s.pcs[t];
    if pc.LockData? then
      if s.lock.Free? then Some(At(s, t, TakeFuture).(lock := ByRunner(t))) else None
    else if pc.TakeFuture? then
      if s.data.Pending? then Some(At(s, t, PollFuture).(data := Polling)) else None
    else if pc.PollFuture? then
      Some(At(s, t, match res case Some(r) => Finish(r) case None => PutBack).(last := res))
    else if pc.PutBack? then Some(At(s, t, ToIdle).(data := Pending, lock := Free))
    else if pc.Finish? then Some(At(s, t, WakeJoiner).(data := Ready(pc.r), lock := Free))
    else Some(s)
  }

  /** `transition_to_idle` and `transition_to_scheduled_from_notified`. */
  function EndStep(s: Task, t: Tid): (r: Option<Task>)
    requires t in s.pcs
  {
    var pc := s.pcs[t];
    if pc.ToIdle? then
      if s.state.RUNNING? then Some(Gone(s, t).(state := IDLE))
      else if s.state.NOTIFIED? then Some(At(s, t, FromNotified))
      else None
    else if pc.FromNotified? then
      if s.state.NOTIFIED? then Some(At(s, t, StoreScheduled)) else None
    else Some(At(s, t, Scheduling).(state := SCHEDULED))
  }

  function WakeJoinerStep(s: Task, t: Tid): (r: Option<Task>)
    requires t in s.pcs
  {
    var e := if s.pcs[t].WakeJoiner? then Aw.Wake(t) else Aw.WakeStep(t);
    match Aw.Step(s.cell, e)
    case None => None
    case Some(c) => Some((if t in c.takers then At(s, t, Waking) else Gone(s, t)).(cell := c))
  }

  // ---- poll_join -----------------------------------------------------------------------------

  function JoinPollStep(s: Task, k: nat): (r: Option<Task>) {
    if !s.join.JIdle? then Some(s)
    else match Aw.Step(s.cell, Aw.Poll(Some(k)))
      case None => None
      case Some(c) => Some(s.(cell := c, join := JPolling))
  }

  function JoinNext(s: Task): (r: Option<Task>) {
    match s.join
    case JPolling =>
      (match Aw.Step(s.cell, Aw.PollStep)
       case None => None
       case Some(c) => Some(s.(cell := c, join := Answered(c))))
    case JLock => if s.lock.Free? then Some(s.(lock := ByJoiner, join := JTake)) else None
    case JTake =>
      if s.data.Ready? then Some(s.(data := Joined, lock := Free, join := JDone(s.data.r))) else None
    case _ => Some(s)
  }

  function Answered(c: Aw.Cell): (r: JoinPc) {
    if !c.poller.Idle? then JPolling
    else if c.answers != [] && c.answers[|c.answers| - 1].Ready? then JLock
    else JIdle
  }

  // ---- invariants ----------------------------------------------------------------------------

  predicate Complete(s: Task) { s.data.Ready? || s.data.Joined? }

  /** Program points between the two transitions of `run`. */
  predicate Runs(pc: Pc) { !HoldsRunnable(pc) && !Wakes(pc) }

  predicate HoldsData(pc: Pc) { pc.TakeFuture? || pc.PollFuture? || pc.PutBack? || pc.Finish? }

  /** At most one copy of the runnable or one thread inside `run`, and the state tells which. */
  ghost predicate Activity(s: Task) {
    && (forall t, u | t in s.pcs && u in s.pcs :: t == u)
    && |s.queued| <= 1 && (s.queued != multiset{} ==> s.pcs == map[])
    && (forall t | t in s.pcs ::
          && (HoldsRunnable(s.pcs[t]) ==> s.state.SCHEDULED?)
          && (Runs(s.pcs[t]) ==> s.state.RUNNING? || s.state.NOTIFIED?)
          && (s.pcs[t].FromNotified? || s.pcs[t].StoreScheduled? ==> s.state.NOTIFIED?)
          && (Wakes(s.pcs[t]) <==> Complete(s)))
    && (s.queued != multiset{} ==> s.state.SCHEDULED?)
    && (s.state.SCHEDULED? ==> s.queued != multiset{} || s.pcs != map[])
    && (s.state.IDLE? ==> s.pcs == map[] && s.queued == multiset{} && !Complete(s))
    && (s.pcs == map[] && s.queued == multiset{} ==> s.state.IDLE? || Complete(s))
    && (Complete(s) ==> (s.state.RUNNING? || s.state.NOTIFIED?) && s.queued == multiset{})
  }

  ghost predicate DataOk(s: Task) {
    && (forall t :: s.lock == ByRunner(t) <==> t in s.pcs && HoldsData(s.pcs[t]))
    && (s.lock.ByJoiner? <==> s.join.JTake?)
    && (forall t | t in s.pcs ::
          && (s.pcs[t].PollFuture? || s.pcs[t].PutBack? || s.pcs[t].Finish? ==> s.data.Polling?)
          && (s.pcs[t].Finish? ==> s.last == Some(s.pcs[t].r)))
    && (s.data.Polling? ==> s.lock.ByRunner? && s.lock.t in s.pcs && !s.pcs[s.lock.t].TakeFuture?)
    && (s.data.Ready? ==> s.last == Some(s.data.r))
  }

  /** The waker has not been touched by a completed task. */
  predicate Untouched(c: Aw.Cell) {
    c.state != Aw.NOTIFIED && !c.flag && !c.poller.SetFlag? && !c.poller.Clear? && c.takers == map[]
  }

  /** Every poll comes with a context, and one that was answered Ready was the last. */
  ghost predicate AsksOk(c: Aw.Cell, join: JoinPc) {
    && Aw.Linked(c)
    && (c.poller.LoadFlag? || c.poller.LoadState? ==> c.poller.ctx.Some?)
    && (c.answers != [] && (join.JIdle? || join.JPolling?) ==>
          c.answers[|c.answers| - 1].Pending? && c.answers[|c.answers| - 1].ctx.Some?)
  }

  ghost predicate JoinOk(s: Task) {
    && Aw.Inv(s.cell) && Aw.Calm(s.cell) && AsksOk(s.cell, s.join)
    && (s.join.JPolling? <==> !s.cell.poller.Idle?)
    && (!Complete(s) || (exists t :: t in s.pcs && s.pcs[t].WakeJoiner?) ==> Untouched(s.cell))
    && (forall t :: t in s.cell.takers <==> t in s.pcs && s.pcs[t].Waking?)
    && (s.join.JLock? || s.join.JTake? ==> s.data.Ready? && (forall t | t in s.pcs :: !s.pcs[t].WakeJoiner?))
    && (s.join.JDone? <==> s.data.Joined?)
    && (s.join.JDone? ==> s.last == Some(s.join.r) && (forall t | t in s.pcs :: !s.pcs[t].WakeJoiner?))
    && (Complete(s) && (forall t | t in s.pcs :: !s.pcs[t].WakeJoiner?) ==> s.cell.state == Aw.NOTIFIED || s.cell.flag)
  }

  ghost predicate NoWakeLost(s: Task) {
    s.woken ==> s.state.SCHEDULED? || s.state.NOTIFIED? || Complete(s)
  }

  ghost predicate Inv(s: Task) { Activity(s) && DataOk(s) && JoinOk(s) && NoWakeLost(s) }
}
