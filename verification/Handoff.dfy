/** The worker hand-off protocol as a state machine.

    Worker indices travel between the idle list, the locals of `notify`, a thread about to
    start, a parker's word and a running thread. Every thread carries a program counter and
    `Step` performs one of its atomic operations or critical sections, under sequential
    consistency. The result None is a panic of the original: a failing `unwrap`, `assert` or
    `unreachable!`. Everything the protocol does not decide (what user code does, time-outs,
    whether the OS can start a thread) is an input of the step. */
module Handoff {
  import opened Prelude
  import opened ParkWord

  type Tid = nat

  /** The three places where `search_retry` is called. */
  datatype Site = AtStart | AtRetry | AtWake

  /** Where a thread is in `block_on` and what that place keeps in local variables. */
  datatype Main =
    // Not inside block_on; a pool thread whose closure has not run; the two ends of a thread.
    | Outside | Unstarted(i: nat) | Leave | Finish | Done
    // Executor::search_retry
    | RetryLoad(site: Site) | RetryPop(site: Site) | RetryAdd(site: Site, i: nat)
    // transition_to_running; `found` says that a runnable is already in hand
    | TakeSeat(i: nat, found: bool) | SeatTaken(found: bool)
    // WorkerContext::poll, poll_worker and run
    | PollFuture | PollQueues(searched: bool) | SearchAdd | Found(finished: bool) | RunTask
    // transition_to_idle and search_failed; `exit` when called at the end of block_on
    | GiveSeat(exit: bool) | SeatGiven(exit: bool)
    | PushIdle(i: nat, was: bool, exit: bool) | DropSearch(was: bool, exit: bool)
    // ThreadPool::wait
    | WaitFirst | WaitSecond | WaitPush | WaitThird | Unlist(w: Option<nat>)
    // Parker::park and park_waiting; Consume is the store of poll_unparked
    | ParkCas | ParkUnwrap | ParkNet | ParkLock | ParkCheck | ParkWait | ParkBlocked | ParkRecheck
    | ParkBack(net: bool) | Consume(w: Option<nat>, listed: bool)
    // the rest of poll's loop
    | Woken(w: Option<nat>) | PopInject(i: nat) | Inject

  /** A call made by user code or by the loop that runs to completion before `main` goes on. */
  datatype Sub =
    | NoSub
    // Executor::notify and ThreadPool::spawn
    | NotifyPending | NotifyLoad | NotifyCas | IdleLoad | IdlePop
    | Spawn(i: nat) | SpawnUnpark(i: nat, p: Tid) | SpawnThread(i: nat) | PushBack(i: nat) | Release
    // Parker::unpark(None) and the two steps of unpark_waiting
    | Unpark(p: Tid) | SignalLock(p: Tid) | SignalNotify(p: Tid)

  /** A thread from the time it gets hold of the runtime until its call of `block_on` returns, with
      the Context and the Parker of that call. If it goes on after that, it does so under a new name,
      as its next call makes a new Parker. */
  datatype Thread = Thread(
    main: Main, sub: Sub,
    wi: Option<nat>,          // Context::worker_index
    producer: Option<nat>,    // Context::producer, named by the run queue it was made for
    searching: bool,          // WorkerContext::searching
    pooled: bool,             // started by ThreadPool::spawn
    word: ParkState,          // Parker::state
    locked: bool,             // the owner holds Parker::mutex
    blocked: bool)            // the owner is in the condvar's wait set

  datatype Seat = Seat(lock: Option<Tid>, producer: Option<nat>)

  datatype Sys = Sys(
    n: nat,                   // workers.len()
    max: nat,                 // config.max_threads()
    pending: bool, indices: seq<nat>,   // IdleQueue
    searching: int,
    spawned: int, pool: seq<Tid>,       // PoolState
    seats: seq<Seat>,         // the producer cells of the run queues
    th: map<Tid, Thread>)

  datatype Choice = Choice(flag: bool, tid: Tid)

  datatype Event =
    | Arrive(t: Tid)              // a thread outside the runtime gets hold of a handle
    | Enter(t: Tid)               // such a thread, or one not seen before, calls block_on
    | Exit(t: Tid)                // such a thread ends
    | CallNotify(t: Tid)          // user code of t schedules or injects a runnable
    | CallWake(t: Tid, p: Tid)    // t wakes the future of p's block_on
    | Advance(t: Tid, c: Choice)

  function NewThread(main: Main, pooled: bool): (r: Thread) {
    Thread(main, NoSub, None, None, false, pooled, Empty, false, false)
  }

  function Init(n: nat, max: nat): (r: Sys) {
    Sys(n, max, true, seq(n, (k: nat) => k), 0, 0, [], seq(n, (k: nat) => Seat(None, Some(k))), map[])
  }

  /** Where `schedule` or `inject`, and so `notify`, can be called. */
  predicate MayNotify(m: Main) {
    m.Outside? || m.PollFuture? || m.PollQueues? || m.RunTask? || m.PopInject? || m.Inject?
  }

  /** Where the waker of a block_on future can be called. */
  predicate MayWake(m: Main) { MayNotify(m) || m.ParkNet? }

  predicate IsOutside(x: Thread) { x.main.Outside? && x.sub.NoSub? }

  function Put(s: Sys, t: Tid, x: Thread): (r: Sys) { s.(th := s.th[t := x]) }

  function Step(s: Sys, e: Event): (r: Option<Sys>) {
    match e
    case Arrive(t) => Some(if t in s.th then s else Put(s, t, NewThread(Outside, false)))
    case Enter(t) =>
      Some(if t !in s.th then Put(s, t, NewThread(RetryLoad(AtStart), false))
           else if IsOutside(s.th[t]) then Put(s, t, s.th[t].(main := RetryLoad(AtStart))) else s)
    case Exit(t) => Some(if t in s.th && IsOutside(s.th[t]) then Put(s, t, s.th[t].(main := Done)) else s)
    case CallNotify(t) =>
      Some(if t in s.th && s.th[t].sub.NoSub? && MayNotify(s.th[t].main)
           then Put(s, t, s.th[t].(sub := NotifyPending)) else s)
    case CallWake(t, p) =>
      Some(if t in s.th && p in s.th && s.th[t].sub.NoSub? && MayWake(s.th[t].main)
           then Put(s, t, s.th[t].(sub := Unpark(p))) else s)
    case Advance(t, c) =>
      if t !in s.th then Some(s)
      else if s.th[t].sub.NoSub? then MainStep(s, t, c) else SubStep(s, t, c)
  }

  function Run(s: Sys, es: seq<Event>): (r: Option<Sys>)
    decreases |es|
  {
    if es == [] then Some(s)
    else match Step(s, es[0])
      case None => None
      case Some(s') => Run(s', es[1..])
  }

  // ---- block_on --------------------------------------------------------------------------

  /** Steps that change the shared state. */
  predicate Shared(m: Main) {
    m.RetryPop? || m.RetryAdd? || m.TakeSeat? || m.SeatTaken? || m.SearchAdd? || m.Found? || m.GiveSeat?
    || m.SeatGiven? || m.PushIdle? || m.DropSearch? || m.WaitPush? || m.Unlist? || m.Finish?
  }

  function MainStep(s: Sys, t: Tid, c: Choice): (r: Option<Sys>)
    requires t in s.th
  {
    var x := s.th[t];
    if Shared(x.main) then SharedStep(s, t, c)
    else match OwnStep(s.pending, 2 * s.searching < s.n, x, c)
      case None => None
      case Some(y) => Some(Put(s, t, y))
  }

  /** Steps that only read shared state, or change the thread's own parker. `pending` is the
      flag of the idle list and `few` is the test of `search_begin`. */
  function OwnStep(pending: bool, few: bool, x: Thread, c: Choice): (r: Option<Thread>)
    requires !Shared(x.main)
  {
    if InWait(x.main) then WaitStep(x, c)
    else if InPark(x.main) then ParkStep(x, c)
    else Some(x.(main := LoopNext(pending, few, x, c)))
  }

  predicate InWait(m: Main) {
    m.WaitFirst? || m.WaitSecond? || m.WaitThird? || m.ParkCas? || m.ParkUnwrap? || m.ParkNet? || m.Consume?
  }

  predicate InPark(m: Main) {
    m.ParkLock? || m.ParkCheck? || m.ParkWait? || m.ParkBlocked? || m.ParkRecheck? || m.ParkBack?
  }

  function LoopNext(pending: bool, few: bool, x: Thread, c: Choice): (r: Main) {
    var m := x.main;
    if m.Unstarted? then TakeSeat(m.i, false)
    else if m.RetryLoad? then (if pending then RetryPop(m.site) else Missed(m.site))
    else if m.PollFuture? then (if c.flag then Found(true) else if x.wi.Some? then PollQueues(false) else WaitFirst)
    else if m.PollQueues? then QueuesNext(few, x, m.searched, c)
    else if m.RunTask? || m.Inject? then PollFuture
    else if m.Woken? then
      (if m.w.Some? then PopInject(m.w.value) else if c.flag then RetryLoad(AtWake) else Inject)
    else if m.PopInject? then TakeSeat(m.i, c.flag)
    else if m.Leave? then (if x.wi.Some? then GiveSeat(true) else Finish)
    else m
  }

  /** `ThreadPool::wait` and `Parker::park` around the waiting itself. */
  function WaitStep(x: Thread, c: Choice): (r: Option<Thread>)
    requires InWait(x.main)
  {
    var m := x.main;
    if m.WaitFirst? then Some(x.(main := Peek(x.word, false, WaitSecond)))
    else if m.WaitSecond? then Some(x.(main := Peek(x.word, false, WaitPush)))
    else if m.WaitThird? then Some(x.(main := Peek(x.word, true, ParkCas)))
    else if m.ParkCas? then
      Some(if x.word != Empty then x.(main := ParkUnwrap)
           else if c.flag then x.(main := ParkNet, word := Polling)
           else x.(main := ParkLock, word := Waiting))
    else if m.ParkUnwrap? then
      if x.word.Notified? then Some(x.(main := Consume(x.word.index, true))) else None
    else if m.ParkNet? then Some(x.(main := ParkBack(true)))
    else Some(x.(main := if m.listed then Unlist(m.w) else Woken(m.w), word := Empty))
  }

  /** `park_waiting` and the compare-exchange that ends `park`. A blocked thread comes back
      when it is signalled, when its time is over or spuriously, with the mutex. */
  function ParkStep(x: Thread, c: Choice): (r: Option<Thread>)
    requires InPark(x.main)
  {
    var m := x.main;
    if m.ParkLock? then Some(x.(main := ParkCheck, locked := true))
    else if m.ParkCheck? then
      if x.word.Waiting? then Some(x.(main := ParkWait))
      else if x.word.Notified? then Some(x.(main := ParkBack(false), locked := false))
      else None
    else if m.ParkWait? then Some(x.(main := ParkBlocked, locked := false, blocked := true))
    else if m.ParkBlocked? then
      Some(if x.blocked && !c.flag then x else x.(main := ParkRecheck, locked := true, blocked := false))
    else if m.ParkRecheck? then
      if x.word.Waiting? || x.word.Notified? then Some(x.(main := ParkBack(false), locked := false)) else None
    else
      Some(if x.word == (if m.net then Polling else Waiting) then x.(main := Unlist(None), word := Empty)
           else x.(main := ParkUnwrap))
  }

  /** Where a failed `search_retry` leads. */
  function Missed(site: Site): (r: Main) {
    match site case AtStart => PollFuture case AtRetry => WaitFirst case AtWake => Inject
  }

  function SharedStep(s: Sys, t: Tid, c: Choice): (r: Option<Sys>)
    requires t in s.th && Shared(s.th[t].main)
  {
    var m := s.th[t].main;
    if m.RetryPop? then RetryPopStep(s, t, m.site)
    else if m.TakeSeat? then TakeSeatStep(s, t, m.i, m.found)
    else if m.SeatTaken? then SeatTakenStep(s, t, m.found)
    else if m.GiveSeat? then GiveSeatStep(s, t, m.exit)
    else if m.SeatGiven? then SeatGivenStep(s, t, m.exit)
    else if m.PushIdle? then PushIdleStep(s, t, m.i, m.was, m.exit)
    else TallyStep(s, t, c)
  }

  /** `search_begin` and `search_retry` after their decision, `search_discovered`, the end of
      `search_failed`, the parker list in `wait`, and `finish`. */
  function TallyStep(s: Sys, t: Tid, c: Choice): (r: Option<Sys>)
    requires t in s.th
  {
    var x := s.th[t];
    if SearchDelta(x) < 0 && s.searching == 0 then None
    else if SpawnDelta(x) < 0 && (s.spawned > s.max || s.spawned == 0) then None
    else Some(Put(s, t, TallyNext(x, s.searching == 1, c)).(
                searching := s.searching + SearchDelta(x),
                spawned := s.spawned + SpawnDelta(x),
                pool := if x.main.WaitPush? then s.pool + [t]
                        else if x.main == Unlist(None) then RemoveFirst(s.pool, t) else s.pool))
  }

  function SearchDelta(x: Thread): (r: int) {
    var m := x.main;
    if m.RetryAdd? || m.SearchAdd? then 1
    else if (m.Found? && x.searching) || (m.DropSearch? && m.was) then -1
    else 0
  }

  function SpawnDelta(x: Thread): (r: int) { if x.main.Finish? && x.pooled then -1 else 0 }

  /** `last` says that the counter of searching threads was 1. The flag of the choice is
      whether the injector holds a runnable. */
  function TallyNext(x: Thread, last: bool, c: Choice): (r: Thread) {
    var m := x.main;
    if m.RetryAdd? then x.(main := if m.site.AtWake? then PopInject(m.i) else TakeSeat(m.i, false))
    else if m.SearchAdd? then x.(main := PollQueues(true), searching := true)
    else if m.Found? then
      // a searching thread gives up its token, and the last one notifies
      x.(main := if m.finished then Leave else RunTask, searching := false,
         sub := if x.searching && last then NotifyPending else NoSub)
    else if m.DropSearch? then
      var retry := m.was && last && c.flag;
      if m.exit then x.(main := Finish, sub := if retry then NotifyPending else NoSub)
      else x.(main := if retry then RetryLoad(AtRetry) else WaitFirst)
    else if m.WaitPush? then x.(main := WaitThird)
    else if m.Unlist? then x.(main := Woken(m.w))
    else x.(main := Done)
  }

  function PushIdleStep(s: Sys, t: Tid, i: nat, was: bool, exit: bool): (r: Option<Sys>)
    requires t in s.th
  {
    Some(Put(s, t, s.th[t].(main := DropSearch(was, exit))).(indices := s.indices + [i], pending := true))
  }

  /** The load of `poll_unparked`: take what the word delivers, or go on. */
  function Peek(word: ParkState, listed: bool, next: Main): (r: Main) {
    if word.Notified? then Consume(word.index, listed) else next
  }

  /** The scan of `wait`: drop the first occurrence, the last parker fills the hole. */
  function RemoveFirst(pool: seq<Tid>, t: Tid): (r: seq<Tid>)
    ensures t !in pool ==> r == pool
    ensures t in pool ==> multiset(r) == multiset(pool) - multiset{t}
    ensures forall u :: u in r ==> u in pool
  {
    if t !in pool then pool else SwapRemove(pool, IndexOf(pool, t))
  }

  function IndexOf(pool: seq<Tid>, t: Tid): (k: nat)
    requires t in pool
    ensures k < |pool| && pool[k] == t && t !in pool[..k]
  {
    if pool[0] == t then 0 else
      var k := 1 + IndexOf(pool[1..], t);
      assert pool[..k] == [pool[0]] + pool[1..][..k - 1];
      k
  }

  /** `IdleQueue::pop` after its load: the flag is cleared with the last index. */
  function PopFlag(s: Sys): (r: bool) { if |s.indices| == 1 then false else s.pending }

  function RetryPopStep(s: Sys, t: Tid, site: Site): (r: Option<Sys>)
    requires t in s.th
  {
    var x := s.th[t];
    if |s.indices| == 0 then Some(Put(s, t, x.(main := Missed(site))))
    else
      var last := |s.indices| - 1;
      Some(Put(s, t, x.(main := RetryAdd(site, s.indices[last])))
        .(indices := s.indices[..last], pending := PopFlag(s)))
  }

  /** `transition_to_running` up to the try_lock of the seat. */
  function TakeSeatStep(s: Sys, t: Tid, i: nat, found: bool): (r: Option<Sys>)
    requires t in s.th
  {
    var x := s.th[t];
    if x.wi.None? && !x.searching && i < |s.seats| && s.seats[i].lock.None?
    then Some(Put(s, t, x.(main := SeatTaken(found), wi := Some(i), searching := true))
                .(seats := s.seats[i := s.seats[i].(lock := Some(t))]))
    else None
  }

  /** The swap itself: the producer must be there, and the context must have none. */
  function SeatTakenStep(s: Sys, t: Tid, found: bool): (r: Option<Sys>)
    requires t in s.th
  {
    var x := s.th[t];
    if x.wi.Some? && x.wi.value < |s.seats| && s.seats[x.wi.value].producer.Some? && x.producer.None?
    then Some(Put(s, t, x.(main := if found then Found(false) else PollFuture,
                           producer := s.seats[x.wi.value].producer))
                .(seats := s.seats[x.wi.value := Seat(None, None)]))
    else None
  }

  /** `transition_to_idle` up to the try_lock; the producer in hand is still this thread's. */
  function GiveSeatStep(s: Sys, t: Tid, exit: bool): (r: Option<Sys>)
    requires t in s.th
  {
    var x := s.th[t];
    if x.producer.Some? && x.wi.Some? && x.wi.value < |s.seats| && s.seats[x.wi.value].lock.None?
    then Some(Put(s, t, x.(main := SeatGiven(exit)))
                .(seats := s.seats[x.wi.value := s.seats[x.wi.value].(lock := Some(t))]))
    else None
  }

  function SeatGivenStep(s: Sys, t: Tid, exit: bool): (r: Option<Sys>)
    requires t in s.th
  {
    var x := s.th[t];
    if x.wi.Some? && x.wi.value < |s.seats| && s.seats[x.wi.value].producer.None?
    then Some(Put(s, t, x.(main := PushIdle(x.wi.value, x.searching, exit),
                           wi := None, producer := None, searching := false))
                .(seats := s.seats[x.wi.value := Seat(None, x.producer)]))
    else None
  }

  /** `poll_worker`: before `search_begin` a runnable can turn up in any case, after it only
      for a thread that searches. */
  function QueuesNext(few: bool, x: Thread, searched: bool, c: Choice): (r: Main) {
    if c.flag && (searched ==> x.searching) then Found(false)
    else if searched then GiveSeat(false)
    else if x.searching || !few then PollQueues(true)
    else SearchAdd
  }

  // ---- notify, spawn, unpark -------------------------------------------------------------

  function SubStep(s: Sys, t: Tid, c: Choice): (r: Option<Sys>)
    requires t in s.th
  {
    var m := s.th[t].sub;
    if m.IdlePop? then IdlePopStep(s, t)
    else if m.PushBack? then PushBackStep(s, t, m.i)
    else if m.SpawnUnpark? then UnparkStep(s, t, m.p, Some(m.i), Spawn(m.i))
    else if m.SpawnThread? then SpawnThreadStep(s, t, m.i, c)
    else if m.Unpark? then UnparkStep(s, t, m.p, None, NoSub)
    else if m.SignalLock? || m.SignalNotify? then SignalStep(s, t, m.p)
    else NotifyStep(s, t)
  }

  /** The steps of `notify` on the flag and the counter, and the critical section of `spawn`. */
  function NotifyStep(s: Sys, t: Tid): (r: Option<Sys>)
    requires t in s.th
  {
    var m := s.th[t].sub;
    if m.Release? && s.searching == 0 then None
    else if m.Spawn? && s.pool == [] && s.spawned > s.max then None
    else
      var next := NotifyNext(s, m);
      Some(Put(s, t, s.th[t].(sub := next)).(
             searching := if m.NotifyCas? && next.IdleLoad? then 1
                          else if m.Release? then s.searching - 1 else s.searching,
             spawned := if next.SpawnThread? then s.spawned + 1 else s.spawned,
             pool := if next.SpawnUnpark? then SwapRemove(s.pool, 0) else s.pool))
  }

  function NotifyNext(s: Sys, m: Sub): (r: Sub)
    ensures r.SpawnUnpark? ==> s.pool != []
  {
    if m.NotifyPending? then if s.pending then NotifyLoad else NoSub
    else if m.NotifyLoad? then if s.searching > 0 then NoSub else NotifyCas
    else if m.NotifyCas? then if s.searching == 0 then IdleLoad else NoSub
    else if m.IdleLoad? then if s.pending then IdlePop else Release
    else if m.Spawn? then
      if s.pool != [] then SpawnUnpark(m.i, s.pool[0])
      else if s.spawned == s.max then PushBack(m.i)
      else SpawnThread(m.i)
    else NoSub
  }

  function PushBackStep(s: Sys, t: Tid, i: nat): (r: Option<Sys>)
    requires t in s.th
  {
    Some(Put(s, t, s.th[t].(sub := Release)).(indices := s.indices + [i], pending := true))
  }

  function IdlePopStep(s: Sys, t: Tid): (r: Option<Sys>)
    requires t in s.th
  {
    var x := s.th[t];
    if |s.indices| == 0 then Some(Put(s, t, x.(sub := Release)))
    else
      var last := |s.indices| - 1;
      Some(Put(s, t, x.(sub := Spawn(s.indices[last])))
        .(indices := s.indices[..last], pending := PopFlag(s)))
  }

  /** `unpark_waiting`: through the mutex, then the signal. */
  function SignalStep(s: Sys, t: Tid, p: Tid): (r: Option<Sys>)
    requires t in s.th
  {
    var x := s.th[t];
    if p !in s.th then None
    else if x.sub.SignalLock? then Some(if s.th[p].locked then s else Put(s, t, x.(sub := SignalNotify(p))))
    else
      var s' := Put(s, p, s.th[p].(blocked := false));
      Some(Put(s', t, s'.th[t].(sub := NoSub)))
  }

  /** `unpark`: the atomic update, then on with the answer. */
  function UnparkStep(s: Sys, t: Tid, p: Tid, w: Option<nat>, refused: Sub): (r: Option<Sys>)
    requires t in s.th
  {
    if p !in s.th then None
    else
      var s' := Deliver(s, p, w);
      Some(Put(s', t, s'.th[t].(sub := AfterUnpark(s.th[p].word, p, w, refused))))
  }

  /** The atomic update of `unpark`: does it change the word? */
  predicate Accepts(word: ParkState, w: Option<nat>) {
    !word.Notified? && !(word.Empty? && w.Some?)
  }

  function Deliver(s: Sys, p: Tid, w: Option<nat>): (r: Sys)
    requires p in s.th
  {
    if Accepts(s.th[p].word, w) then Put(s, p, s.th[p].(word := Notified(w))) else s
  }

  /** `unpark` after its update: true for Waiting (which still has to be signalled) and for
      Polling, otherwise the caller goes on with `refused`. */
  function AfterUnpark(word: ParkState, p: Tid, w: Option<nat>, refused: Sub): (r: Sub) {
    if !Accepts(word, w) then refused
    else if word.Waiting? then SignalLock(p)
    else if word.Polling? then NoSub
    else refused
  }

  /** The OS starts the thread (the flag) under a new name, or `finish` takes the count back. */
  function SpawnThreadStep(s: Sys, t: Tid, i: nat, c: Choice): (r: Option<Sys>)
    requires t in s.th
  {
    var x := s.th[t];
    if c.flag then
      Some(if c.tid in s.th then s
           else Put(Put(s, c.tid, NewThread(Unstarted(i), true)), t, x.(sub := NoSub)))
    else if s.spawned <= s.max && s.spawned != 0
    then Some(Put(s, t, x.(sub := PushBack(i))).(spawned := s.spawned - 1))
    else None
  }
}
