/** What every reachable state of the hand-off protocol satisfies. */
module HandoffInvariant {
  import opened Prelude
  import opened ParkWord
  import opened Handoff

  // ---- where a worker index can be ---------------------------------------------------------

  datatype Place = InIdle(k: nat) | InMain(t: Tid) | InSub(t: Tid) | InWord(t: Tid)

  function MainIndex(x: Thread): (r: Option<nat>) {
    var m := x.main;
    if m.Unstarted? || m.RetryAdd? || m.TakeSeat? || m.PushIdle? || m.PopInject? then Some(m.i)
    else if m.Unlist? || m.Woken? then m.w
    else x.wi
  }

  function SubIndex(x: Thread): (r: Option<nat>) {
    var m := x.sub;
    if m.Spawn? || m.SpawnUnpark? || m.SpawnThread? || m.PushBack? then Some(m.i) else None
  }

  function WordIndex(x: Thread): (r: Option<nat>) { if x.word.Notified? then x.word.index else None }

  function At(s: Sys, pl: Place): (r: Option<nat>) {
    match pl
    case InIdle(k) => if k < |s.indices| then Some(s.indices[k]) else None
    case InMain(t) => if t in s.th then MainIndex(s.th[t]) else None
    case InSub(t) => if t in s.th then SubIndex(s.th[t]) else None
    case InWord(t) => if t in s.th then WordIndex(s.th[t]) else None
  }

  ghost predicate Held(s: Sys, i: nat) { exists pl :: At(s, pl) == Some(i) }

  predicate SameHeld(s: Sys, pl: Place, pm: Place) { At(s, pl).Some? && At(s, pl) == At(s, pm) }

  /** Every index below n is in exactly one place, and nothing else is anywhere. */
  ghost predicate Conserved(s: Sys) {
    && (forall pl :: At(s, pl).Some? ==> At(s, pl).value < s.n)
    && (forall pl, pm :: SameHeld(s, pl, pm) ==> pl == pm)
    && (forall i: nat | i < s.n :: Held(s, i))
  }

  // ---- who holds a search token ------------------------------------------------------------

  predicate MainToken(x: Thread) {
    var m := x.main;
    if m.Unstarted? || m.TakeSeat? || m.PopInject? then true
    else if m.PushIdle? || m.DropSearch? then m.was
    else if m.Unlist? || m.Woken? then m.w.Some?
    else x.searching
  }

  predicate SubToken(x: Thread) {
    x.sub.IdleLoad? || x.sub.IdlePop? || x.sub.PushBack? || x.sub.Release? || SubIndex(x).Some?
  }

  predicate WordToken(x: Thread) { WordIndex(x).Some? }

  predicate Spawned(x: Thread) { x.pooled && !x.main.Done? }

  predicate Spawning(x: Thread) { x.sub.SpawnThread? }

  function Holders(th: map<Tid, Thread>, f: Thread -> bool): (r: set<Tid>) {
    set t | t in th && f(th[t])
  }

  function Tokens(th: map<Tid, Thread>): (r: nat) {
    |Holders(th, MainToken)| + |Holders(th, SubToken)| + |Holders(th, WordToken)|
  }

  function PoolThreads(th: map<Tid, Thread>): (r: nat) {
    |Holders(th, Spawned)| + |Holders(th, Spawning)|
  }

  // ---- one thread --------------------------------------------------------------------------

  /** Program points at which the thread is no worker. */
  predicate Workerless(m: Main) {
    !(m.SeatTaken? || m.PollFuture? || m.PollQueues? || m.SearchAdd? || m.Found? || m.RunTask?
      || m.GiveSeat? || m.SeatGiven? || m.Leave?)
  }

  /** Program points at which the word can hold what an unparker left. */
  predicate ExpectsWaiting(m: Main) {
    m.ParkLock? || m.ParkCheck? || m.ParkWait? || m.ParkBlocked? || m.ParkRecheck? || m == ParkBack(false)
  }

  predicate ExpectsPolling(m: Main) { m.ParkNet? || m == ParkBack(true) }

  predicate WordOk(x: Thread) {
    if x.main.Consume? then x.word == Notified(x.main.w)
    else if x.main.ParkUnwrap? then x.word.Notified?
    else if ExpectsWaiting(x.main) then x.word.Waiting? || x.word.Notified?
    else if ExpectsPolling(x.main) then x.word.Polling? || x.word.Notified?
    else x.word == Empty || x.word == Notified(None)
  }

  predicate LocalOk(x: Thread) {
    && (Workerless(x.main) ==> x.wi.None? && x.producer.None? && !x.searching)
    && (x.main.SeatTaken? ==> x.wi.Some? && x.producer.None? && x.searching)
    && (!Workerless(x.main) && !x.main.SeatTaken? ==> x.producer == x.wi && (x.searching ==> x.wi.Some?))
    && (x.main.PollQueues? || x.main.SearchAdd? || x.main.GiveSeat? || x.main.SeatGiven? ==> x.wi.Some?)
    && (x.main.SearchAdd? ==> !x.searching)
    && (x.main.Leave? ==> !x.searching)
    && (x.locked <==> x.main.ParkCheck? || x.main.ParkWait? || x.main.ParkRecheck?)
    && (x.blocked ==> x.main.ParkBlocked?)
    && (x.main.Outside? ==> !x.pooled)
    && WordOk(x)
  }

  /** The parker a call of `notify` or `unpark` refers to. */
  predicate SubKnown(s: Sys, x: Thread) {
    (x.sub.SpawnUnpark? || x.sub.Unpark? || x.sub.SignalLock? || x.sub.SignalNotify?) ==> x.sub.p in s.th
  }

  predicate Known(s: Sys) {
    && (forall t | t in s.pool :: t in s.th)
    && (forall t | t in s.th :: SubKnown(s, s.th[t]))
  }

  // ---- producer seats ----------------------------------------------------------------------

  predicate AtSeat(m: Main) { m.SeatTaken? || m.SeatGiven? }

  /** The seat of worker i holds i's producer exactly when no thread has it in its context,
      and is locked exactly by a thread in the middle of a swap. */
  ghost predicate Seats(s: Sys) {
    && |s.seats| == s.n
    && (forall i: nat | i < s.n :: s.seats[i].producer.Some? ==> s.seats[i].producer.value == i)
    && (forall t | t in s.th && s.th[t].producer.Some? ::
          s.th[t].producer.value < s.n && s.seats[s.th[t].producer.value].producer.None?)
    && (forall i: nat | i < s.n && s.seats[i].producer.None? ::
          exists t :: t in s.th && s.th[t].producer == Some(i))
    && (forall i: nat | i < s.n && s.seats[i].lock.Some? ::
          var t := s.seats[i].lock.value; t in s.th && AtSeat(s.th[t].main) && s.th[t].wi == Some(i))
    && (forall t | t in s.th && AtSeat(s.th[t].main) && s.th[t].wi.Some? ::
          s.th[t].wi.value < s.n && s.seats[s.th[t].wi.value].lock == Some(t))
  }

  // ---- condvar signals ---------------------------------------------------------------------

  ghost predicate LockDue(s: Sys, p: Tid) { exists u :: u in s.th && s.th[u].sub == SignalLock(p) }

  ghost predicate NotifyDue(s: Sys, p: Tid) { exists u :: u in s.th && s.th[u].sub == SignalNotify(p) }

  /** A parker about to wait, or waiting unsignalled, whose word is already Notified, has an
      unparker that still has to go through the mutex and signal. */
  ghost predicate Signals(s: Sys) {
    forall p | p in s.th && s.th[p].word.Notified? ::
      && (s.th[p].main.ParkWait? ==> LockDue(s, p))
      && (s.th[p].main.ParkBlocked? && s.th[p].blocked ==> LockDue(s, p) || NotifyDue(s, p))
  }

  ghost predicate Inv(s: Sys) {
    && (forall t | t in s.th :: LocalOk(s.th[t]))
    && Known(s)
    && Conserved(s)
    && s.searching == Tokens(s.th)
    && s.spawned == PoolThreads(s.th) && s.spawned <= s.max
    && Seats(s)
    && (s.pending <==> s.indices != [])
    && Signals(s)
  }
}
