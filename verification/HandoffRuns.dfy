/** What the calls of the hand-off protocol achieve: parked threads can be found, wakes lead to a poll,
    the last searcher looks once more, and an index that is handed over arrives. */
module HandoffRuns {
  import opened Prelude
  import opened ParkWord
  import opened Handoff
  import opened HandoffInvariant
  import opened HandoffProof
  import opened HandoffTheorems
  import opened HandoffBound

  // ---- the list of parked threads --------------------------------------------------------------

  /** At this event some thread's `spawn` takes t out of the list, or t does when it has waited in vain. */
  predicate Unlists(s: Sys, e: Event, t: Tid) {
    && e.Advance? && e.t in s.th && Step(s, e).Some? && e.t in Step(s, e).value.th
    && var x, y := s.th[e.t], Step(s, e).value.th[e.t];
      || (x.sub.Spawn? && y.sub == SpawnUnpark(x.sub.i, t))
      || (e.t == t && x.sub.NoSub? && x.main == Unlist(None))
  }

  /** Some event of the run does. */
  ghost predicate UnlistedIn(s: Sys, es: seq<Event>, t: Tid)
    decreases |es|
  {
    es != [] && Step(s, es[0]).Some? && (Unlists(s, es[0], t) || UnlistedIn(Step(s, es[0]).value, es[1..], t))
  }

  lemma OthersStay(pool: seq<Tid>, t: Tid, u: Tid)
    requires t in pool && u != t
    ensures t in RemoveFirst(pool, u)
  {
    if u in pool { assert multiset(RemoveFirst(pool, u))[t] == multiset(pool)[t]; }
  }

  lemma SwapStays(pool: seq<Tid>, t: Tid)
    requires t in pool && pool[0] != t
    ensures t in SwapRemove(pool, 0)
  {
    assert multiset(SwapRemove(pool, 0))[t] == multiset(pool)[t];
  }

  lemma TallyPool(s: Sys, u: Tid, c: Choice, t: Tid)
    requires u in s.th && t in s.pool && TallyStep(s, u, c).Some? && !(u == t && s.th[u].main == Unlist(None))
    ensures t in TallyStep(s, u, c).value.pool
  {
    if u != t { OthersStay(s.pool, t, u); }
  }

  lemma SharedPool(s: Sys, u: Tid, c: Choice, t: Tid)
    requires u in s.th && t in s.pool && Shared(s.th[u].main) && SharedStep(s, u, c).Some?
    requires !(u == t && s.th[u].main == Unlist(None))
    ensures t in SharedStep(s, u, c).value.pool
  {
    hide TallyStep;
    if SharedStep(s, u, c) == TallyStep(s, u, c) { TallyPool(s, u, c, t); }
  }

  lemma NotifyPool(s: Sys, u: Tid, t: Tid)
    requires u in s.th && t in s.pool && NotifyStep(s, u).Some?
    ensures var s' := NotifyStep(s, u).value;
      t in s'.pool || (s.th[u].sub.Spawn? && u in s'.th && s'.th[u].sub == SpawnUnpark(s.th[u].sub.i, t))
  {
    if s.pool[0] != t { SwapStays(s.pool, t); }
  }

  lemma StaysListed(s: Sys, e: Event, t: Tid)
    requires t in s.pool && Step(s, e).Some? && !Unlists(s, e, t)
    ensures t in Step(s, e).value.pool
  {
    hide SharedStep, NotifyStep, OwnStep;
    if e.Advance? && e.t in s.th {
      if !s.th[e.t].sub.NoSub? { SubPool(s, e.t, e.c, t); }
      else if Shared(s.th[e.t].main) {
        if e.t == t && s.th[t].main == Unlist(None) { OneTally(s, t, e.c); } else { SharedPool(s, e.t, e.c, t); }
      }
    }
  }

  lemma OneTally(s: Sys, t: Tid, c: Choice)
    requires t in s.th && s.th[t].main == Unlist(None) && SharedStep(s, t, c).Some?
    ensures t in SharedStep(s, t, c).value.th
  {
  }

  lemma SubPool(s: Sys, u: Tid, c: Choice, t: Tid)
    requires u in s.th && t in s.pool && SubStep(s, u, c).Some?
    ensures var s' := SubStep(s, u, c).value;
      t in s'.pool || (s.th[u].sub.Spawn? && u in s'.th && s'.th[u].sub == SpawnUnpark(s.th[u].sub.i, t))
  {
    hide NotifyStep;
    if SubStep(s, u, c) == NotifyStep(s, u) { NotifyPool(s, u, t); }
  }

  lemma {:induction false} RunListed(s: Sys, es: seq<Event>, t: Tid)
    requires t in s.pool && Run(s, es).Some?
    ensures t in Run(s, es).value.pool || UnlistedIn(s, es, t)
    decreases |es|
  {
    hide Step, Unlists;
    if es != [] && !Unlists(s, es[0], t) {
      StaysListed(s, es[0], t);
      RunListed(Step(s, es[0]).value, es[1..], t);
    }
  }

  /** In every run from the moment at which a thread is about to list its parker, it is in the list
      from this event on up to the first at which a `spawn` addresses it or it takes itself out. */
  lemma ParkedIsListed(s: Sys, t: Tid, c: Choice, es: seq<Event>)
    requires Reachable(s) && t in s.th && s.th[t].sub.NoSub? && s.th[t].main.WaitPush?
    ensures Step(s, Advance(t, c)).Some? && Run(s, [Advance(t, c)] + es).Some?
    ensures var first := Step(s, Advance(t, c)).value;
      t in Run(s, [Advance(t, c)] + es).value.pool || UnlistedIn(first, es, t)
  {
    hide Inv, Reachable, Run, Step;
    ReachableInv(s);
    StepKeeps(s, Advance(t, c));
    var first := Step(s, Advance(t, c)).value;
    RunKeeps(first, es);
    RunFirst(s, Advance(t, c), es);
    ListsItself(s, t, c);
    RunListed(first, es, t);
  }

  lemma ListsItself(s: Sys, t: Tid, c: Choice)
    requires t in s.th && s.th[t].sub.NoSub? && s.th[t].main.WaitPush? && Step(s, Advance(t, c)).Some?
    ensures t in Step(s, Advance(t, c)).value.pool
  {
  }

  lemma RunFirst(s: Sys, e: Event, es: seq<Event>)
    requires Step(s, e).Some?
    ensures Run(s, [e] + es) == Run(Step(s, e).value, es)
  {
    assert ([e] + es)[1..] == es;
  }

  /** A `spawn` addresses a listed thread if there is one, which is then no longer listed (once), gives
      up at the limit, and otherwise starts a thread. */
  lemma SpawnFinds(s: Sys, u: Tid, c: Choice)
    requires Reachable(s) && u in s.th && s.th[u].sub.Spawn?
    ensures Step(s, Advance(u, c)).Some? && u in Step(s, Advance(u, c)).value.th
    ensures var s', i := Step(s, Advance(u, c)).value, s.th[u].sub.i;
      if s.pool != [] then
        exists t :: t in s.pool && multiset(s.pool) == multiset(s'.pool) + multiset{t}
          && s' == Put(s, u, s.th[u].(sub := SpawnUnpark(i, t))).(pool := s'.pool)
      else
        s' == if s.spawned < s.max then Put(s, u, s.th[u].(sub := SpawnThread(i))).(spawned := s.spawned + 1)
              else Put(s, u, s.th[u].(sub := PushBack(i)))
  {
    hide Inv, Reachable, Step, NotifyStep, LocalOk;
    ReachableInv(s);
    SpawnLimit(s);
    SpawnStep(s, u, c);
    SpawnOutcome(s, u, s.th[u].sub.i);
  }

  lemma SpawnStep(s: Sys, u: Tid, c: Choice)
    requires u in s.th && s.th[u].sub.Spawn?
    ensures Step(s, Advance(u, c)) == NotifyStep(s, u)
  {
    hide NotifyStep;
  }

  lemma SpawnOutcome(s: Sys, u: Tid, i: nat)
    requires u in s.th && s.th[u].sub == Spawn(i) && s.spawned <= s.max
    ensures NotifyStep(s, u).Some?
    ensures var s' := NotifyStep(s, u).value;
      if s.pool != [] then
        exists t :: t in s.pool && multiset(s.pool) == multiset(s'.pool) + multiset{t}
          && s' == Put(s, u, s.th[u].(sub := SpawnUnpark(i, t))).(pool := s'.pool)
      else
        s' == if s.spawned < s.max then Put(s, u, s.th[u].(sub := SpawnThread(i))).(spawned := s.spawned + 1)
              else Put(s, u, s.th[u].(sub := PushBack(i)))
  {
    var s' := NotifyStep(s, u).value;
    if s.pool != [] {
      var t := s.pool[0];
      assert s' == Put(s, u, s.th[u].(sub := SpawnUnpark(i, t))).(pool := s'.pool);
    }
  }

  /** In particular the only listed thread is found. */
  lemma SpawnFindsTheOne(s: Sys, u: Tid, c: Choice, t: Tid)
    requires Reachable(s) && u in s.th && s.th[u].sub.Spawn? && s.pool == [t]
    ensures var r := Step(s, Advance(u, c));
      r.Some? && u in r.value.th && r.value.th[u].sub == SpawnUnpark(s.th[u].sub.i, t) && r.value.pool == []
  {
    SpawnFinds(s, u, c);
    hide Step, Reachable;
    var s' := Step(s, Advance(u, c)).value;
    var v :| v in s.pool && multiset(s.pool) == multiset(s'.pool) + multiset{v}
             && s' == Put(s, u, s.th[u].(sub := SpawnUnpark(s.th[u].sub.i, v))).(pool := s'.pool);
    assert |multiset(s.pool)| == 1 && |multiset(s'.pool)| == 0;
  }

  // ---- the last searcher -----------------------------------------------------------------------

  /** What a step of block_on does to the counter, and what follows when it goes to zero. */
  ghost predicate CountsAndLooks(s: Sys, t: Tid, c: Choice, s': Sys) {
    && t in s.th && t in s'.th
    && var x, y := s.th[t], s'.th[t];
      && (s'.searching > s.searching ==> s'.searching == s.searching + 1 && (x.main.RetryAdd? || x.main.SearchAdd?))
      && (s'.searching < s.searching ==> s'.searching == s.searching - 1 && (x.main.Found? || x.main.DropSearch?))
      && (s.searching == 1 && s'.searching == 0 && x.main.Found? ==> y.sub.NotifyPending?)
      && (s.searching == 1 && s'.searching == 0 && x.main.DropSearch? && c.flag ==>
            if x.main.exit then y.sub.NotifyPending? else y.main == RetryLoad(AtRetry))
  }

  lemma TallyLooks(s: Sys, t: Tid, c: Choice)
    requires t in s.th && TallyStep(s, t, c).Some?
    ensures CountsAndLooks(s, t, c, TallyStep(s, t, c).value)
  {
  }

  lemma SharedLooks(s: Sys, t: Tid, c: Choice)
    requires t in s.th && Shared(s.th[t].main) && SharedStep(s, t, c).Some?
    ensures CountsAndLooks(s, t, c, SharedStep(s, t, c).value)
  {
    hide TallyStep;
    if SharedStep(s, t, c) == TallyStep(s, t, c) { TallyLooks(s, t, c); }
  }

  /** A thread that gives up the last token after it has found something to do goes on to `notify`,
      and one that has found nothing, while the injector holds a runnable (the flag), searches again,
      or notifies if it is about to leave. Nothing else that `block_on` does takes a token away. */
  lemma LastSearcherLooks(s: Sys, t: Tid, c: Choice)
    requires Reachable(s) && t in s.th && s.th[t].sub.NoSub?
    ensures Step(s, Advance(t, c)).Some? && CountsAndLooks(s, t, c, Step(s, Advance(t, c)).value)
  {
    hide Inv, Reachable, SharedStep, OwnStep;
    ReachableInv(s);
    StepKeeps(s, Advance(t, c));
    if Shared(s.th[t].main) { SharedLooks(s, t, c); }
  }

  // ---- wakes of a block_on future --------------------------------------------------------------

  /** Points from which the thread comes to a poll of its future before it can wait again. */
  predicate BeforePoll(m: Main) {
    m.Unlist? || m.Woken? || m.PopInject? || m.TakeSeat? || m.SeatTaken? || m == Found(false) || m.RunTask?
    || m.Inject? || m.PollFuture?
    || ((m.RetryLoad? || m.RetryPop? || m.RetryAdd?) && m.site.AtWake?)
  }

  /** A wake is in the word, or has been taken out of it and leads to a poll. */
  predicate Owed(x: Thread) { x.word.Notified? || BeforePoll(x.main) }

  /** At this event p polls its future. */
  predicate Polls(s: Sys, e: Event, p: Tid) {
    e.Advance? && e.t == p && p in s.th && s.th[p].sub.NoSub? && s.th[p].main.PollFuture?
  }

  ghost predicate PollsIn(s: Sys, es: seq<Event>, p: Tid)
    decreases |es|
  {
    es != [] && Step(s, es[0]).Some? && (Polls(s, es[0], p) || PollsIn(Step(s, es[0]).value, es[1..], p))
  }

  lemma OwnComesToPoll(pending: bool, few: bool, x: Thread, c: Choice)
    requires !Shared(x.main) && BeforePoll(x.main) && !x.main.PollFuture? && OwnStep(pending, few, x, c).Some?
    ensures BeforePoll(OwnStep(pending, few, x, c).value.main)
  {
    hide WaitStep, ParkStep, LoopNext;
    LoopComesToPoll(pending, few, x, c);
  }

  lemma LoopComesToPoll(pending: bool, few: bool, x: Thread, c: Choice)
    requires !Shared(x.main) && BeforePoll(x.main) && !x.main.PollFuture?
    ensures BeforePoll(LoopNext(pending, few, x, c))
  {
  }

  lemma SharedComesToPoll(s: Sys, p: Tid, c: Choice)
    requires p in s.th && Shared(s.th[p].main) && BeforePoll(s.th[p].main) && SharedStep(s, p, c).Some?
    ensures p in SharedStep(s, p, c).value.th && BeforePoll(SharedStep(s, p, c).value.th[p].main)
  {
    hide TallyStep;
    var m := s.th[p].main;
    if !m.TakeSeat? && !m.SeatTaken? && !m.RetryPop? { TallyComesToPoll(s, p, c); }
  }

  lemma TallyComesToPoll(s: Sys, p: Tid, c: Choice)
    requires p in s.th && BeforePoll(s.th[p].main) && Shared(s.th[p].main) && TallyStep(s, p, c).Some?
    requires !s.th[p].main.TakeSeat? && !s.th[p].main.SeatTaken? && !s.th[p].main.RetryPop?
    ensures p in TallyStep(s, p, c).value.th && BeforePoll(TallyStep(s, p, c).value.th[p].main)
  {
  }

  ghost predicate MainKept(s: Sys, r: Option<Sys>, p: Tid)
    requires p in s.th
  {
    r.Some? ==> p in r.value.th && r.value.th[p].main == s.th[p].main
  }

  lemma SharedKeepsMain(s: Sys, t: Tid, c: Choice, p: Tid)
    requires t in s.th && p in s.th && p != t && Shared(s.th[t].main)
    ensures MainKept(s, SharedStep(s, t, c), p)
  {
  }

  lemma SubKeepsMain(s: Sys, t: Tid, c: Choice, p: Tid)
    requires t in s.th && p in s.th
    ensures MainKept(s, SubStep(s, t, c), p)
  {
    hide NotifyStep, UnparkStep;
    var m := s.th[t].sub;
    if m.SpawnUnpark? { UnparkKeepsMain(s, t, m.p, Some(m.i), Spawn(m.i), p); }
    else if m.Unpark? { UnparkKeepsMain(s, t, m.p, None, NoSub, p); }
    else { NotifyKeepsMain(s, t, p); }
  }

  lemma NotifyKeepsMain(s: Sys, t: Tid, p: Tid)
    requires t in s.th && p in s.th
    ensures MainKept(s, NotifyStep(s, t), p)
  {
  }

  lemma UnparkKeepsMain(s: Sys, t: Tid, q: Tid, w: Option<nat>, refused: Sub, p: Tid)
    requires t in s.th && p in s.th
    ensures MainKept(s, UnparkStep(s, t, q, w, refused), p)
  {
  }

  lemma OwedStays(s: Sys, e: Event, p: Tid)
    requires Inv(s) && p in s.th && Owed(s.th[p]) && Step(s, e).Some? && !Polls(s, e, p)
    ensures p in Step(s, e).value.th && Owed(Step(s, e).value.th[p])
  {
    hide Inv, LocalOk, SubStep, SharedStep, OwnStep, BeforePoll;
    if s.th[p].word.Notified? {
      DeliveryStep(s, e, Step(s, e).value, p);
      TakenComesToPoll(s.th[p], Step(s, e).value.th[p]);
    } else {
      NotOutside(s.th[p].main);
      if e.Advance? && e.t in s.th {
        if !s.th[e.t].sub.NoSub? { SubKeepsMain(s, e.t, e.c, p); }
        else if Shared(s.th[e.t].main) {
          if e.t == p { SharedComesToPoll(s, p, e.c); } else { SharedKeepsMain(s, e.t, e.c, p); }
        }
        else if e.t == p { OwnComesToPoll(s.pending, 2 * s.searching < s.n, s.th[p], e.c); }
      }
    }
  }

  lemma TakenComesToPoll(x: Thread, y: Thread)
    requires y.word == x.word || TakenByOwner(x, y)
    ensures y.word == x.word || BeforePoll(y.main)
  {
  }

  lemma NotOutside(m: Main)
    requires BeforePoll(m)
    ensures !m.Outside?
  {
  }

  lemma {:induction false} RunOwed(s: Sys, es: seq<Event>, p: Tid)
    requires Inv(s) && p in s.th && Owed(s.th[p])
    ensures Run(s, es).Some? && Inv(Run(s, es).value)
    ensures PollsIn(s, es, p) || (p in Run(s, es).value.th && Owed(Run(s, es).value.th[p]))
    decreases |es|
  {
    hide Inv, Step, Owed, Polls;
    RunKeeps(s, es);
    if es != [] {
      StepKeeps(s, es[0]);
      if !Polls(s, es[0], p) {
        OwedStays(s, es[0], p);
        RunOwed(Step(s, es[0]).value, es[1..], p);
      }
    }
  }

  lemma WakeDelivers(s: Sys, t: Tid, c: Choice, p: Tid)
    requires t in s.th && p in s.th && s.th[t].sub == Unpark(p)
    ensures var r := Step(s, Advance(t, c)); r.Some? && p in r.value.th && r.value.th[p].word.Notified?
  {
  }

  lemma OwedSleeper(s: Sys, p: Tid)
    requires Inv(s) && p in s.th && Owed(s.th[p]) && s.th[p].main.ParkBlocked? && s.th[p].blocked
    ensures exists u :: u in s.th && (s.th[u].sub == SignalLock(p) || s.th[u].sub == SignalNotify(p))
  {
    hide Known, Seats, Conserved;
    assert LockDue(s, p) || NotifyDue(s, p);
  }

  /** No wake of a block_on future is lost. In every run from the wake on, up to the first event by
      which the woken thread polls its future, the wake is in the word of its parker, or the thread is
      on its way to that poll; and it does not sleep without somebody about to signal it. */
  lemma WokenPolls(s: Sys, t: Tid, c: Choice, p: Tid, es: seq<Event>)
    requires Reachable(s) && t in s.th && s.th[t].sub == Unpark(p)
    ensures Step(s, Advance(t, c)).Some? && Run(s, [Advance(t, c)] + es).Some?
    ensures var first, last := Step(s, Advance(t, c)).value, Run(s, [Advance(t, c)] + es).value;
      || PollsIn(first, es, p)
      || (p in last.th && (last.th[p].word.Notified? || BeforePoll(last.th[p].main))
          && (last.th[p].main.ParkBlocked? && last.th[p].blocked ==>
               exists u :: u in last.th && (last.th[u].sub == SignalLock(p) || last.th[u].sub == SignalNotify(p))))
  {
    hide Inv, Reachable, Run, Step, BeforePoll;
    ReachableInv(s);
    CallsKnown(s, t);
    StepKeeps(s, Advance(t, c));
    WakeDelivers(s, t, c, p);
    var first := Step(s, Advance(t, c)).value;
    RunOwed(first, es, p);
    RunFirst(s, Advance(t, c), es);
    var last := Run(first, es).value;
    if !PollsIn(first, es, p) && last.th[p].main.ParkBlocked? && last.th[p].blocked { OwedSleeper(last, p); }
  }

  /** The same from the call of `wake` by a thread that may make it. */
  lemma WakeLeadsToPoll(s: Sys, t: Tid, c: Choice, p: Tid, es: seq<Event>)
    requires Reachable(s) && t in s.th && p in s.th && s.th[t].sub.NoSub? && MayWake(s.th[t].main)
    ensures var wake := [CallWake(t, p), Advance(t, c)];
      && Run(s, wake).Some? && Run(s, wake + es).Some?
      && var first, last := Run(s, wake).value, Run(s, wake + es).value;
         p in first.th && first.th[p].word.Notified?
         && (PollsIn(first, es, p) || (p in last.th && (last.th[p].word.Notified? || BeforePoll(last.th[p].main))))
  {
    hide Inv, Reachable, Run, BeforePoll;
    var called := Put(s, t, s.th[t].(sub := Unpark(p)));
    assert Step(s, CallWake(t, p)) == Some(called);
    hide Step;
    NextReachable(s, CallWake(t, p));
    WakeDelivers(called, t, c, p);
    WokenPolls(called, t, c, p, es);
    RunFirst(s, CallWake(t, p), [Advance(t, c)]);
    RunFirst(s, CallWake(t, p), [Advance(t, c)] + es);
    RunFirst(called, Advance(t, c), []);
    RunFirst(called, Advance(t, c), es);
    NoEvents(Step(called, Advance(t, c)).value);
    assert [Advance(t, c)] == [Advance(t, c)] + [];
    assert [CallWake(t, p), Advance(t, c)] == [CallWake(t, p)] + [Advance(t, c)];
    assert [CallWake(t, p), Advance(t, c)] + es == [CallWake(t, p)] + ([Advance(t, c)] + es);
  }

  lemma NextReachable(s: Sys, e: Event)
    requires Reachable(s) && Step(s, e).Some?
    ensures Reachable(Step(s, e).value)
  {
    hide Step, Init;
    var n: nat, max: nat, es: seq<Event> :| n >= 1 && Run(Init(n, max), es) == Some(s);
    RunLast(Init(n, max), es, e);
    assert Run(Init(n, max), es + [e]) == Some(Step(s, e).value);
  }

  // ---- undisturbed runs ------------------------------------------------------------------------

  const No: Choice := Choice(false, 0)

  /** What a thread does on its own, one step after the other. */
  ghost predicate OwnPath(pending: bool, few: bool, xs: seq<Thread>) {
    forall k, m | 0 <= k < m < |xs| && m == k + 1 :: OwnNext(pending, few, xs[k], xs[m])
  }

  predicate OwnNext(pending: bool, few: bool, x: Thread, y: Thread) {
    x.sub.NoSub? && !Shared(x.main) && OwnStep(pending, few, x, No) == Some(y)
  }

  lemma {:induction false} OwnTicks(s: Sys, t: Tid, xs: seq<Thread>)
    requires xs != [] && OwnPath(s.pending, 2 * s.searching < s.n, xs)
    ensures Run(Put(s, t, xs[0]), Ticks(t, |xs| - 1)) == Some(Put(s, t, xs[|xs| - 1]))
    decreases |xs|
  {
    hide OwnStep, Shared;
    if |xs| > 1 {
      assert OwnNext(s.pending, 2 * s.searching < s.n, xs[0], xs[1]);
      var rest := xs[1..];
      assert forall k | 0 <= k < |rest| :: rest[k] == xs[k + 1];
      assert Put(s, t, xs[0]).th[t := xs[1]] == Put(s, t, xs[1]).th;
      OneTick(Put(s, t, xs[0]), t, |xs| - 1, Put(s, t, xs[1]));
      OwnTicks(s, t, rest);
    }
  }

  /** A thread outside of any worker, at a point of block_on. */
  function Plain(x: Thread, m: Main, word: ParkState): (y: Thread) {
    x.(main := m, word := word, locked := false, blocked := false)
  }

  lemma PathToList(pending: bool, few: bool, x: Thread)
    requires x == Plain(x, PollFuture, Empty) && x.sub.NoSub? && x.wi.None?
    ensures OwnPath(pending, few,
      [x, Plain(x, WaitFirst, Empty), Plain(x, WaitSecond, Empty), Plain(x, WaitPush, Empty)])
  {
  }

  lemma PathToSleep(pending: bool, few: bool, x: Thread)
    requires x.sub.NoSub?
    ensures OwnPath(pending, few,
      [Plain(x, WaitThird, Empty), Plain(x, ParkCas, Empty), Plain(x, ParkLock, Waiting),
       Plain(x, ParkCheck, Waiting).(locked := true), Plain(x, ParkWait, Waiting).(locked := true), Asleep(x)])
  {
    hide OwnNext, Plain, Asleep;
    ParksUpToLock(pending, few, x);
    ParksFromLock(pending, few, x);
  }

  lemma ParksUpToLock(pending: bool, few: bool, x: Thread)
    requires x.sub.NoSub?
    ensures OwnNext(pending, few, Plain(x, WaitThird, Empty), Plain(x, ParkCas, Empty))
    ensures OwnNext(pending, few, Plain(x, ParkCas, Empty), Plain(x, ParkLock, Waiting))
  {
  }

  lemma ParksFromLock(pending: bool, few: bool, x: Thread)
    requires x.sub.NoSub?
    ensures var check := Plain(x, ParkCheck, Waiting).(locked := true);
      var ready := Plain(x, ParkWait, Waiting).(locked := true);
      && OwnNext(pending, few, Plain(x, ParkLock, Waiting), check)
      && OwnNext(pending, few, check, ready) && OwnNext(pending, few, ready, Asleep(x))
  {
  }

  function Asleep(x: Thread): (y: Thread) { Plain(x, ParkBlocked, Waiting).(blocked := true) }

  /** A thread that is no worker and whose future is not ready lists its parker and goes to sleep. */
  lemma GoesToSleep(s: Sys, t: Tid)
    requires t in s.th && s.th[t] == Plain(s.th[t], PollFuture, Empty) && s.th[t].sub.NoSub? && s.th[t].wi.None?
    ensures Run(s, Ticks(t, 9)) == Some(Put(s, t, Asleep(s.th[t])).(pool := s.pool + [t]))
  {
    hide Run, Step, OwnStep, Plain, Asleep, OwnPath;
    var x := s.th[t];
    var s1, s2 := Put(s, t, Plain(x, WaitPush, Empty)), s.(pool := s.pool + [t]);
    PathToList(s.pending, 2 * s.searching < s.n, x);
    PathToSleep(s.pending, 2 * s.searching < s.n, x);
    assert Put(s, t, x) == s by { assert s.th[t := x] == s.th; }
    OwnTicks(s, t, [x, Plain(x, WaitFirst, Empty), Plain(x, WaitSecond, Empty), Plain(x, WaitPush, Empty)]);
    Lists(s, t, x);
    OneTick(s1, t, 6, Put(s2, t, Plain(x, WaitThird, Empty)));
    OwnTicks(s2, t,
      [Plain(x, WaitThird, Empty), Plain(x, ParkCas, Empty), Plain(x, ParkLock, Waiting),
       Plain(x, ParkCheck, Waiting).(locked := true), Plain(x, ParkWait, Waiting).(locked := true), Asleep(x)]);
    assert Ticks(t, 9) == Ticks(t, 3) + Ticks(t, 6);
    RunConcat(s, Ticks(t, 3), Ticks(t, 6));
  }

  lemma Lists(s: Sys, t: Tid, x: Thread)
    requires x.sub.NoSub?
    ensures Step(Put(s, t, Plain(x, WaitPush, Empty)), Tick(t)) ==
      Some(Put(s.(pool := s.pool + [t]), t, Plain(x, WaitThird, Empty)))
  {
    var s1 := Put(s, t, Plain(x, WaitPush, Empty));
    assert s1.th[t := Plain(x, WaitThird, Empty)] == Put(s, t, Plain(x, WaitThird, Empty)).th;
  }

  // ---- handing an index over -------------------------------------------------------------------

  /** The steps of t, one state after the other. */
  ghost predicate Path(t: Tid, ss: seq<Sys>) {
    forall k, m | 0 <= k < m < |ss| && m == k + 1 :: Step(ss[k], Tick(t)) == Some(ss[m])
  }

  lemma {:induction false} PathTicks(t: Tid, ss: seq<Sys>)
    requires ss != [] && Path(t, ss)
    ensures Run(ss[0], Ticks(t, |ss| - 1)) == Some(ss[|ss| - 1])
    decreases |ss|
  {
    hide Step;
    if |ss| > 1 {
      var rest := ss[1..];
      assert forall k | 0 <= k < |rest| :: rest[k] == ss[k + 1];
      OneTick(ss[0], t, |ss| - 1, ss[1]);
      PathTicks(t, rest);
    }
  }

  function Call(s: Sys, t: Tid, sub: Sub): (r: Sys)
    requires t in s.th
  {
    Put(s, t, s.th[t].(sub := sub))
  }

  lemma CallAgain(s: Sys, t: Tid, a: Sub, b: Sub)
    requires t in s.th
    ensures Call(Call(s, t, a), t, b) == Call(s, t, b)
  {
    assert s.th[t := s.th[t].(sub := a)][t := s.th[t].(sub := b)] == s.th[t := s.th[t].(sub := b)];
  }

  /** A call of `notify` once it has the token and an index. */
  function Popped(s: Sys): (r: Sys)
    requires s.indices != []
    ensures r.th == s.th && r.pool == s.pool
  {
    s.(searching := 1, indices := s.indices[..|s.indices| - 1], pending := PopFlag(s))
  }

  lemma NotifyTick(s: Sys, t: Tid, m: Sub)
    requires t in s.th && (m.NotifyPending? || m.NotifyLoad? || m.NotifyCas? || m.IdleLoad?)
    ensures var next := NotifyNext(s, m);
      Step(Call(s, t, m), Tick(t)) ==
        Some(Call(if m.NotifyCas? && next.IdleLoad? then s.(searching := 1) else s, t, next))
  {
    var s', next := Call(s, t, m), NotifyNext(s, m);
    CallAgain(s, t, m, next);
    assert NotifyNext(s', m) == next;
  }

  lemma PopTick(s: Sys, t: Tid)
    requires t in s.th && s.indices != []
    ensures Step(Call(s.(searching := 1), t, IdlePop), Tick(t)) ==
      Some(Call(Popped(s), t, Spawn(s.indices[|s.indices| - 1])))
  {
    CallAgain(s, t, IdlePop, Spawn(s.indices[|s.indices| - 1]));
  }

  /** A `notify` that finds an idle index and nobody searching takes the index and a token. */
  lemma NotifyPops(s: Sys, t: Tid)
    requires t in s.th && s.pending && s.searching == 0 && s.indices != []
    ensures Run(Call(s, t, NotifyPending), Ticks(t, 5)) == Some(Call(Popped(s), t, Spawn(s.indices[|s.indices| - 1])))
  {
    hide Step, Call, Popped;
    var one := s.(searching := 1);
    var last := Call(Popped(s), t, Spawn(s.indices[|s.indices| - 1]));
    NotifyTick(s, t, NotifyPending);
    NotifyTick(s, t, NotifyLoad);
    NotifyTick(s, t, NotifyCas);
    NotifyTick(one, t, IdleLoad);
    PopTick(s, t);
    var ss := [Call(s, t, NotifyPending), Call(s, t, NotifyLoad), Call(s, t, NotifyCas), Call(one, t, IdleLoad),
               Call(one, t, IdlePop), last];
    assert Path(t, ss);
    PathTicks(t, ss);
  }

  /** A `notify` that finds no idle index, or somebody searching, changes nothing. */
  lemma NotifyIdle(s: Sys, t: Tid)
    requires t in s.th && (!s.pending || s.searching > 0)
    ensures Run(Call(s, t, NotifyPending), Ticks(t, if s.pending then 2 else 1)) == Some(Call(s, t, NoSub))
  {
    hide Step, Call;
    NotifyTick(s, t, NotifyPending);
    NotifyTick(s, t, NotifyLoad);
    if s.pending {
      var ss := [Call(s, t, NotifyPending), Call(s, t, NotifyLoad), Call(s, t, NoSub)];
      assert Path(t, ss);
      PathTicks(t, ss);
    } else {
      var ss := [Call(s, t, NotifyPending), Call(s, t, NoSub)];
      assert Path(t, ss);
      PathTicks(t, ss);
    }
  }

  /** The parker of p has been given index i and signalled. */
  function Signalled(s: Sys, p: Tid, i: nat): (r: Sys)
    requires p in s.th
  {
    Put(s, p, s.th[p].(word := Notified(Some(i)), blocked := false))
  }

  lemma SpawnTick(s: Sys, t: Tid, i: nat)
    requires t in s.th && s.pool != []
    ensures Step(Call(s, t, Spawn(i)), Tick(t)) ==
      Some(Call(s.(pool := SwapRemove(s.pool, 0)), t, SpawnUnpark(i, s.pool[0])))
  {
    CallAgain(s, t, Spawn(i), SpawnUnpark(i, s.pool[0]));
  }

  lemma UnparkTicks(s: Sys, t: Tid, p: Tid, i: nat)
    requires t in s.th && p in s.th && t != p && s.th[p].word.Waiting? && !s.th[p].locked
    ensures Run(Call(s, t, SpawnUnpark(i, p)), Ticks(t, 3)) == Some(Call(Signalled(s, p, i), t, NoSub))
  {
    var told := Put(s, p, s.th[p].(word := Notified(Some(i))));
    var ss := [Call(s, t, SpawnUnpark(i, p)), Call(told, t, SignalLock(p)), Call(told, t, SignalNotify(p)),
               Call(Signalled(s, p, i), t, NoSub)];
    UnparkTick(s, t, p, i);
    LockTick(told, t, p);
    SignalTick(s, t, p, i);
    hide Step, Call, Put, Signalled;
    assert Path(t, ss);
    PathTicks(t, ss);
  }

  lemma UnparkTick(s: Sys, t: Tid, p: Tid, i: nat)
    requires t in s.th && p in s.th && t != p && s.th[p].word.Waiting?
    ensures Step(Call(s, t, SpawnUnpark(i, p)), Tick(t)) ==
      Some(Call(Put(s, p, s.th[p].(word := Notified(Some(i)))), t, SignalLock(p)))
  {
    var told := s.th[p].(word := Notified(Some(i)));
    assert s.th[t := s.th[t].(sub := SpawnUnpark(i, p))][p := told][t := s.th[t].(sub := SignalLock(p))] ==
      s.th[p := told][t := s.th[t].(sub := SignalLock(p))];
  }

  lemma LockTick(s: Sys, t: Tid, p: Tid)
    requires t in s.th && p in s.th && t != p && !s.th[p].locked
    ensures Step(Call(s, t, SignalLock(p)), Tick(t)) == Some(Call(s, t, SignalNotify(p)))
  {
    CallAgain(s, t, SignalLock(p), SignalNotify(p));
  }

  lemma SignalTick(s: Sys, t: Tid, p: Tid, i: nat)
    requires t in s.th && p in s.th && t != p
    ensures Step(Call(Put(s, p, s.th[p].(word := Notified(Some(i)))), t, SignalNotify(p)), Tick(t)) ==
      Some(Call(Signalled(s, p, i), t, NoSub))
  {
    var told := Put(s, p, s.th[p].(word := Notified(Some(i))));
    SignalAt(told, t, p);
    hide Step, Call;
    assert told.th[p := told.th[p].(blocked := false)] == Signalled(s, p, i).th;
  }

  lemma SignalAt(s: Sys, t: Tid, p: Tid)
    requires t in s.th && p in s.th && t != p
    ensures Step(Call(s, t, SignalNotify(p)), Tick(t)) ==
      Some(Call(Put(s, p, s.th[p].(blocked := false)), t, NoSub))
  {
    var x, y := s.th[t], s.th[p].(blocked := false);
    assert s.th[t := x.(sub := SignalNotify(p))][p := y][t := x.(sub := NoSub)] == s.th[p := y][t := x.(sub := NoSub)];
  }

  /** A `notify` that finds an idle index and nobody searching hands the index to the thread listed
      first, if that one sleeps. */
  lemma NotifyHandsOver(s: Sys, t: Tid, p: Tid)
    requires t in s.th && s.pending && s.searching == 0 && s.indices != []
    requires s.pool != [] && s.pool[0] == p && p in s.th && p != t && s.th[p].word.Waiting? && !s.th[p].locked
    ensures Run(Call(s, t, NotifyPending), Ticks(t, 9)) ==
      Some(Call(Signalled(Popped(s).(pool := SwapRemove(s.pool, 0)), p, s.indices[|s.indices| - 1]), t, NoSub))
  {
    hide Step, Call, Run, Signalled;
    var i := s.indices[|s.indices| - 1];
    var listed := Popped(s).(pool := SwapRemove(s.pool, 0));
    NotifyPops(s, t);
    SpawnTick(Popped(s), t, i);
    OneTick(Call(Popped(s), t, Spawn(i)), t, 4, Call(listed, t, SpawnUnpark(i, p)));
    UnparkTicks(listed, t, p, i);
    assert Ticks(t, 9) == Ticks(t, 5) + Ticks(t, 4);
    RunConcat(Call(s, t, NotifyPending), Ticks(t, 5), Ticks(t, 4));
  }

  /** The woken thread with its index, in front of the seat, and as worker. */
  function Woke(x: Thread, m: Main): (y: Thread) { Plain(x, m, Empty) }

  function AsWorker(x: Thread, i: nat): (y: Thread) {
    Plain(x, PollFuture, Empty).(wi := Some(i), producer := Some(i), searching := true)
  }

  lemma PathToUnlist(pending: bool, few: bool, x: Thread, i: nat)
    requires x.sub.NoSub?
    ensures var w := Notified(Some(i));
      OwnPath(pending, few, [Plain(x, ParkBlocked, w), Plain(x, ParkRecheck, w).(locked := true),
        Plain(x, ParkBack(false), w), Plain(x, ParkUnwrap, w), Plain(x, Consume(Some(i), true), w),
        Woke(x, Unlist(Some(i)))])
  {
    hide OwnNext, Plain, Woke;
    GetsUp(pending, few, x, i);
    TakesIndex(pending, few, x, i);
  }

  lemma GetsUp(pending: bool, few: bool, x: Thread, i: nat)
    requires x.sub.NoSub?
    ensures var w := Notified(Some(i));
      var up := Plain(x, ParkRecheck, w).(locked := true);
      OwnNext(pending, few, Plain(x, ParkBlocked, w), up) && OwnNext(pending, few, up, Plain(x, ParkBack(false), w))
  {
  }

  lemma TakesIndex(pending: bool, few: bool, x: Thread, i: nat)
    requires x.sub.NoSub?
    ensures var w := Notified(Some(i));
      && OwnNext(pending, few, Plain(x, ParkBack(false), w), Plain(x, ParkUnwrap, w))
      && OwnNext(pending, few, Plain(x, ParkUnwrap, w), Plain(x, Consume(Some(i), true), w))
      && OwnNext(pending, few, Plain(x, Consume(Some(i), true), w), Woke(x, Unlist(Some(i))))
  {
  }

  lemma PathToSeat(pending: bool, few: bool, x: Thread, i: nat)
    requires x.sub.NoSub?
    ensures OwnPath(pending, few, [Woke(x, Woken(Some(i))), Woke(x, PopInject(i)), Woke(x, TakeSeat(i, false))])
  {
  }

  lemma UnlistTick(s: Sys, p: Tid, x: Thread, i: nat)
    requires x.sub.NoSub?
    ensures Step(Put(s, p, Woke(x, Unlist(Some(i)))), Tick(p)) == Some(Put(s, p, Woke(x, Woken(Some(i)))))
  {
    assert s.th[p := Woke(x, Unlist(Some(i)))][p := Woke(x, Woken(Some(i)))] == s.th[p := Woke(x, Woken(Some(i)))];
  }

  lemma SeatTicks(s: Sys, p: Tid, x: Thread, i: nat)
    requires x.sub.NoSub? && x.wi.None? && x.producer.None? && !x.searching
    requires i < |s.seats| && s.seats[i] == Seat(None, Some(i))
    ensures Run(Put(s, p, Woke(x, TakeSeat(i, false))), Ticks(p, 2)) ==
      Some(Put(s.(seats := s.seats[i := Seat(None, None)]), p, AsWorker(x, i)))
  {
    var y := Woke(x, SeatTaken(false)).(wi := Some(i), searching := true);
    var s1 := Put(s, p, Woke(x, TakeSeat(i, false)));
    var s2 := Put(s.(seats := s.seats[i := Seat(Some(p), Some(i))]), p, y);
    var s3 := Put(s.(seats := s.seats[i := Seat(None, None)]), p, AsWorker(x, i));
    TakeTick(s, p, x, i);
    TakenTick(s, p, x, i);
    hide Step, Put, Woke, AsWorker;
    assert Path(p, [s1, s2, s3]);
    PathTicks(p, [s1, s2, s3]);
  }

  lemma TakeTick(s: Sys, p: Tid, x: Thread, i: nat)
    requires x.sub.NoSub? && x.wi.None? && x.producer.None? && !x.searching
    requires i < |s.seats| && s.seats[i] == Seat(None, Some(i))
    ensures Step(Put(s, p, Woke(x, TakeSeat(i, false))), Tick(p)) ==
      Some(Put(s.(seats := s.seats[i := Seat(Some(p), Some(i))]), p,
               Woke(x, SeatTaken(false)).(wi := Some(i), searching := true)))
  {
    var y := Woke(x, SeatTaken(false)).(wi := Some(i), searching := true);
    assert s.th[p := Woke(x, TakeSeat(i, false))][p := y] == s.th[p := y];
  }

  lemma TakenTick(s: Sys, p: Tid, x: Thread, i: nat)
    requires x.sub.NoSub? && x.producer.None?
    requires i < |s.seats| && s.seats[i] == Seat(None, Some(i))
    ensures Step(Put(s.(seats := s.seats[i := Seat(Some(p), Some(i))]), p,
                     Woke(x, SeatTaken(false)).(wi := Some(i), searching := true)), Tick(p)) ==
      Some(Put(s.(seats := s.seats[i := Seat(None, None)]), p, AsWorker(x, i)))
  {
    var y := Woke(x, SeatTaken(false)).(wi := Some(i), searching := true);
    assert s.th[p := y][p := AsWorker(x, i)] == s.th[p := AsWorker(x, i)];
    assert s.seats[i := Seat(Some(p), Some(i))][i := Seat(None, None)] == s.seats[i := Seat(None, None)];
  }

  /** A sleeping thread that has been given an index and signalled becomes this worker. */
  lemma WakesAsWorker(s: Sys, p: Tid, x: Thread, i: nat)
    requires x.sub.NoSub? && x.wi.None? && x.producer.None? && !x.searching
    requires i < |s.seats| && s.seats[i] == Seat(None, Some(i))
    ensures Run(Put(s, p, Plain(x, ParkBlocked, Notified(Some(i)))), Ticks(p, 10)) ==
      Some(Put(s.(seats := s.seats[i := Seat(None, None)]), p, AsWorker(x, i)))
  {
    hide Run, Step, OwnStep, Plain, AsWorker, Woke, OwnPath, Put;
    var w, few := Notified(Some(i)), 2 * s.searching < s.n;
    var s0 := Put(s, p, Plain(x, ParkBlocked, w));
    PathToUnlist(s.pending, few, x, i);
    PathToSeat(s.pending, few, x, i);
    OwnTicks(s, p, [Plain(x, ParkBlocked, w), Plain(x, ParkRecheck, w).(locked := true),
        Plain(x, ParkBack(false), w), Plain(x, ParkUnwrap, w), Plain(x, Consume(Some(i), true), w),
        Woke(x, Unlist(Some(i)))]);
    UnlistTick(s, p, x, i);
    OneTick(Put(s, p, Woke(x, Unlist(Some(i)))), p, 5, Put(s, p, Woke(x, Woken(Some(i)))));
    OwnTicks(s, p, [Woke(x, Woken(Some(i))), Woke(x, PopInject(i)), Woke(x, TakeSeat(i, false))]);
    SeatTicks(s, p, x, i);
    assert Ticks(p, 10) == Ticks(p, 5) + Ticks(p, 5) && Ticks(p, 4) == Ticks(p, 2) + Ticks(p, 2);
    RunConcat(s0, Ticks(p, 5), Ticks(p, 5));
    RunConcat(Put(s, p, Woke(x, Woken(Some(i)))), Ticks(p, 2), Ticks(p, 2));
  }

  lemma NotWorker(s: Sys, k: nat, t: Tid)
    requires Inv(s) && k < |s.indices| && t in s.th
    ensures s.th[t].wi != Some(s.indices[k])
  {
    hide Inv, MainIndex, LocalOk;
    InvParts(s);
    assert At(s, InIdle(k)) == Some(s.indices[k]);
    if s.th[t].wi.Some? {
      WorkerHasIndex(s, t);
      ElsewhereDiffers(s, InIdle(k), InMain(t));
    }
  }

  lemma InvParts(s: Sys)
    requires Inv(s)
    ensures Conserved(s) && Seats(s) && (forall t | t in s.th :: LocalOk(s.th[t]))
    ensures s.pending <==> s.indices != []
  {
  }

  lemma IdleBound(s: Sys, k: nat)
    requires Conserved(s) && k < |s.indices|
    ensures s.indices[k] < s.n
  {
    assert At(s, InIdle(k)) == Some(s.indices[k]);
  }

  /** The seat of an idle index is taken by nobody. */
  lemma IdleSeat(s: Sys, k: nat)
    requires Inv(s) && k < |s.indices|
    ensures s.indices[k] < |s.seats| && s.seats[s.indices[k]] == Seat(None, Some(s.indices[k]))
  {
    hide Inv, Conserved;
    InvParts(s);
    IdleBound(s, k);
    forall t | t in s.th ensures s.th[t].wi != Some(s.indices[k]) && s.th[t].producer != Some(s.indices[k]) {
      NotWorker(s, k, t);
      ProducerIsOwn(s.th[t]);
    }
  }

  lemma ProducerIsOwn(x: Thread)
    requires LocalOk(x)
    ensures x.producer.Some? ==> x.producer == x.wi
  {
  }

  lemma SleeperIsPlain(x: Thread)
    requires LocalOk(x) && x == Asleep(x)
    ensures x.wi.None? && x.producer.None? && !x.searching
    ensures x.(word := x.word) == x
  {
  }

  /** The whole hand-over. A thread that may call `notify` does, in a state in which somebody sleeps as
      the first in the list, an index is idle and nobody searches. Then it and the sleeper run on: the
      sleeper is the worker of the last idle index, with its producer and a search token, at a poll of
      its future; nothing else has changed. */
  lemma Handover(s: Sys, t: Tid, p: Tid)
    requires Reachable(s) && t in s.th && s.th[t].sub.NoSub? && MayNotify(s.th[t].main)
    requires s.pool != [] && s.pool[0] == p && p in s.th && p != t
    requires s.th[p] == Asleep(s.th[p]) && s.th[p].sub.NoSub? && s.searching == 0 && s.indices != []
    ensures var i := s.indices[|s.indices| - 1];
      && i < |s.seats|
      && Run(s, [CallNotify(t)] + (Ticks(t, 9) + Ticks(p, 10))) ==
           Some(Put(s, p, AsWorker(s.th[p], i)).(
             searching := 1, indices := s.indices[..|s.indices| - 1], pending := |s.indices| > 1,
             pool := SwapRemove(s.pool, 0), seats := s.seats[i := Seat(None, None)]))
  {
    hide Reachable, Inv, LocalOk, Run, Step, AsWorker, Seats, Conserved;
    ReachableInv(s);
    InvParts(s);
    var x, i := s.th[p], s.indices[|s.indices| - 1];
    SleeperIsPlain(x);
    IdleSeat(s, |s.indices| - 1);
    var g := Popped(s).(pool := SwapRemove(s.pool, 0));
    CallTick(s, t);
    NotifyHandsOver(s, t, p);
    CallEnds(s, g, t, p, i);
    WakesAsWorker(g, p, x, i);
    RunFirst(s, CallNotify(t), Ticks(t, 9) + Ticks(p, 10));
    RunConcat(Call(s, t, NotifyPending), Ticks(t, 9), Ticks(p, 10));
  }

  lemma CallTick(s: Sys, t: Tid)
    requires t in s.th && s.th[t].sub.NoSub? && MayNotify(s.th[t].main)
    ensures Step(s, CallNotify(t)) == Some(Call(s, t, NotifyPending))
  {
  }

  lemma CallEnds(s: Sys, g: Sys, t: Tid, p: Tid, i: nat)
    requires t in s.th && p in s.th && t != p && g.th == s.th && s.th[t].sub.NoSub? && s.th[p] == Asleep(s.th[p])
    ensures Call(Signalled(g, p, i), t, NoSub) == Put(g, p, Plain(s.th[p], ParkBlocked, Notified(Some(i))))
  {
    var y := Plain(s.th[p], ParkBlocked, Notified(Some(i)));
    assert s.th[p].(word := Notified(Some(i)), blocked := false) == y;
    assert s.th[p := y][t := s.th[t]] == s.th[p := y];
  }

  // ---- notify without a listed thread ----------------------------------------------------------

  lemma StartTick(s: Sys, t: Tid, i: nat)
    requires t in s.th && s.pool == [] && s.spawned < s.max
    ensures Step(Call(s, t, Spawn(i)), Tick(t)) == Some(Call(s.(spawned := s.spawned + 1), t, SpawnThread(i)))
  {
    CallAgain(s, t, Spawn(i), SpawnThread(i));
  }

  lemma StartedTick(s: Sys, t: Tid, i: nat, u: Tid)
    requires t in s.th && u !in s.th
    ensures Step(Call(s, t, SpawnThread(i)), Advance(t, Choice(true, u))) ==
      Some(Call(Put(s, u, NewThread(Unstarted(i), true)), t, NoSub))
  {
    var x, y := s.th[t], NewThread(Unstarted(i), true);
    assert s.th[t := x.(sub := SpawnThread(i))][u := y][t := x.(sub := NoSub)] == s.th[u := y][t := x.(sub := NoSub)];
  }

  /** With nobody listed and below the limit, the index goes to a new thread, if the system starts one. */
  lemma NotifyStarts(s: Sys, t: Tid, u: Tid)
    requires t in s.th && s.pending && s.searching == 0 && s.indices != []
    requires s.pool == [] && s.spawned < s.max && u !in s.th
    ensures Run(Call(s, t, NotifyPending), Ticks(t, 6) + [Advance(t, Choice(true, u))]) ==
      Some(Call(Put(Popped(s).(spawned := s.spawned + 1), u, NewThread(Unstarted(s.indices[|s.indices| - 1]), true)),
                t, NoSub))
  {
    hide Step, Call, Run;
    var i := s.indices[|s.indices| - 1];
    var more := Popped(s).(spawned := s.spawned + 1);
    var last := Advance(t, Choice(true, u));
    NotifyPops(s, t);
    StartTick(Popped(s), t, i);
    OneTick(Call(Popped(s), t, Spawn(i)), t, 1, Call(more, t, SpawnThread(i)));
    NoEvents(Call(more, t, SpawnThread(i)));
    assert Ticks(t, 0) == [] && Ticks(t, 6) == Ticks(t, 5) + Ticks(t, 1);
    StartedTick(more, t, i, u);
    RunConcat(Call(s, t, NotifyPending), Ticks(t, 5), Ticks(t, 1));
    RunLast(Call(s, t, NotifyPending), Ticks(t, 6), last);
  }

  lemma GiveBackTicks(s: Sys, t: Tid)
    requires t in s.th && s.pending && s.searching == 0 && s.indices != []
    ensures Run(Call(Popped(s), t, PushBack(s.indices[|s.indices| - 1])), Ticks(t, 2)) == Some(Call(s, t, NoSub))
  {
    var i := s.indices[|s.indices| - 1];
    var back := s.(searching := 1);
    assert s.indices[..|s.indices| - 1] + [i] == s.indices;
    CallAgain(Popped(s), t, PushBack(i), Release);
    CallAgain(back, t, Release, NoSub);
    var ss := [Call(Popped(s), t, PushBack(i)), Call(back, t, Release), Call(s, t, NoSub)];
    BackTick(s, t);
    ReleaseTick(s, t);
    hide Step, Call, Popped;
    assert Path(t, ss);
    PathTicks(t, ss);
  }

  lemma BackTick(s: Sys, t: Tid)
    requires t in s.th && s.pending && s.indices != []
    ensures Step(Call(Popped(s), t, PushBack(s.indices[|s.indices| - 1])), Tick(t)) ==
      Some(Call(s.(searching := 1), t, Release))
  {
    var i := s.indices[|s.indices| - 1];
    assert s.indices[..|s.indices| - 1] + [i] == s.indices;
    CallAgain(Popped(s), t, PushBack(i), Release);
  }

  lemma ReleaseTick(s: Sys, t: Tid)
    requires t in s.th && s.searching == 0
    ensures Step(Call(s.(searching := 1), t, Release), Tick(t)) == Some(Call(s, t, NoSub))
  {
    CallAgain(s.(searching := 1), t, Release, NoSub);
  }

  /** At the limit of threads a `notify` that nothing disturbs ends without having changed anything. */
  lemma NotifyAtLimit(s: Sys, t: Tid)
    requires t in s.th && s.pending && s.searching == 0 && s.indices != [] && s.pool == [] && s.spawned == s.max
    ensures Run(Call(s, t, NotifyPending), Ticks(t, 8)) == Some(Call(s, t, NoSub))
  {
    hide Step, Call, Run;
    var i := s.indices[|s.indices| - 1];
    NotifyPops(s, t);
    LimitTick(Popped(s), t, i);
    OneTick(Call(Popped(s), t, Spawn(i)), t, 3, Call(Popped(s), t, PushBack(i)));
    GiveBackTicks(s, t);
    assert Ticks(t, 8) == Ticks(t, 5) + Ticks(t, 3);
    RunConcat(Call(s, t, NotifyPending), Ticks(t, 5), Ticks(t, 3));
  }

  lemma LimitTick(s: Sys, t: Tid, i: nat)
    requires t in s.th && s.pool == [] && s.spawned == s.max
    ensures Step(Call(s, t, Spawn(i)), Tick(t)) == Some(Call(s, t, PushBack(i)))
  {
    CallAgain(s, t, Spawn(i), PushBack(i));
  }
}
