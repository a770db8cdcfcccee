/** What the steps of a task achieve where nothing disturbs them: it is queued, polled, polled again if
    it was woken meanwhile, and joined. */
module TaskRuns {
  import opened Prelude
  import opened TaskProtocol
  import opened TaskProof
  import opened TaskTheorems
  import Aw = AtomicWaker

  /** The events lead from each state to the next. */
  ghost predicate Path(es: seq<Event>, ss: seq<Task>) {
    |ss| == |es| + 1 && forall k, m | 0 <= k < m < |ss| && m == k + 1 :: Step(ss[k], es[k]) == Some(ss[m])
  }

  lemma {:induction false} PathRun(es: seq<Event>, ss: seq<Task>)
    requires Path(es, ss)
    ensures Run(ss[0], es) == Some(ss[|es|])
    decreases |es|
  {
    hide Step;
    if es != [] {
      assert forall k | 0 <= k < |es| :: ss[1..][k] == ss[k + 1];
      PathRun(es[1..], ss[1..]);
    }
  }

  lemma RunConcat(s: Task, a: seq<Event>, b: seq<Event>)
    requires Run(s, a).Some?
    ensures Run(s, a + b) == Run(Run(s, a).value, b)
    decreases |a|
  {
    hide Step;
    if a == [] {
      assert a + b == b;
    } else {
      assert (a + b)[1..] == a[1..] + b;
      RunConcat(Step(s, a[0]).value, a[1..], b);
    }
  }

  function Go(t: Tid): (e: Event) { Advance(t, 0, None) }

  /** The thread that owns the runnable queues it where it says. */
  lemma Queues(s: Task, t: Tid, q: Qid)
    requires t in s.pcs && s.pcs[t].Scheduling?
    ensures Step(s, Advance(t, q, None)) == Some(s.(pcs := s.pcs - {t}, queued := s.queued + multiset{q}))
  {
  }

  /** Stealing and draining take the runnable from one queue to another. */
  lemma Moves(s: Task, q: Qid, q': Qid)
    requires Reachable(s) && q in s.queued
    ensures Step(s, Move(q, q')).Some? && Step(s, Move(q, q')).value == s.(queued := multiset{q'})
  {
    ReachableInv(s);
    hide DataOk, JoinOk, NoWakeLost, Reachable;
    OnlyQueued(s, q);
  }

  /** A task in queue q and nowhere else, not completed. */
  predicate Waits(s: Task, q: Qid) {
    s.queued == multiset{q} && s.pcs == map[] && s.state.SCHEDULED? && s.data.Pending? && s.lock.Free?
  }

  lemma QueuedWaits(s: Task, q: Qid)
    requires Reachable(s) && q in s.queued
    ensures Waits(s, q)
  {
    hide Reachable, Aw.Inv, Aw.Calm, AsksOk, Untouched;
    ReachableInv(s);
    OnlyQueued(s, q);
  }

  /** Thread t polls the future. */
  function Polled(s: Task, t: Tid): (r: Task) {
    s.(pcs := map[t := PollFuture], queued := multiset{}, state := RUNNING, data := Polling, lock := ByRunner(t),
       polls := s.polls + 1, woken := false)
  }

  function ToPoll(t: Tid, q: Qid): (es: seq<Event>) { [Pop(t, q), Go(t), Go(t), Go(t), Go(t)] }

  lemma StartsRunning(s: Task, t: Tid)
    requires s.pcs == map[t := StoreRunning] && s.lock.Free?
    ensures var s' := s.(pcs := map[t := LockData], state := RUNNING, polls := s.polls + 1, woken := false);
      && Step(s, Go(t)) == Some(s')
      && Step(s', Go(t)) == Some(s'.(pcs := map[t := TakeFuture], lock := ByRunner(t)))
  {
    assert map[t := StoreRunning][t := LockData] == map[t := LockData];
    assert map[t := LockData][t := TakeFuture] == map[t := TakeFuture];
  }

  lemma Popped(s: Task, t: Tid, q: Qid)
    requires Waits(s, q)
    ensures var s' := s.(pcs := map[t := InHand], queued := multiset{});
      Step(s, Pop(t, q)) == Some(s') && Step(s', Go(t)) == Some(s'.(pcs := map[t := StoreRunning]))
  {
    assert s.pcs[t := InHand] == map[t := InHand];
    assert map[t := InHand][t := StoreRunning] == map[t := StoreRunning];
  }

  lemma TakesFuture(s: Task, t: Tid)
    requires s.pcs == map[t := TakeFuture] && s.data.Pending?
    ensures Step(s, Go(t)) == Some(s.(pcs := map[t := PollFuture], data := Polling))
  {
    assert map[t := TakeFuture][t := PollFuture] == map[t := PollFuture];
  }

  /** A queued task is popped by any thread, which begins to poll the future. */
  lemma Begins(s: Task, t: Tid, q: Qid)
    requires Waits(s, q)
    ensures Run(s, ToPoll(t, q)) == Some(Polled(s, t))
  {
    hide Step;
    var s1 := s.(pcs := map[t := InHand], queued := multiset{});
    var s2 := s1.(pcs := map[t := StoreRunning]);
    var s3 := s1.(pcs := map[t := LockData], state := RUNNING, polls := s.polls + 1, woken := false);
    var s4 := s3.(pcs := map[t := TakeFuture], lock := ByRunner(t));
    Popped(s, t, q);
    StartsRunning(s2, t);
    TakesFuture(s4, t);
    assert Path(ToPoll(t, q), [s, s1, s2, s3, s4, Polled(s, t)]);
    PathRun(ToPoll(t, q), [s, s1, s2, s3, s4, Polled(s, t)]);
  }

  /** The future answers Pending and is put back. */
  lemma PutsBack(s: Task, t: Tid)
    requires s.pcs == map[t := PollFuture] && s.data.Polling? && s.lock == ByRunner(t)
    ensures var s' := s.(pcs := map[t := PutBack], last := None);
      && Step(s, Go(t)) == Some(s')
      && Step(s', Go(t)) == Some(s'.(pcs := map[t := ToIdle], data := Pending, lock := Free))
  {
    assert map[t := PollFuture][t := PutBack] == map[t := PutBack];
    assert map[t := PutBack][t := ToIdle] == map[t := ToIdle];
  }

  lemma BecomesIdle(s: Task, t: Tid)
    requires s.pcs == map[t := ToIdle] && s.state.RUNNING?
    ensures Step(s, Go(t)) == Some(s.(pcs := map[], state := IDLE))
  {
    assert map[t := ToIdle] - {t} == map[];
  }

  /** A future that answers Pending leaves the task idle, with its data as before. */
  lemma PollsPending(s: Task, t: Tid, q: Qid)
    requires Waits(s, q)
    ensures Run(s, ToPoll(t, q) + [Go(t), Go(t), Go(t)]) ==
      Some(s.(queued := multiset{}, state := IDLE, polls := s.polls + 1, woken := false, last := None))
  {
    hide Step;
    var s1 := Polled(s, t).(pcs := map[t := PutBack], last := None);
    var s2 := s1.(pcs := map[t := ToIdle], data := Pending, lock := Free);
    var s3 := s.(queued := multiset{}, state := IDLE, polls := s.polls + 1, woken := false, last := None);
    PutsBack(Polled(s, t), t);
    BecomesIdle(s2, t);
    Begins(s, t, q);
    assert Path([Go(t), Go(t), Go(t)], [Polled(s, t), s1, s2, s3]);
    PathRun([Go(t), Go(t), Go(t)], [Polled(s, t), s1, s2, s3]);
    RunConcat(s, ToPoll(t, q), [Go(t), Go(t), Go(t)]);
  }

  /** If it is woken while it is polled, the same thread queues it again. */
  lemma WokenRunsAgain(s: Task, t: Tid, u: Tid, q: Qid, q': Qid)
    requires Waits(s, q) && t != u
    ensures Run(s, ToPoll(t, q) + [Wake(u), Go(t), Go(t), Go(t), Go(t), Go(t), Advance(t, q', None)]) ==
      Some(s.(queued := multiset{q'}, polls := s.polls + 1, woken := true, last := None))
  {
    hide Step, Run, ToPoll;
    var s1 := Polled(s, t).(state := NOTIFIED, woken := true);
    var es := [Wake(u), Go(t), Go(t), Go(t), Go(t), Go(t), Advance(t, q', None)];
    Begins(s, t, q);
    WokenTail(s, s1, t, u, q');
    RunConcat(s, ToPoll(t, q), es);
  }

  lemma WokenTail(s: Task, s1: Task, t: Tid, u: Tid, q: Qid)
    requires t != u && s.pcs == map[] && s.state.SCHEDULED? && s.data.Pending? && s.lock.Free?
    requires s1 == Polled(s, t).(state := NOTIFIED, woken := true)
    ensures Run(Polled(s, t), [Wake(u), Go(t), Go(t), Go(t), Go(t), Go(t), Advance(t, q, None)]) ==
      Some(s.(queued := multiset{q}, polls := s.polls + 1, woken := true, last := None))
  {
    hide Step;
    var s2 := s1.(pcs := map[t := PutBack], last := None);
    var s3 := s2.(pcs := map[t := ToIdle], data := Pending, lock := Free);
    var s4, s5 := s3.(pcs := map[t := FromNotified]), s3.(pcs := map[t := StoreScheduled]);
    var s6 := s3.(pcs := map[t := Scheduling], state := SCHEDULED);
    var s7 := s.(queued := multiset{q}, polls := s.polls + 1, woken := true, last := None);
    WokenWhilePolled(s, t, u);
    PutsBack(s1, t);
    ThenQueued(s3, t, q);
    var es := [Wake(u), Go(t), Go(t), Go(t), Go(t), Go(t), Advance(t, q, None)];
    assert Path(es, [Polled(s, t), s1, s2, s3, s4, s5, s6, s7]);
    PathRun(es, [Polled(s, t), s1, s2, s3, s4, s5, s6, s7]);
  }

  lemma WokenWhilePolled(s: Task, t: Tid, u: Tid)
    requires t != u
    ensures Step(Polled(s, t), Wake(u)) == Some(Polled(s, t).(state := NOTIFIED, woken := true))
  {
  }

  lemma ThenQueued(s: Task, t: Tid, q: Qid)
    requires s.pcs == map[t := ToIdle] && s.state.NOTIFIED? && s.queued == multiset{}
    ensures Step(s, Go(t)) == Some(s.(pcs := map[t := FromNotified]))
    ensures Step(s.(pcs := map[t := FromNotified]), Go(t)) == Some(s.(pcs := map[t := StoreScheduled]))
    ensures Step(s.(pcs := map[t := StoreScheduled]), Go(t)) ==
      Some(s.(pcs := map[t := Scheduling], state := SCHEDULED))
    ensures Step(s.(pcs := map[t := Scheduling], state := SCHEDULED), Advance(t, q, None)) ==
      Some(s.(pcs := map[], state := SCHEDULED, queued := multiset{q}))
  {
    assert map[t := ToIdle][t := FromNotified] == map[t := FromNotified];
    assert map[t := FromNotified][t := StoreScheduled] == map[t := StoreScheduled];
    assert map[t := StoreScheduled][t := Scheduling] == map[t := Scheduling];
    assert map[t := Scheduling] - {t} == map[];
    assert s.queued + multiset{q} == multiset{q};
  }

  /** A future that answers Ready(r) completes the task with this result; the runner goes on to wake the
      join. */
  lemma PollsReady(s: Task, t: Tid, q: Qid, r: Output)
    requires Waits(s, q)
    ensures Run(s, ToPoll(t, q) + [Advance(t, q, Some(r)), Go(t)]) ==
      Some(s.(pcs := map[t := WakeJoiner], queued := multiset{}, state := RUNNING, data := Ready(r),
              polls := s.polls + 1, woken := false, last := Some(r)))
  {
    var s1 := Polled(s, t).(pcs := map[t := Finish(r)], last := Some(r));
    var s2 := s1.(pcs := map[t := WakeJoiner], data := Ready(r), lock := Free);
    assert Polled(s, t).pcs[t := Finish(r)] == s1.pcs;
    assert Step(Polled(s, t), Advance(t, q, Some(r))) == Some(s1);
    assert Step(s1, Go(t)) == Some(s2) by { assert s1.pcs[t := WakeJoiner] == s2.pcs; }
    Begins(s, t, q);
    var es := [Advance(t, q, Some(r)), Go(t)];
    assert Path(es, [Polled(s, t), s1, s2]);
    hide Step, Polled;
    PathRun(es, [Polled(s, t), s1, s2]);
    RunConcat(s, ToPoll(t, q), es);
  }

  // ---- the join --------------------------------------------------------------------------------

  const JoinNotified: seq<Event> := [JoinStep, JoinStep, JoinStep, JoinStep]
  const JoinTaking: seq<Event> := [JoinStep, JoinStep]

  /** The waker has answered Ready. */
  function Told(s: Task): (r: Task) {
    s.(cell := s.cell.(state := Aw.EMPTY, flag := true, registered := None, answers := s.cell.answers + [Aw.Ready]),
       join := JLock)
  }

  lemma JoinIsTold(s: Task, k: nat)
    requires s.join.JIdle? && s.cell.poller.Idle? && s.cell.state == Aw.NOTIFIED && !s.cell.flag
    ensures Run(s, [JoinPoll(k)] + JoinNotified) == Some(Told(s))
  {
    var c := s.cell;
    var s1 := s.(cell := c.(poller := Aw.LoadFlag(Some(k))), join := JPolling);
    var s2 := s1.(cell := c.(poller := Aw.LoadState(Some(k))));
    var s3 := s1.(cell := c.(poller := Aw.SetFlag));
    var s4 := s1.(cell := c.(poller := Aw.Clear, flag := true));
    assert Step(s, JoinPoll(k)) == Some(s1);
    assert Step(s1, JoinStep) == Some(s2);
    assert Step(s2, JoinStep) == Some(s3);
    assert Step(s3, JoinStep) == Some(s4);
    assert Step(s4, JoinStep) == Some(Told(s));
    hide Step, Told;
    assert Path([JoinPoll(k)] + JoinNotified, [s, s1, s2, s3, s4, Told(s)]);
    PathRun([JoinPoll(k)] + JoinNotified, [s, s1, s2, s3, s4, Told(s)]);
  }

  lemma JoinTakesData(s: Task)
    requires s.join.JLock? && s.lock.Free? && s.data.Ready?
    ensures Run(s, JoinTaking) == Some(s.(data := Joined, join := JDone(s.data.r)))
  {
    var s1, s2 := s.(lock := ByJoiner, join := JTake), s.(data := Joined, join := JDone(s.data.r));
    assert Path(JoinTaking, [s, s1, s2]);
    PathRun(JoinTaking, [s, s1, s2]);
  }

  /** A join of a completed task returns the result: its poll ends, and it takes the data. */
  lemma JoinReturns(s: Task, k: nat)
    requires s.join.JIdle? && s.cell.poller.Idle? && s.cell.state == Aw.NOTIFIED && !s.cell.flag
    requires s.lock.Free? && s.data.Ready?
    ensures Run(s, [JoinPoll(k)] + JoinNotified + JoinTaking) ==
      Some(Told(s).(data := Joined, join := JDone(s.data.r)))
  {
    hide Run, Step;
    JoinIsTold(s, k);
    JoinTakesData(Told(s));
    RunConcat(s, [JoinPoll(k)] + JoinNotified, JoinTaking);
  }

  // ---- from spawn to join ----------------------------------------------------------------------

  function WholeLife(t: Tid, u: Tid, q: Qid, r: Output, k: nat): (es: seq<Event>) {
    [Advance(t, q, None)] + (ToPoll(u, q) + [Advance(u, q, Some(r)), Go(u)]) + [Go(u)]
    + ([JoinPoll(k)] + JoinNotified + JoinTaking)
  }

  /** A task that is spawned by t, queued in q, run by u and answers Ready(r) at its first poll is joined
      with r. */
  lemma SpawnedIsJoined(t: Tid, u: Tid, q: Qid, r: Output, k: nat)
    ensures Run(Spawned(t), WholeLife(t, u, q, r, k)).Some?
    ensures Run(Spawned(t), WholeLife(t, u, q, r, k)).value.join == JDone(r)
  {
    var s1 := Spawned(t).(pcs := map[], queued := multiset{q});
    var s2 := s1.(pcs := map[u := WakeJoiner], queued := multiset{}, state := RUNNING, data := Ready(r),
              polls := 1, woken := false, last := Some(r));
    var s3 := s2.(pcs := map[], cell := Aw.New.(state := Aw.NOTIFIED, owed := true));
    var a, b, c := [Advance(t, q, None)], ToPoll(u, q) + [Advance(u, q, Some(r)), Go(u)], [Go(u)];
    var d := [JoinPoll(k)] + JoinNotified + JoinTaking;
    SpawnedQueues(t, q);
    PollsReady(s1, u, q, r);
    WakesNobody(s2, u);
    JoinReturns(s3, k);
    hide Step, Run, ToPoll;
    RunConcat(Spawned(t), a, b);
    RunConcat(Spawned(t), a + b, c);
    RunConcat(Spawned(t), a + b + c, d);
  }

  lemma SpawnedQueues(t: Tid, q: Qid)
    ensures Run(Spawned(t), [Advance(t, q, None)]) == Some(Spawned(t).(pcs := map[], queued := multiset{q}))
  {
    var s, s1 := Spawned(t), Spawned(t).(pcs := map[], queued := multiset{q});
    assert s.pcs - {t} == map[] && s.queued + multiset{q} == multiset{q};
    assert Path([Advance(t, q, None)], [s, s1]);
    PathRun([Advance(t, q, None)], [s, s1]);
  }

  lemma WakesNobody(s: Task, u: Tid)
    requires s.pcs == map[u := WakeJoiner] && s.cell == Aw.New
    ensures Run(s, [Go(u)]) == Some(s.(pcs := map[], cell := Aw.New.(state := Aw.NOTIFIED, owed := true)))
  {
    var s1 := s.(pcs := map[], cell := Aw.New.(state := Aw.NOTIFIED, owed := true));
    assert s.pcs - {u} == map[];
    assert Path([Go(u)], [s, s1]);
    PathRun([Go(u)], [s, s1]);
  }
}
