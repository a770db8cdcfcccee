/** The promises of the task protocol, over every run of any number of threads. */
module TaskTheorems {
  import opened Prelude
  import opened TaskProtocol
  import opened TaskProof
  import Aw = AtomicWaker

  ghost predicate Reachable(s: Task) { exists t: Tid, es: seq<Event> :: Run(Spawned(t), es) == Some(s) }

  lemma ReachableInv(s: Task)
    requires Reachable(s)
    ensures Inv(s)
  {
    var t: Tid, es: seq<Event> :| Run(Spawned(t), es) == Some(s);
    SpawnedOk(t);
    RunKeeps(Spawned(t), es);
  }

  /** No `unreachable!`, `unwrap` or `assert!` of the task, its waker or its join is hit. */
  lemma NeverPanics(t: Tid, es: seq<Event>)
    ensures Run(Spawned(t), es).Some?
  {
    SpawnedOk(t);
    RunKeeps(Spawned(t), es);
  }

  /** The task is queued or in hand at most once, and the state word says which: SCHEDULED
      exactly with one copy of the runnable, RUNNING or NOTIFIED with one thread inside `run`
      or after completion, IDLE with neither. */
  lemma OneActivity(s: Task)
    requires Reachable(s)
    ensures |s.queued| + |s.pcs| <= 1
    ensures s.state.SCHEDULED? <==> s.queued != multiset{} || exists t :: t in s.pcs && HoldsRunnable(s.pcs[t])
    ensures s.state.IDLE? <==> s.queued == multiset{} && s.pcs == map[] && !Complete(s)
    ensures s.state.RUNNING? || s.state.NOTIFIED? <==> Complete(s) || exists t :: t in s.pcs && Runs(s.pcs[t])
    ensures Complete(s) ==> s.queued == multiset{} && forall t | t in s.pcs :: Wakes(s.pcs[t])
  {
    ReachableInv(s);
    if s.pcs != map[] {
      var t :| t in s.pcs;
      assert s.pcs.Keys == {t};
      assert HoldsRunnable(s.pcs[t]) || Runs(s.pcs[t]) || Wakes(s.pcs[t]);
    }
  }

  /** The plain stores of `transition_to_running` and `transition_to_scheduled_from_notified`
      still find the state their loads saw. */
  lemma PlainStores(s: Task, t: Tid)
    requires Reachable(s) && t in s.pcs
    ensures s.pcs[t].StoreRunning? ==> s.state == SCHEDULED
    ensures s.pcs[t].StoreScheduled? ==> s.state == NOTIFIED
  {
    ReachableInv(s);
  }

  // ---- no lost wake --------------------------------------------------------------------------

  /** As long as no new poll begins, a wake is remembered. */
  lemma WokenStays(s: Task, es: seq<Event>)
    requires Inv(s) && s.woken
    ensures Run(s, es).Some?
    ensures Run(s, es).value.polls >= s.polls
    ensures Run(s, es).value.polls == s.polls ==> Run(s, es).value.woken
    decreases |es|
  {
    if es != [] {
      StepKeeps(s, es[0]);
      var s' := Step(s, es[0]).value;
      StepCounts(s, es[0]);
      RunCounts(s', es[1..]);
      if s'.polls == s.polls { WokenStays(s', es[1..]); }
    }
  }

  lemma StepCounts(s: Task, e: Event)
    requires Step(s, e).Some?
    ensures var s' := Step(s, e).value; s'.polls >= s.polls && (s.woken && s'.polls == s.polls ==> s'.woken)
  {
  }

  lemma RunCounts(s: Task, es: seq<Event>)
    requires Inv(s)
    ensures Run(s, es).Some? && Run(s, es).value.polls >= s.polls
    decreases |es|
  {
    if es != [] {
      StepKeeps(s, es[0]);
      StepCounts(s, es[0]);
      RunCounts(Step(s, es[0]).value, es[1..]);
    }
  }

  /** A task that remembers a wake has its runnable somewhere. */
  lemma WokenSomewhere(s: Task)
    requires Inv(s) && s.woken && !Complete(s)
    ensures (s.state.SCHEDULED? || s.state.NOTIFIED?) && (s.queued != multiset{} || s.pcs != map[])
  {
    hide DataOk, JoinOk;
  }

  /** After a wake of an unfinished task the runnable stays queued, in hand or owed by the
      thread inside `run`, until another poll begins or the task completes. */
  lemma NoLostWake(s: Task, t: Tid, es: seq<Event>)
    requires Reachable(s) && t !in s.pcs
    ensures var r := Run(WakeStep(s, t), es);
      r.Some? && (r.value.polls > s.polls || Complete(r.value) || r.value.state.SCHEDULED? || r.value.state.NOTIFIED?)
    ensures var r := Run(WakeStep(s, t), es).value;
      r.polls == s.polls && !Complete(r) ==> r.queued != multiset{} || r.pcs != map[]
  {
    hide Reachable, Inv, Run, Complete;
    ReachableInv(s);
    WakeKeeps(s, t);
    WokenStays(WakeStep(s, t), es);
    RunKeeps(WakeStep(s, t), es);
    var r := Run(WakeStep(s, t), es).value;
    if r.woken && !Complete(r) { WokenSomewhere(r); }
  }

  // ---- the join handshake --------------------------------------------------------------------

  /** When the waker has answered Ready the data lock is free and the data is the result of the
      future's last poll. */
  lemma JoinFindsResult(s: Task)
    requires Reachable(s) && s.join.JLock?
    ensures s.lock.Free? && s.last.Some? && s.data == Ready(s.last.value)
  {
    ReachableInv(s);
    RunnerHolds(s);
  }

  lemma RunnerHolds(s: Task)
    requires DataOk(s)
    ensures s.lock.ByRunner? ==> s.lock.t in s.pcs && HoldsData(s.pcs[s.lock.t])
  {
  }

  /** A join that has returned took that result, and took it for good. */
  lemma JoinTakesOnce(s: Task, es: seq<Event>)
    requires Reachable(s) && s.join.JDone?
    ensures s.last == Some(s.join.r) && s.data.Joined?
    ensures Run(s, es).Some? && Run(s, es).value.join == s.join && Run(s, es).value.data == Joined
  {
    ReachableInv(s);
    CompleteForever(s, es);
    DoneForever(s, es);
  }

  lemma DoneForever(s: Task, es: seq<Event>)
    requires Inv(s) && s.join.JDone?
    ensures Run(s, es).Some? && Run(s, es).value.join == s.join && Run(s, es).value.data == Joined
    decreases |es|
  {
    if es != [] {
      StepKeeps(s, es[0]);
      DoneStays(s, es[0]);
      DoneForever(Step(s, es[0]).value, es[1..]);
    }
  }

  lemma DoneStays(s: Task, e: Event)
    requires Inv(s) && s.join.JDone? && Step(s, e).Some?
    ensures Step(s, e).value.join == s.join
  {
  }

  /** No runner touches the data of a completed task again: it stays RUNNING or NOTIFIED, it is
      never queued or polled again, and its result never changes. */
  lemma CompleteForever(s: Task, es: seq<Event>)
    requires Inv(s) && Complete(s)
    ensures Run(s, es).Some?
    ensures var s' := Run(s, es).value;
      && Complete(s') && (s'.state.RUNNING? || s'.state.NOTIFIED?)
      && s'.polls == s.polls && s'.last == s.last && s'.queued == multiset{}
    decreases |es|
  {
    if es != [] {
      StepKeeps(s, es[0]);
      CompleteStays(s, es[0]);
      CompleteForever(Step(s, es[0]).value, es[1..]);
    }
  }

  /** Only a thread that reports completion is left. */
  lemma OnlyReports(s: Task, t: Tid)
    requires Inv(s) && Complete(s)
    ensures s.queued == multiset{} && !s.state.IDLE? && (t in s.pcs ==> Wakes(s.pcs[t]))
  {
    hide DataOk, JoinOk;
  }

  lemma CompleteStays(s: Task, e: Event)
    requires Inv(s) && Complete(s) && Step(s, e).Some?
    ensures var s' := Step(s, e).value; Complete(s') && s'.polls == s.polls && s'.last == s.last
  {
    hide Inv, Aw.Step;
    OnlyReports(s, if e.Advance? then e.t else 0);
  }

  lemma Completed(s: Task, es: seq<Event>)
    requires Reachable(s) && Complete(s)
    ensures Run(s, es).Some?
    ensures var s' := Run(s, es).value;
      Complete(s') && s'.polls == s.polls && s'.last == s.last && s'.queued == multiset{}
  {
    ReachableInv(s);
    CompleteForever(s, es);
  }

  /** A join handle that went to sleep is woken: once the completing thread is through, a handle
      that has been polled and has not been answered Ready was answered Pending for some context,
      and this context has been woken. */
  lemma JoinerIsWoken(s: Task)
    requires Reachable(s) && Complete(s) && s.pcs == map[] && s.join.JIdle? && s.cell.answers != []
    ensures var last := s.cell.answers[|s.cell.answers| - 1];
      last.Pending? && last.ctx.Some? && s.cell.registered == last.ctx && s.cell.fired
  {
    ReachableInv(s);
    assert s.cell.takers == map[];
    var k := s.cell.answers[|s.cell.answers| - 1].ctx.value;
    assert Aw.WaitsFor(s.cell, k);
  }

  // ---- the future's answer and the join --------------------------------------------------------

  /** At this event the future, which is being polled, answers Ready(r). */
  predicate Answers(s: Task, e: Event, r: Output) {
    e.Advance? && e.t in s.pcs && s.pcs[e.t].PollFuture? && e.res == Some(r)
  }

  /** Event k of the run is such an answer. */
  ghost predicate AnsweredAt(t: Tid, es: seq<Event>, k: nat, r: Output) {
    k < |es| && Run(Spawned(t), es[..k]).Some? && Answers(Run(Spawned(t), es[..k]).value, es[k], r)
  }

  /** The result is on its way, is stored, or has been returned. */
  ghost predicate HasResult(s: Task, r: Output) {
    s.data == Ready(r) || s.join == JDone(r) || exists t :: t in s.pcs && s.pcs[t] == Finish(r)
  }

  lemma OneResult(s: Task, q: Output, r: Output)
    requires Inv(s) && HasResult(s, q) && HasResult(s, r)
    ensures q == r
  {
    hide Aw.Inv, Aw.Calm, AsksOk, Untouched;
  }

  lemma AnswerIsFirst(s: Task, e: Event, r: Output, q: Output)
    requires Inv(s) && Answers(s, e, r)
    ensures !HasResult(s, q)
  {
    hide Aw.Inv, Aw.Calm, AsksOk, Untouched;
  }

  /** A step of thread t, the only one, that leaves the join alone. */
  lemma PcResult(s: Task, s': Task, t: Tid, r: Output)
    requires t in s.pcs && (forall u | u in s.pcs :: u == t) && s'.pcs.Keys <= {t} && s'.join == s.join
    ensures HasResult(s', r) <==>
      s'.data == Ready(r) || s.join == JDone(r) || (t in s'.pcs && s'.pcs[t] == Finish(r))
    ensures HasResult(s, r) <==> s.data == Ready(r) || s.join == JDone(r) || s.pcs[t] == Finish(r)
  {
    assert t in s'.pcs && s'.pcs[t] == Finish(r) ==> exists u :: u in s'.pcs && s'.pcs[u] == Finish(r);
  }

  lemma RunStepResult(s: Task, t: Tid, res: Option<Output>, r: Output)
    requires Activity(s) && DataOk(s) && t in s.pcs && Runs(s.pcs[t]) && RunStep(s, t, res).Some?
    ensures HasResult(RunStep(s, t, res).value, r) <==> HasResult(s, r) || (s.pcs[t].PollFuture? && res == Some(r))
  {
    hide HasResult;
    PcResult(s, RunStep(s, t, res).value, t, r);
  }

  /** What a thread does next leaves a result where it is or takes it one step on. */
  lemma RunnerResult(s: Task, t: Tid, q: Qid, res: Option<Output>, r: Output)
    requires Activity(s) && DataOk(s) && t in s.pcs && Step(s, Advance(t, q, res)).Some?
    ensures var s' := Step(s, Advance(t, q, res)).value;
      HasResult(s', r) <==> HasResult(s, r) || (s.pcs[t].PollFuture? && res == Some(r))
  {
    hide Aw.Step, HasResult, RunStep, DataOk;
    var s' := Step(s, Advance(t, q, res)).value;
    if Step(s, Advance(t, q, res)) == RunStep(s, t, res) && Runs(s.pcs[t]) {
      RunStepResult(s, t, res, r);
    } else {
      PcResult(s, s', t, r);
    }
  }

  lemma JoinResult(s: Task, e: Event, r: Output)
    requires Inv(s) && (e.JoinPoll? || e.JoinStep?) && Step(s, e).Some?
    ensures HasResult(Step(s, e).value, r) <==> HasResult(s, r)
  {
    hide Aw.Step, Aw.Inv, Aw.Calm, AsksOk, Untouched, Activity;
  }

  /** A result comes from an answer. */
  lemma StepResult(s: Task, e: Event, r: Output)
    requires Inv(s) && Step(s, e).Some?
    ensures HasResult(Step(s, e).value, r) <==> HasResult(s, r) || Answers(s, e, r)
  {
    hide JoinOk, NoWakeLost, Aw.Step;
    if e.JoinPoll? || e.JoinStep? {
      JoinResult(s, e, r);
    } else if e.Advance? && e.t in s.pcs {
      RunnerResult(s, e.t, e.q, e.res, r);
    } else {
      assert forall t | t in s.pcs :: t in Step(s, e).value.pcs && Step(s, e).value.pcs[t] == s.pcs[t];
    }
  }

  lemma {:induction false} RunLast(s: Task, es: seq<Event>, e: Event)
    requires Run(s, es).Some?
    ensures Run(s, es + [e]) == Step(Run(s, es).value, e)
    decreases |es|
  {
    hide Step;
    if es == [] {
      assert es + [e] == [e] && [e][1..] == [];
    } else {
      assert (es + [e])[1..] == es[1..] + [e];
      RunLast(Step(s, es[0]).value, es[1..], e);
    }
  }

  lemma AnsweredBefore(t: Tid, es: seq<Event>, e: Event, k: nat, r: Output)
    requires k < |es|
    ensures AnsweredAt(t, es + [e], k, r) <==> AnsweredAt(t, es, k, r)
  {
    assert (es + [e])[..k] == es[..k];
  }

  /** The results of a run are its answers, and there is at most one. */
  lemma {:induction false} ResultHistory(t: Tid, es: seq<Event>)
    ensures Run(Spawned(t), es).Some?
    ensures forall r :: HasResult(Run(Spawned(t), es).value, r) <==> exists k :: AnsweredAt(t, es, k, r)
    ensures forall k: nat, m: nat, q, r | AnsweredAt(t, es, k, q) && AnsweredAt(t, es, m, r) :: k == m
    decreases |es|
  {
    hide Step, Inv, HasResult, Answers;
    NeverPanics(t, es);
    if es == [] {
      forall r ensures !HasResult(Spawned(t), r) { NoResultYet(t, r); }
    } else {
      var n := |es| - 1;
      var before := es[..n];
      ResultHistory(t, before);
      var s := Run(Spawned(t), before).value;
      assert es == before + [es[n]];
      RunLast(Spawned(t), before, es[n]);
      SpawnedOk(t);
      RunKeeps(Spawned(t), before);
      forall r, k: nat
        ensures AnsweredAt(t, es, k, r) <==> AnsweredAt(t, before, k, r) || (k == n && Answers(s, es[n], r))
      {
        if k < n { AnsweredBefore(t, before, es[n], k, r); }
      }
      forall r ensures HasResult(Run(Spawned(t), es).value, r) <==> HasResult(s, r) || Answers(s, es[n], r) {
        StepResult(s, es[n], r);
      }
      forall k: nat, m: nat, q, r | AnsweredAt(t, es, k, q) && AnsweredAt(t, es, m, r) ensures k == m {
        if k == n && m < n { AnswerIsFirst(s, es[n], q, r); }
        if m == n && k < n { AnswerIsFirst(s, es[n], r, q); }
      }
      forall r ensures HasResult(Run(Spawned(t), es).value, r) <==> exists k :: AnsweredAt(t, es, k, r) {
        if Answers(s, es[n], r) { assert AnsweredAt(t, es, n, r); }
        if k :| AnsweredAt(t, before, k, r) { assert AnsweredAt(t, es, k, r); }
      }
    }
  }

  lemma NoResultYet(t: Tid, r: Output)
    ensures !HasResult(Spawned(t), r)
  {
  }

  /** What a join returns is what the future answered, at the one event of the run at which it
      answered Ready at all. */
  lemma JoinReturnsAnswer(t: Tid, es: seq<Event>, r: Output)
    requires Run(Spawned(t), es).Some? && Run(Spawned(t), es).value.join == JDone(r)
    ensures exists k :: AnsweredAt(t, es, k, r) && forall m: nat, q :: AnsweredAt(t, es, m, q) ==> m == k && q == r
  {
    hide Run;
    ResultHistory(t, es);
    assert HasResult(Run(Spawned(t), es).value, r);
    var k :| AnsweredAt(t, es, k, r);
    forall m: nat, q | AnsweredAt(t, es, m, q) ensures m == k && q == r {
      assert m == k;
    }
  }

  /** An answer is never lost, and the future is not polled after it: it is on its way into the data, is
      there for the join, or has been returned. */
  lemma AnswerIsKept(t: Tid, es: seq<Event>, k: nat, r: Output)
    requires AnsweredAt(t, es, k, r)
    ensures Run(Spawned(t), es).Some?
    ensures var s := Run(Spawned(t), es).value;
      && (s.data == Ready(r) || s.join == JDone(r) || exists u :: u in s.pcs && s.pcs[u] == Finish(r))
      && forall u | u in s.pcs :: !s.pcs[u].PollFuture?
  {
    ResultHistory(t, es);
    var s := Run(Spawned(t), es).value;
    assert HasResult(s, r);
    SpawnedOk(t);
    RunKeeps(Spawned(t), es);
    hide Run, Aw.Inv, Aw.Calm, AsksOk, Untouched, Aw.Step, AnsweredAt;
    forall u | u in s.pcs ensures !s.pcs[u].PollFuture? {
      if s.pcs[u].PollFuture? { AnswerIsFirst(s, Advance(u, 0, Some(r)), r, r); }
    }
  }
}
