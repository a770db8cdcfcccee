/** The task protocol keeps its invariant, never panics, loses no wake and hands the result of
    the future's last poll to the join handle. */
module TaskProof {
  import opened Prelude
  import opened TaskProtocol
  import Aw = AtomicWaker

  // ---- wakes and queues ----------------------------------------------------------------------

  ghost predicate Reporting(s: Task) { exists t :: t in s.pcs && s.pcs[t].WakeJoiner? }

  /** A step that leaves the waker, the join handle and the completed data alone. */
  lemma JoinKept(s: Task, s': Task)
    requires JoinOk(s) && s'.cell == s.cell && s'.join == s.join && s'.last == s.last
    requires Complete(s') == Complete(s) && (s.data.Ready? || s.data.Joined? ==> s'.data == s.data)
    requires forall t :: t in s.pcs && Wakes(s.pcs[t]) <==> t in s'.pcs && Wakes(s'.pcs[t])
    requires forall t | t in s.pcs && Wakes(s.pcs[t]) :: s'.pcs[t] == s.pcs[t]
    ensures JoinOk(s')
  {
    assert Reporting(s') <==> Reporting(s);
  }

  lemma WakeActivity(s: Task, t: Tid)
    requires Activity(s) && t !in s.pcs
    ensures Activity(WakeStep(s, t))
  {
  }

  lemma WakeKeeps(s: Task, t: Tid)
    requires Inv(s) && t !in s.pcs
    ensures Inv(WakeStep(s, t))
  {
    WakeActivity(s, t);
    JoinKept(s, WakeStep(s, t));
  }

  lemma OnlyQueued(s: Task, q: Qid)
    requires Activity(s) && q in s.queued
    ensures s.queued == multiset{q} && s.pcs == map[]
  {
    assert s.queued == s.queued - multiset{q} + multiset{q};
    assert |s.queued - multiset{q}| == 0;
  }

  lemma QueuesKeep(s: Task, e: Event)
    requires Inv(s) && (e.Pop? || e.Move?)
    ensures Step(s, e).Some? && Inv(Step(s, e).value)
  {
    if e.q in s.queued {
      OnlyQueued(s, e.q);
      JoinKept(s, Step(s, e).value);
    }
  }

  // ---- the runner ----------------------------------------------------------------------------

  lemma QueueActivity(s: Task, t: Tid, q: Qid)
    requires Activity(s) && t in s.pcs && HoldsRunnable(s.pcs[t])
    ensures QueueStep(s, t, q).Some? && Activity(QueueStep(s, t, q).value)
  {
  }

  lemma QueueStepKeeps(s: Task, t: Tid, q: Qid)
    requires Inv(s) && t in s.pcs && HoldsRunnable(s.pcs[t])
    ensures QueueStep(s, t, q).Some? && Inv(QueueStep(s, t, q).value)
  {
    QueueActivity(s, t, q);
    JoinKept(s, QueueStep(s, t, q).value);
    assert Complete(QueueStep(s, t, q).value) == Complete(s);
    hide Activity, JoinOk;
  }

  lemma RunActivity(s: Task, t: Tid, res: Option<Output>)
    requires Activity(s) && DataOk(s) && t in s.pcs && Runs(s.pcs[t]) && s.join != JTake
    ensures RunStep(s, t, res).Some? && Activity(RunStep(s, t, res).value)
  {
  }

  lemma RunData(s: Task, t: Tid, res: Option<Output>)
    requires Activity(s) && DataOk(s) && t in s.pcs && Runs(s.pcs[t]) && RunStep(s, t, res).Some?
    ensures DataOk(RunStep(s, t, res).value)
  {
  }

  /** Completing the task makes the thread the one that will report it. */
  lemma RunJoin(s: Task, t: Tid, res: Option<Output>)
    requires Activity(s) && DataOk(s) && JoinOk(s) && t in s.pcs && Runs(s.pcs[t]) && RunStep(s, t, res).Some?
    ensures JoinOk(RunStep(s, t, res).value)
  {
    var s' := RunStep(s, t, res).value;
    assert s'.cell == s.cell && s'.join == s.join && !Complete(s);
    if s.pcs[t].Finish? { assert s'.pcs[t].WakeJoiner?; }
  }

  lemma RunStepKeeps(s: Task, t: Tid, res: Option<Output>)
    requires Inv(s) && t in s.pcs && Runs(s.pcs[t])
    ensures RunStep(s, t, res).Some? && Inv(RunStep(s, t, res).value)
  {
    RunActivity(s, t, res);
    RunData(s, t, res);
    RunJoin(s, t, res);
  }

  lemma EndActivity(s: Task, t: Tid)
    requires Activity(s) && t in s.pcs && (s.pcs[t].ToIdle? || s.pcs[t].FromNotified? || s.pcs[t].StoreScheduled?)
    ensures EndStep(s, t).Some? && Activity(EndStep(s, t).value)
  {
  }

  lemma EndStepKeeps(s: Task, t: Tid)
    requires Inv(s) && t in s.pcs && (s.pcs[t].ToIdle? || s.pcs[t].FromNotified? || s.pcs[t].StoreScheduled?)
    ensures EndStep(s, t).Some? && Inv(EndStep(s, t).value)
  {
    EndActivity(s, t);
    JoinKept(s, EndStep(s, t).value);
    hide Activity, JoinOk;
  }

  /** What a call of `wake` does to the waker, seen from its caller. */
  lemma WakeCell(c: Aw.Cell, t: Tid, first: bool)
    requires Aw.Inv(c) && Aw.Calm(c) && (first ==> Untouched(c)) && (!first ==> c.takers.Keys == {t})
    requires !first ==> c.state == Aw.NOTIFIED || c.flag
    ensures var r := Aw.Step(c, if first then Aw.Wake(t) else Aw.WakeStep(t));
      && r.Some? && Aw.Inv(r.value) && Aw.Calm(r.value) && r.value.poller == c.poller
      && (r.value.state == Aw.NOTIFIED || r.value.flag) && r.value.takers.Keys <= {t}
      && (Aw.Linked(c) ==> Aw.Linked(r.value)) && r.value.answers == c.answers
  {
    Aw.StepKeeps(c, if first then Aw.Wake(t) else Aw.WakeStep(t));
    if Aw.Linked(c) { Aw.LinkKeeps(c, if first then Aw.Wake(t) else Aw.WakeStep(t)); }
    hide Aw.Linked;
  }

  lemma WakeJoinerKeeps(s: Task, t: Tid)
    requires Inv(s) && t in s.pcs && Wakes(s.pcs[t])
    ensures WakeJoinerStep(s, t).Some? && Inv(WakeJoinerStep(s, t).value)
  {
    assert s.pcs == map[t := s.pcs[t]];
    assert s.pcs[t].Waking? ==> s.cell.takers.Keys == {t};
    assert Complete(s);
    WakeCell(s.cell, t, s.pcs[t].WakeJoiner?);
    var s' := WakeJoinerStep(s, t).value;
    assert s'.pcs == if t in s'.cell.takers then map[t := Waking] else map[];
    assert Aw.Linked(s'.cell);
    hide Aw.Inv, Aw.Calm, Aw.Linked, Untouched, JoinOk, Activity, DataOk;
    WakeJoinerRest(s, s', t);
    WakeJoinerJoin(s, s', t);
  }

  lemma WakeJoinerRest(s: Task, s': Task, t: Tid)
    requires Activity(s) && DataOk(s) && Complete(s) && s' == s.(cell := s'.cell, pcs := s'.pcs)
    requires t in s.pcs && s.pcs == map[t := s.pcs[t]] && Wakes(s.pcs[t])
    requires s'.pcs == if t in s'.cell.takers then map[t := Waking] else map[]
    ensures Activity(s') && DataOk(s')
  {
  }

  lemma WakeJoinerJoin(s: Task, s': Task, t: Tid)
    requires JoinOk(s) && Complete(s) && s' == s.(cell := s'.cell, pcs := s'.pcs)
    requires Aw.Inv(s'.cell) && Aw.Calm(s'.cell) && s'.cell.poller == s.cell.poller
    requires s'.pcs == (if t in s'.cell.takers then map[t := Waking] else map[]) && s'.cell.takers.Keys <= {t}
    requires s'.cell.state == Aw.NOTIFIED || s'.cell.flag
    requires Aw.Linked(s'.cell) && s'.cell.answers == s.cell.answers
    ensures JoinOk(s')
  {
  }

  // ---- the join handle -----------------------------------------------------------------------

  /** A step of `poll`, seen from the join handle: before the wake it cannot answer Ready. */
  lemma PollCell(c: Aw.Cell)
    requires Aw.Inv(c) && Aw.Calm(c) && !c.poller.Idle?
    ensures var r := Aw.Step(c, Aw.PollStep);
      && r.Some? && Aw.Inv(r.value) && Aw.Calm(r.value) && r.value.takers == c.takers
      && (Untouched(c) ==> Untouched(r.value) && !Answered(r.value).JLock?)
      && (c.state == Aw.NOTIFIED || c.flag ==> r.value.state == Aw.NOTIFIED || r.value.flag)
  {
    Aw.PollSafe(c);
    Aw.StepKeeps(c, Aw.PollStep);
  }

  /** Starting to poll the waker changes nothing but where the poller is. */
  lemma StartCell(c: Aw.Cell, k: nat)
    requires Aw.Inv(c) && Aw.Calm(c) && c.poller.Idle?
    ensures var r := Aw.Step(c, Aw.Poll(Some(k)));
      && r == Some(c.(poller := Aw.LoadFlag(Some(k)))) && Aw.Inv(r.value) && Aw.Calm(r.value)
      && Untouched(r.value) == Untouched(c) && (AsksOk(c, JIdle) ==> AsksOk(r.value, JPolling))
  {
    Aw.StepKeeps(c, Aw.Poll(Some(k)));
    if Aw.Linked(c) { Aw.LinkKeeps(c, Aw.Poll(Some(k))); }
    hide Aw.Linked;
  }

  lemma JoinPollKeeps(s: Task, k: nat)
    requires Inv(s)
    ensures JoinPollStep(s, k).Some? && Inv(JoinPollStep(s, k).value)
  {
    if s.join.JIdle? {
      StartCell(s.cell, k);
      hide Aw.Inv, Aw.Calm, Untouched, AsksOk;
    }
  }

  /** A step of `poll` keeps the link between answers and contexts. */
  lemma PollAsks(c: Aw.Cell)
    requires Aw.Inv(c) && AsksOk(c, JPolling) && !c.poller.Idle? && Aw.Step(c, Aw.PollStep).Some?
    ensures var c' := Aw.Step(c, Aw.PollStep).value; AsksOk(c', Answered(c'))
  {
    Aw.LinkKeeps(c, Aw.PollStep);
    hide Aw.Linked, Aw.Inv;
  }

  lemma JoinPolls(s: Task)
    requires Inv(s) && s.join.JPolling?
    ensures JoinNext(s).Some? && JoinOk(JoinNext(s).value)
  {
    PollCell(s.cell);
    PollAsks(s.cell);
    hide AsksOk;
    assert !Untouched(s.cell) ==> Complete(s) && !Reporting(s);
  }

  lemma JoinNextKeeps(s: Task)
    requires Inv(s)
    ensures JoinNext(s).Some? && Inv(JoinNext(s).value)
  {
    if s.join.JPolling? { JoinPolls(s); }
    else { JoinTakes(s); }
  }

  lemma JoinTakes(s: Task)
    requires Inv(s) && !s.join.JPolling?
    ensures JoinNext(s).Some? && Inv(JoinNext(s).value)
  {
  }

  // ---- every run -----------------------------------------------------------------------------

  lemma StepKeeps(s: Task, e: Event)
    requires Inv(s)
    ensures Step(s, e).Some? && Inv(Step(s, e).value)
  {
    match e
    case Wake(t) => if t !in s.pcs { WakeKeeps(s, t); }
    case Pop(_, _) => QueuesKeep(s, e);
    case Move(_, _) => QueuesKeep(s, e);
    case Advance(t, q, res) =>
      if t in s.pcs {
        if HoldsRunnable(s.pcs[t]) { QueueStepKeeps(s, t, q); }
        else if Wakes(s.pcs[t]) { WakeJoinerKeeps(s, t); }
        else if s.pcs[t].ToIdle? || s.pcs[t].FromNotified? || s.pcs[t].StoreScheduled? { EndStepKeeps(s, t); }
        else { RunStepKeeps(s, t, res); }
      }
    case JoinPoll(k) => JoinPollKeeps(s, k);
    case JoinStep => JoinNextKeeps(s);
  }

  lemma RunKeeps(s: Task, es: seq<Event>)
    requires Inv(s)
    ensures Run(s, es).Some? && Inv(Run(s, es).value)
    decreases |es|
  {
    if es != [] {
      StepKeeps(s, es[0]);
      RunKeeps(Step(s, es[0]).value, es[1..]);
    }
  }

  lemma SpawnedOk(t: Tid)
    ensures Inv(Spawned(t))
  {
    Aw.NewOk();
    assert t in Spawned(t).pcs;
  }
}
