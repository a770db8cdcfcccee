/** What `poll`, `wake` and the loop of `poll_io` achieve where nothing disturbs them, as runs of the
    waker cell and of the loop around it. */
module WakerRuns {
  import opened Prelude
  import Aw = AtomicWaker
  import R = Readiness

  // ---- the waker cell --------------------------------------------------------------------------

  ghost predicate Path(es: seq<Aw.Event>, cs: seq<Aw.Cell>) {
    |cs| == |es| + 1 && forall k, m | 0 <= k < m < |cs| && m == k + 1 :: Aw.Step(cs[k], es[k]) == Some(cs[m])
  }

  lemma {:induction false} PathRun(es: seq<Aw.Event>, cs: seq<Aw.Cell>)
    requires Path(es, cs)
    ensures Aw.Run(cs[0], es) == Some(cs[|es|])
    decreases |es|
  {
    hide Aw.Step;
    if es != [] {
      assert forall k | 0 <= k < |es| :: cs[1..][k] == cs[k + 1];
      PathRun(es[1..], cs[1..]);
    }
  }

  function Steps(n: nat): (es: seq<Aw.Event>) { seq(n, _ => Aw.PollStep) }

  function Answered(c: Aw.Cell, a: Aw.Answer): (r: Aw.Cell) { c.(answers := c.answers + [a]) }

  /** A poll of a waker that has not been woken registers its context and is answered Pending; one
      without a context changes nothing. */
  lemma PollWaits(c: Aw.Cell, k: nat)
    requires c.poller.Idle? && !c.flag && c.lock.Free? && (c.state == Aw.EMPTY || c.state == Aw.WAITING)
    ensures Aw.Run(c, [Aw.Poll(Some(k))] + Steps(6)) ==
      Some(Answered(c.(state := Aw.WAITING, slot := Some(k), registered := Some(k), owed := false, fired := false),
                    Aw.Pending(Some(k))))
    ensures Aw.Run(c, [Aw.Poll(None)] + Steps(2)) == Some(Answered(c, Aw.Pending(None)))
  {
    PollsInVain(c);
    var c1, c2 := c.(poller := Aw.LoadFlag(Some(k))), c.(poller := Aw.LoadState(Some(k)));
    var c3 := c.(poller := Aw.Claim(c.state, k));
    var c4 := c.(state := Aw.UPDATING, poller := Aw.LockSlot(k), registered := None);
    var c5 := c4.(lock := Aw.ByPoller, poller := Aw.InSlot(k));
    var c6 := c4.(slot := Some(k), poller := Aw.Publish(k), registered := Some(k), owed := false, fired := false);
    var c7 := Answered(c.(state := Aw.WAITING, slot := Some(k), registered := Some(k), owed := false, fired := false),
                    Aw.Pending(Some(k)));
    assert Aw.Step(c, Aw.Poll(Some(k))) == Some(c1);
    assert Aw.Step(c1, Aw.PollStep) == Some(c2);
    assert Aw.Step(c2, Aw.PollStep) == Some(c3);
    assert Aw.Step(c3, Aw.PollStep) == Some(c4);
    assert Aw.Step(c4, Aw.PollStep) == Some(c5);
    assert Aw.Step(c5, Aw.PollStep) == Some(c6);
    assert Aw.Step(c6, Aw.PollStep) == Some(c7);
    hide Aw.Step, Answered;
    assert Path([Aw.Poll(Some(k))] + Steps(6), [c, c1, c2, c3, c4, c5, c6, c7]);
    PathRun([Aw.Poll(Some(k))] + Steps(6), [c, c1, c2, c3, c4, c5, c6, c7]);
  }

  lemma PollsInVain(c: Aw.Cell)
    requires c.poller.Idle? && !c.flag && (c.state == Aw.EMPTY || c.state == Aw.WAITING)
    ensures Aw.Run(c, [Aw.Poll(None)] + Steps(2)) == Some(Answered(c, Aw.Pending(None)))
  {
    var c1, c2, c3 := c.(poller := Aw.LoadFlag(None)), c.(poller := Aw.LoadState(None)), Answered(c, Aw.Pending(None));
    assert Path([Aw.Poll(None)] + Steps(2), [c, c1, c2, c3]);
    PathRun([Aw.Poll(None)] + Steps(2), [c, c1, c2, c3]);
  }

  /** A poll of a waker that has been woken is answered Ready, with a context or without, and so are all
      polls up to a reset. */
  lemma PollIsReady(c: Aw.Cell, ctx: Option<nat>)
    requires c.poller.Idle?
    ensures c.flag ==> Aw.Run(c, [Aw.Poll(ctx)] + Steps(1)) == Some(Answered(c, Aw.Ready))
    ensures !c.flag && c.state == Aw.NOTIFIED ==>
      Aw.Run(c, [Aw.Poll(ctx)] + Steps(4)) ==
        Some(Answered(c.(state := Aw.EMPTY, flag := true, registered := None), Aw.Ready))
  {
    var c1 := c.(poller := Aw.LoadFlag(ctx));
    if c.flag {
      assert Path([Aw.Poll(ctx)] + Steps(1), [c, c1, Answered(c, Aw.Ready)]);
      PathRun([Aw.Poll(ctx)] + Steps(1), [c, c1, Answered(c, Aw.Ready)]);
    } else if c.state == Aw.NOTIFIED {
      var c2, c3 := c.(poller := Aw.LoadState(ctx)), c.(poller := Aw.SetFlag);
      var c4 := c.(poller := Aw.Clear, flag := true);
      var c5 := Answered(c.(state := Aw.EMPTY, flag := true, registered := None), Aw.Ready);
      assert Path([Aw.Poll(ctx)] + Steps(4), [c, c1, c2, c3, c4, c5]);
      PathRun([Aw.Poll(ctx)] + Steps(4), [c, c1, c2, c3, c4, c5]);
    }
  }

  /** A wake that finds a registered context takes it out and wakes it, and leaves the cell NOTIFIED. */
  lemma WakeFires(c: Aw.Cell, t: Aw.Tid, k: nat)
    requires c.state == Aw.WAITING && c.slot == Some(k) && c.registered == Some(k) && c.lock.Free? && c.takers == map[]
    ensures Aw.Run(c, [Aw.Wake(t), Aw.WakeStep(t), Aw.WakeStep(t), Aw.WakeStep(t)]) ==
      Some(c.(state := Aw.NOTIFIED, slot := None, owed := true, fired := true))
  {
    var es := [Aw.Wake(t), Aw.WakeStep(t), Aw.WakeStep(t), Aw.WakeStep(t)];
    var c1 := c.(state := Aw.NOTIFIED, owed := true, takers := map[t := Aw.ToLock]);
    var c2 := c1.(lock := Aw.ByTaker(t), takers := map[t := Aw.Holding]);
    var c3 := c1.(slot := None, takers := map[t := Aw.Firing(k)]);
    var c4 := c.(state := Aw.NOTIFIED, slot := None, owed := true, fired := true);
    assert map[t := Aw.ToLock][t := Aw.Holding] == map[t := Aw.Holding];
    assert map[t := Aw.Holding][t := Aw.Firing(k)] == map[t := Aw.Firing(k)];
    assert map[t := Aw.Firing(k)] - {t} == map[];
    assert Path(es, [c, c1, c2, c3, c4]);
    PathRun(es, [c, c1, c2, c3, c4]);
  }

  /** Otherwise it only leaves the cell NOTIFIED. */
  lemma WakeNotes(c: Aw.Cell, t: Aw.Tid)
    requires c.state != Aw.WAITING && t !in c.takers
    ensures Aw.Run(c, [Aw.Wake(t)]) == Some(c.(state := Aw.NOTIFIED, owed := true))
  {
    var c1 := c.(state := Aw.NOTIFIED, owed := true);
    assert Path([Aw.Wake(t)], [c, c1]);
    PathRun([Aw.Wake(t)], [c, c1]);
  }

  // ---- the loop of poll_io ---------------------------------------------------------------------

  /** How an operation goes on after an attempt: it ends with a result or without budget, tries again
      when interrupted, and otherwise resets the waker and asks it again. */
  lemma AfterAttempt(s: R.State, ctx: Option<nat>, io: R.Io)
    requires s.op == R.Attempting(ctx) && s.cell.flag && s.cell.poller.Idle?
    ensures io.Done? ==> R.Run(s, [R.Next(io)]) == Some(Attempted(s, R.Out))
    ensures io.Interrupted? ==> R.Run(s, [R.Next(io)]) == Some(Attempted(s, s.op))
    ensures io.Yield? ==> R.Run(s, [R.Next(io)]) == Some(s.(op := R.Out))
    ensures io.WouldBlock? ==> R.Run(s, [R.Next(io), R.Next(io)]) == Some(AsksAgain(s, ctx))
  {
    One(s, R.Next(io));
    assert [R.Next(io), R.Next(io)][1..] == [R.Next(io)];
    if io.WouldBlock? { One(Attempted(s, R.Resetting(ctx)), R.Next(io)); }
  }

  lemma One(s: R.State, e: R.Event)
    ensures R.Run(s, [e]) == R.Step(s, e)
  {
    assert [e][1..] == [];
  }

  function AsksAgain(s: R.State, ctx: Option<nat>): (r: R.State) {
    Attempted(s, R.Asking(ctx)).(cell := s.cell.(flag := false, poller := Aw.LoadFlag(ctx)))
  }

  function Attempted(s: R.State, op: R.Op): (r: R.State) {
    s.(reported := false, attempts := s.attempts + 1, op := op)
  }

  /** An operation is over exactly after an attempt with a result, without budget, or with an answer
      Pending, and it makes an attempt exactly if the waker answers Ready. */
  lemma EndsExactly(s: R.State, io: R.Io)
    requires R.Reachable(s) && !s.op.Out? && !s.op.Dropping? && R.OpStep(s, io).Some?
    ensures var s' := R.OpStep(s, io).value;
      && (s'.op.Out? <==> (s.op.Attempting? && (io.Done? || io.Yield?)) || s'.waits == s.waits + 1)
      && (s'.waits == s.waits + 1 <==>
            s.op.Asking? && s'.cell.poller.Idle? && s.cell.state != Aw.NOTIFIED && !s.cell.flag)
      && (s.op.Asking? && s'.cell.poller.Idle? && (s.cell.state == Aw.NOTIFIED || s.cell.flag) <==>
            s.op.Asking? && s'.op == R.Attempting(s.op.ctx))
  {
    R.ReachableInv(s);
    if s.op.Asking? {
      R.AskingKeeps(s.cell);
      if Aw.PollNext(s.cell).value.poller.Idle? { Woken(s.cell); }
      hide Aw.Inv, Aw.Linked;
    }
  }

  lemma Woken(c: Aw.Cell)
    requires Aw.Inv(c) && !c.poller.Idle? && Aw.PollNext(c).Some? && Aw.PollNext(c).value.poller.Idle?
    ensures var a := Aw.PollNext(c).value.answers;
      |a| == |c.answers| + 1 && (a[|c.answers|].Ready? <==> c.state == Aw.NOTIFIED || c.flag)
  {
  }
}
