/** What `block_on` does where nothing disturbs it: its loop, `search_retry`, `wait` and `park`, as runs
    of one thread from one point of the loop to the next. */
module HandoffLoop {
  import opened Prelude
  import opened ParkWord
  import opened Handoff
  import opened HandoffInvariant
  import opened HandoffTheorems
  import opened HandoffBound
  import opened HandoffRuns

  const Yes: Choice := Choice(true, 0)

  lemma OwnAdvance(s: Sys, t: Tid, x: Thread, c: Choice, y: Thread)
    requires x.sub.NoSub? && !Shared(x.main) && OwnStep(s.pending, 2 * s.searching < s.n, x, c) == Some(y)
    ensures Step(Put(s, t, x), Advance(t, c)) == Some(Put(s, t, y))
  {
    assert s.th[t := x][t := y] == s.th[t := y];
  }

  /** A step with a positive answer, and then some steps alone. */
  lemma YesThen(s: Sys, t: Tid, s': Sys, k: nat, r: Sys)
    requires Step(s, Advance(t, Yes)) == Some(s') && Run(s', Ticks(t, k)) == Some(r)
    ensures Run(s, [Advance(t, Yes)] + Ticks(t, k)) == Some(r)
  {
    RunFirst(s, Advance(t, Yes), Ticks(t, k));
  }

  lemma OneStep(s: Sys, t: Tid, s': Sys)
    requires Step(s, Tick(t)) == Some(s')
    ensures Run(s, Ticks(t, 1)) == Some(s')
  {
    assert Path(t, [s, s']);
    PathTicks(t, [s, s']);
  }

  // ---- search_retry ----------------------------------------------------------------------------

  /** Where the loop goes on when `search_retry` has no index: at the start to the future, after a failed
      search to `wait`, after `wait` to the injection of what was intercepted. */
  lemma RetryFails(s: Sys, t: Tid, x: Thread, site: Site)
    requires x.sub.NoSub? && x.main == RetryLoad(site) && !s.pending
    ensures Run(Put(s, t, x), Ticks(t, 1)) ==
      Some(Put(s, t, x.(main := if site.AtStart? then PollFuture else if site.AtRetry? then WaitFirst else Inject)))
  {
    var y := x.(main := if site.AtStart? then PollFuture else if site.AtRetry? then WaitFirst else Inject);
    OwnAdvance(s, t, x, No, y);
    OneStep(Put(s, t, x), t, Put(s, t, y));
  }

  /** With an index the thread gets a token and becomes a worker, after `wait` with what was intercepted. */
  lemma RetryTakes(s: Sys, t: Tid, x: Thread, site: Site)
    requires x.sub.NoSub? && x.main == RetryLoad(site) && s.pending && s.indices != []
    ensures var last := |s.indices| - 1;
      var i := s.indices[last];
      Run(Put(s, t, x), Ticks(t, 3)) ==
        Some(Put(s.(indices := s.indices[..last], pending := last > 0, searching := s.searching + 1), t,
                 x.(main := if site.AtWake? then PopInject(i) else TakeSeat(i, false))))
  {
    hide Step, Put;
    var last := |s.indices| - 1;
    var i := s.indices[last];
    var popped := s.(indices := s.indices[..last], pending := last > 0);
    var s0, s1 := Put(s, t, x), Put(s, t, x.(main := RetryPop(site)));
    var s2 := Put(popped, t, x.(main := RetryAdd(site, i)));
    var s3 := Put(popped.(searching := s.searching + 1), t,
                  x.(main := if site.AtWake? then PopInject(i) else TakeSeat(i, false)));
    OwnAdvance(s, t, x, No, x.(main := RetryPop(site)));
    PopStep(s, t, x, site);
    AddStep(popped, t, x, site, i);
    assert Path(t, [s0, s1, s2, s3]);
    PathTicks(t, [s0, s1, s2, s3]);
  }

  lemma PopStep(s: Sys, t: Tid, x: Thread, site: Site)
    requires x.sub.NoSub? && s.pending && s.indices != []
    ensures var last := |s.indices| - 1;
      Step(Put(s, t, x.(main := RetryPop(site))), Tick(t)) ==
        Some(Put(s.(indices := s.indices[..last], pending := last > 0), t, x.(main := RetryAdd(site, s.indices[last]))))
  {
    var y := x.(main := RetryAdd(site, s.indices[|s.indices| - 1]));
    assert s.th[t := x.(main := RetryPop(site))][t := y] == s.th[t := y];
  }

  lemma AddStep(s: Sys, t: Tid, x: Thread, site: Site, i: nat)
    requires x.sub.NoSub?
    ensures Step(Put(s, t, x.(main := RetryAdd(site, i))), Tick(t)) ==
      Some(Put(s.(searching := s.searching + 1), t,
               x.(main := if site.AtWake? then PopInject(i) else TakeSeat(i, false))))
  {
    var y := x.(main := if site.AtWake? then PopInject(i) else TakeSeat(i, false));
    assert s.th[t := x.(main := RetryAdd(site, i))][t := y] == s.th[t := y];
  }

  /** A call of block_on by a thread that has been in touch with the runtime before. */
  lemma EntersAndTakes(s: Sys, t: Tid)
    requires t in s.th && IsOutside(s.th[t]) && s.pending && s.indices != []
    ensures var last := |s.indices| - 1;
      Run(s, [Enter(t)] + Ticks(t, 3)) ==
        Some(Put(s.(indices := s.indices[..last], pending := last > 0, searching := s.searching + 1), t,
                 s.th[t].(main := TakeSeat(s.indices[last], false))))
  {
    var x := s.th[t].(main := RetryLoad(AtStart));
    assert Step(s, Enter(t)) == Some(Put(s, t, x));
    hide Step;
    RunFirst(s, Enter(t), Ticks(t, 3));
    RetryTakes(s, t, x, AtStart);
  }

  /** A new thread of the pool becomes the worker whose index it was started with. */
  lemma PoolThreadStarts(s: Sys, t: Tid, i: nat)
    requires i < |s.seats| && s.seats[i] == Seat(None, Some(i))
    ensures Run(Put(s, t, NewThread(Unstarted(i), true)), Ticks(t, 3)) ==
      Some(Put(s.(seats := s.seats[i := Seat(None, None)]), t, AsWorker(NewThread(Unstarted(i), true), i)))
  {
    var x := NewThread(Unstarted(i), true);
    OwnAdvance(s, t, x, No, Woke(x, TakeSeat(i, false)));
    hide Step, Put;
    OneTick(Put(s, t, x), t, 3, Put(s, t, Woke(x, TakeSeat(i, false))));
    SeatTicks(s, t, x, i);
  }

  /** A thread that gets hold of a handle and ends has left no trace but its name. */
  lemma ComesAndGoes(s: Sys, t: Tid)
    requires t !in s.th
    ensures Run(s, [Arrive(t), Exit(t)]) == Some(Put(s, t, NewThread(Done, false)))
  {
    assert [Arrive(t), Exit(t)] == [Arrive(t)] + ([Exit(t)] + []);
    RunFirst(s, Arrive(t), [Exit(t)] + []);
    var s1, s2 := Put(s, t, NewThread(Outside, false)), Put(s, t, NewThread(Done, false));
    assert s1.th[t := NewThread(Done, false)] == s2.th;
    RunFirst(s1, Exit(t), []);
    NoEvents(s2);
  }

  // ---- a worker --------------------------------------------------------------------------------

  /** A worker that finds a runnable gives up its token, if it has one, and notifies if that was the
      last; then it runs what it has found. */
  lemma WorkerRuns(s: Sys, t: Tid, x: Thread, searched: bool)
    requires x.sub.NoSub? && x.main == PollQueues(searched) && (searched ==> x.searching)
    requires x.searching ==> s.searching > 0
    ensures Run(Put(s, t, x), [Advance(t, Yes)] + Ticks(t, 1)) ==
      Some(Put(s, t, x.(main := RunTask, searching := false,
                        sub := if x.searching && s.searching == 1 then NotifyPending else NoSub)).(
             searching := if x.searching then s.searching - 1 else s.searching))
  {
    hide Step, Put;
    var found := x.(main := Found(false));
    var r := Put(s, t, x.(main := RunTask, searching := false,
                        sub := if x.searching && s.searching == 1 then NotifyPending else NoSub)).(
             searching := if x.searching then s.searching - 1 else s.searching);
    OwnAdvance(s, t, x, Yes, found);
    FoundStep(s, t, found, false);
    OneStep(Put(s, t, found), t, r);
    YesThen(Put(s, t, x), t, Put(s, t, found), 1, r);
  }

  lemma FoundStep(s: Sys, t: Tid, x: Thread, finished: bool)
    requires x.sub.NoSub? && x.main == Found(finished) && (x.searching ==> s.searching > 0)
    ensures Step(Put(s, t, x), Tick(t)) ==
      Some(Put(s, t, x.(main := if finished then Leave else RunTask, searching := false,
                        sub := if x.searching && s.searching == 1 then NotifyPending else NoSub)).(
             searching := if x.searching then s.searching - 1 else s.searching))
  {
    var y := x.(main := if finished then Leave else RunTask, searching := false,
                sub := if x.searching && s.searching == 1 then NotifyPending else NoSub);
    assert s.th[t := x][t := y] == s.th[t := y];
  }

  /** After a runnable has been run, and after an injection, the future is polled again. */
  lemma PollsAgain(s: Sys, t: Tid, x: Thread)
    requires x.sub.NoSub? && (x.main.RunTask? || x.main.Inject?)
    ensures Run(Put(s, t, x), Ticks(t, 1)) == Some(Put(s, t, x.(main := PollFuture)))
  {
    OwnAdvance(s, t, x, No, x.(main := PollFuture));
    OneStep(Put(s, t, x), t, Put(s, t, x.(main := PollFuture)));
  }

  /** A worker that finds nothing of its own begins to search, with a token, exactly if less than half
      of the workers do. */
  lemma WorkerSearches(s: Sys, t: Tid, x: Thread)
    requires x.sub.NoSub? && x.main == PollQueues(false) && !x.searching
    ensures 2 * s.searching < s.n ==>
      Run(Put(s, t, x), Ticks(t, 2)) ==
        Some(Put(s.(searching := s.searching + 1), t, x.(main := PollQueues(true), searching := true)))
    ensures 2 * s.searching >= s.n ==>
      Run(Put(s, t, x), Ticks(t, 1)) == Some(Put(s, t, x.(main := PollQueues(true))))
  {
    if 2 * s.searching < s.n {
      var y, z := x.(main := SearchAdd), x.(main := PollQueues(true), searching := true);
      OwnAdvance(s, t, x, No, y);
      BeginStep(s, t, x);
      hide Step, Put, OwnStep;
      var ss := [Put(s, t, x), Put(s, t, y), Put(s.(searching := s.searching + 1), t, z)];
      assert Path(t, ss);
      PathTicks(t, ss);
    } else {
      OwnAdvance(s, t, x, No, x.(main := PollQueues(true)));
      OneStep(Put(s, t, x), t, Put(s, t, x.(main := PollQueues(true))));
    }
  }

  lemma BeginStep(s: Sys, t: Tid, x: Thread)
    requires x.sub.NoSub?
    ensures Step(Put(s, t, x.(main := SearchAdd)), Tick(t)) ==
      Some(Put(s.(searching := s.searching + 1), t, x.(main := PollQueues(true), searching := true)))
  {
    var y, z := x.(main := SearchAdd), x.(main := PollQueues(true), searching := true);
    assert s.th[t := y][t := z] == s.th[t := z];
  }

  lemma SearchEnds(s: Sys, t: Tid, x: Thread)
    requires x.sub.NoSub? && x.main == PollQueues(true)
    ensures Run(Put(s, t, x), Ticks(t, 1)) == Some(Put(s, t, x.(main := GiveSeat(false))))
  {
    OwnAdvance(s, t, x, No, x.(main := GiveSeat(false)));
    OneStep(Put(s, t, x), t, Put(s, t, x.(main := GiveSeat(false))));
  }

  /** The thread is no worker any more: its producer is back in the seat and its index in the list. */
  function GaveBack(s: Sys, i: nat): (r: Sys)
    requires i < |s.seats|
  {
    s.(seats := s.seats[i := Seat(None, Some(i))], indices := s.indices + [i], pending := true)
  }

  predicate IsWorker(s: Sys, x: Thread, i: nat) {
    x.sub.NoSub? && x.wi == Some(i) && x.producer == Some(i) && i < |s.seats| && s.seats[i] == Seat(None, None)
  }

  /** `transition_to_idle` of a worker with no token, in the loop and at the end of block_on. */
  lemma GivesBack(s: Sys, t: Tid, x: Thread, i: nat, exit: bool)
    requires IsWorker(s, x, i) && x.main == GiveSeat(exit) && !x.searching
    ensures Run(Put(s, t, x), Ticks(t, 4)) ==
      Some(Put(GaveBack(s, i), t, x.(main := if exit then Finish else WaitFirst, wi := None, producer := None)))
  {
    hide Step, Put, GaveBack;
    var away := x.(wi := None, producer := None);
    var s0, s1 := Put(s, t, x), Put(s.(seats := s.seats[i := Seat(Some(t), None)]), t, x.(main := SeatGiven(exit)));
    var s2 := Put(s.(seats := s.seats[i := Seat(None, Some(i))]), t, away.(main := PushIdle(i, false, exit)));
    var s3 := Put(GaveBack(s, i), t, away.(main := DropSearch(false, exit)));
    var s4 := Put(GaveBack(s, i), t, away.(main := if exit then Finish else WaitFirst));
    GiveStep(s, t, x, i, exit);
    GivenStep(s, t, x, i, exit);
    PushStep(s, t, away, i, exit);
    DropStep(GaveBack(s, i), t, away, exit);
    assert Path(t, [s0, s1, s2, s3, s4]);
    PathTicks(t, [s0, s1, s2, s3, s4]);
  }

  lemma GiveStep(s: Sys, t: Tid, x: Thread, i: nat, exit: bool)
    requires IsWorker(s, x, i) && x.main == GiveSeat(exit)
    ensures Step(Put(s, t, x), Tick(t)) ==
      Some(Put(s.(seats := s.seats[i := Seat(Some(t), None)]), t, x.(main := SeatGiven(exit))))
  {
    assert s.th[t := x][t := x.(main := SeatGiven(exit))] == s.th[t := x.(main := SeatGiven(exit))];
  }

  lemma GivenStep(s: Sys, t: Tid, x: Thread, i: nat, exit: bool)
    requires IsWorker(s, x, i) && !x.searching
    ensures Step(Put(s.(seats := s.seats[i := Seat(Some(t), None)]), t, x.(main := SeatGiven(exit))), Tick(t)) ==
      Some(Put(s.(seats := s.seats[i := Seat(None, Some(i))]), t,
               x.(wi := None, producer := None, main := PushIdle(i, false, exit))))
  {
    var y := x.(wi := None, producer := None, main := PushIdle(i, false, exit));
    assert s.th[t := x.(main := SeatGiven(exit))][t := y] == s.th[t := y];
    assert s.seats[i := Seat(Some(t), None)][i := Seat(None, Some(i))] == s.seats[i := Seat(None, Some(i))];
  }

  lemma PushStep(s: Sys, t: Tid, x: Thread, i: nat, exit: bool)
    requires x.sub.NoSub? && i < |s.seats|
    ensures Step(Put(s.(seats := s.seats[i := Seat(None, Some(i))]), t, x.(main := PushIdle(i, false, exit))), Tick(t))
      == Some(Put(GaveBack(s, i), t, x.(main := DropSearch(false, exit))))
  {
    var y := x.(main := DropSearch(false, exit));
    assert s.th[t := x.(main := PushIdle(i, false, exit))][t := y] == s.th[t := y];
  }

  lemma DropStep(s: Sys, t: Tid, x: Thread, exit: bool)
    requires x.sub.NoSub?
    ensures Step(Put(s, t, x.(main := DropSearch(false, exit))), Tick(t)) ==
      Some(Put(s, t, x.(main := if exit then Finish else WaitFirst)))
  {
    var y := x.(main := if exit then Finish else WaitFirst);
    assert s.th[t := x.(main := DropSearch(false, exit))][t := y] == s.th[t := y];
  }

  lemma LeaveTicks(s: Sys, t: Tid, x: Thread, i: nat)
    requires IsWorker(s, x, i) && x.main == Found(true) && !x.searching
    ensures Run(Put(s, t, x), Ticks(t, 2)) == Some(Put(s, t, x.(main := GiveSeat(true))))
  {
    hide Put;
    var y, z := x.(main := Leave), x.(main := GiveSeat(true));
    FoundLeaves(s, t, x);
    OwnAdvance(s, t, y, No, z);
    hide Step;
    assert Path(t, [Put(s, t, x), Put(s, t, y), Put(s, t, z)]);
    PathTicks(t, [Put(s, t, x), Put(s, t, y), Put(s, t, z)]);
  }

  lemma FoundLeaves(s: Sys, t: Tid, x: Thread)
    requires x.sub.NoSub? && x.main == Found(true) && !x.searching
    ensures Step(Put(s, t, x), Tick(t)) == Some(Put(s, t, x.(main := Leave)))
  {
    hide Step;
    FoundStep(s, t, x, true);
  }

  /** A worker whose future is ready leaves block_on: it is no worker, its index is idle again, and a
      thread of the pool is uncounted. */
  lemma WorkerFinishes(s: Sys, t: Tid, x: Thread, i: nat)
    requires IsWorker(s, x, i) && x.main.PollFuture? && !x.searching && (x.pooled ==> 0 < s.spawned <= s.max)
    ensures Run(Put(s, t, x), [Advance(t, Yes)] + Ticks(t, 7)) ==
      Some(Put(GaveBack(s, i).(spawned := if x.pooled then s.spawned - 1 else s.spawned), t,
               x.(main := Done, wi := None, producer := None)))
  {
    hide Step, Put, Run;
    var away, back := x.(wi := None, producer := None), GaveBack(s, i);
    var r := Put(back.(spawned := if x.pooled then s.spawned - 1 else s.spawned), t, away.(main := Done));
    var s1, s3 := Put(s, t, x.(main := Found(true))), Put(s, t, x.(main := GiveSeat(true)));
    OwnAdvance(s, t, x, Yes, x.(main := Found(true)));
    hide OwnStep;
    LeaveTicks(s, t, x.(main := Found(true)), i);
    GivesBack(s, t, x.(main := GiveSeat(true)), i, true);
    FinishStep(back, t, away);
    OneStep(Put(back, t, away.(main := Finish)), t, r);
    assert Ticks(t, 5) == Ticks(t, 4) + Ticks(t, 1) && Ticks(t, 7) == Ticks(t, 2) + Ticks(t, 5);
    RunConcat(s3, Ticks(t, 4), Ticks(t, 1));
    RunConcat(s1, Ticks(t, 2), Ticks(t, 5));
    YesThen(Put(s, t, x), t, s1, 7, r);
  }

  lemma FinishStep(s: Sys, t: Tid, x: Thread)
    requires x.sub.NoSub? && (x.pooled ==> 0 < s.spawned <= s.max)
    ensures Step(Put(s, t, x.(main := Finish)), Tick(t)) ==
      Some(Put(s.(spawned := if x.pooled then s.spawned - 1 else s.spawned), t, x.(main := Done)))
  {
    assert s.th[t := x.(main := Finish)][t := x.(main := Done)] == s.th[t := x.(main := Done)];
  }

  // ---- wait ------------------------------------------------------------------------------------

  /** A thread that was woken before it waits does not wait: the first two looks at its word, and the
      third, after it has listed its parker, take what is there. */
  lemma WaitReturns(s: Sys, t: Tid, x: Thread, w: Option<nat>)
    requires x.sub.NoSub? && x.word == Notified(w) && (x.main.WaitFirst? || x.main.WaitSecond? || x.main.WaitThird?)
    ensures Run(Put(s, t, x), Ticks(t, 2)) ==
      Some(Put(s, t, x.(main := if x.main.WaitThird? then Unlist(w) else Woken(w), word := Empty)))
  {
    hide Step, Put;
    var y := x.(main := Consume(w, x.main.WaitThird?));
    var z := x.(main := if x.main.WaitThird? then Unlist(w) else Woken(w), word := Empty);
    OwnAdvance(s, t, x, No, y);
    OwnAdvance(s, t, y, No, z);
    assert Path(t, [Put(s, t, x), Put(s, t, y), Put(s, t, z)]);
    PathTicks(t, [Put(s, t, x), Put(s, t, y), Put(s, t, z)]);
  }

  lemma ParkReturns(s: Sys, t: Tid, x: Thread, w: Option<nat>)
    requires x.sub.NoSub? && x.word == Notified(w) && x.main.ParkCas?
    ensures Run(Put(s, t, x), Ticks(t, 3)) == Some(Put(s, t, x.(main := Unlist(w), word := Empty)))
  {
    hide Step, Put;
    var y, z := x.(main := ParkUnwrap), x.(main := Consume(w, true));
    var r := x.(main := Unlist(w), word := Empty);
    OwnAdvance(s, t, x, No, y);
    OwnAdvance(s, t, y, No, z);
    OwnAdvance(s, t, z, No, r);
    assert Path(t, [Put(s, t, x), Put(s, t, y), Put(s, t, z), Put(s, t, r)]);
    PathTicks(t, [Put(s, t, x), Put(s, t, y), Put(s, t, z), Put(s, t, r)]);
  }

  lemma TimeOutPath(pending: bool, few: bool, x: Thread)
    requires x.sub.NoSub?
    ensures var up := Plain(x, ParkRecheck, Waiting).(locked := true);
      && OwnStep(pending, few, Asleep(x), Yes) == Some(up)
      && OwnStep(pending, few, up, No) == Some(Plain(x, ParkBack(false), Waiting))
    ensures OwnStep(pending, few, Plain(x, ParkBack(false), Waiting), No) == Some(Plain(x, Unlist(None), Empty))
  {
  }

  /** A sleeper whose time is over takes itself out of the list. */
  lemma TimesOut(s: Sys, t: Tid, x: Thread)
    requires x.sub.NoSub?
    ensures Run(Put(s, t, Asleep(x)), [Advance(t, Yes)] + Ticks(t, 3)) ==
      Some(Put(s.(pool := RemoveFirst(s.pool, t)), t, Plain(x, Woken(None), Empty)))
  {
    hide Step, Put, OwnStep;
    var up := Plain(x, ParkRecheck, Waiting).(locked := true);
    var back, out := Plain(x, ParkBack(false), Waiting), Plain(x, Unlist(None), Empty);
    var r := Put(s.(pool := RemoveFirst(s.pool, t)), t, Plain(x, Woken(None), Empty));
    TimeOutPath(s.pending, 2 * s.searching < s.n, x);
    OwnAdvance(s, t, Asleep(x), Yes, up);
    OwnAdvance(s, t, up, No, back);
    OwnAdvance(s, t, back, No, out);
    UnlistStep(s, t, x);
    assert Path(t, [Put(s, t, up), Put(s, t, back), Put(s, t, out), r]);
    PathTicks(t, [Put(s, t, up), Put(s, t, back), Put(s, t, out), r]);
    YesThen(Put(s, t, Asleep(x)), t, Put(s, t, up), 3, r);
  }

  lemma UnlistStep(s: Sys, t: Tid, x: Thread)
    requires x.sub.NoSub?
    ensures Step(Put(s, t, Plain(x, Unlist(None), Empty)), Tick(t)) ==
      Some(Put(s.(pool := RemoveFirst(s.pool, t)), t, Plain(x, Woken(None), Empty)))
  {
    var y := Plain(x, Woken(None), Empty);
    assert s.th[t := Plain(x, Unlist(None), Empty)][t := y] == s.th[t := y];
  }

  lemma NetworkPath(pending: bool, few: bool, x: Thread)
    requires x.sub.NoSub?
    ensures OwnStep(pending, few, Plain(x, ParkCas, Empty), Yes) == Some(Plain(x, ParkNet, Polling))
    ensures OwnStep(pending, few, Plain(x, ParkNet, Polling), No) == Some(Plain(x, ParkBack(true), Polling))
    ensures OwnStep(pending, few, Plain(x, ParkBack(true), Polling), No) == Some(Plain(x, Unlist(None), Empty))
  {
  }

  /** A thread that may poll the network parks there, and takes itself out of the list if nobody has
      woken it meanwhile. */
  lemma PollsNetwork(s: Sys, t: Tid, x: Thread)
    requires x.sub.NoSub?
    ensures Run(Put(s, t, Plain(x, ParkCas, Empty)), [Advance(t, Yes)] + Ticks(t, 3)) ==
      Some(Put(s.(pool := RemoveFirst(s.pool, t)), t, Plain(x, Woken(None), Empty)))
    ensures Step(Put(s, t, Plain(x, ParkCas, Empty)), Advance(t, Yes)) == Some(Put(s, t, Plain(x, ParkNet, Polling)))
  {
    hide Step, Put, OwnStep;
    var net, back, out := Plain(x, ParkNet, Polling), Plain(x, ParkBack(true), Polling), Plain(x, Unlist(None), Empty);
    var r := Put(s.(pool := RemoveFirst(s.pool, t)), t, Plain(x, Woken(None), Empty));
    NetworkPath(s.pending, 2 * s.searching < s.n, x);
    OwnAdvance(s, t, Plain(x, ParkCas, Empty), Yes, net);
    OwnAdvance(s, t, net, No, back);
    OwnAdvance(s, t, back, No, out);
    UnlistStep(s, t, x);
    assert Path(t, [Put(s, t, net), Put(s, t, back), Put(s, t, out), r]);
    PathTicks(t, [Put(s, t, net), Put(s, t, back), Put(s, t, out), r]);
    YesThen(Put(s, t, Plain(x, ParkCas, Empty)), t, Put(s, t, net), 3, r);
  }

  // ---- after wait ------------------------------------------------------------------------------

  /** Without an index the thread looks for one if it was notified of timers or I/O (the flag), and
      otherwise injects what it has and polls its future. */
  lemma WokenInVain(s: Sys, t: Tid, x: Thread)
    requires x.sub.NoSub? && x.main == Woken(None)
    ensures Run(Put(s, t, x), Ticks(t, 2)) == Some(Put(s, t, x.(main := PollFuture)))
    ensures Run(Put(s, t, x), [Advance(t, Yes)] + Ticks(t, 0)) == Some(Put(s, t, x.(main := RetryLoad(AtWake))))
  {
    hide Step, Put;
    var y, z, r := x.(main := Inject), x.(main := PollFuture), x.(main := RetryLoad(AtWake));
    OwnAdvance(s, t, x, No, y);
    OwnAdvance(s, t, y, No, z);
    OwnAdvance(s, t, x, Yes, r);
    assert Path(t, [Put(s, t, x), Put(s, t, y), Put(s, t, z)]);
    PathTicks(t, [Put(s, t, x), Put(s, t, y), Put(s, t, z)]);
    NoEvents(Put(s, t, r));
    YesThen(Put(s, t, x), t, Put(s, t, r), 0, Put(s, t, r));
  }

  /** With an index and an intercepted runnable it becomes the worker and has found what to run. */
  lemma WokenWithWork(s: Sys, t: Tid, x: Thread, i: nat)
    requires x.sub.NoSub? && x.main == PopInject(i) && x.wi.None? && x.producer.None? && !x.searching
    requires i < |s.seats| && s.seats[i] == Seat(None, Some(i))
    ensures Run(Put(s, t, x), [Advance(t, Yes)] + Ticks(t, 2)) ==
      Some(Put(s.(seats := s.seats[i := Seat(None, None)]), t,
               x.(main := Found(false), wi := Some(i), producer := Some(i), searching := true)))
  {
    hide Step, Put;
    var y := x.(main := TakeSeat(i, true));
    var z := x.(main := SeatTaken(true), wi := Some(i), searching := true);
    var r := x.(main := Found(false), wi := Some(i), producer := Some(i), searching := true);
    var s1, s2 := Put(s, t, y), Put(s.(seats := s.seats[i := Seat(Some(t), Some(i))]), t, z);
    var s3 := Put(s.(seats := s.seats[i := Seat(None, None)]), t, r);
    OwnAdvance(s, t, x, Yes, y);
    TakeWithWork(s, t, x, i);
    TakenWithWork(s, t, x, i);
    assert Path(t, [s1, s2, s3]);
    PathTicks(t, [s1, s2, s3]);
    YesThen(Put(s, t, x), t, s1, 2, s3);
  }

  lemma TakeWithWork(s: Sys, t: Tid, x: Thread, i: nat)
    requires x.sub.NoSub? && x.wi.None? && !x.searching && i < |s.seats| && s.seats[i] == Seat(None, Some(i))
    ensures Step(Put(s, t, x.(main := TakeSeat(i, true))), Tick(t)) ==
      Some(Put(s.(seats := s.seats[i := Seat(Some(t), Some(i))]), t,
               x.(main := SeatTaken(true), wi := Some(i), searching := true)))
  {
    var z := x.(main := SeatTaken(true), wi := Some(i), searching := true);
    assert s.th[t := x.(main := TakeSeat(i, true))][t := z] == s.th[t := z];
  }

  lemma TakenWithWork(s: Sys, t: Tid, x: Thread, i: nat)
    requires x.sub.NoSub? && x.producer.None? && i < |s.seats| && s.seats[i] == Seat(None, Some(i))
    ensures Step(Put(s.(seats := s.seats[i := Seat(Some(t), Some(i))]), t,
                     x.(main := SeatTaken(true), wi := Some(i), searching := true)), Tick(t)) ==
      Some(Put(s.(seats := s.seats[i := Seat(None, None)]), t,
               x.(main := Found(false), wi := Some(i), producer := Some(i), searching := true)))
  {
    var z := x.(main := SeatTaken(true), wi := Some(i), searching := true);
    var r := x.(main := Found(false), wi := Some(i), producer := Some(i), searching := true);
    assert s.th[t := z][t := r] == s.th[t := r];
    assert s.seats[i := Seat(Some(t), Some(i))][i := Seat(None, None)] == s.seats[i := Seat(None, None)];
  }
}
