/** The objects behind the shared state of the two protocols, updated in place as the program does.
    Each method is one critical section or one atomic operation, and does to the fields what the
    steps of the state machines say: `Shows` relates an object to a state of its machine. */
module SharedObjects {
  import opened Prelude
  import opened ParkWord
  import H = Handoff
  import P = TaskProtocol

  class IdleQueue {
    var pending: bool
    var indices: seq<nat>

    predicate Shows(s: H.Sys)
      reads this
    {
      s.pending == pending && s.indices == indices
    }

    constructor (count: nat)
      requires count > 0
      ensures forall max: nat :: Shows(H.Init(count, max))
    {
      pending := true;
      indices := seq(count, (k: nat) => k);
    }

    /** The end of a claim that found no thread to hand its index to. */
    method Push(i: nat, ghost s: H.Sys, ghost t: H.Tid)
      requires Shows(s) && t in s.th
      modifies this
      ensures Shows(H.PushBackStep(s, t, i).value)
      ensures forall was, exit :: Shows(H.PushIdleStep(s, t, i, was, exit).value)
    {
      indices := indices + [i];
      pending := true;
    }

    /** The load of the flag and, if it was set, the critical section, as `notify` and as
        `search_retry` call it. */
    method Pop(ghost s: H.Sys, ghost t: H.Tid) returns (r: Option<nat>)
      requires Shows(s) && t in s.th
      modifies this
      ensures s.th[t].sub.IdleLoad? ==>
        var s' := PopAlone(s, t);
        Shows(s') && t in s'.th && s'.th[t].sub == match r case Some(i) => H.Spawn(i) case None => H.Release
      ensures s.th[t].main.RetryLoad? ==>
        var s', site := RetryAlone(s, t), s.th[t].main.site;
        Shows(s') && t in s'.th && s'.th[t].main == match r case Some(i) => H.RetryAdd(site, i)
          case None => H.Missed(site)
    {
      if s.th[t].sub.IdleLoad? { NotifyPops(s, t); }
      if s.th[t].main.RetryLoad? { RetryPops(s, t); }
      hide PopAlone, RetryAlone;
      if !pending { return None; }
      var n := |indices|;
      if n == 0 { return None; }
      var index := n - 1;
      if index == 0 { pending := false; }
      r, indices := Some(indices[index]), SwapRemove(indices, index);
    }
  }

  /** `IdleQueue::pop` when no other thread's step comes between its two. */
  ghost function PopAlone(s: H.Sys, t: H.Tid): (r: H.Sys)
    requires t in s.th && s.th[t].sub.IdleLoad?
  {
    var s1 := H.NotifyStep(s, t).value;
    if s1.th[t].sub.IdlePop? then H.IdlePopStep(s1, t).value else s1
  }

  /** The same for `search_retry`. */
  ghost function RetryAlone(s: H.Sys, t: H.Tid): (r: H.Sys)
    requires t in s.th && s.th[t].main.RetryLoad?
  {
    var s1 := H.MainStep(s, t, H.Choice(false, 0)).value;
    if s1.th[t].main.RetryPop? then H.RetryPopStep(s1, t, s1.th[t].main.site).value else s1
  }

  /** Whether there is an index to pop, and the flag afterwards. */
  predicate Pops(s: H.Sys) { s.pending && s.indices != [] }

  function Left(s: H.Sys): (r: seq<nat>) { if Pops(s) then SwapRemove(s.indices, |s.indices| - 1) else s.indices }

  lemma LeftIsPrefix(s: seq<nat>)
    requires s != []
    ensures SwapRemove(s, |s| - 1) == s[..|s| - 1]
  {
  }

  lemma NotifyPops(s: H.Sys, t: H.Tid)
    requires t in s.th && s.th[t].sub.IdleLoad?
    ensures var s' := PopAlone(s, t);
      && s'.pending == (s.pending && (Pops(s) ==> |s.indices| > 1)) && s'.indices == Left(s) && t in s'.th
      && s'.th[t].sub == if Pops(s) then H.Spawn(s.indices[|s.indices| - 1]) else H.Release
  {
    if s.indices != [] { LeftIsPrefix(s.indices); }
  }

  lemma RetryPops(s: H.Sys, t: H.Tid)
    requires t in s.th && s.th[t].main.RetryLoad?
    ensures var s', site := RetryAlone(s, t), s.th[t].main.site;
      && s'.pending == (s.pending && (Pops(s) ==> |s.indices| > 1)) && s'.indices == Left(s) && t in s'.th
      && s'.th[t].main == if Pops(s) then H.RetryAdd(site, s.indices[|s.indices| - 1]) else H.Missed(site)
  {
    if s.indices != [] { LeftIsPrefix(s.indices); }
  }

  /** What `ThreadPool::spawn` does once it has left its critical section. */
  datatype Claim = Unpark(p: H.Tid) | Full | Start

  class PoolState {
    const max: nat
    var spawned: nat
    var idle: seq<H.Tid>

    predicate Shows(s: H.Sys)
      reads this
    {
      s.spawned == spawned && s.pool == idle && s.max == max
    }

    constructor (limit: nat)
      ensures forall n: nat :: Shows(H.Init(n, limit))
    {
      max, spawned, idle := limit, 0, [];
    }

    /** The critical section of `spawn`; its assertion is `HandoffTheorems.SpawnLimit`. */
    method Spawn(i: nat, ghost s: H.Sys, ghost t: H.Tid) returns (c: Claim)
      requires Shows(s) && t in s.th && s.th[t].sub == H.Spawn(i) && spawned <= max
      modifies this
      ensures var r := H.NotifyStep(s, t);
        && r.Some? && Shows(r.value) && t in r.value.th
        && r.value.th[t].sub == match c
           case Unpark(p) => H.SpawnUnpark(i, p) case Full => H.PushBack(i) case Start => H.SpawnThread(i)
    {
      if |idle| > 0 {
        c, idle := Unpark(idle[0]), SwapRemove(idle, 0);
      } else if spawned == max {
        c := Full;
      } else {
        c, spawned := Start, spawned + 1;
      }
    }

    /** `finish`, for a thread that could not be started. */
    method Finish(i: nat, ghost s: H.Sys, ghost t: H.Tid, ghost tid: H.Tid)
      requires Shows(s) && t in s.th && s.th[t].sub == H.SpawnThread(i) && 0 < spawned <= max
      modifies this
      ensures var r := H.SpawnThreadStep(s, t, i, H.Choice(false, tid)); r.Some? && Shows(r.value)
    {
      spawned := spawned - 1;
    }

    /** The scan at the end of `wait`. */
    method Unlist(p: H.Tid)
      modifies this
      ensures spawned == old(spawned) && idle == H.RemoveFirst(old(idle), p)
    {
      for k := 0 to |idle|
        invariant idle == old(idle) && spawned == old(spawned) && p !in idle[..k]
      {
        if idle[k] == p {
          FirstIsUnique(idle, p, k);
          idle := SwapRemove(idle, k);
          return;
        }
        assert idle[..k + 1] == idle[..k] + [idle[k]];
      }
      assert idle[..|idle|] == idle;
    }
  }

  lemma FirstIsUnique(s: seq<H.Tid>, p: H.Tid, k: nat)
    requires k < |s| && s[k] == p && p !in s[..k]
    ensures H.IndexOf(s, p) == k
  {
    var j := H.IndexOf(s, p);
    assert forall m | 0 <= m < k :: s[m] == s[..k][m];
    assert forall m | 0 <= m < j :: s[m] == s[..j][m];
  }

  /** The atomic word of a parker, in its encoding. */
  class Parker {
    const usizeMax: nat
    var state: nat

    ghost predicate Valid()
      reads this
    {
      IsUsizeMax(usizeMax) && state <= usizeMax && Encode(usizeMax, Decode(state)) == Some(state)
    }

    function Word(): (r: ParkState)
      reads this
    {
      Decode(state)
    }

    constructor (max: nat)
      requires IsUsizeMax(max)
      ensures Valid() && Word() == Empty
    {
      usizeMax, state := max, 0;
    }

    /** The load and the store of `poll_unparked`. */
    method PollUnparked() returns (r: Option<Option<nat>>)
      requires Valid()
      modifies this
      ensures Valid()
      ensures if old(Word()).Notified? then r == Some(old(Word()).index) && Word() == Empty
        else r == None && Word() == old(Word())
    {
      var word := Decode(state);
      if !word.Notified? { return None; }
      state := 0;
      r := Some(word.index);
    }

    /** The update of `unpark`: whether it stored, and what was there. The index has to fit. */
    method Deliver(w: Option<nat>) returns (accepted: bool, was: ParkState)
      requires Valid() && Encode(usizeMax, Notified(w)).Some?
      modifies this
      ensures Valid() && was == old(Word()) && accepted == H.Accepts(was, w)
      ensures Word() == if accepted then Notified(w) else was
    {
      was := Decode(state);
      accepted := !was.Notified? && !(was == Empty && w.Some?);
      if accepted {
        DecodeEncode(usizeMax, Notified(w));
        state := Encode(usizeMax, Notified(w)).value;
      }
    }
  }

  const TASK_IDLE: nat := 0
  const TASK_SCHEDULED: nat := 1
  const TASK_RUNNING: nat := 2
  const TASK_NOTIFIED: nat := 3

  function Code(s: P.TaskState): (r: nat) {
    match s case IDLE => TASK_IDLE case SCHEDULED => TASK_SCHEDULED case RUNNING => TASK_RUNNING
      case NOTIFIED => TASK_NOTIFIED
  }

  /** The atomic state of a task; the preconditions are what the original panics without. */
  class TaskState {
    var state: nat

    predicate Shows(s: P.Task)
      reads this
    {
      Code(s.state) == state
    }

    constructor ()
      ensures state == TASK_IDLE
    {
      state := TASK_IDLE;
    }

    method TransitionToScheduled(ghost s: P.Task, ghost t: P.Tid) returns (mine: bool)
      requires Shows(s) && t !in s.pcs
      modifies this
      ensures Shows(P.WakeStep(s, t)) && (mine <==> t in P.WakeStep(s, t).pcs)
    {
      mine := state == TASK_IDLE;
      if state == TASK_IDLE {
        state := TASK_SCHEDULED;
      } else if state == TASK_RUNNING {
        state := TASK_NOTIFIED;
      }
    }

    /** The load and the store, with nobody else's step between them that would matter:
        `TaskTheorems.PlainStores`. */
    method TransitionToRunning(ghost s: P.Task, ghost t: P.Tid, ghost q: P.Qid) returns (ok: bool)
      requires Shows(s) && t in s.pcs && s.pcs[t].StoreRunning? && (state == TASK_SCHEDULED || state == TASK_IDLE)
      modifies this
      ensures ok <==> old(state) == TASK_SCHEDULED
      ensures if ok then Shows(P.QueueStep(s, t, q).value) else state == old(state)
    {
      ok := state == TASK_SCHEDULED;
      if ok { state := TASK_RUNNING; }
    }

    method TransitionToIdle(ghost s: P.Task, ghost t: P.Tid) returns (idle: bool)
      requires Shows(s) && t in s.pcs && s.pcs[t].ToIdle? && P.EndStep(s, t).Some?
      modifies this
      ensures Shows(P.EndStep(s, t).value) && (idle <==> t !in P.EndStep(s, t).value.pcs)
    {
      idle := state == TASK_RUNNING;
      if idle { state := TASK_IDLE; }
    }

    method TransitionToScheduledFromNotified(ghost s: P.Task, ghost t: P.Tid)
      requires Shows(s) && t in s.pcs && s.pcs[t].StoreScheduled? && state == TASK_NOTIFIED
      modifies this
      ensures Shows(P.EndStep(s, t).value)
    {
      state := TASK_SCHEDULED;
    }
  }
}
