/** What a timer queue is for: the delays that are waiting, by deadline. `TimerQueue` is the
    data structure that implements this; the promises over whole runs are made here. */
module Timers {
  import opened Prelude

  const MAX: nat := 0xFFFF_FFFF_FFFF_FFFF   // Deadline::MAX
  const NANOS: nat := 1_000_000             // nanoseconds in a millisecond

  /** The argument of `schedule`: a duration or an instant, in nanoseconds. */
  datatype When = After(nanos: nat) | Until(instant: nat)

  function Max(a: nat, b: nat): (r: nat) { if a < b then b else a }

  function Min(a: nat, b: nat): (r: nat) { if b < a then b else a }

  /** `Queue::since`: milliseconds since the queue was made, saturating at both ends. */
  function Since(started: nat, instant: nat): (ms: nat)
    ensures ms <= MAX
  {
    if instant < started then 0 else Min((instant - started) / NANOS, MAX)
  }

  /** The deadline of a delay scheduled at current: a short duration lasts a millisecond at
      least, and what does not fit in a Deadline is Deadline::MAX. */
  function DeadlineOf(started: nat, when: When, current: nat): (deadline: nat)
    ensures deadline <= MAX
  {
    match when
    case Until(instant) => Since(started, instant)
    case After(nanos) =>
      var millis := nanos / NANOS;
      if millis > MAX then MAX else Min(Max(millis, 1) + current, MAX)
  }

  /** A delay that came due: its deadline and the effective time of the poll that expired it. */
  datatype Firing = Firing(id: nat, deadline: nat, at: nat)

  /** Delays are named by the order in which they were scheduled. */
  datatype State = State(current: nat, next: nat, pending: map<nat, nat>, fired: seq<Firing>)

  const Initial: State := State(0, 0, map[], [])

  datatype Op = Schedule(when: When, now: nat) | Poll(current: nat) | Complete(id: nat)

  predicate Due(s: State, id: nat, current: nat) { id in s.pending && s.pending[id] <= current }

  /** The due delays in any order that does not decrease the deadline. */
  ghost predicate Expires(s: State, current: nat, due: seq<Firing>) {
    && (forall f | f in due :: Due(s, f.id, current) && f == Firing(f.id, s.pending[f.id], current))
    && (forall id | Due(s, id, current) :: exists k :: 0 <= k < |due| && due[k].id == id)
    && (forall i, j | 0 <= i < j < |due| :: due[i].id != due[j].id && due[i].deadline <= due[j].deadline)
  }

  function AfterSchedule(started: nat, s: State, when: When, now: nat): (r: State) {
    if when == After(0) then s
    else
      var current := Since(started, now);
      var deadline := DeadlineOf(started, when, current);
      if deadline <= current then s.(current := current)
      else s.(current := current, next := s.next + 1, pending := s.pending[s.next := deadline])
  }

  ghost predicate Step(started: nat, s: State, op: Op, s': State) {
    match op
    case Schedule(when, now) => s' == AfterSchedule(started, s, when, now)
    case Poll(current) =>
      var effective := Max(s.current, current);
      exists due ::
        Expires(s, effective, due) &&
        s' == s.(current := effective,
                 pending := map id | id in s.pending && s.pending[id] > effective :: s.pending[id],
                 fired := s.fired + due)
    case Complete(id) => s' == s.(pending := s.pending - {id})
  }

  /** A run: the states before, between and after the operations. */
  ghost predicate IsRun(started: nat, ops: seq<Op>, ss: seq<State>) {
    && |ss| == |ops| + 1
    && forall k | 0 <= k < |ops| :: Step(started, ss[k], ops[k], ss[k + 1])
  }

  ghost predicate Ok(s: State) {
    && (forall id | id in s.pending :: id < s.next)
    && (forall f | f in s.fired :: f.id < s.next && f.deadline <= f.at && f.id !in s.pending)
    && (forall i, j | 0 <= i < j < |s.fired| :: s.fired[i].id != s.fired[j].id)
  }

  lemma StepOk(started: nat, s: State, op: Op, s': State)
    requires Ok(s) && Step(started, s, op, s')
    ensures Ok(s') && s.fired <= s'.fired && s.next <= s'.next
  {
  }

  lemma RunOk(started: nat, ops: seq<Op>, ss: seq<State>, k: nat)
    requires IsRun(started, ops, ss) && ss[0] == Initial && k <= |ops|
    ensures Ok(ss[k])
  {
    if k > 0 {
      RunOk(started, ops, ss, k - 1);
      StepOk(started, ss[k - 1], ops[k - 1], ss[k]);
    }
  }

  // ---- timer safety ----------------------------------------------------------------------------

  /** Over any run each delay expires at most once, and never before its deadline. */
  lemma ExpiresOnceInTime(started: nat, ops: seq<Op>, ss: seq<State>)
    requires IsRun(started, ops, ss) && ss[0] == Initial
    ensures var fired := ss[|ops|].fired;
      && (forall i, j | 0 <= i < j < |fired| :: fired[i].id != fired[j].id)
      && (forall f | f in fired :: f.deadline <= f.at)
  {
    RunOk(started, ops, ss, |ops|);
  }

  predicate Reaches(s: State, op: Op, deadline: nat) { op.Poll? && Max(s.current, op.current) >= deadline }

  /** Whether the id has expired. */
  ghost predicate Fired(s: State, id: nat) { exists f :: f in s.fired && f.id == id }

  /** A waiting delay keeps waiting while no poll reaches its deadline, and the first poll that
      does expires it, at that poll's effective time, unless it is completed before. */
  lemma ExpiresAtFirstReach(started: nat, ops: seq<Op>, ss: seq<State>, i: nat, j: nat, id: nat)
    requires IsRun(started, ops, ss) && ss[0] == Initial && i <= j < |ops| && id in ss[i].pending
    requires forall k | i <= k <= j :: ops[k] != Complete(id)
    requires forall k | i <= k < j :: !Reaches(ss[k], ops[k], ss[i].pending[id])
    ensures id in ss[j].pending && ss[j].pending[id] == ss[i].pending[id] && !Fired(ss[j], id)
    ensures
      var deadline := ss[i].pending[id];
      if Reaches(ss[j], ops[j], deadline)
      then id !in ss[j + 1].pending
           && Firing(id, deadline, Max(ss[j].current, ops[j].current)) in ss[j + 1].fired[|ss[j].fired|..]
      else id in ss[j + 1].pending && ss[j + 1].pending[id] == deadline && !Fired(ss[j + 1], id)
    decreases j
  {
    RunOk(started, ops, ss, j);
    if i < j {
      ExpiresAtFirstReach(started, ops, ss, i, j - 1, id);
    }
    assert Step(started, ss[j], ops[j], ss[j + 1]);
    ReachStep(started, ss[j], ops[j], ss[j + 1], id);
  }

  lemma ReachStep(started: nat, s: State, op: Op, s': State, id: nat)
    requires Ok(s) && Step(started, s, op, s') && id in s.pending && op != Complete(id)
    ensures !Fired(s, id)
    ensures
      if Reaches(s, op, s.pending[id])
      then id !in s'.pending && Firing(id, s.pending[id], Max(s.current, op.current)) in s'.fired[|s.fired|..]
      else id in s'.pending && s'.pending[id] == s.pending[id] && !Fired(s', id)
  {
    StepOk(started, s, op, s');
    if op.Poll? {
      var effective := Max(s.current, op.current);
      var due: seq<Firing> :| Expires(s, effective, due) && s'.fired == s.fired + due;
      if Due(s, id, effective) {
        var k :| 0 <= k < |due| && due[k].id == id;
        assert due[k] in due;
        assert s'.fired[|s.fired|..] == due;
      }
    }
  }

  /** Completing a delay that waits keeps it from ever expiring. */
  lemma CompletedNeverExpires(started: nat, ops: seq<Op>, ss: seq<State>, at: nat, id: nat)
    requires IsRun(started, ops, ss) && ss[0] == Initial && at < |ops| && ops[at] == Complete(id) &&
      id in ss[at].pending
    ensures !Fired(ss[|ops|], id)
  {
    RunOk(started, ops, ss, at);
    assert Step(started, ss[at], ops[at], ss[at + 1]);
    GoneForGood(started, ops, ss, at + 1, id, |ops|);
  }

  lemma GoneForGood(started: nat, ops: seq<Op>, ss: seq<State>, i: nat, id: nat, j: nat)
    requires IsRun(started, ops, ss) && ss[0] == Initial && i <= j <= |ops|
    requires id < ss[i].next && id !in ss[i].pending && !Fired(ss[i], id)
    ensures id < ss[j].next && id !in ss[j].pending && !Fired(ss[j], id)
    decreases j
  {
    if i < j {
      GoneForGood(started, ops, ss, i, id, j - 1);
      RunOk(started, ops, ss, j - 1);
      assert Step(started, ss[j - 1], ops[j - 1], ss[j]);
    }
  }
}
