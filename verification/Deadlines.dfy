/** What a deadline is worth in nanoseconds: the milliseconds of a timer queue are rounded down, so a
    delay can come due before the time it was asked for, by less than two milliseconds. */
module Deadlines {
  import opened Timers

  /** The nanoseconds since the queue was made. */
  function Elapsed(started: nat, now: nat): (e: nat) { if now < started then 0 else now - started }

  /** Deadline::MAX in nanoseconds, from which on the queue's clock stands still. */
  const END: nat := MAX * NANOS

  /** The millisecond in which this time lies, or the last one if the clock has ended. */
  predicate IsMillis(ms: nat, e: nat) {
    if e >= END then ms == MAX else ms * NANOS <= e < (ms + 1) * NANOS
  }

  lemma Rounded(a: nat)
    ensures a / NANOS * NANOS <= a < (a / NANOS + 1) * NANOS
  {
  }

  /** A duration, one millisecond at least, is handed out as a delay, unless the clock has ended. In
      between lies at most what rounding down twice takes away. */
  lemma DurationDeadline(started: nat, s: State, d: nat, now: nat, s': State)
    requires d > 0 && Step(started, s, Schedule(After(d), now), s')
    ensures s'.fired == s.fired && IsMillis(s'.current, Elapsed(started, now))
    ensures Elapsed(started, now) >= END ==> s'.next == s.next && s'.pending == s.pending
    ensures Elapsed(started, now) < END ==>
      var asked := Elapsed(started, now) + Max(d, NANOS);
      && s'.next == s.next + 1 && s.next in s'.pending
      && var due := s'.pending[s.next];
        && s'.pending == s.pending[s.next := due] && due <= MAX
        && due * NANOS <= asked && (asked < END ==> due < MAX) && (due < MAX ==> asked < (due + 2) * NANOS)
  {
    var e := Elapsed(started, now);
    Rounded(e);
    Rounded(d);
  }

  /** An instant is a delay exactly if its millisecond, up to the last one, is after the current one;
      rounding takes less than a millisecond away. */
  lemma InstantDeadline(started: nat, s: State, i: nat, now: nat, s': State)
    requires Step(started, s, Schedule(Until(i), now), s')
    ensures s'.fired == s.fired && IsMillis(s'.current, Elapsed(started, now))
    ensures var asked, e := Elapsed(started, i), Elapsed(started, now);
      if e >= END || asked / NANOS <= e / NANOS then s'.next == s.next && s'.pending == s.pending
      else
        && s'.next == s.next + 1 && s.next in s'.pending
        && var due := s'.pending[s.next];
          && s'.pending == s.pending[s.next := due] && due <= MAX
          && due * NANOS <= asked && (asked < END ==> due < MAX) && (due < MAX ==> asked < (due + 1) * NANOS)
  {
    Rounded(Elapsed(started, i));
    Rounded(Elapsed(started, now));
  }

  /** No time is asked for, and none is read. */
  lemma NoDuration(started: nat, s: State, now: nat, s': State)
    requires Step(started, s, Schedule(After(0), now), s')
    ensures s' == s
  {
  }

  /** The delay is not short of the time that was asked for exactly if rounding takes nothing away. */
  lemma NotShortExactly(started: nat, s: State, d: nat, now: nat, s': State)
    requires d > 0 && Step(started, s, Schedule(After(d), now), s') && Elapsed(started, now) + Max(d, NANOS) < END
    ensures s.next in s'.pending
    ensures var e := Elapsed(started, now);
      e + d <= s'.pending[s.next] * NANOS <==>
        if d < NANOS then e % NANOS + d <= NANOS else e % NANOS == 0 && d % NANOS == 0
  {
    var e := Elapsed(started, now);
    Rounded(e);
    Rounded(d);
    Parts(e, d);
  }

  lemma Parts(e: nat, d: nat)
    ensures e == e / NANOS * NANOS + e % NANOS && d == d / NANOS * NANOS + d % NANOS
    ensures (e / NANOS + d / NANOS) * NANOS == e / NANOS * NANOS + d / NANOS * NANOS
    ensures (e / NANOS + 1) * NANOS == e / NANOS * NANOS + NANOS
  {
  }

  /** Almost two milliseconds are asked for, and the delay comes due a nanosecond later. */
  lemma ShortSleep(s: State, s': State)
    requires Step(0, s, Schedule(After(1_999_999), 999_999), s')
    ensures s'.pending == s.pending[s.next := 1]
  {
  }

  // ---- over runs -------------------------------------------------------------------------------

  /** As long as a delay waits it keeps its deadline, which is the one it expires with. */
  lemma {:induction false} DeadlineKept(started: nat, ops: seq<Op>, ss: seq<State>, i: nat, j: nat, id: nat)
    requires IsRun(started, ops, ss) && ss[0] == Initial && i <= j <= |ops| && id in ss[i].pending
    ensures id in ss[j].pending ==> ss[j].pending[id] == ss[i].pending[id]
    ensures forall f | f in ss[j].fired && f.id == id :: f.deadline == ss[i].pending[id]
    ensures id < ss[j].next
    decreases j
  {
    RunOk(started, ops, ss, j);
    if i < j {
      RunOk(started, ops, ss, j - 1);
      DeadlineKept(started, ops, ss, i, j - 1, id);
      assert Step(started, ss[j - 1], ops[j - 1], ss[j]);
    }
  }

  /** In every run, when a delay that was asked for by a duration expires, less than two milliseconds
      of it, counted from one millisecond, are missing, unless the clock has ended. */
  lemma ExpiresNearly(started: nat, ops: seq<Op>, ss: seq<State>, i: nat, j: nat, d: nat, now: nat, f: Firing)
    requires IsRun(started, ops, ss) && ss[0] == Initial && i < j <= |ops|
    requires d > 0 && ops[i] == Schedule(After(d), now) && Elapsed(started, now) < END
    requires f in ss[j].fired && f.id == ss[i].next
    ensures Elapsed(started, now) + Max(d, NANOS) < (f.at + 2) * NANOS || f.at >= MAX
  {
    assert Step(started, ss[i], ops[i], ss[i + 1]);
    DurationDeadline(started, ss[i], d, now, ss[i + 1]);
    hide Step;
    DeadlineKept(started, ops, ss, i + 1, j, ss[i].next);
    ExpiresOnceInTime(started, ops[..j], ss[..j + 1]) by { PartRun(started, ops, ss, j); }
    assert f.deadline <= f.at;
  }

  lemma PartRun(started: nat, ops: seq<Op>, ss: seq<State>, j: nat)
    requires IsRun(started, ops, ss) && j <= |ops|
    ensures IsRun(started, ops[..j], ss[..j + 1])
  {
  }
}
