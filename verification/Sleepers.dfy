/** Any number of sleeps on any number of timer queues: whatever is polled, dropped and expired, and
    in which order, every delay is handed back to its own queue exactly once. */
module Sleepers {
  import opened Prelude
  import T = Timers
  import opened TimerQueue
  import opened Sleep

  /** A delay's name: its queue, and its number there. */
  type Name = (Queue, nat)

  type Lives = map<Queue, map<RawEntry, Ticket>>

  // ---- the books, on values --------------------------------------------------------------------

  predicate HoldsEntry(state: State, q: Queue, e: RawEntry) {
    state.Polling? && state.queue == q && state.delay.entry == e
  }

  predicate SameDelay(a: State, b: State) {
    a.Polling? && b.Polling? && a.queue == b.queue && a.delay.entry == b.delay.entry
  }

  /** Every sleep that waits holds a delay of its queue, no two the same, and every delay that has
      been handed out is held. */
  ghost predicate Held(states: map<Sleep, State>, lives: Lives) {
    && (forall s | s in states && states[s].Polling? ::
          var Polling(q, d) := states[s];
          q in lives && d.entry in lives[q] && lives[q][d.entry].deadline == d.deadline)
    && (forall s, t | s in states && t in states && SameDelay(states[s], states[t]) :: s == t)
    && (forall q, e | q in lives && e in lives[q] :: exists s :: s in states && HoldsEntry(states[s], q, e))
  }

  /** Delays are numbered in order; those of live entries are different. */
  ghost predicate Numbered(live: map<RawEntry, Ticket>, next: nat) {
    && (forall e | e in live :: live[e].id < next)
    && (forall e, f | e in live && f in live && live[e].id == live[f].id :: e == f)
  }

  ghost predicate Live(live: map<RawEntry, Ticket>, id: nat) { exists e :: e in live && live[e].id == id }

  /** The delays of q that have been completed are those that were scheduled and are not live. */
  ghost predicate QueueSettled(q: Queue, live: map<RawEntry, Ticket>, next: nat, done: seq<Name>) {
    && Numbered(live, next)
    && (forall n | n in done && n.0 == q :: n.1 < next && !Live(live, n.1))
    && (forall id | 0 <= id < next :: (q, id) in done || Live(live, id))
  }

  ghost predicate Distinct(done: seq<Name>) { forall j, k | 0 <= j < k < |done| :: done[j] != done[k] }

  /** A delay has been completed exactly if it was scheduled and is not live, and never twice. */
  ghost predicate Settled(lives: Lives, nexts: map<Queue, nat>, done: seq<Name>) {
    && lives.Keys == nexts.Keys && Distinct(done)
    && (forall n | n in done :: n.0 in lives)
    && (forall q | q in lives :: QueueSettled(q, lives[q], nexts[q], done))
  }

  lemma AllHeldStart(states: map<Sleep, State>, lives: Lives, s: Sleep, q: Queue, d: Delay, next: nat)
    requires Held(states, lives) && s in states && !states[s].Polling? && q in lives && d.entry !in lives[q]
    ensures var states', lives' := states[s := Polling(q, d)],
      lives[q := lives[q][d.entry := Ticket(next, d.deadline)]];
      forall r, e | r in lives' && e in lives'[r] :: exists t :: t in states' && HoldsEntry(states'[t], r, e)
  {
    var states', lives' := states[s := Polling(q, d)], lives[q := lives[q][d.entry := Ticket(next, d.deadline)]];
    assert HoldsEntry(states'[s], q, d.entry);
    hide SameDelay;
    forall r, e | r in lives' && e in lives'[r] ensures exists t :: t in states' && HoldsEntry(states'[t], r, e) {
      if r != q || e != d.entry {
        var t: Sleep :| t in states && HoldsEntry(states[t], r, e);
        assert HoldsEntry(states'[t], r, e);
      }
    }
  }

  lemma HeldStart(states: map<Sleep, State>, lives: Lives, s: Sleep, q: Queue, d: Delay, next: nat)
    requires Held(states, lives) && s in states && !states[s].Polling? && q in lives && d.entry !in lives[q]
    ensures Held(states[s := Polling(q, d)], lives[q := lives[q][d.entry := Ticket(next, d.deadline)]])
  {
    AllHeldStart(states, lives, s, q, d, next);
    hide HoldsEntry;
  }

  lemma HeldIdle(states: map<Sleep, State>, lives: Lives, s: Sleep, state: State)
    requires Held(states, lives) && (s in states ==> !states[s].Polling?) && !state.Polling?
    ensures Held(states[s := state], lives)
  {
    var states' := states[s := state];
    forall r, e | r in lives && e in lives[r] ensures exists t :: t in states' && HoldsEntry(states'[t], r, e) {
      var t: Sleep :| t in states && HoldsEntry(states[t], r, e);
      assert HoldsEntry(states'[t], r, e);
    }
  }

  lemma HeldBack(states: map<Sleep, State>, lives: Lives, s: Sleep)
    requires Held(states, lives) && s in states && states[s].Polling?
    ensures var Polling(q, d) := states[s];
      q in lives && d.entry in lives[q] && Held(states[s := Polled], lives[q := lives[q] - {d.entry}])
  {
    var Polling(q, d) := states[s];
    var states' := states[s := Polled];
    var lives': Lives := lives[q := lives[q] - {d.entry}];
    assert HoldsEntry(states[s], q, d.entry);
    forall t: Sleep | t in states' && states'[t].Polling?
      ensures var Polling(r, c) := states'[t];
        r in lives' && c.entry in lives'[r] && lives'[r][c.entry].deadline == c.deadline
    {
      assert HoldsEntry(states[t], states[t].queue, states[t].delay.entry);
    }
    forall r, e | r in lives' && e in lives'[r] ensures exists t :: t in states' && HoldsEntry(states'[t], r, e) {
      var t: Sleep :| t in states && HoldsEntry(states[t], r, e);
      assert HoldsEntry(states'[t], r, e);
    }
  }

  /** One more completed delay, of the queue q. */
  lemma OneMore(lives: Lives, nexts: map<Queue, nat>, done: seq<Name>, q: Queue, id: nat,
                live': map<RawEntry, Ticket>, next': nat)
    requires Settled(lives, nexts, done) && q in lives && (q, id) !in done
    requires QueueSettled(q, live', next', done + [(q, id)])
    ensures Settled(lives[q := live'], nexts[q := next'], done + [(q, id)])
  {
    var done' := done + [(q, id)];
    hide Numbered, Live;
    forall r | r in lives && r != q ensures QueueSettled(r, lives[r], nexts[r], done') {
      assert forall n | n in done' && n.0 == r :: n in done;
      assert forall n | n in done :: n in done';
    }
    hide QueueSettled;
    assert Distinct(done');
  }

  lemma LiveMore(live: map<RawEntry, Ticket>, e: RawEntry, t: Ticket, id: nat)
    requires e !in live
    ensures Live(live[e := t], id) <==> Live(live, id) || id == t.id
  {
    var live' := live[e := t];
    assert live'[e].id == t.id;
    if Live(live, id) {
      var f: RawEntry :| f in live && live[f].id == id;
      assert live'[f].id == id;
    }
  }

  lemma LiveLess(live: map<RawEntry, Ticket>, e: RawEntry, next: nat, id: nat)
    requires e in live && Numbered(live, next)
    ensures Live(live - {e}, id) <==> Live(live, id) && id != live[e].id
  {
    var live' := live - {e};
    if Live(live, id) && id != live[e].id {
      var f: RawEntry :| f in live && live[f].id == id;
      assert f in live';
    }
  }

  lemma QueueStart(q: Queue, live: map<RawEntry, Ticket>, next: nat, done: seq<Name>, e: RawEntry, deadline: nat)
    requires QueueSettled(q, live, next, done) && e !in live
    ensures QueueSettled(q, live[e := Ticket(next, deadline)], next + 1, done)
  {
    var live' := live[e := Ticket(next, deadline)];
    forall id: nat ensures Live(live', id) <==> Live(live, id) || id == next {
      LiveMore(live, e, Ticket(next, deadline), id);
    }
    hide Live;
  }

  lemma SettledStart(lives: Lives, nexts: map<Queue, nat>, done: seq<Name>, q: Queue, e: RawEntry, deadline: nat)
    requires Settled(lives, nexts, done) && q in lives && e !in lives[q]
    ensures q in nexts
    ensures Settled(lives[q := lives[q][e := Ticket(nexts[q], deadline)]], nexts[q := nexts[q] + 1], done)
  {
    hide QueueSettled, Distinct;
    SettledAt(lives, nexts, done, q);
    QueueStart(q, lives[q], nexts[q], done, e, deadline);
  }

  lemma SettledAt(lives: Lives, nexts: map<Queue, nat>, done: seq<Name>, q: Queue)
    requires Settled(lives, nexts, done) && q in lives
    ensures q in nexts && QueueSettled(q, lives[q], nexts[q], done)
  {
    hide QueueSettled, Distinct;
  }

  lemma SettledAtOnce(lives: Lives, nexts: map<Queue, nat>, done: seq<Name>, q: Queue)
    requires Settled(lives, nexts, done) && q in lives
    ensures q in nexts && Settled(lives, nexts[q := nexts[q] + 1], done + [(q, nexts[q])])
  {
    hide Settled, QueueSettled, Live;
    SettledAt(lives, nexts, done, q);
    QueueAtOnce(q, lives[q], nexts[q], done);
    assert lives[q := lives[q]] == lives;
    OneMore(lives, nexts, done, q, nexts[q], lives[q], nexts[q] + 1);
  }

  lemma QueueAtOnce(q: Queue, live: map<RawEntry, Ticket>, n: nat, done: seq<Name>)
    requires QueueSettled(q, live, n, done)
    ensures QueueSettled(q, live, n + 1, done + [(q, n)]) && (q, n) !in done
  {
    var done' := done + [(q, n)];
    assert !Live(live, n);
    assert done'[|done|] == (q, n) && forall m | m in done :: m in done';
    hide Live;
  }

  lemma QueueBack(q: Queue, live: map<RawEntry, Ticket>, e: RawEntry, next: nat, done: seq<Name>)
    requires QueueSettled(q, live, next, done) && e in live
    ensures QueueSettled(q, live - {e}, next, done + [(q, live[e].id)]) && (q, live[e].id) !in done
  {
    var n := live[e].id;
    assert Live(live, n);
    var done' := done + [(q, n)];
    forall id: nat ensures Live(live - {e}, id) <==> Live(live, id) && id != n { LiveLess(live, e, next, id); }
    assert done'[|done|] == (q, n) && forall m | m in done :: m in done';
    hide Live;
  }

  lemma SettledBack(lives: Lives, nexts: map<Queue, nat>, done: seq<Name>, q: Queue, e: RawEntry)
    requires Settled(lives, nexts, done) && q in lives && e in lives[q]
    ensures Settled(lives[q := lives[q] - {e}], nexts, done + [(q, lives[q][e].id)])
  {
    hide Settled, QueueSettled, Live;
    SettledAt(lives, nexts, done, q);
    QueueBack(q, lives[q], e, nexts[q], done);
    assert nexts[q := nexts[q]] == nexts;
    OneMore(lives, nexts, done, q, lives[q][e].id, lives[q] - {e}, nexts[q]);
  }

  lemma HeldNew(states: map<Sleep, State>, lives: Lives, q: Queue)
    requires Held(states, lives) && q !in lives
    ensures Held(states, lives[q := map[]])
  {
    hide HoldsEntry, SameDelay;
  }

  lemma SettledNew(lives: Lives, nexts: map<Queue, nat>, done: seq<Name>, q: Queue)
    requires Settled(lives, nexts, done) && q !in lives
    ensures Settled(lives[q := map[]], nexts[q := 0], done)
  {
    assert QueueSettled(q, map[], 0, done);
    hide QueueSettled, Distinct;
  }

  // ---- every run -------------------------------------------------------------------------------

  /** What is known of all sleeps and queues: the state of each sleep, the live entries of each queue
      and how many delays it has given out, and the delays that were completed, in order. */
  datatype Books = Books(states: map<Sleep, State>, lives: Lives, nexts: map<Queue, nat>, done: seq<Name>)

  datatype Event =
    | NewQueue(q: Queue) | NewSleep(s: Sleep, when: T.When)
    | Poll(s: Sleep, local: Queue, ready: bool, notified: bool)
    | Drop(s: Sleep)

  const Empty: Books := Books(map[], map[], map[], [])

  function Updated(b: Books, s: Sleep, state: State, q: Queue, live: map<RawEntry, Ticket>, next: nat,
    done: seq<Name>): (r: Books) {
    Books(b.states[s := state], b.lives[q := live], b.nexts[q := next], done)
  }

  /** The sleep s and the queue q may have changed, and these delays have been completed. */
  ghost predicate Changed(b: Books, b': Books, s: Sleep, q: Queue, completed: seq<Name>) {
    && s in b'.states && q in b'.lives && q in b'.nexts
    && b' == Updated(b, s, b'.states[s], q, b'.lives[q], b'.nexts[q], b.done + completed)
  }

  /** One call, as the contracts of `Sleep.Poll` and `Sleep.Drop` state its effect. An expiry changes
      nothing that is recorded here. */
  ghost predicate Step(b: Books, e: Event, b': Books) {
    match e
    case NewQueue(q) => q !in b.lives && q !in b.nexts &&
      b' == b.(lives := b.lives[q := map[]], nexts := b.nexts[q := 0])
    case NewSleep(s, when) => s !in b.states && b' == b.(states := b.states[s := Start(when)])
    case Poll(s, local, ready, notified) =>
      s in b.states && local in b.lives && local in b.nexts && PollStep(b, s, local, ready, notified, b')
    case Drop(s) => s in b.states && DropStep(b, s, b')
  }

  ghost predicate PollStep(b: Books, s: Sleep, local: Queue, ready: bool, notified: bool, b': Books)
    requires s in b.states && local in b.lives && local in b.nexts
  {
    match b.states[s]
    case Start(_) =>
      var n := b.nexts[local];
      local in b'.nexts && s in b'.states && local in b'.lives
      && Started(local, b.lives[local], n, b'.lives[local], b'.nexts[local], b'.states[s], ready, notified)
      && Changed(b, b', s, local, if b'.nexts[local] != n && notified then [(local, n)] else [])
    case Polling(q, d) =>
      q in b.lives && q in b.nexts && d.entry in b.lives[q] && q in b'.nexts && s in b'.states && q in b'.lives
      && Continued(d, b.lives[q], b.nexts[q], b'.lives[q], b'.nexts[q], b.states[s], b'.states[s], ready, notified)
      && Changed(b, b', s, q, if notified then [(q, b.lives[q][d.entry].id)] else [])
    case Polled => ready && b' == b
  }

  ghost predicate DropStep(b: Books, s: Sleep, b': Books)
    requires s in b.states
  {
    match b.states[s]
    case Polling(q, d) =>
      q in b.lives && q in b.nexts && d.entry in b.lives[q] && q in b'.nexts && s in b'.states && q in b'.lives
      && b'.states[s] == Polled && b'.nexts[q] == b.nexts[q] && GivenBack(b.lives[q], b'.lives[q], d)
      && Changed(b, b', s, q, [(q, b.lives[q][d.entry].id)])
    case _ => b' == b.(states := b.states[s := Polled])
  }

  /** A run: the books before, between and after the calls. */
  ghost predicate IsRun(es: seq<Event>, bs: seq<Books>) {
    |bs| == |es| + 1 && bs[0] == Empty && forall k | 0 <= k < |es| :: Step(bs[k], es[k], bs[k + 1])
  }

  ghost predicate Inv(b: Books) { Held(b.states, b.lives) && Settled(b.lives, b.nexts, b.done) }

  lemma PollKeeps(b: Books, s: Sleep, local: Queue, ready: bool, notified: bool, b': Books)
    requires Inv(b) && s in b.states && local in b.lives && local in b.nexts &&
      PollStep(b, s, local, ready, notified, b')
    ensures Inv(b')
  {
    hide Inv, Started;
    if b.states[s].Start? {
      FirstKeeps(b, s, local, ready, notified, b');
    } else if b.states[s].Polling? {
      if notified { BackKeeps(b, s, b'); } else { NothingChanged(b, s, b'); }
    }
  }

  lemma NothingChanged(b: Books, s: Sleep, b': Books)
    requires s in b.states && b.states[s].Polling?
    requires var q := b.states[s].queue;
      && q in b.lives && q in b.nexts && Changed(b, b', s, q, [])
      && b'.states[s] == b.states[s] && b'.lives[q] == b.lives[q] && b'.nexts[q] == b.nexts[q]
    ensures b' == b
  {
    var q := b.states[s].queue;
    assert b.done + [] == b.done;
    assert b.states[s := b.states[s]] == b.states;
    assert b.lives[q := b.lives[q]] == b.lives && b.nexts[q := b.nexts[q]] == b.nexts;
  }

  lemma FirstKeeps(b: Books, s: Sleep, local: Queue, ready: bool, notified: bool, b': Books)
    requires Inv(b) && s in b.states && b.states[s].Start? && local in b.lives && local in b.nexts
    requires PollStep(b, s, local, ready, notified, b')
    ensures Inv(b')
  {
    hide Held, Settled;
    var n := b.nexts[local];
    assert b.lives[local := b.lives[local]] == b.lives && b.nexts[local := n] == b.nexts && b.done + [] == b.done;
    if b'.nexts[local] == n {
      HeldIdle(b.states, b.lives, s, Polled);
    } else if notified {
      HeldIdle(b.states, b.lives, s, Polled);
      SettledAtOnce(b.lives, b.nexts, b.done, local);
    } else {
      var d := b'.states[s].delay;
      HeldStart(b.states, b.lives, s, local, d, n);
      SettledStart(b.lives, b.nexts, b.done, local, d.entry, d.deadline);
    }
  }

  /** The delay of a sleep that waits is given back. */
  lemma BackKeeps(b: Books, s: Sleep, b': Books)
    requires Inv(b) && s in b.states && b.states[s].Polling?
    requires var Polling(q, d) := b.states[s];
      && q in b.lives && q in b.nexts && d.entry in b.lives[q] && Changed(b, b', s, q, [(q, b.lives[q][d.entry].id)])
      && b'.states[s] == Polled && b'.nexts[q] == b.nexts[q] && GivenBack(b.lives[q], b'.lives[q], d)
    ensures Inv(b')
  {
    hide Held, Settled;
    var Polling(q, d) := b.states[s];
    assert b.nexts[q := b.nexts[q]] == b.nexts;
    HeldBack(b.states, b.lives, s);
    SettledBack(b.lives, b.nexts, b.done, q, d.entry);
  }

  lemma StepKeeps(b: Books, e: Event, b': Books)
    requires Inv(b) && Step(b, e, b')
    ensures Inv(b') && b.done <= b'.done
  {
    hide Held, Settled;
    match e
    case NewQueue(q) => HeldNew(b.states, b.lives, q); SettledNew(b.lives, b.nexts, b.done, q);
    case NewSleep(s, when) => HeldIdle(b.states, b.lives, s, Start(when));
    case Poll(s, local, ready, notified) => PollKeeps(b, s, local, ready, notified, b');
    case Drop(s) => if b.states[s].Polling? { BackKeeps(b, s, b'); } else { HeldIdle(b.states, b.lives, s, Polled); }
  }

  lemma {:induction false} RunKeeps(es: seq<Event>, bs: seq<Books>, k: nat)
    requires IsRun(es, bs) && k <= |es|
    ensures Inv(bs[k])
  {
    if k > 0 {
      RunKeeps(es, bs, k - 1);
      assert Step(bs[k - 1], es[k - 1], bs[k]);
      StepKeeps(bs[k - 1], es[k - 1], bs[k]);
    }
  }

  /** Some sleep waits for this delay. */
  ghost predicate Waits(b: Books, q: Queue, id: nat) {
    exists s :: s in b.states && b.states[s].Polling? && b.states[s].queue == q
      && q in b.lives && b.states[s].delay.entry in b.lives[q] && b.lives[q][b.states[s].delay.entry].id == id
  }

  /** In any run of any number of sleeps, what a sleep holds its queue counts as handed out, and no
      two sleeps hold the same. */
  lemma AllHold(es: seq<Event>, bs: seq<Books>, s: Sleep)
    requires IsRun(es, bs) && s in bs[|es|].states && bs[|es|].states[s].Polling?
    ensures var b := bs[|es|]; var Polling(q, d) := b.states[s];
      && q in b.lives && d.entry in b.lives[q] && b.lives[q][d.entry].deadline == d.deadline
      && forall t | t in b.states && SameDelay(b.states[s], b.states[t]) :: t == s
  {
    RunKeeps(es, bs, |es|);
  }

  /** Every delay that was ever scheduled either has a sleep that waits for it or has been completed,
      not both, and none has been completed twice. */
  lemma CompletedOnce(es: seq<Event>, bs: seq<Books>, q: Queue, id: nat)
    requires IsRun(es, bs) && q in bs[|es|].nexts && id < bs[|es|].nexts[q]
    ensures var b := bs[|es|];
      && ((q, id) in b.done <==> !Waits(b, q, id))
      && forall j, k | 0 <= j < k < |b.done| :: b.done[j] != b.done[k]
  {
    var b := bs[|es|];
    RunKeeps(es, bs, |es|);
    if Live(b.lives[q], id) {
      var e :| e in b.lives[q] && b.lives[q][e].id == id;
      var s :| s in b.states && HoldsEntry(b.states[s], q, e);
      assert Waits(b, q, id);
    }
    if Waits(b, q, id) {
      var s :| s in b.states && b.states[s].Polling? && b.states[s].queue == q
        && b.states[s].delay.entry in b.lives[q] && b.lives[q][b.states[s].delay.entry].id == id;
      assert Live(b.lives[q], id);
    }
  }

  /** Once no sleep waits, every delay has been completed exactly once. */
  lemma AllCompleted(es: seq<Event>, bs: seq<Books>, q: Queue, id: nat)
    requires IsRun(es, bs) && q in bs[|es|].nexts && id < bs[|es|].nexts[q]
    requires forall s | s in bs[|es|].states :: !bs[|es|].states[s].Polling?
    ensures (q, id) in bs[|es|].done
  {
    CompletedOnce(es, bs, q, id);
  }
}
