/** The sleep future, the timer queue's client: it hands every delay it was given back to the
    queue it came from, once, whether it is polled to the end or dropped. */
module Sleep {
  import opened Prelude
  import T = Timers
  import Deadlines
  import opened TimerQueue

  datatype State = Start(when: T.When) | Polling(queue: Queue, delay: Delay) | Polled

  class Sleep {
    var state: State

    constructor (when: T.When)
      ensures state == Start(when)
    {
      state := Start(when);
    }

    /** The delay in hand is one its own queue still counts as handed out. */
    ghost predicate Holds()
      reads this, (if state.Polling? then {state.queue} else {})
    {
      state.Polling? ==>
        state.delay.entry in state.queue.live
        && state.queue.live[state.delay.entry].deadline == state.delay.deadline
    }

    /** The first poll schedules the delay with the queue `TimerQueue::with` picks; `notified`
        is the answer of the entry's waker. A delay whose time has already come is reported by
        the poll after this one, and one that is notified at once goes straight back. */
    method PollStart(local: Queue, when: T.When, now: nat, notified: bool) returns (ready: bool)
      requires local.Valid()
      modifies this, local, Members(local.entryCache)
      ensures local.Valid() && Holds() && fresh(local.Entries() - old(local.Entries()))
      ensures Started(local, old(local.live), old(local.model.next), local.live, local.model.next, state,
        ready, notified)
      ensures FirstPoll(local, when, now, old(local.model), local.model, state, ready, notified)
    {
      hide TreeFits, LiveFits, NamesOk, T.Ok, T.Since, T.DeadlineOf;
      state := Polled;
      var scheduled := local.Schedule(when, now);
      if scheduled.None? { return false; }
      if notified {
        local.Complete(scheduled.value);
        return true;
      }
      state := Polling(local, scheduled.value);
      return false;
    }

    /** A later poll of a delay that waits. */
    method PollAgain(notified: bool) returns (ready: bool)
      requires state.Polling? && Holds() && state.queue.Valid()
      modifies this, state.queue, state.delay.entry
      ensures var Polling(queue, delay) := old(state);
        queue.Valid() && queue.Entries() <= old(queue.Entries())
        && Continued(delay, old(queue.live), old(queue.model.next), queue.live, queue.model.next, old(state),
          state, ready, notified)
        && (if notified then T.Step(queue.started, old(queue.model),
          T.Complete(old(queue.live)[delay.entry].id), queue.model)
            else queue.model == old(queue.model))
    {
      hide TreeFits, LiveFits, NamesOk, T.Ok, T.Step;
      var was := state;
      state := Polled;
      if notified {
        was.queue.Complete(was.delay);
        return true;
      }
      state := was;
      return false;
    }

    /** The whole of `Sleep::poll`: a first poll works on the local queue only, a later one on the
        queue of its delay only, and the delay is given back exactly when it is reported. */
    method Poll(local: Queue, now: nat, notified: bool) returns (ready: bool)
      requires Holds() && local.Valid()
      requires state.Polling? ==>
        state.queue.Valid() && (state.queue == local || state.queue.Entries() !! local.Entries())
      modifies this, local, Members(local.entryCache),
        (if state.Polling? then {state.queue as object, state.delay.entry as object} else {})
      ensures Holds() && !state.Start? && local.Valid() && fresh(local.Entries() - old(local.Entries()))
      ensures old(state).Start? ==>
        Started(local, old(local.live), old(local.model.next), local.live, local.model.next, state, ready, notified)
        && FirstPoll(local, old(state).when, now, old(local.model), local.model, state, ready, notified)
      ensures old(state).Polling? ==>
        var Polling(queue, delay) := old(state);
        && queue.Valid() && queue.Entries() <= old(queue.Entries())
        && Continued(delay, old(queue.live), old(queue.model.next), queue.live, queue.model.next, old(state),
          state, ready, notified)
        && (if notified then T.Step(queue.started, old(queue.model),
          T.Complete(old(queue.live)[delay.entry].id), queue.model)
            else queue.model == old(queue.model))
      ensures old(state).Polled? ==> ready && state == Polled
      ensures old(state).Polled? || (old(state).Polling? && old(state).queue != local) ==>
        local.live == old(local.live) && local.model == old(local.model) && local.Entries() == old(local.Entries())
    {
      hide TreeFits, LiveFits, NamesOk, T.Ok, T.Step;
      match state
      case Start(when) => ready := PollStart(local, when, now, notified);
      case Polling(_, _) => ready := PollAgain(notified);
      case Polled => ready := true;
    }

    /** Dropping a sleep that still waits cancels its delay. */
    method Drop()
      requires Holds() && (state.Polling? ==> state.queue.Valid())
      modifies this, (if state.Polling? then {state.queue as object, state.delay.entry as object} else {})
      ensures state == Polled
      ensures old(state).Polling? ==>
        var Polling(queue, delay) := old(state);
        queue.Valid() && queue.Entries() <= old(queue.Entries())
        && GivenBack(old(queue.live), queue.live, delay) && queue.model.next == old(queue.model.next)
        && T.Step(queue.started, old(queue.model), T.Complete(old(queue.live)[delay.entry].id), queue.model)
    {
      hide TreeFits, LiveFits, NamesOk, T.Ok, T.Step;
      var was := state;
      state := Polled;
      if was.Polling? { was.queue.Complete(was.delay); }
    }
  }

  /** What a first poll on the local queue leaves: no delay at all, one that was given back at once,
      or one that the sleep holds. */
  ghost predicate Started(local: Queue, was: map<RawEntry, Ticket>, next: nat, live: map<RawEntry, Ticket>, next': nat,
                          state: State, ready: bool, notified: bool)
  {
    if next' == next then !ready && state == Polled && live == was
    else
      && next' == next + 1 && ready == notified
      && if notified then state == Polled && live == was
         else state.Polling? && state.queue == local && state.delay.entry !in was
              && live == was[state.delay.entry := Ticket(next, state.delay.deadline)]
  }

  /** Whether there is a delay at all is for the queue to say: if it schedules none, the sleep reports
      at its second poll; if it does, the sleep holds this delay, or gives it back when notified. */
  ghost predicate FirstPoll(local: Queue, when: T.When, now: nat, was: T.State, model: T.State, state: State,
                            ready: bool, notified: bool)
  {
    var mid := T.AfterSchedule(local.started, was, when, now);
    if mid.next == was.next then !ready && state == Polled && model == mid
    else if notified then ready && state == Polled && T.Step(local.started, mid, T.Complete(was.next), model)
    else
      && !ready && state.Polling? && state.queue == local && model == mid
      && was.next in model.pending && state.delay.deadline == model.pending[was.next]
  }

  /** A first poll of a sleep for some duration that is not notified waits for a delay that comes due
      less than two milliseconds before that duration is over, unless the clock has ended. */
  lemma WaitsAsAsked(local: Queue, d: nat, now: nat, was: T.State, model: T.State, state: State, ready: bool)
    requires d > 0 && Deadlines.Elapsed(local.started, now) + T.Max(d, T.NANOS) < Deadlines.END
    requires FirstPoll(local, T.After(d), now, was, model, state, ready, false)
    ensures !ready && state.Polling? && was.next in model.pending && model.pending[was.next] == state.delay.deadline
    ensures var asked, due := Deadlines.Elapsed(local.started, now) + T.Max(d, T.NANOS), state.delay.deadline * T.NANOS;
      due <= asked < due + 2 * T.NANOS
  {
    var mid := T.AfterSchedule(local.started, was, T.After(d), now);
    assert T.Step(local.started, was, T.Schedule(T.After(d), now), mid);
    hide T.AfterSchedule, T.Step;
    Deadlines.DurationDeadline(local.started, was, d, now, mid);
  }

  /** What a later poll leaves of the delay and its queue. */
  ghost predicate Continued(delay: Delay, was: map<RawEntry, Ticket>, next: nat, live: map<RawEntry, Ticket>,
    next': nat,
                            before: State, state: State, ready: bool, notified: bool)
  {
    && ready == notified && next' == next
    && if notified then state == Polled && GivenBack(was, live, delay) else state == before && live == was
  }

  /** The delay, and no other, is no longer handed out. */
  ghost predicate GivenBack(was: map<RawEntry, Ticket>, live: map<RawEntry, Ticket>, delay: Delay) {
    delay.entry in was && live == was - {delay.entry}
  }
}
