/** Timers from end to end: the delays that wait, the lists of expired entries, the entries' wakers
    and the sleeps that poll them, over every run.

    The queue is what `Timers` says of it, which `TimerQueue` implements; an entry with its waker and
    its sleep is a state of `EntryWaker`. A place in a list of expired entries is processed in any
    order and at any time. */
module TimerRuns {
  import opened Prelude
  import T = Timers
  import E = EntryWaker
  import Aw = AtomicWaker

  type Entry = nat

  /** A place in a list of expired entries, with the delay that put it there. */
  datatype Place = Place(entry: Entry, id: nat)

  datatype Sys = Sys(
    model: T.State,
    entries: map<Entry, E.State>,     // the entries that have been used
    names: map<Entry, nat>,           // the delay for which an entry was scheduled last
    expired: seq<Place>)

  datatype Event =
    | Schedule(e: Entry, when: T.When, now: nat)   // with a cached entry, or a new one
    | Poll(now: nat)                               // the queue is polled
    | Process(j: nat, t: Aw.Tid)                   // thread t processes a place
    | Call(e: Entry, k: nat) | PollStep(e: Entry)  // the sleep that holds e is polled
    | Cancel(e: Entry)                             // or dropped
    | WakeStep(e: Entry, t: Aw.Tid)

  const Init: Sys := Sys(T.Initial, map[], map[], [])

  /** The entry, which is a new one if it has not been used. */
  function At(s: Sys, e: Entry): (x: E.State) { if e in s.entries then s.entries[e] else E.Init }

  /** The entry's next state; `EntryWaker.NeverPanics` says that there is one. */
  function Did(x: E.State, ev: E.Event): (y: E.State) {
    match E.Step(x, ev) case Some(y) => y case None => x
  }

  predicate Holds(s: Sys, e: Entry, id: nat) { At(s, e).held && e in s.names && s.names[e] == id }

  function Put(s: Sys, e: Entry, x: E.State): (r: Sys) { s.(entries := s.entries[e := x]) }

  function Completed(model: T.State, id: nat): (r: T.State) { model.(pending := model.pending - {id}) }

  /** A step of the sleep that holds e; if it ends, its delay is completed. */
  function SleepStep(s: Sys, e: Entry, ev: E.Event): (r: Sys)
    requires e in s.entries
  {
    var x := Did(s.entries[e], ev);
    var ends := s.entries[e].held && !x.held && e in s.names;
    Put(s, e, x).(model := if ends then Completed(s.model, s.names[e]) else s.model)
  }

  function Without(places: seq<Place>, j: nat): (r: seq<Place>)
    requires j < |places|
  {
    places[..j] + places[j + 1..]
  }

  /** The entry's delay waits before the poll and not after it. */
  predicate ComesDue(s: Sys, after: T.State, e: Entry) {
    At(s, e).held && e in s.names && s.names[e] in s.model.pending && s.names[e] !in after.pending
  }

  /** The poll appends the entries of the delays that it expires, in their order. */
  ghost predicate PollStepOk(s: Sys, s': Sys, due: seq<T.Firing>, places: seq<Place>) {
    && |places| == |due|
    && (forall k | 0 <= k < |due| :: places[k].id == due[k].id && Holds(s, places[k].entry, due[k].id))
    && s' == Sys(s'.model, Expiring(s, s'.model), s.names, s.expired + places)
  }

  function Expiring(s: Sys, after: T.State): (r: map<Entry, E.State>) {
    map e | e in s.entries :: if ComesDue(s, after, e) then Did(s.entries[e], E.Expire) else s.entries[e]
  }

  ghost predicate Step(started: nat, s: Sys, ev: Event, s': Sys) {
    match ev
    case Schedule(e, when, now) =>
      && !At(s, e).held && T.Step(started, s.model, T.Schedule(when, now), s'.model)
      && s' == if s'.model.next == s.model.next then s.(model := s'.model)
               else Put(s, e, Did(At(s, e), E.Schedule)).(model := s'.model, names := s.names[e := s.model.next])
    case Poll(now) =>
      && T.Step(started, s.model, T.Poll(now), s'.model) && |s.model.fired| <= |s'.model.fired|
      && |s.expired| <= |s'.expired|
      && PollStepOk(s, s', s'.model.fired[|s.model.fired|..], s'.expired[|s.expired|..])
    case Process(j, t) =>
      j < |s.expired| &&
      var Place(e, id) := s.expired[j];
      t !in At(s, e).cell.takers
      && s' == Put(s, e, Did(At(s, e), E.Process(t, Holds(s, e, id)))).(expired := Without(s.expired, j))
    case Call(e, k) => e in s.entries && s' == Put(s, e, Did(s.entries[e], E.Call(k)))
    case PollStep(e) => e in s.entries && s' == SleepStep(s, e, E.PollStep)
    case Cancel(e) => e in s.entries && s' == SleepStep(s, e, E.Cancel)
    case WakeStep(e, t) => e in s.entries && s' == Put(s, e, Did(s.entries[e], E.WakeStep(t)))
  }

  // ---- the invariant ---------------------------------------------------------------------------

  /** How often an entry is in the lists. */
  function Places(places: seq<Place>, e: Entry): (n: nat) {
    if places == [] then 0
    else Places(places[..|places| - 1], e) + if places[|places| - 1].entry == e then 1 else 0
  }

  /** One entry: its delay waits, is listed, or has been processed, and the rest of its places in the
      lists are late ones. */
  ghost predicate Fits(x: E.State, name: Option<nat>, model: T.State, expired: seq<Place>, e: Entry) {
    && x.late + B(x.listed) == Places(expired, e)
    && (!x.held ==> !x.listed)
    && (x.held ==> (
      && name.Some? && name.value < model.next
      && (x.queued <==> name.value in model.pending)
      && (x.listed <==> Place(e, name.value) in expired)
      && (x.processed <==> T.Fired(model, name.value) && Place(e, name.value) !in expired)))
  }

  function Name(s: Sys, e: Entry): (r: Option<nat>) { if e in s.names then Some(s.names[e]) else None }

  ghost predicate EntryOk(s: Sys, e: Entry) {
    E.Inv(At(s, e)) && Fits(At(s, e), Name(s, e), s.model, s.expired, e)
  }

  ghost predicate EntriesOk(s: Sys) { forall e :: EntryOk(s, e) }

  ghost predicate OneHolder(s: Sys) { forall e, f, id | Holds(s, e, id) && Holds(s, f, id) :: e == f }

  ghost predicate AllHeld(s: Sys) { forall id | id in s.model.pending :: exists e :: Holds(s, e, id) }

  ghost predicate PlacesOk(s: Sys) {
    && (forall c | c in s.expired :: c.entry in s.entries && T.Fired(s.model, c.id))
    && (forall j, k | 0 <= j < k < |s.expired| :: s.expired[j] != s.expired[k])
  }

  ghost predicate Inv(s: Sys) { T.Ok(s.model) && EntriesOk(s) && OneHolder(s) && AllHeld(s) && PlacesOk(s) }

  // ---- counting --------------------------------------------------------------------------------

  lemma {:induction false} PlacesConcat(a: seq<Place>, b: seq<Place>, e: Entry)
    ensures Places(a + b, e) == Places(a, e) + Places(b, e)
  {
    if b == [] {
      assert a + b == a;
    } else {
      var last := |b| - 1;
      assert (a + b)[..|a + b| - 1] == a + b[..last];
      PlacesConcat(a, b[..last], e);
    }
  }

  lemma PlacesWithout(places: seq<Place>, j: nat, e: Entry)
    requires j < |places|
    ensures Places(places, e) == Places(Without(places, j), e) + if places[j].entry == e then 1 else 0
  {
    assert places == places[..j] + ([places[j]] + places[j + 1..]);
    PlacesConcat(places[..j], [places[j]] + places[j + 1..], e);
    PlacesConcat([places[j]], places[j + 1..], e);
    PlacesConcat(places[..j], places[j + 1..], e);
    assert [places[j]][..0] == [];
  }

  lemma {:induction false} NoPlaces(places: seq<Place>, e: Entry)
    requires forall c | c in places :: c.entry != e
    ensures Places(places, e) == 0
  {
    if places != [] {
      assert places[|places| - 1] in places;
      NoPlaces(places[..|places| - 1], e);
    }
  }

  /** Two different places of an entry are at least two. */
  lemma TwoPlaces(places: seq<Place>, j: nat, k: nat, e: Entry)
    requires j < |places| && k < |places| && j != k && places[j].entry == e && places[k].entry == e
    ensures Places(places, e) >= 2
  {
    var rest := Without(places, j);
    PlacesWithout(places, j, e);
    var k' := if k < j then k else k - 1;
    assert rest[k'] == places[k];
    PlacesWithout(rest, k', e);
  }

  // ---- each event keeps the invariant ----------------------------------------------------------

  lemma DidOk(x: E.State, ev: E.Event)
    requires E.Inv(x)
    ensures E.Step(x, ev) == Some(Did(x, ev)) && E.Inv(Did(x, ev))
  {
    E.StepKeeps(x, ev);
  }

  /** A step of the queue of delays, or none. */
  lemma ModelStep(started: nat, s: Sys, ev: Event, s': Sys)
    requires Step(started, s, ev, s')
    ensures s'.model == s.model || exists op :: T.Step(started, s.model, op, s'.model)
  {
    hide E.Inv, E.Step;
    match ev
    case Schedule(e, when, now) =>
    case Poll(now) =>
    case Process(j, t) =>
    case Call(e, k) =>
    case PollStep(e) => if s'.model != s.model { assert T.Step(started, s.model, T.Complete(s.names[e]), s'.model); }
    case Cancel(e) => if s'.model != s.model { assert T.Step(started, s.model, T.Complete(s.names[e]), s'.model); }
    case WakeStep(e, t) =>
  }

  lemma ModelOk(started: nat, s: Sys, ev: Event, s': Sys)
    requires T.Ok(s.model) && Step(started, s, ev, s')
    ensures T.Ok(s'.model) && s.model.fired <= s'.model.fired && s.model.next <= s'.model.next
  {
    ModelStep(started, s, ev, s');
    hide Step, T.Step, T.Ok;
    if s'.model != s.model {
      var op :| T.Step(started, s.model, op, s'.model);
      T.StepOk(started, s.model, op, s'.model);
    }
  }

  /** What a poll does to the delays: those that do not wait any more are the firings that it adds. */
  ghost predicate Fires(m: T.State, m': T.State, due: seq<T.Firing>) {
    && m'.fired == m.fired + due && m'.next == m.next && m'.pending.Keys <= m.pending.Keys
    && (forall id :: id in m.pending && id !in m'.pending ==> exists k :: 0 <= k < |due| && due[k].id == id)
    && (forall k | 0 <= k < |due| :: due[k].id in m.pending && due[k].id !in m'.pending && T.Fired(m', due[k].id))
    && (forall j, k | 0 <= j < k < |due| :: due[j].id != due[k].id)
  }

  lemma PollFires(started: nat, m: T.State, now: nat, m': T.State)
    requires T.Ok(m) && T.Step(started, m, T.Poll(now), m')
    ensures m.fired <= m'.fired && Fires(m, m', m'.fired[|m.fired|..])
  {
    var effective := T.Max(m.current, now);
    var due := m'.fired[|m.fired|..];
    assert T.Expires(m, effective, due);
    forall k | 0 <= k < |due| ensures due[k].id in m.pending && due[k].id !in m'.pending && T.Fired(m', due[k].id) {
      assert due[k] in due && due[k] in m'.fired;
    }
    forall id | id in m.pending && id !in m'.pending ensures exists k :: 0 <= k < |due| && due[k].id == id {
      assert T.Due(m, id, effective);
    }
  }

  /** The entry has one of the new places, at k. */
  predicate OnlyAt(places: seq<Place>, k: nat, c: Place) {
    k < |places| && places[k] == c && forall j | 0 <= j < |places| && j != k :: places[j].entry != c.entry
  }

  lemma DuePlace(s: Sys, s': Sys, due: seq<T.Firing>, places: seq<Place>, e: Entry)
    requires PollStepOk(s, s', due, places) && Fires(s.model, s'.model, due) && OneHolder(s)
    requires ComesDue(s, s'.model, e)
    ensures exists k :: OnlyAt(places, k, Place(e, s.names[e]))
    ensures T.Fired(s'.model, s.names[e])
  {
    hide T.Fired;
    var k :| 0 <= k < |due| && due[k].id == s.names[e];
    assert Holds(s, e, due[k].id) && Holds(s, places[k].entry, due[k].id);
    forall j | 0 <= j < |places| && j != k ensures places[j].entry != e {
      assert Holds(s, places[j].entry, due[j].id);
    }
    assert OnlyAt(places, k, Place(e, s.names[e]));
  }

  lemma OtherPlaces(s: Sys, s': Sys, due: seq<T.Firing>, places: seq<Place>, e: Entry)
    requires PollStepOk(s, s', due, places) && Fires(s.model, s'.model, due)
    requires !ComesDue(s, s'.model, e)
    ensures forall c | c in places :: c.entry != e
  {
    hide T.Fired;
    forall c | c in places ensures c.entry != e {
      var k :| 0 <= k < |places| && places[k] == c;
      assert Holds(s, places[k].entry, due[k].id);
    }
  }

  lemma OnePlace(places: seq<Place>, k: nat, e: Entry)
    requires k < |places| && places[k].entry == e && forall j | 0 <= j < |places| && j != k :: places[j].entry != e
    ensures Places(places, e) == 1
  {
    PlacesWithout(places, k, e);
    NoPlaces(Without(places, k), e);
  }

  /** A poll keeps each entry's part of the invariant. */
  lemma PollFits(s: Sys, s': Sys, due: seq<T.Firing>, places: seq<Place>, e: Entry)
    requires PollStepOk(s, s', due, places) && Fires(s.model, s'.model, due) && OneHolder(s)
    requires EntryOk(s, e) && T.Ok(s.model)
    ensures EntryOk(s', e)
  {
    hide OneHolder, T.Ok, Fits, E.Inv, E.Step, T.Fired;
    var x := At(s, e);
    DidOk(x, E.Expire);
    PlacesConcat(s.expired, places, e);
    if ComesDue(s, s'.model, e) {
      DuePlace(s, s', due, places, e);
      var k :| OnlyAt(places, k, Place(e, s.names[e]));
      OnePlace(places, k, e);
      ExpireFits(x, s.names[e], s.model, s.expired, s'.model, places, e);
    } else {
      OtherPlaces(s, s', due, places, e);
      NoPlaces(places, e);
      if x.held && e in s.names { StaysFired(s.model, s'.model, due, s.names[e]); }
      PollLeaves(x, Name(s, e), s.model, s.expired, s'.model, places, e);
    }
  }

  lemma StaysFired(m: T.State, m': T.State, due: seq<T.Firing>, id: nat)
    requires Fires(m, m', due) && (id in m.pending ==> id in m'.pending)
    ensures id in m'.pending <==> id in m.pending
    ensures T.Fired(m', id) <==> T.Fired(m, id)
  {
    assert forall f | f in due :: f.id in m.pending && f.id !in m'.pending;
    if f :| f in m.fired && f.id == id { assert f in m'.fired; }
  }

  lemma ExpireFits(x: E.State, id: nat, m: T.State, expired: seq<Place>, m': T.State, places: seq<Place>, e: Entry)
    requires T.Ok(m) && Fits(x, Some(id), m, expired, e) && E.Inv(x) && x.held
    requires id in m.pending && id !in m'.pending && T.Fired(m', id) && m'.next == m.next
    requires Place(e, id) in places && Places(expired + places, e) == Places(expired, e) + 1
    ensures Fits(Did(x, E.Expire), Some(id), m', expired + places, e)
  {
    hide Aw.Inv, Aw.Calm, Aw.Linked, E.Woken;
  }

  lemma PollLeaves(x: E.State, name: Option<nat>, m: T.State, expired: seq<Place>, m': T.State, places: seq<Place>,
                   e: Entry)
    requires Fits(x, name, m, expired, e) && m'.next == m.next
    requires x.held && name.Some? ==> (name.value in m.pending <==> name.value in m'.pending)
    requires x.held && name.Some? ==> (T.Fired(m', name.value) <==> T.Fired(m, name.value))
    requires Places(expired + places, e) == Places(expired, e) && forall c | c in places :: c.entry != e
    ensures Fits(x, name, m', expired + places, e)
  {
  }

  /** The holders are the same, which the rest of the invariant follows from. */
  ghost predicate SameHolders(s: Sys, s': Sys) { forall e, id :: Holds(s', e, id) <==> Holds(s, e, id) }

  lemma HoldersKept(s: Sys, s': Sys)
    requires OneHolder(s) && AllHeld(s) && SameHolders(s, s') && s'.model.pending.Keys <= s.model.pending.Keys
    ensures OneHolder(s') && AllHeld(s')
  {
    hide Holds;
    forall e, f, id | Holds(s', e, id) && Holds(s', f, id) ensures e == f {
      assert Holds(s, e, id) && Holds(s, f, id);
    }
    forall id | id in s'.model.pending ensures exists e :: Holds(s', e, id) {
      var e :| Holds(s, e, id);
      assert Holds(s', e, id);
    }
  }

  lemma PollHolders(s: Sys, s': Sys, due: seq<T.Firing>, places: seq<Place>)
    requires PollStepOk(s, s', due, places)
    ensures SameHolders(s, s')
  {
  }

  lemma PollPlaces(s: Sys, s': Sys, due: seq<T.Firing>, places: seq<Place>)
    requires PollStepOk(s, s', due, places) && Fires(s.model, s'.model, due) && PlacesOk(s) && T.Ok(s.model)
    ensures PlacesOk(s')
  {
    hide E.Step, E.Inv;
    forall c | c in s'.expired ensures c.entry in s'.entries && T.Fired(s'.model, c.id) {
      if c in s.expired {
        var f :| f in s.model.fired && f.id == c.id;
        assert f in s'.model.fired;
      } else {
        var k :| 0 <= k < |places| && places[k] == c;
        assert Holds(s, places[k].entry, due[k].id);
      }
    }
    forall j, k | 0 <= j < k < |s'.expired| ensures s'.expired[j] != s'.expired[k] {
      var n := |s.expired|;
      if n <= j {
        assert places[j - n].id == due[j - n].id;
      } else if n <= k {
        assert due[k - n].id in s.model.pending;
        assert s.expired[j] in s.expired;
      }
    }
  }

  lemma PollKeeps(started: nat, s: Sys, now: nat, s': Sys)
    requires Inv(s) && Step(started, s, Poll(now), s')
    ensures Inv(s')
  {
    ModelOk(started, s, Poll(now), s');
    var due, places := s'.model.fired[|s.model.fired|..], s'.expired[|s.expired|..];
    PollFires(started, s.model, now, s'.model);
    assert PollStepOk(s, s', due, places);
    hide Step, PollStepOk, Fires, OneHolder, AllHeld, PlacesOk, EntryOk, T.Ok;
    PollHolders(s, s', due, places);
    assert Fires(s.model, s'.model, due);
    FewerWait(s.model, s'.model, due);
    HoldersKept(s, s');
    PollPlaces(s, s', due, places);
    forall e ensures EntryOk(s', e) {
      PollFits(s, s', due, places, e);
    }
  }

  lemma FewerWait(m: T.State, m': T.State, due: seq<T.Firing>)
    requires Fires(m, m', due)
    ensures m'.pending.Keys <= m.pending.Keys
  {
  }

  // ---- scheduling ------------------------------------------------------------------------------

  /** An entry that the step does not touch. */
  lemma OtherFits(x: E.State, name: Option<nat>, m: T.State, expired: seq<Place>, m': T.State, expired': seq<Place>,
                  e: Entry)
    requires Fits(x, name, m, expired, e) && m'.next >= m.next && m'.fired == m.fired
    requires x.held && name.Some? ==> (name.value in m'.pending <==> name.value in m.pending)
    requires Places(expired', e) == Places(expired, e)
    requires forall c: Place | c.entry == e :: c in expired' <==> c in expired
    ensures Fits(x, name, m', expired', e)
  {
  }

  /** The model, the place and the entry of a state in which e has been scheduled. */
  ghost predicate Scheduled(s: Sys, e: Entry, s': Sys) {
    && !At(s, e).held
    && s'.model.next == s.model.next + 1 && s'.model.fired == s.model.fired
    && s'.model.pending.Keys == s.model.pending.Keys + {s.model.next}
    && s'.entries == s.entries[e := Did(At(s, e), E.Schedule)] && s'.names == s.names[e := s.model.next]
    && s'.expired == s.expired
  }

  lemma ScheduleFits(s: Sys, e: Entry, s': Sys)
    requires Scheduled(s, e, s') && EntryOk(s, e) && PlacesOk(s) && T.Ok(s.model)
    ensures EntryOk(s', e)
  {
    hide Aw.Inv, Aw.Calm, Aw.Linked, E.Woken;
    DidOk(At(s, e), E.Schedule);
    assert !T.Fired(s.model, s.model.next);
  }

  lemma ScheduleLeaves(s: Sys, e: Entry, s': Sys, f: Entry)
    requires Scheduled(s, e, s') && EntryOk(s, f) && f != e
    ensures EntryOk(s', f)
  {
    hide E.Inv, E.Step;
    OtherFits(At(s, f), Name(s, f), s.model, s.expired, s'.model, s'.expired, f);
  }

  lemma NamesBelow(s: Sys, f: Entry, id: nat)
    requires EntryOk(s, f) && Holds(s, f, id)
    ensures id < s.model.next
  {
  }

  lemma ScheduleHolds(s: Sys, e: Entry, s': Sys)
    requires Scheduled(s, e, s') && EntriesOk(s) && E.Inv(At(s, e))
    ensures forall f, id :: Holds(s', f, id) <==> if f == e then id == s.model.next else Holds(s, f, id)
    ensures forall f, id | Holds(s, f, id) :: f != e && id != s.model.next
  {
    hide E.Inv, EntryOk;
    forall f, id | Holds(s, f, id) ensures f != e && id != s.model.next {
      assert EntryOk(s, f);
      NamesBelow(s, f, id);
    }
  }

  lemma ScheduleHolders(s: Sys, e: Entry, s': Sys)
    requires s'.model.pending.Keys == s.model.pending.Keys + {s.model.next} && OneHolder(s) && AllHeld(s)
    requires forall f, id :: Holds(s', f, id) <==> if f == e then id == s.model.next else Holds(s, f, id)
    requires forall f, id | Holds(s, f, id) :: f != e && id != s.model.next
    ensures OneHolder(s') && AllHeld(s')
  {
    hide Holds;
    forall id | id in s'.model.pending ensures exists f :: Holds(s', f, id) {
      if id == s.model.next {
        assert Holds(s', e, id);
      } else {
        var f := HolderOf(s, id);
        assert Holds(s', f, id);
      }
    }
  }

  lemma OneOf(s: Sys, f: Entry, g: Entry, id: nat)
    requires OneHolder(s) && Holds(s, f, id) && Holds(s, g, id)
    ensures f == g
  {
  }

  ghost function HolderOf(s: Sys, id: nat): (e: Entry)
    requires AllHeld(s) && id in s.model.pending
    ensures Holds(s, e, id)
  {
    var e :| Holds(s, e, id); e
  }

  lemma ScheduleKeeps(started: nat, s: Sys, e: Entry, when: T.When, now: nat, s': Sys)
    requires Inv(s) && Step(started, s, Schedule(e, when, now), s')
    ensures Inv(s')
  {
    ModelOk(started, s, Schedule(e, when, now), s');
    hide E.Inv, E.Step, Fits, OneHolder, T.Ok;
    if s'.model.next == s.model.next {
      assert SameHolders(s, s');
      HoldersKept(s, s');
      forall f ensures EntryOk(s', f) {
        assert EntryOk(s, f);
        OtherFits(At(s, f), Name(s, f), s.model, s.expired, s'.model, s'.expired, f);
      }
    } else {
      assert Scheduled(s, e, s');
      assert EntryOk(s, e);
      ScheduleHolds(s, e, s');
      ScheduleHolders(s, e, s');
      forall f ensures EntryOk(s', f) {
        assert EntryOk(s, f);
        if f == e { ScheduleFits(s, e, s'); } else { ScheduleLeaves(s, e, s', f); }
      }
    }
  }

  // ---- processing ------------------------------------------------------------------------------

  /** The thread wakes: a place that is not the held delay's is a late one. */
  lemma ProcessFits(s: Sys, j: nat, t: Aw.Tid)
    requires j < |s.expired| && t !in At(s, s.expired[j].entry).cell.takers
    requires EntryOk(s, s.expired[j].entry) && PlacesOk(s)
    ensures var e, id := s.expired[j].entry, s.expired[j].id;
      && E.Wakes(At(s, e), E.Process(t, Holds(s, e, id)))
      && Fits(E.Processed(At(s, e), t, Holds(s, e, id)), Name(s, e), s.model, Without(s.expired, j), e)
  {
    var e, id := s.expired[j].entry, s.expired[j].id;
    var x := At(s, e);
    hide E.Inv;
    PlacesWithout(s.expired, j, e);
    WithoutHas(s.expired, j);
    assert s.expired[j] in s.expired;
    if !Holds(s, e, id) && x.listed {
      var own := Place(e, s.names[e]);
      var k :| 0 <= k < |s.expired| && s.expired[k] == own;
      TwoPlaces(s.expired, j, k, e);
    }
  }

  /** As no place is there twice, exactly this one is missing. */
  lemma WithoutHas(places: seq<Place>, j: nat)
    requires j < |places| && forall i, k | 0 <= i < k < |places| :: places[i] != places[k]
    ensures forall c :: c in Without(places, j) <==> c in places && c != places[j]
    ensures var r := Without(places, j); forall i, k | 0 <= i < k < |r| :: r[i] != r[k]
  {
    var r := Without(places, j);
    forall c | c in places && c != places[j] ensures c in r {
      var k :| 0 <= k < |places| && places[k] == c;
      assert r[if k < j then k else k - 1] == c;
    }
  }

  lemma ProcessKeeps(started: nat, s: Sys, j: nat, t: Aw.Tid, s': Sys)
    requires Inv(s) && Step(started, s, Process(j, t), s')
    ensures Inv(s')
  {
    var e, id := s.expired[j].entry, s.expired[j].id;
    var ev := E.Process(t, Holds(s, e, id));
    hide E.Inv, Fits, OneHolder, AllHeld, T.Ok;
    assert EntryOk(s, e);
    ProcessFits(s, j, t);
    DidOk(At(s, e), ev);
    assert At(s', e) == E.Processed(At(s, e), t, Holds(s, e, id));
    assert SameHolders(s, s');
    HoldersKept(s, s');
    WithoutHas(s.expired, j);
    forall f ensures EntryOk(s', f) {
      assert EntryOk(s, f);
      if f != e {
        PlacesWithout(s.expired, j, f);
        OtherFits(At(s, f), Name(s, f), s.model, s.expired, s'.model, s'.expired, f);
      }
    }
  }

  // ---- the sleep's own steps -------------------------------------------------------------------

  /** A step of the sleep or of a thread at the entry's waker, without a wake. */
  predicate Quiet(ev: E.Event) { ev.Call? || ev.PollStep? || ev.Cancel? || ev.WakeStep? }

  predicate SameShape(x: E.State, y: E.State) {
    y == x.(cell := y.cell, early := y.early)
  }

  /** The sleep has ended; if the entry is still in a list, it is in it as a late one. */
  predicate Ends(x: E.State, y: E.State) { x.held && !y.held && !y.listed && y.late == x.late + B(x.listed) }

  /** Such a step leaves the entry's delay alone or gives it back. */
  lemma QuietShape(x: E.State, ev: E.Event)
    requires E.Inv(x) && Quiet(ev)
    ensures var y := Did(x, ev);
      && (x.held == y.held ==> SameShape(x, y))
      && (x.held != y.held ==> Ends(x, y) && (ev.PollStep? || ev.Cancel?))
  {
    hide Aw.Inv, Aw.Calm, Aw.Linked, E.Woken;
    DidOk(x, ev);
  }

  /** The event of the sleep that holds e, or of a thread at its waker, and the entry's own event. */
  ghost predicate SleepEvent(ev: Event, e: Entry, own: E.Event) {
    match ev
    case Call(f, k) => f == e && own == E.Call(k)
    case PollStep(f) => f == e && own == E.PollStep
    case Cancel(f) => f == e && own == E.Cancel
    case WakeStep(f, t) => f == e && own == E.WakeStep(t)
    case _ => false
  }

  lemma SameFits(x: E.State, y: E.State, name: Option<nat>, m: T.State, expired: seq<Place>, e: Entry)
    requires SameShape(x, y) && Fits(x, name, m, expired, e)
    ensures Fits(y, name, m, expired, e)
  {
  }

  /** The sleep ends and gives the delay back. */
  lemma EndKeeps(s: Sys, e: Entry, y: E.State)
    requires Inv(s) && e in s.entries && Ends(s.entries[e], y) && E.Inv(y) && e in s.names
    ensures var s' := Put(s, e, y).(model := Completed(s.model, s.names[e])); T.Ok(s'.model) ==> Inv(s')
  {
    var id := s.names[e];
    var s' := Put(s, e, y).(model := Completed(s.model, id));
    hide E.Inv, OneHolder, AllHeld, T.Ok;
    assert EntryOk(s, e);
    assert Holds(s, e, id);
    forall f, i ensures Holds(s', f, i) <==> Holds(s, f, i) && f != e { }
    forall f, i | Holds(s, f, i) && f != e ensures i != id {
      if i == id { OneOf(s, f, e, id); }
    }
    EndHolders(s, e, id, s');
    forall f ensures EntryOk(s', f) {
      assert EntryOk(s, f);
      if f != e {
        if At(s, f).held && f in s.names { assert Holds(s, f, s.names[f]); }
        OtherFits(At(s, f), Name(s, f), s.model, s.expired, s'.model, s'.expired, f);
      }
    }
  }

  lemma EndHolders(s: Sys, e: Entry, id: nat, s': Sys)
    requires OneHolder(s) && AllHeld(s) && Holds(s, e, id) && s'.model.pending.Keys == s.model.pending.Keys - {id}
    requires forall f, i :: Holds(s', f, i) <==> Holds(s, f, i) && f != e
    ensures OneHolder(s') && AllHeld(s')
  {
    hide Holds;
    forall f, g, i | Holds(s', f, i) && Holds(s', g, i) ensures f == g { assert Holds(s, f, i) && Holds(s, g, i); }
    forall i | i in s'.model.pending ensures exists f :: Holds(s', f, i) {
      var f := HolderOf(s, i);
      if f == e { OneName(s, e, i, id); }
      assert Holds(s', f, i);
    }
  }

  lemma OneName(s: Sys, e: Entry, id: nat, other: nat)
    requires Holds(s, e, id) && Holds(s, e, other)
    ensures id == other
  {
  }

  /** The entry's delay stays as it is. */
  lemma SameKeeps(s: Sys, e: Entry, y: E.State)
    requires Inv(s) && e in s.entries && SameShape(s.entries[e], y) && E.Inv(y)
    ensures Inv(Put(s, e, y))
  {
    var s' := Put(s, e, y);
    hide E.Inv, Fits, OneHolder, AllHeld, T.Ok;
    assert SameHolders(s, s');
    HoldersKept(s, s');
    assert EntryOk(s, e);
    SameFits(s.entries[e], y, Name(s, e), s.model, s.expired, e);
    forall f ensures EntryOk(s', f) { assert EntryOk(s, f); }
  }

  lemma SleepKeeps(started: nat, s: Sys, ev: Event, s': Sys, e: Entry, own: E.Event)
    requires Inv(s) && Step(started, s, ev, s') && SleepEvent(ev, e, own)
    ensures Inv(s')
  {
    hide E.Inv, E.Step, OneHolder, AllHeld, PlacesOk, T.Ok, T.Step;
    ModelOk(started, s, ev, s');
    assert EntryOk(s, e);
    QuietShape(s.entries[e], own);
    DidOk(s.entries[e], own);
    hide Inv, EntriesOk;
    var y := Did(s.entries[e], own);
    if s.entries[e].held == y.held {
      SameKeeps(s, e, y);
      assert s' == Put(s, e, y);
    } else {
      EndKeeps(s, e, y);
    }
  }

  // ---- runs ------------------------------------------------------------------------------------

  lemma StepKeeps(started: nat, s: Sys, ev: Event, s': Sys)
    requires Inv(s) && Step(started, s, ev, s')
    ensures Inv(s')
  {
    hide Inv, Step;
    match ev
    case Schedule(e, when, now) => ScheduleKeeps(started, s, e, when, now, s');
    case Poll(now) => PollKeeps(started, s, now, s');
    case Process(j, t) => ProcessKeeps(started, s, j, t, s');
    case Call(e, k) => SleepKeeps(started, s, ev, s', e, E.Call(k));
    case PollStep(e) => SleepKeeps(started, s, ev, s', e, E.PollStep);
    case Cancel(e) => SleepKeeps(started, s, ev, s', e, E.Cancel);
    case WakeStep(e, t) => SleepKeeps(started, s, ev, s', e, E.WakeStep(t));
  }

  /** A run from the first state: the states before, between and after the events. */
  ghost predicate IsRun(started: nat, evs: seq<Event>, ss: seq<Sys>) {
    && |ss| == |evs| + 1 && ss[0] == Init
    && forall k | 0 <= k < |evs| :: Step(started, ss[k], evs[k], ss[k + 1])
  }

  lemma {:induction false} RunKeeps(started: nat, evs: seq<Event>, ss: seq<Sys>, k: nat)
    requires IsRun(started, evs, ss) && k <= |evs|
    ensures Inv(ss[k])
  {
    hide Inv, Step;
    if k == 0 {
      InitOk();
    } else {
      RunKeeps(started, evs, ss, k - 1);
      StepKeeps(started, ss[k - 1], evs[k - 1], ss[k]);
    }
  }

  lemma InitOk()
    ensures Inv(Init)
  {
    Aw.NewOk();
    assert E.Inv(E.Init);
  }

  // ---- what it promises ------------------------------------------------------------------------

  /** The delay has expired and its place in a list has been processed. */
  ghost predicate Passed(s: Sys, e: Entry, id: nat) { T.Fired(s.model, id) && Place(e, id) !in s.expired }

  /** What has passed stays so. */
  lemma StepPassed(started: nat, s: Sys, ev: Event, s': Sys, e: Entry, id: nat)
    requires Inv(s) && Step(started, s, ev, s') && Passed(s, e, id)
    ensures Passed(s', e, id)
  {
    ModelOk(started, s, ev, s');
    hide E.Inv, E.Step, Did, OneHolder, AllHeld, EntriesOk;
    var f :| f in s.model.fired && f.id == id;
    assert f in s'.model.fired;
    if ev.Poll? {
      var due, places := s'.model.fired[|s.model.fired|..], s'.expired[|s.expired|..];
      PollFires(started, s.model, ev.now, s'.model);
      NotExpiredAgain(s, s', due, places, e, id);
    }
  }

  lemma NotExpiredAgain(s: Sys, s': Sys, due: seq<T.Firing>, places: seq<Place>, e: Entry, id: nat)
    requires PollStepOk(s, s', due, places) && Fires(s.model, s'.model, due) && T.Ok(s.model) && Passed(s, e, id)
    ensures Place(e, id) !in s'.expired
  {
    hide E.Inv, E.Step, Did;
    assert !exists k :: 0 <= k < |due| && due[k].id == id;
  }

  lemma {:induction false} RunPassed(started: nat, evs: seq<Event>, ss: seq<Sys>, i: nat, j: nat, e: Entry, id: nat)
    requires IsRun(started, evs, ss) && i <= j <= |evs| && Passed(ss[i], e, id)
    ensures Passed(ss[j], e, id)
    decreases j
  {
    hide Inv, Step, Passed;
    if i < j {
      RunPassed(started, evs, ss, i, j - 1, e, id);
      RunKeeps(started, evs, ss, j - 1);
      StepPassed(started, ss[j - 1], evs[j - 1], ss[j], e, id);
    }
  }

  /** At this event the sleep that holds e ends its poll. */
  ghost predicate EndsPoll(s: Sys, ev: Event, s': Sys, e: Entry) {
    ev == PollStep(e) && At(s, e).held && !At(s, e).cell.poller.Idle? && At(s', e).cell.poller.Idle?
  }

  /** In every run a poll of a sleep that ends ends the sleep exactly if the entry's waker has been
      woken; then its delay is given back, and it is early exactly if the delay has not passed. */
  lemma PollAnswers(started: nat, evs: seq<Event>, ss: seq<Sys>, k: nat, e: Entry)
    requires IsRun(started, evs, ss) && k < |evs| && EndsPoll(ss[k], evs[k], ss[k + 1], e)
    ensures e in ss[k].names
    ensures var s, s', id := ss[k], ss[k + 1], ss[k].names[e];
      var x, y := At(s, e), At(s', e);
      && y.held == !E.Woken(x.cell) && y.early == x.early + B(!y.held && !Passed(s, e, id))
      && (Passed(s, e, id) ==> !y.held) && E.EndsReady(y.cell) == !y.held
      && (y.held ==> s'.model == s.model) && (!y.held ==> s'.model == Completed(s.model, id))
  {
    hide E.Inv, OneHolder, AllHeld, PlacesOk, T.Ok, T.Step;
    RunKeeps(started, evs, ss, k);
    var x := At(ss[k], e);
    assert EntryOk(ss[k], e);
    assert Step(started, ss[k], evs[k], ss[k + 1]);
    DidOk(x, E.PollStep);
    E.PollEndsWoken(x);
    if x.processed { ProcessedWoken(x); }
  }

  lemma ProcessedWoken(x: E.State)
    requires E.Inv(x) && x.held && x.processed
    ensures E.Woken(x.cell)
  {
  }

  /** From end to end. In every run, once a sleep's delay has expired and been processed, the first
      poll of the sleep that ends after that ends the sleep, which is not early, and gives back the
      delay, which had come due at its deadline or later. */
  lemma ExpiredSleepEnds(started: nat, evs: seq<Event>, ss: seq<Sys>, i: nat, j: nat, e: Entry, id: nat)
    requires IsRun(started, evs, ss) && i <= j < |evs| && Passed(ss[i], e, id)
    requires Holds(ss[j], e, id) && EndsPoll(ss[j], evs[j], ss[j + 1], e)
    ensures var x, y := At(ss[j], e), At(ss[j + 1], e);
      && !y.held && E.EndsReady(y.cell) && y.early == x.early
      && ss[j + 1].model == Completed(ss[j].model, id)
    ensures exists f :: f in ss[j].model.fired && f.id == id && f.deadline <= f.at
  {
    hide E.Inv, Inv, Step, Passed, EndsPoll;
    RunPassed(started, evs, ss, i, j, e, id);
    RunKeeps(started, evs, ss, j);
    PollAnswers(started, evs, ss, j, e);
    PassedInTime(ss[j], e, id);
  }

  lemma PassedInTime(s: Sys, e: Entry, id: nat)
    requires Inv(s) && Passed(s, e, id)
    ensures exists f :: f in s.model.fired && f.id == id && f.deadline <= f.at
  {
    hide E.Inv, OneHolder, AllHeld, PlacesOk, EntriesOk;
  }

  /** The delay of a sleep waits, is in a list, or has passed, and only one of these. */
  lemma Stages(started: nat, evs: seq<Event>, ss: seq<Sys>, k: nat, e: Entry, id: nat)
    requires IsRun(started, evs, ss) && k <= |evs| && Holds(ss[k], e, id)
    ensures var s := ss[k]; B(id in s.model.pending) + B(Place(e, id) in s.expired) + B(At(s, e).processed) == 1
    ensures At(ss[k], e).processed <==> Passed(ss[k], e, id)
  {
    RunKeeps(started, evs, ss, k);
    assert EntryOk(ss[k], e);
    hide Aw.Inv, Aw.Calm, Aw.Linked, E.Woken, OneHolder, AllHeld, PlacesOk, T.Ok, Step;
  }

  /** The first stage ends at the first poll of the queue that reaches the deadline, with a place in a
      list for the sleep's entry. */
  lemma DueIsListed(started: nat, evs: seq<Event>, ss: seq<Sys>, k: nat, now: nat, e: Entry, id: nat)
    requires IsRun(started, evs, ss) && k < |evs| && evs[k] == Poll(now)
    requires Holds(ss[k], e, id) && id in ss[k].model.pending
    ensures var deadline, time := ss[k].model.pending[id], T.Max(ss[k].model.current, now);
      if deadline <= time
      then Place(e, id) in ss[k + 1].expired && T.Firing(id, deadline, time) in ss[k + 1].model.fired
      else id in ss[k + 1].model.pending
  {
    RunKeeps(started, evs, ss, k);
    var s, s' := ss[k], ss[k + 1];
    assert Step(started, s, evs[k], s');
    T.ReachStep(started, s.model, T.Poll(now), s'.model, id);
    var due, places := s'.model.fired[|s.model.fired|..], s'.expired[|s.expired|..];
    PollFires(started, s.model, now, s'.model);
    if s.model.pending[id] <= T.Max(s.model.current, now) {
      DuePlace(s, s', due, places, e);
    }
  }

  /** The second stage ends when the place is processed, for this delay and no other. */
  lemma ProcessedPasses(started: nat, evs: seq<Event>, ss: seq<Sys>, k: nat, j: nat, t: Aw.Tid)
    requires IsRun(started, evs, ss) && k < |evs| && evs[k] == Process(j, t)
    ensures j < |ss[k].expired| && Passed(ss[k + 1], ss[k].expired[j].entry, ss[k].expired[j].id)
    ensures forall c :: c in ss[k + 1].expired <==> c in ss[k].expired && c != ss[k].expired[j]
    ensures ss[k + 1].model == ss[k].model
  {
    RunKeeps(started, evs, ss, k);
    var s, s' := ss[k], ss[k + 1];
    assert Step(started, s, evs[k], s');
    hide T.Ok, EntriesOk, OneHolder, AllHeld, E.Step;
    WithoutHas(s.expired, j);
    assert s.expired[j] in s.expired;
  }

  /** A poll of the queue is possible at any time: each delay has a sleep that holds it. */
  lemma PollPossible(started: nat, s: Sys, now: nat, model: T.State)
    requires Inv(s) && T.Step(started, s.model, T.Poll(now), model)
    ensures exists s' :: Step(started, s, Poll(now), s') && s'.model == model
  {
    PollFires(started, s.model, now, model);
    var due := model.fired[|s.model.fired|..];
    var places := seq(|due|, k requires 0 <= k < |due| => Place(HolderOf(s, due[k].id), due[k].id));
    var s' := Sys(model, Expiring(s, model), s.names, s.expired + places);
    assert s'.expired[|s.expired|..] == places;
    hide T.Step, T.Ok, EntriesOk, OneHolder, PlacesOk, Did, E.Step;
    assert PollStepOk(s, s', due, places);
    assert Step(started, s, Poll(now), s');
  }

  // ---- the entries' own runs -------------------------------------------------------------------

  lemma {:induction false} RunThen(x: E.State, es: seq<E.Event>, ev: E.Event)
    requires E.Run(x, es).Some? && E.Step(E.Run(x, es).value, ev).Some?
    ensures E.Run(x, es + [ev]) == E.Step(E.Run(x, es).value, ev)
    decreases |es|
  {
    hide E.Step;
    if es == [] {
      assert [ev][1..] == [];
    } else {
      assert (es + [ev])[1..] == es[1..] + [ev];
      RunThen(E.Step(x, es[0]).value, es[1..], ev);
    }
  }

  lemma OwnStep(started: nat, s: Sys, ev: Event, s': Sys, e: Entry)
    requires Step(started, s, ev, s')
    ensures At(s', e) == At(s, e) || exists own :: At(s', e) == Did(At(s, e), own)
  {
    hide E.Step, E.Inv, Did, T.Step;
  }

  /** Each entry goes through a run of its own, so that all that `EntryWaker` says of reachable states
      is so here: of a sleep that ends early, when it does. */
  lemma {:induction false} EntryReachable(started: nat, evs: seq<Event>, ss: seq<Sys>, k: nat, e: Entry)
    requires IsRun(started, evs, ss) && k <= |evs|
    ensures E.Reachable(At(ss[k], e))
  {
    hide Step, Did;
    if k == 0 {
      assert E.Run(E.Init, []) == Some(E.Init);
    } else {
      EntryReachable(started, evs, ss, k - 1, e);
      OwnStep(started, ss[k - 1], evs[k - 1], ss[k], e);
      var x, y := At(ss[k - 1], e), At(ss[k], e);
      if x != y {
        var own :| y == Did(x, own);
        var es: seq<E.Event> :| E.Run(E.Init, es) == Some(x);
        E.ReachableInv(x);
        DidOk(x, own);
        RunThen(E.Init, es, own);
        assert E.Run(E.Init, es + [own]) == Some(y);
      }
    }
  }
}
