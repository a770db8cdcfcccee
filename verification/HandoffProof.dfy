/** Every step keeps the invariant and none of them panics. */
module HandoffProof {
  import opened Prelude
  import opened ParkWord
  import opened Handoff
  import opened HandoffInvariant

  // ---- counting ----------------------------------------------------------------------------

  lemma HoldersPut(th: map<Tid, Thread>, t: Tid, x: Thread, f: Thread -> bool)
    ensures |Holders(th[t := x], f)| == |Holders(th, f)| - B(t in th && f(th[t])) + B(f(x))
  {
    CountToggled(Holders(th, f), Holders(th[t := x], f), t);
  }

  function TokensOf(x: Thread): (r: nat) { B(MainToken(x)) + B(SubToken(x)) + B(WordToken(x)) }

  function PoolOf(x: Thread): (r: nat) { B(Spawned(x)) + B(Spawning(x)) }

  lemma TokensPut(th: map<Tid, Thread>, t: Tid, x: Thread)
    ensures Tokens(th[t := x]) == Tokens(th) - (if t in th then TokensOf(th[t]) else 0) + TokensOf(x)
    ensures PoolThreads(th[t := x]) == PoolThreads(th) - (if t in th then PoolOf(th[t]) else 0) + PoolOf(x)
  {
    HoldersPut(th, t, x, MainToken);
    HoldersPut(th, t, x, SubToken);
    HoldersPut(th, t, x, WordToken);
    HoldersPut(th, t, x, Spawned);
    HoldersPut(th, t, x, Spawning);
  }

  /** A thread that holds tokens cannot find the counter at zero. */
  lemma TokensAtLeast(th: map<Tid, Thread>, t: Tid)
    requires t in th
    ensures Tokens(th) >= TokensOf(th[t]) && PoolThreads(th) >= PoolOf(th[t])
  {
    var x := NewThread(Outside, false);
    TokensPut(th, t, x);
  }

  // ---- places ------------------------------------------------------------------------------

  lemma SamePlaces(s: Sys, s': Sys)
    requires Conserved(s) && s'.n == s.n
    requires forall pl :: At(s', pl) == At(s, pl)
    ensures Conserved(s')
  {
    forall pl, pm | SameHeld(s', pl, pm) ensures pl == pm { assert SameHeld(s, pl, pm); }
    forall i: nat | i < s'.n ensures Held(s', i) {
      assert Held(s, i);
      var pl :| At(s, pl) == Some(i);
      assert At(s', pl) == Some(i);
    }
  }

  /** One index moves from one place to another, everything else stays. */
  lemma Moved(s: Sys, s': Sys, from: Place, to: Place)
    requires Conserved(s) && s'.n == s.n && from != to
    requires At(s, from).Some? && At(s, to).None?
    requires At(s', from).None? && At(s', to) == At(s, from)
    requires forall pl | pl != from && pl != to :: At(s', pl) == At(s, pl)
    ensures Conserved(s')
  {
    forall i: nat | i < s'.n ensures Held(s', i) {
      assert Held(s, i);
      var pl :| At(s, pl) == Some(i);
      if pl == from { assert At(s', to) == Some(i); } else { assert At(s', pl) == Some(i); }
    }
    forall pl | At(s', pl).Some? ensures At(s', pl).value < s'.n {
      if pl == to { assert At(s, from).Some?; } else { assert At(s, pl).Some?; }
    }
    forall pl, pm | SameHeld(s', pl, pm) ensures pl == pm {
      var ql := if pl == to then from else pl;
      var qm := if pm == to then from else pm;
      assert SameHeld(s, ql, qm);
    }
  }

  // ---- one thread changes, nothing is handed over --------------------------------------------

  /** The parts of a thread on which the shared invariants depend, apart from tokens. */
  predicate SameSeat(x: Thread, y: Thread) {
    x.producer == y.producer && AtSeat(x.main) == AtSeat(y.main) && (AtSeat(x.main) ==> x.wi == y.wi)
  }

  /** t's own progress that owes no new signal and does not drop one that is due. */
  predicate QuietSignals(x: Thread, y: Thread) {
    && (y.word.Notified? && y.main.ParkWait? ==> x.word.Notified? && x.main.ParkWait?)
    && (y.word.Notified? && y.main.ParkBlocked? && y.blocked ==>
          x.word.Notified? && (x.main.ParkWait? || (x.main.ParkBlocked? && x.blocked)))
    && !x.sub.SignalLock? && !x.sub.SignalNotify?
  }

  lemma SeatsKept(s: Sys, s': Sys, t: Tid, y: Thread)
    requires Seats(s) && s'.n == s.n && s'.seats == s.seats && s'.th == s.th[t := y]
    requires if t in s.th then SameSeat(s.th[t], y) else y.producer.None? && !AtSeat(y.main)
    ensures Seats(s')
  {
    forall i: nat | i < s'.n && s'.seats[i].producer.None?
      ensures exists u :: u in s'.th && s'.th[u].producer == Some(i)
    {
      var u :| u in s.th && s.th[u].producer == Some(i);
      assert u in s'.th && s'.th[u].producer == Some(i);
    }
  }

  lemma SignalsKept(s: Sys, s': Sys, t: Tid, y: Thread)
    requires Signals(s) && s'.th == s.th[t := y]
    requires if t in s.th then QuietSignals(s.th[t], y) else !y.word.Notified?
    ensures Signals(s')
  {
    forall p | p in s'.th && s'.th[p].word.Notified?
      ensures s'.th[p].main.ParkWait? ==> LockDue(s', p)
      ensures s'.th[p].main.ParkBlocked? && s'.th[p].blocked ==> LockDue(s', p) || NotifyDue(s', p)
    {
      assert p in s.th && p != t ==> s'.th[p] == s.th[p];
      if p in s.th && LockDue(s, p) {
        var u :| u in s.th && s.th[u].sub == SignalLock(p);
        assert s'.th[u].sub == SignalLock(p);
      }
      if p in s.th && NotifyDue(s, p) {
        var u :| u in s.th && s.th[u].sub == SignalNotify(p);
        assert s'.th[u].sub == SignalNotify(p);
      }
    }
  }

  /** The whole invariant, once the places of indices are accounted for. */
  lemma OneThread(s: Sys, s': Sys, t: Tid, y: Thread)
    requires Inv(s) && s'.n == s.n && s'.max == s.max && s'.th == s.th[t := y]
    requires LocalOk(y) && Conserved(s')
    requires (forall u | u in s'.pool :: u in s'.th) && SubKnown(s, y)
    requires s'.searching == s.searching + TokensOf(y) - (if t in s.th then TokensOf(s.th[t]) else 0)
    requires s'.spawned == s.spawned + PoolOf(y) - (if t in s.th then PoolOf(s.th[t]) else 0)
    requires s'.spawned <= s.max
    requires Seats(s') && Signals(s')
    requires s'.pending <==> s'.indices != []
    ensures Inv(s')
  {
    TokensPut(s.th, t, y);
  }

  predicate SameIndices(x: Thread, y: Thread) {
    MainIndex(y) == MainIndex(x) && SubIndex(y) == SubIndex(x) && WordIndex(y) == WordIndex(x)
  }

  predicate SameTokens(x: Thread, y: Thread) {
    && (MainToken(y) <==> MainToken(x)) && (SubToken(y) <==> SubToken(x)) && (WordToken(y) <==> WordToken(x))
    && (Spawned(y) <==> Spawned(x)) && (Spawning(y) <==> Spawning(x))
  }

  /** What a thread keeps in every step that touches no seat and settles no signal. */
  predicate KeepsShape(x: Thread, y: Thread) { LocalOk(y) && SameSeat(x, y) && QuietSignals(x, y) }

  /** A change of thread x into y in which no index, token or seat is touched. */
  predicate QuietChange(x: Thread, y: Thread) {
    && KeepsShape(x, y)
    && SameIndices(x, y)
    && SameTokens(x, y)
  }

  lemma PlacesKept(s: Sys, s': Sys, t: Tid, y: Thread)
    requires Conserved(s) && t in s.th && s'.n == s.n && s'.indices == s.indices && s'.th == s.th[t := y]
    requires SameIndices(s.th[t], y)
    ensures Conserved(s')
  {
    SamePlaces(s, s');
  }

  /** The invariant follows when the indices are accounted for and no seat is touched. */
  lemma Joined(s: Sys, s': Sys, t: Tid, y: Thread)
    requires Inv(s) && t in s.th && s'.n == s.n && s'.max == s.max && s'.seats == s.seats && s'.th == s.th[t := y]
    requires Conserved(s') && KeepsShape(s.th[t], y) && SubKnown(s, y)
    requires forall u | u in s'.pool :: u in s.th
    requires s'.searching == s.searching + TokensOf(y) - TokensOf(s.th[t])
    requires s'.spawned == s.spawned + PoolOf(y) - PoolOf(s.th[t]) <= s.max
    requires s'.pending <==> s'.indices != []
    ensures Inv(s')
  {
    SeatsKept(s, s', t, y);
    SignalsKept(s, s', t, y);
    OneThread(s, s', t, y);
  }

  /** A step that moves no index: only counters and the parker list change beside the thread. */
  lemma Settled(s: Sys, s': Sys, t: Tid, y: Thread)
    requires Inv(s) && t in s.th
    requires s' == Put(s, t, y).(searching := s'.searching, spawned := s'.spawned, pool := s'.pool)
    requires KeepsShape(s.th[t], y) && SameIndices(s.th[t], y) && SubKnown(s, y)
    requires forall u | u in s'.pool :: u in s.th
    requires s'.searching == s.searching + TokensOf(y) - TokensOf(s.th[t])
    requires s'.spawned == s.spawned + PoolOf(y) - PoolOf(s.th[t]) <= s.max
    ensures Inv(s')
  {
    PlacesKept(s, s', t, y);
    Joined(s, s', t, y);
  }

  lemma Quiet(s: Sys, t: Tid, y: Thread)
    requires Inv(s) && t in s.th && QuietChange(s.th[t], y) && SubKnown(s, y)
    ensures Inv(Put(s, t, y))
  {
    PlacesKept(s, Put(s, t, y), t, y);
    Joined(s, Put(s, t, y), t, y);
  }

  // ---- block_on ----------------------------------------------------------------------------

  predicate KeepsHoldings(x: Thread, y: Thread) { SameIndices(x, y) && SameTokens(x, y) }

  lemma LoopOrder(pending: bool, few: bool, x: Thread, c: Choice)
    requires !Shared(x.main) && !InWait(x.main) && !InPark(x.main) && x.sub.NoSub? && LocalOk(x)
    ensures KeepsShape(x, x.(main := LoopNext(pending, few, x, c)))
  {
  }

  lemma LoopHoldings(pending: bool, few: bool, x: Thread, c: Choice)
    requires !Shared(x.main) && !InWait(x.main) && !InPark(x.main) && LocalOk(x)
    ensures KeepsHoldings(x, x.(main := LoopNext(pending, few, x, c)))
  {
  }

  lemma PeekOrder(x: Thread, c: Choice)
    requires (x.main.WaitFirst? || x.main.WaitSecond? || x.main.WaitThird?) && x.sub.NoSub? && LocalOk(x)
    ensures WaitStep(x, c).Some? && KeepsShape(x, WaitStep(x, c).value)
  {
  }

  lemma CasOrder(x: Thread, c: Choice)
    requires (x.main.ParkCas? || x.main.ParkUnwrap? || x.main.ParkNet?) && x.sub.NoSub? && LocalOk(x)
    ensures WaitStep(x, c).Some? && KeepsShape(x, WaitStep(x, c).value)
  {
  }

  lemma WaitOrder(x: Thread, c: Choice)
    requires InWait(x.main) && !x.main.Consume? && x.sub.NoSub? && LocalOk(x)
    ensures WaitStep(x, c).Some? && KeepsShape(x, WaitStep(x, c).value)
  {
    hide LocalOk, KeepsShape;
    if x.main.ParkCas? || x.main.ParkUnwrap? || x.main.ParkNet? { CasOrder(x, c); } else { PeekOrder(x, c); }
  }

  lemma WaitHoldings(x: Thread, c: Choice)
    requires InWait(x.main) && !x.main.Consume? && LocalOk(x) && WaitStep(x, c).Some?
    ensures KeepsHoldings(x, WaitStep(x, c).value)
  {
  }

  lemma ParkOrder(x: Thread, c: Choice)
    requires InPark(x.main) && x.sub.NoSub? && LocalOk(x)
    ensures ParkStep(x, c).Some? && KeepsShape(x, ParkStep(x, c).value)
  {
  }

  lemma ParkHoldings(x: Thread, c: Choice)
    requires InPark(x.main) && LocalOk(x) && ParkStep(x, c).Some?
    ensures KeepsHoldings(x, ParkStep(x, c).value)
  {
  }

  /** An own step of a thread in good order does not panic and is quiet, unless it stores the
      word that delivered an index. */
  lemma OwnQuiet(pending: bool, few: bool, x: Thread, c: Choice)
    requires !Shared(x.main) && !x.main.Consume? && x.sub.NoSub? && LocalOk(x)
    ensures var r := OwnStep(pending, few, x, c); r.Some? && r.value.sub == x.sub && QuietChange(x, r.value)
  {
    if InWait(x.main) {
      WaitOrder(x, c); WaitHoldings(x, c);
    } else if InPark(x.main) {
      ParkOrder(x, c); ParkHoldings(x, c);
    } else {
      LoopOrder(pending, few, x, c); LoopHoldings(pending, few, x, c);
    }
  }

  /** The store of `poll_unparked` takes the delivered index out of the word. */
  lemma ConsumeShape(x: Thread, c: Choice)
    requires x.main.Consume? && x.sub.NoSub? && LocalOk(x)
    ensures var y := WaitStep(x, c).value;
      KeepsShape(x, y) && y.sub == x.sub && MainIndex(x).None? && WordIndex(y).None? && MainIndex(y) == WordIndex(x)
      && SubIndex(y) == SubIndex(x) && TokensOf(y) == TokensOf(x) && PoolOf(y) == PoolOf(x)
  {
  }

  lemma ConsumePlaces(s: Sys, t: Tid, y: Thread)
    requires Conserved(s) && t in s.th && SubIndex(y) == SubIndex(s.th[t])
    requires MainIndex(s.th[t]).None? && WordIndex(y).None? && MainIndex(y) == WordIndex(s.th[t])
    ensures Conserved(Put(s, t, y))
  {
    if MainIndex(y).None? { PlacesKept(s, Put(s, t, y), t, y); } else { Moved(s, Put(s, t, y), InWord(t), InMain(t)); }
  }

  lemma OwnSteps(s: Sys, t: Tid, c: Choice)
    requires Inv(s) && t in s.th && s.th[t].sub.NoSub? && !Shared(s.th[t].main)
    ensures MainStep(s, t, c).Some? && Inv(MainStep(s, t, c).value)
  {
    assert LocalOk(s.th[t]);
    if s.th[t].main.Consume? {
      ConsumeShape(s.th[t], c);
      var y := WaitStep(s.th[t], c).value;
      ConsumePlaces(s, t, y);
      Joined(s, Put(s, t, y), t, y);
    } else {
      OwnQuiet(s.pending, 2 * s.searching < s.n, s.th[t], c);
      Quiet(s, t, OwnStep(s.pending, 2 * s.searching < s.n, s.th[t], c).value);
    }
  }

  // ---- shared steps ------------------------------------------------------------------------

  predicate Tallied(m: Main) {
    m.RetryAdd? || m.SearchAdd? || m.Found? || m.DropSearch? || m.WaitPush? || m.Unlist? || m.Finish?
  }

  /** A step of the loop: the word stays, no call is under way or `notify` is about to begin,
      and the thread neither is at a seat nor goes to sleep. */
  predicate LoopChange(x: Thread, y: Thread) {
    && y.word == x.word && y.pooled == x.pooled
    && x.sub.NoSub? && (y.sub.NoSub? || y.sub.NotifyPending?)
    && !AtSeat(x.main) && !AtSeat(y.main) && !y.main.ParkWait? && !y.main.ParkBlocked?
  }

  lemma LoopChangeKeeps(x: Thread, y: Thread)
    requires LoopChange(x, y) && y.producer == x.producer
    ensures SameSeat(x, y) && QuietSignals(x, y)
    ensures SubIndex(x) == SubIndex(y) && WordIndex(x) == WordIndex(y)
    ensures !SubToken(x) && !SubToken(y) && WordToken(x) == WordToken(y) && !Spawning(x) && !Spawning(y)
  {
  }

  lemma TallyChange(x: Thread, last: bool, c: Choice)
    requires Tallied(x.main) && x.sub.NoSub?
    ensures LoopChange(x, TallyNext(x, last, c))
  {
  }

  lemma TallyLocal(x: Thread, last: bool, c: Choice)
    requires Tallied(x.main) && LocalOk(x)
    ensures LocalOk(TallyNext(x, last, c))
  {
  }

  lemma TallyBooks(x: Thread, last: bool, c: Choice)
    requires Tallied(x.main) && LocalOk(x)
    ensures var y := TallyNext(x, last, c);
      && y.producer == x.producer && MainIndex(y) == MainIndex(x)
      && SearchDelta(x) == B(MainToken(y)) - B(MainToken(x))
      && SpawnDelta(x) == B(Spawned(y)) - B(Spawned(x))
  {
  }

  lemma TallyNoPanic(s: Sys, t: Tid, c: Choice)
    requires Inv(s) && t in s.th && Tallied(s.th[t].main)
    ensures TallyStep(s, t, c).Some?
  {
    assert LocalOk(s.th[t]);
    TallyBooks(s.th[t], s.searching == 1, c);
    TokensAtLeast(s.th, t);
  }

  lemma TallySteps(s: Sys, t: Tid, c: Choice)
    requires Inv(s) && t in s.th && s.th[t].sub.NoSub? && Tallied(s.th[t].main)
    ensures TallyStep(s, t, c).Some? && Inv(TallyStep(s, t, c).value)
  {
    var x := s.th[t];
    var last := s.searching == 1;
    assert LocalOk(x);
    hide LocalOk, Conserved, Seats, Signals, Tokens, PoolThreads, TallyNext;
    TallyChange(x, last, c);
    TallyLocal(x, last, c);
    TallyBooks(x, last, c);
    LoopChangeKeeps(x, TallyNext(x, last, c));
    TallyNoPanic(s, t, c);
    Settled(s, TallyStep(s, t, c).value, t, TallyNext(x, last, c));
  }

  // ---- seats -------------------------------------------------------------------------------

  /** No thread but t is at worker i or holds i's producer. */
  ghost predicate Sole(s: Sys, t: Tid, i: nat) {
    forall u | u in s.th && u != t :: s.th[u].producer != Some(i) && (AtSeat(s.th[u].main) ==> s.th[u].wi != Some(i))
  }

  lemma WorkerIndex(x: Thread)
    requires LocalOk(x)
    ensures x.producer.Some? ==> MainIndex(x) == x.producer
    ensures AtSeat(x.main) ==> x.wi.Some? && MainIndex(x) == x.wi
  {
  }

  /** Exclusive possession of an index makes its thread the only one at the seat. */
  lemma HolderIsSole(s: Sys, t: Tid, i: nat)
    requires Conserved(s) && t in s.th && MainIndex(s.th[t]) == Some(i)
    requires forall u | u in s.th :: LocalOk(s.th[u])
    ensures i < s.n && Sole(s, t, i)
  {
    assert At(s, InMain(t)) == Some(i);
    forall u | u in s.th && u != t
      ensures s.th[u].producer != Some(i) && (AtSeat(s.th[u].main) ==> s.th[u].wi != Some(i))
    {
      WorkerIndex(s.th[u]);
      assert MainIndex(s.th[u]) == Some(i) ==> SameHeld(s, InMain(t), InMain(u));
    }
  }

  /** `try_lock().unwrap()` and the unwraps of the swap find what they expect. */
  lemma SeatState(s: Sys, t: Tid, i: nat)
    requires Seats(s) && t in s.th && i < s.n && Sole(s, t, i)
    ensures !AtSeat(s.th[t].main) ==> s.seats[i].lock.None?
    ensures s.seats[i].producer == if s.th[t].producer == Some(i) then None else Some(i)
  {
    if s.seats[i].producer.None? {
      var u :| u in s.th && s.th[u].producer == Some(i);
    }
  }

  lemma SeatLocked(s: Sys, s': Sys, t: Tid, y: Thread, i: nat)
    requires Seats(s) && t in s.th && i < s.n && s.seats[i].lock.None? && !AtSeat(s.th[t].main)
    requires AtSeat(y.main) && y.wi == Some(i) && y.producer == s.th[t].producer
    requires s'.n == s.n && s'.th == s.th[t := y] && s'.seats == s.seats[i := s.seats[i].(lock := Some(t))]
    ensures Seats(s')
  {
    forall k: nat | k < s'.n && s'.seats[k].producer.None?
      ensures exists u :: u in s'.th && s'.th[u].producer == Some(k)
    {
      var u :| u in s.th && s.th[u].producer == Some(k);
      assert u in s'.th && s'.th[u].producer == Some(k);
    }
  }

  lemma SeatSwapped(s: Sys, s': Sys, t: Tid, y: Thread, i: nat)
    requires Seats(s) && t in s.th && i < s.n && Sole(s, t, i) && AtSeat(s.th[t].main) && s.th[t].wi == Some(i)
    requires s.th[t].producer == None || s.th[t].producer == Some(i)
    requires !AtSeat(y.main) && y.producer == s.seats[i].producer
    requires s'.n == s.n && s'.th == s.th[t := y] && s'.seats == s.seats[i := Seat(None, s.th[t].producer)]
    ensures Seats(s')
  {
    SeatState(s, t, i);
    forall k: nat | k < s'.n && s'.seats[k].producer.None?
      ensures exists u :: u in s'.th && s'.th[u].producer == Some(k)
    {
      if k == i { assert s'.th[t].producer == Some(k); }
      else {
        var u :| u in s.th && s.th[u].producer == Some(k);
        assert u in s'.th && s'.th[u].producer == Some(k);
      }
    }
  }

  predicate SeatChange(x: Thread, y: Thread) {
    LocalOk(y) && SameIndices(x, y) && SameTokens(x, y) && QuietSignals(x, y) && x.sub.NoSub? && y.sub.NoSub?
  }

  /** The rest of the invariant in a step that changes a seat and nothing else shared. */
  lemma Reseated(s: Sys, s': Sys, t: Tid, y: Thread)
    requires Inv(s) && t in s.th && s' == Put(s, t, y).(seats := s'.seats) && Seats(s')
    requires SeatChange(s.th[t], y)
    ensures Inv(s')
  {
    PlacesKept(s, s', t, y);
    SignalsKept(s, s', t, y);
    OneThread(s, s', t, y);
  }

  /** Thread-local effect of the four seat steps; a successful swap hands p over. */
  lemma SeatShape(x: Thread, i: nat, y: Thread)
    requires x.sub.NoSub? && LocalOk(x)
    requires
      || (x.main.TakeSeat? && x.main.i == i &&
        y == x.(main := SeatTaken(x.main.found), wi := Some(i), searching := true))
      || (x.main.SeatTaken? && x.wi == Some(i)
          && y == x.(main := if x.main.found then Found(false) else PollFuture, producer := Some(i)))
      || (x.main.GiveSeat? && y == x.(main := SeatGiven(x.main.exit)))
      || (x.main.SeatGiven? && x.wi == Some(i)
          && y == x.(main := PushIdle(i, x.searching, x.main.exit), wi := None, producer := None, searching := false))
    ensures SeatChange(x, y)
  {
  }

  /** What the owner of worker i finds at its seat. */
  lemma AtOwnSeat(s: Sys, t: Tid, i: nat)
    requires Inv(s) && t in s.th && MainIndex(s.th[t]) == Some(i)
    ensures i < s.n == |s.seats| && Seats(s) && Sole(s, t, i)
    ensures !AtSeat(s.th[t].main) ==> s.seats[i].lock.None?
    ensures s.seats[i].producer == if s.th[t].producer == Some(i) then None else Some(i)
  {
    hide LocalOk, Signals, Tokens, PoolThreads, Sole, MainIndex, AtSeat;
    HolderIsSole(s, t, i);
    SeatState(s, t, i);
  }

  lemma LockKeeps(s: Sys, s': Sys, t: Tid, y: Thread, i: nat)
    requires Inv(s) && t in s.th && MainIndex(s.th[t]) == Some(i) && SeatChange(s.th[t], y)
    requires !AtSeat(s.th[t].main) && AtSeat(y.main) && y.wi == Some(i) && y.producer == s.th[t].producer
    requires i < |s.seats| && s' == Put(s, t, y).(seats := s.seats[i := s.seats[i].(lock := Some(t))])
    ensures Inv(s')
  {
    AtOwnSeat(s, t, i);
    hide Inv, LocalOk, Seats, Sole, AtSeat, MainIndex, SameIndices, SameTokens, QuietSignals;
    SeatLocked(s, s', t, y, i);
    Reseated(s, s', t, y);
  }

  lemma SwapKeeps(s: Sys, s': Sys, t: Tid, y: Thread, i: nat)
    requires Inv(s) && t in s.th && MainIndex(s.th[t]) == Some(i) && SeatChange(s.th[t], y)
    requires AtSeat(s.th[t].main) && s.th[t].wi == Some(i) && (s.th[t].producer == None || s.th[t].producer == Some(i))
    requires !AtSeat(y.main) && i < |s.seats| && y.producer == s.seats[i].producer
    requires s' == Put(s, t, y).(seats := s.seats[i := Seat(None, s.th[t].producer)])
    ensures Inv(s')
  {
    AtOwnSeat(s, t, i);
    hide Inv, LocalOk, Seats, Sole, AtSeat, MainIndex, SameIndices, SameTokens, QuietSignals;
    SeatSwapped(s, s', t, y, i);
    Reseated(s, s', t, y);
  }

  lemma AtSeatFacts(x: Thread)
    requires LocalOk(x) && (x.main.SeatTaken? || x.main.GiveSeat? || x.main.SeatGiven?)
    ensures x.wi.Some? && MainIndex(x) == x.wi && x.producer == if x.main.SeatTaken? then None else x.wi
  {
  }

  lemma TakeSeatKeeps(s: Sys, t: Tid, i: nat, found: bool)
    requires Inv(s) && t in s.th && s.th[t].sub.NoSub? && s.th[t].main == TakeSeat(i, found)
    ensures TakeSeatStep(s, t, i, found).Some? && Inv(TakeSeatStep(s, t, i, found).value)
  {
    var x := s.th[t];
    var y := x.(main := SeatTaken(found), wi := Some(i), searching := true);
    assert LocalOk(x);
    hide Inv, Seats, Sole, SeatChange, LocalOk;
    AtOwnSeat(s, t, i);
    SeatShape(x, i, y);
    LockKeeps(s, TakeSeatStep(s, t, i, found).value, t, y, i);
  }

  lemma SeatTakenKeeps(s: Sys, t: Tid, found: bool)
    requires Inv(s) && t in s.th && s.th[t].sub.NoSub? && s.th[t].main == SeatTaken(found)
    ensures SeatTakenStep(s, t, found).Some? && Inv(SeatTakenStep(s, t, found).value)
  {
    var x := s.th[t];
    assert LocalOk(x);
    hide Inv, Seats, Sole, SeatChange, LocalOk, MainIndex;
    AtSeatFacts(x);
    var i := x.wi.value;
    var y := x.(main := if found then Found(false) else PollFuture, producer := Some(i));
    AtOwnSeat(s, t, i);
    SeatShape(x, i, y);
    SwapKeeps(s, SeatTakenStep(s, t, found).value, t, y, i);
  }

  lemma GiveSeatKeeps(s: Sys, t: Tid, exit: bool)
    requires Inv(s) && t in s.th && s.th[t].sub.NoSub? && s.th[t].main == GiveSeat(exit)
    ensures GiveSeatStep(s, t, exit).Some? && Inv(GiveSeatStep(s, t, exit).value)
  {
    var x := s.th[t];
    assert LocalOk(x);
    hide Inv, Seats, Sole, SeatChange, LocalOk, MainIndex;
    AtSeatFacts(x);
    var i := x.wi.value;
    var y := x.(main := SeatGiven(exit));
    AtOwnSeat(s, t, i);
    SeatShape(x, i, y);
    LockKeeps(s, GiveSeatStep(s, t, exit).value, t, y, i);
  }

  lemma SeatGivenKeeps(s: Sys, t: Tid, exit: bool)
    requires Inv(s) && t in s.th && s.th[t].sub.NoSub? && s.th[t].main == SeatGiven(exit)
    ensures SeatGivenStep(s, t, exit).Some? && Inv(SeatGivenStep(s, t, exit).value)
  {
    var x := s.th[t];
    assert LocalOk(x);
    hide Inv, Seats, Sole, SeatChange, LocalOk, MainIndex;
    AtSeatFacts(x);
    var i := x.wi.value;
    var y := x.(main := PushIdle(i, x.searching, exit), wi := None, producer := None, searching := false);
    AtOwnSeat(s, t, i);
    SeatShape(x, i, y);
    SwapKeeps(s, SeatGivenStep(s, t, exit).value, t, y, i);
  }

  // ---- the idle list -----------------------------------------------------------------------

  /** Places after an index went from thread t to the end of the idle list, or back. */
  lemma ListPlaces(s: Sys, s': Sys, t: Tid, y: Thread, own: Place)
    requires Conserved(s) && t in s.th && s'.n == s.n && s'.th == s.th[t := y]
    requires own == InMain(t) || own == InSub(t)
    requires WordIndex(y) == WordIndex(s.th[t])
    requires own == InMain(t) ==> SubIndex(y) == SubIndex(s.th[t])
    requires own == InSub(t) ==> MainIndex(y) == MainIndex(s.th[t])
    requires At(s', own) != At(s, own)
    requires (At(s, own).Some? && At(s', own).None? && s'.indices == s.indices + [At(s, own).value])
          || (At(s, own).None? && At(s', own).Some? && s.indices == s'.indices + [At(s', own).value])
    ensures Conserved(s')
  {
    if At(s, own).Some? { Moved(s, s', own, InIdle(|s.indices|)); } else { Moved(s, s', InIdle(|s'.indices|), own); }
  }

  /** What a thread keeps beside the index it takes from the list or returns. */
  predicate ListChange(x: Thread, y: Thread, own: Option<nat>, own': Option<nat>) {
    && KeepsShape(x, y) && WordIndex(y) == WordIndex(x)
    && TokensOf(y) == TokensOf(x) && PoolOf(y) == PoolOf(x)
    && ((MainIndex(x) == own && MainIndex(y) == own' && SubIndex(y) == SubIndex(x))
        || (SubIndex(x) == own && SubIndex(y) == own' && MainIndex(y) == MainIndex(x)))
  }

  lemma ListTaken(s: Sys, s': Sys, t: Tid, y: Thread)
    requires Inv(s) && t in s.th && s.indices != []
    requires s' == Put(s, t, y).(indices := s.indices[..|s.indices| - 1], pending := PopFlag(s))
    requires SubKnown(s, y) && ListChange(s.th[t], y, None, Some(s.indices[|s.indices| - 1]))
    ensures Inv(s')
  {
    hide LocalOk, Seats, Signals, Tokens, PoolThreads, KeepsShape, MainToken, SubToken, WordToken, Spawned,
      Spawning, MainIndex, SubIndex, WordIndex;
    assert Conserved(s') by {
      hide Conserved;
      assert s.indices != [] ==> s.indices == s.indices[..|s.indices| - 1] + [s.indices[|s.indices| - 1]];
      ListPlaces(s, s', t, y, if MainIndex(y) == MainIndex(s.th[t]) then InSub(t) else InMain(t));
    }
    hide Conserved;
    Joined(s, s', t, y);
  }

  lemma ListReturned(s: Sys, s': Sys, t: Tid, y: Thread, i: nat)
    requires Inv(s) && t in s.th
    requires s' == Put(s, t, y).(indices := s.indices + [i], pending := true)
    requires SubKnown(s, y) && ListChange(s.th[t], y, Some(i), None)
    ensures Inv(s')
  {
    hide LocalOk, Seats, Signals, Tokens, PoolThreads, KeepsShape, MainToken, SubToken, WordToken, Spawned,
      Spawning, MainIndex, SubIndex, WordIndex;
    assert Conserved(s') by {
      hide Conserved;
      ListPlaces(s, s', t, y, if MainIndex(y) == MainIndex(s.th[t]) then InSub(t) else InMain(t));
    }
    hide Conserved;
    Joined(s, s', t, y);
  }

  /** Thread-local effect of taking an index from the list or returning it. */
  lemma ListShape(x: Thread, y: Thread)
    requires x.sub.NoSub? && LocalOk(x)
    requires
      || (x.main.RetryPop? && y == x.(main := Missed(x.main.site)))
      || (x.main.RetryPop? && y.main.RetryAdd? && y == x.(main := RetryAdd(x.main.site, y.main.i)))
      || (x.main.PushIdle? && y == x.(main := DropSearch(x.main.was, x.main.exit)))
    ensures KeepsShape(x, y) && SameTokens(x, y) && SubIndex(y) == SubIndex(x) && WordIndex(y) == WordIndex(x)
    ensures MainIndex(x) == (if x.main.PushIdle? then Some(x.main.i) else None)
    ensures MainIndex(y) == if y.main.RetryAdd? then Some(y.main.i) else None
  {
  }

  lemma ListTakes(x: Thread, y: Thread, i: nat)
    requires x.sub.NoSub? && LocalOk(x) && x.main.RetryPop? && y == x.(main := RetryAdd(x.main.site, i))
    ensures ListChange(x, y, None, Some(i))
  {
    ListShape(x, y);
    hide KeepsShape, LocalOk, MainToken, SubToken, WordToken;
  }

  lemma ListReturns(x: Thread, y: Thread)
    requires x.sub.NoSub? && LocalOk(x) && x.main.PushIdle? && y == x.(main := DropSearch(x.main.was, x.main.exit))
    ensures ListChange(x, y, Some(x.main.i), None)
  {
    ListShape(x, y);
    hide KeepsShape, LocalOk, MainToken, SubToken, WordToken;
  }

  /** The same for the calls of `notify`. */
  lemma ListCalls(x: Thread, y: Thread, i: nat)
    requires LocalOk(x)
    requires (x.sub.IdlePop? && y == x.(sub := Spawn(i))) || (x.sub == PushBack(i) && y == x.(sub := Release))
    ensures if x.sub.IdlePop? then ListChange(x, y, None, Some(i)) else ListChange(x, y, Some(i), None)
  {
    SubShape(x, y.sub);
    hide KeepsShape, LocalOk, MainToken;
  }

  lemma RetryMisses(s: Sys, t: Tid, site: Site)
    requires Inv(s) && t in s.th && s.th[t].sub.NoSub? && s.th[t].main == RetryPop(site)
    ensures Inv(Put(s, t, s.th[t].(main := Missed(site))))
  {
    var x := s.th[t];
    ListShape(x, x.(main := Missed(site)));
    hide LocalOk, Conserved, Seats, Signals, Tokens, PoolThreads, KeepsShape;
    Quiet(s, t, x.(main := Missed(site)));
  }

  lemma RetryTakes(s: Sys, t: Tid, site: Site)
    requires Inv(s) && t in s.th && s.th[t].sub.NoSub? && s.th[t].main == RetryPop(site) && s.indices != []
    ensures RetryPopStep(s, t, site).Some? && Inv(RetryPopStep(s, t, site).value)
  {
    var x := s.th[t];
    var y := x.(main := RetryAdd(site, s.indices[|s.indices| - 1]));
    assert LocalOk(x);
    hide Inv, LocalOk, ListChange;
    ListTakes(x, y, y.main.i);
    ListTaken(s, RetryPopStep(s, t, site).value, t, y);
  }

  lemma RetryPopKeeps(s: Sys, t: Tid, site: Site)
    requires Inv(s) && t in s.th && s.th[t].sub.NoSub? && s.th[t].main == RetryPop(site)
    ensures RetryPopStep(s, t, site).Some? && Inv(RetryPopStep(s, t, site).value)
  {
    hide Inv;
    if s.indices == [] { RetryMisses(s, t, site); } else { RetryTakes(s, t, site); }
  }

  lemma PushIdleKeeps(s: Sys, t: Tid, i: nat, was: bool, exit: bool)
    requires Inv(s) && t in s.th && s.th[t].sub.NoSub? && s.th[t].main == PushIdle(i, was, exit)
    ensures PushIdleStep(s, t, i, was, exit).Some? && Inv(PushIdleStep(s, t, i, was, exit).value)
  {
    var x := s.th[t];
    var y := x.(main := DropSearch(was, exit));
    assert LocalOk(x);
    hide Inv, LocalOk, ListChange;
    ListReturns(x, y);
    ListReturned(s, PushIdleStep(s, t, i, was, exit).value, t, y, i);
  }

  lemma SharedSteps(s: Sys, t: Tid, c: Choice)
    requires Inv(s) && t in s.th && s.th[t].sub.NoSub? && Shared(s.th[t].main)
    ensures SharedStep(s, t, c).Some? && Inv(SharedStep(s, t, c).value)
  {
    var m := s.th[t].main;
    if m.RetryPop? { RetryPopKeeps(s, t, m.site); }
    else if m.TakeSeat? { TakeSeatKeeps(s, t, m.i, m.found); }
    else if m.SeatTaken? { SeatTakenKeeps(s, t, m.found); }
    else if m.GiveSeat? { GiveSeatKeeps(s, t, m.exit); }
    else if m.SeatGiven? { SeatGivenKeeps(s, t, m.exit); }
    else if m.PushIdle? { PushIdleKeeps(s, t, m.i, m.was, m.exit); }
    else { TallySteps(s, t, c); }
  }

  // ---- notify and spawn ----------------------------------------------------------------------

  lemma SubShape(x: Thread, sub: Sub)
    requires LocalOk(x) && !x.sub.SignalLock? && !x.sub.SignalNotify?
    ensures var y := x.(sub := sub);
      && KeepsShape(x, y) && MainIndex(y) == MainIndex(x) && WordIndex(y) == WordIndex(x)
      && TokensOf(y) - B(SubToken(y)) == TokensOf(x) - B(SubToken(x))
      && PoolOf(y) - B(Spawning(y)) == PoolOf(x) - B(Spawning(x))
  {
  }

  /** A call makes progress without touching an index, the list or another thread. */
  lemma SubSettled(s: Sys, s': Sys, t: Tid, sub: Sub)
    requires Inv(s) && t in s.th && !s.th[t].sub.SignalLock? && !s.th[t].sub.SignalNotify?
    requires s' == Put(s, t, s.th[t].(sub := sub)).(searching := s'.searching, spawned := s'.spawned, pool := s'.pool)
    requires SubIndex(s.th[t].(sub := sub)) == SubIndex(s.th[t]) && SubKnown(s, s.th[t].(sub := sub))
    requires forall u | u in s'.pool :: u in s.th
    requires s'.searching - s.searching == B(SubToken(s.th[t].(sub := sub))) - B(SubToken(s.th[t]))
    requires s'.spawned - s.spawned == B(Spawning(s.th[t].(sub := sub))) - B(Spawning(s.th[t])) && s'.spawned <= s.max
    ensures Inv(s')
  {
    var x := s.th[t];
    assert LocalOk(x);
    SubShape(x, sub);
    Settled(s, s', t, x.(sub := sub));
  }

  predicate Notifying(m: Sub) {
    m.NotifyPending? || m.NotifyLoad? || m.NotifyCas? || m.IdleLoad? || m.Release? || m.Spawn?
  }

  /** A step of `notify` keeps the index it carries and books the token it takes or returns. */
  lemma NotifyBooks(s: Sys, x: Thread)
    requires Notifying(x.sub) && s.spawned <= s.max && (forall u | u in s.pool :: u in s.th)
    ensures var y := x.(sub := NotifyNext(s, x.sub));
      && SubIndex(y) == SubIndex(x) && SubKnown(s, y) && !Spawning(x) && (Spawning(y) ==> s.spawned < s.max)
      && B(SubToken(y)) - B(SubToken(x)) ==
           (if x.sub.NotifyCas? && y.sub.IdleLoad? then 1 else if x.sub.Release? then -1 else 0)
      && (x.sub.NotifyCas? && y.sub.IdleLoad? ==> s.searching == 0)
  {
    if x.sub.Spawn? && s.pool != [] { assert s.pool[0] in s.pool; }
  }

  lemma NotifySteps(s: Sys, t: Tid)
    requires Inv(s) && t in s.th && Notifying(s.th[t].sub)
    ensures NotifyStep(s, t).Some? && Inv(NotifyStep(s, t).value)
  {
    assert NotifyStep(s, t).Some? by { TokensAtLeast(s.th, t); }
    NotifyBooks(s, s.th[t]);
    SubSettled(s, NotifyStep(s, t).value, t, NotifyNext(s, s.th[t].sub));
  }

  lemma IdleTakes(s: Sys, t: Tid)
    requires Inv(s) && t in s.th && s.th[t].sub.IdlePop? && s.indices != []
    ensures IdlePopStep(s, t).Some? && Inv(IdlePopStep(s, t).value)
  {
    var x := s.th[t];
    var y := x.(sub := Spawn(s.indices[|s.indices| - 1]));
    assert LocalOk(x);
    hide Inv, LocalOk, ListChange;
    ListCalls(x, y, y.sub.i);
    ListTaken(s, IdlePopStep(s, t).value, t, y);
  }

  lemma IdlePopKeeps(s: Sys, t: Tid)
    requires Inv(s) && t in s.th && s.th[t].sub.IdlePop?
    ensures IdlePopStep(s, t).Some? && Inv(IdlePopStep(s, t).value)
  {
    if s.indices == [] {
      hide LocalOk, Conserved, Seats, Signals, Tokens, PoolThreads;
      SubSettled(s, IdlePopStep(s, t).value, t, Release);
    } else {
      IdleTakes(s, t);
    }
  }

  lemma PushBackKeeps(s: Sys, t: Tid, i: nat)
    requires Inv(s) && t in s.th && s.th[t].sub == PushBack(i)
    ensures PushBackStep(s, t, i).Some? && Inv(PushBackStep(s, t, i).value)
  {
    var x := s.th[t];
    var y := x.(sub := Release);
    assert LocalOk(x);
    hide Inv, LocalOk, ListChange;
    ListCalls(x, y, i);
    ListReturned(s, PushBackStep(s, t, i).value, t, y, i);
  }

  // ---- two threads change ----------------------------------------------------------------------

  lemma TwoTokens(th: map<Tid, Thread>, p: Tid, yp: Thread, t: Tid, yt: Thread)
    requires t in th[p := yp]
    requires (if p in th then TokensOf(th[p]) else 0) + TokensOf(th[p := yp][t]) == TokensOf(yp) + TokensOf(yt)
    requires (if p in th then PoolOf(th[p]) else 0) + PoolOf(th[p := yp][t]) == PoolOf(yp) + PoolOf(yt)
    ensures Tokens(th[p := yp][t := yt]) == Tokens(th) && PoolThreads(th[p := yp][t := yt]) == PoolThreads(th)
  {
    TokensPut(th, p, yp);
    TokensPut(th[p := yp], t, yt);
  }

  lemma TwoSeats(s: Sys, s': Sys, p: Tid, yp: Thread, t: Tid, yt: Thread)
    requires Seats(s) && t in s.th && s' == Put(Put(s, p, yp), t, yt)
    requires if p in s.th then SameSeat(s.th[p], yp) else yp.producer.None? && !AtSeat(yp.main)
    requires SameSeat(Put(s, p, yp).th[t], yt)
    ensures Seats(s')
  {
    SeatsKept(s, Put(s, p, yp), p, yp);
    SeatsKept(Put(s, p, yp), s', t, yt);
  }

  lemma TwoKnown(s: Sys, s': Sys, p: Tid, yp: Thread, t: Tid, yt: Thread)
    requires Known(s) && s' == Put(Put(s, p, yp), t, yt) && SubKnown(s', yp) && SubKnown(s', yt)
    ensures Known(s')
  {
  }

  lemma TwoThreads(s: Sys, s': Sys, p: Tid, yp: Thread, t: Tid, yt: Thread)
    requires Inv(s) && t in s.th && s' == Put(Put(s, p, yp), t, yt)
    requires LocalOk(yp) && LocalOk(yt) && SubKnown(s', yp) && SubKnown(s', yt)
    requires if p in s.th then SameSeat(s.th[p], yp) else yp.producer.None? && !AtSeat(yp.main)
    requires SameSeat(Put(s, p, yp).th[t], yt)
    requires (if p in s.th then TokensOf(s.th[p]) else 0) + TokensOf(Put(s, p, yp).th[t]) == TokensOf(yp) + TokensOf(yt)
    requires (if p in s.th then PoolOf(s.th[p]) else 0) + PoolOf(Put(s, p, yp).th[t]) == PoolOf(yp) + PoolOf(yt)
    requires Conserved(s') && Signals(s')
    ensures Inv(s')
  {
    hide LocalOk, Conserved, Signals, Seats, Tokens, PoolThreads, TokensOf, PoolOf, Known, SubKnown;
    TwoTokens(s.th, p, yp, t, yt);
    TwoSeats(s, s', p, yp, t, yt);
    TwoKnown(s, s', p, yp, t, yt);
  }

  lemma StartedSignals(s: Sys, s': Sys, t: Tid, y: Thread, yt: Thread, u: Tid)
    requires Signals(s) && t in s.th && u !in s.th && !y.word.Notified? && QuietSignals(s.th[t], yt)
    requires s' == Put(Put(s, u, y), t, yt)
    ensures Signals(s')
  {
    hide Signals, QuietSignals;
    SignalsKept(s, Put(s, u, y), u, y);
    SignalsKept(Put(s, u, y), s', t, yt);
  }

  lemma StartedPlaces(s: Sys, t: Tid, i: nat, u: Tid)
    requires Conserved(s) && t in s.th && u !in s.th && s.th[t].sub == SpawnThread(i)
    ensures Conserved(Put(Put(s, u, NewThread(Unstarted(i), true)), t, s.th[t].(sub := NoSub)))
  {
    Moved(s, Put(Put(s, u, NewThread(Unstarted(i), true)), t, s.th[t].(sub := NoSub)), InSub(t), InMain(u));
  }

  lemma StartedShape(x: Thread, i: nat)
    requires LocalOk(x) && x.sub == SpawnThread(i)
    ensures var y, z := NewThread(Unstarted(i), true), x.(sub := NoSub);
      && LocalOk(y) && LocalOk(z) && y.producer.None? && !AtSeat(y.main) && !y.word.Notified?
      && SameSeat(x, z) && QuietSignals(x, z)
      && TokensOf(x) == TokensOf(y) + TokensOf(z) && PoolOf(x) == PoolOf(y) + PoolOf(z)
  {
  }

  lemma Started(s: Sys, t: Tid, i: nat, u: Tid)
    requires Inv(s) && t in s.th && u !in s.th && s.th[t].sub == SpawnThread(i)
    ensures Inv(Put(Put(s, u, NewThread(Unstarted(i), true)), t, s.th[t].(sub := NoSub)))
  {
    var x := s.th[t];
    assert LocalOk(x) && Conserved(s) && Signals(s);
    hide Inv, LocalOk, Conserved, Signals, TokensOf, PoolOf, SameSeat, QuietSignals;
    var y, z := NewThread(Unstarted(i), true), x.(sub := NoSub);
    var s' := Put(Put(s, u, y), t, z);
    StartedShape(x, i);
    StartedPlaces(s, t, i, u);
    StartedSignals(s, s', t, y, z, u);
    TwoThreads(s, s', u, y, t, z);
  }

  lemma SpawnThreadKeeps(s: Sys, t: Tid, i: nat, c: Choice)
    requires Inv(s) && t in s.th && s.th[t].sub == SpawnThread(i)
    ensures SpawnThreadStep(s, t, i, c).Some? && Inv(SpawnThreadStep(s, t, i, c).value)
  {
    if c.flag && c.tid !in s.th {
      Started(s, t, i, c.tid);
    } else if !c.flag {
      TokensAtLeast(s.th, t);
      SubSettled(s, SpawnThreadStep(s, t, i, c).value, t, PushBack(i));
    }
  }

  // ---- unpark and its signal ---------------------------------------------------------------

  /** p after `unpark` has stored w in its word. */
  lemma DeliveredShape(x: Thread, w: Option<nat>)
    requires LocalOk(x) && Accepts(x.word, w)
    ensures var y := x.(word := Notified(w));
      && LocalOk(y) && SameSeat(x, y) && y.sub == x.sub && WordIndex(x).None? && WordIndex(y) == w
      && MainIndex(y) == MainIndex(x) && SubIndex(y) == SubIndex(x)
      && TokensOf(y) == TokensOf(x) + B(w.Some?) && PoolOf(y) == PoolOf(x)
      && (!x.word.Waiting? ==> !y.main.ParkWait? && !y.main.ParkBlocked?)
  {
  }

  lemma DeliveredPlaces(s: Sys, s': Sys, p: Tid, w: Option<nat>, t: Tid, sub: Sub)
    requires Conserved(s) && t in s.th && p in s.th && WordIndex(s.th[p]).None? && SubIndex(s.th[t]) == w
    requires var s1 := Put(s, p, s.th[p].(word := Notified(w))); s' == Put(s1, t, s1.th[t].(sub := sub))
    requires sub == NoSub || sub.SignalLock?
    ensures Conserved(s')
  {
    if w.None? { SamePlaces(s, s'); } else { Moved(s, s', InSub(t), InWord(p)); }
  }

  lemma DeliveredSignals(s: Sys, s': Sys, p: Tid, w: Option<nat>, t: Tid, sub: Sub)
    requires Signals(s) && t in s.th && p in s.th && !s.th[t].sub.SignalLock? && !s.th[t].sub.SignalNotify?
    requires var s1 := Put(s, p, s.th[p].(word := Notified(w))); s' == Put(s1, t, s1.th[t].(sub := sub))
    requires sub == SignalLock(p) || (!s.th[p].main.ParkWait? && !s.th[p].main.ParkBlocked?)
    ensures Signals(s')
  {
    forall q | q in s'.th && s'.th[q].word.Notified?
      ensures s'.th[q].main.ParkWait? ==> LockDue(s', q)
      ensures s'.th[q].main.ParkBlocked? && s'.th[q].blocked ==> LockDue(s', q) || NotifyDue(s', q)
    {
      if sub == SignalLock(q) { assert s'.th[t].sub == SignalLock(q); }
      if LockDue(s, q) {
        var u :| u in s.th && s.th[u].sub == SignalLock(q);
        assert s'.th[u].sub == SignalLock(q);
      }
      if NotifyDue(s, q) {
        var u :| u in s.th && s.th[u].sub == SignalNotify(q);
        assert s'.th[u].sub == SignalNotify(q);
      }
    }
  }

  /** The unparker's own change: z becomes free of the index that x, the parker, was given. */
  lemma UnparkerShape(x: Thread, z: Thread, w: Option<nat>, sub: Sub)
    requires LocalOk(x) && LocalOk(z) && Accepts(x.word, w) && (sub.NoSub? || sub.SignalLock?)
    requires (z.sub.Unpark? && w.None?) || (z.sub.SpawnUnpark? && w == Some(z.sub.i))
    ensures var y, z' := x.(word := Notified(w)), z.(sub := sub);
      && LocalOk(y) && LocalOk(z') && SameSeat(x, y) && SameSeat(z, z')
      && TokensOf(x) + TokensOf(z) == TokensOf(y) + TokensOf(z') && PoolOf(x) + PoolOf(z) == PoolOf(y) + PoolOf(z')
  {
    DeliveredShape(x, w);
    SubShape(z, sub);
    hide LocalOk, SameSeat, MainToken, WordToken;
  }

  lemma InvAt(s: Sys, t: Tid)
    requires Inv(s) && t in s.th
    ensures LocalOk(s.th[t]) && Conserved(s) && Signals(s) && SubKnown(s, s.th[t])
  {
  }

  lemma DeliveredRest(s: Sys, s': Sys, p: Tid, w: Option<nat>, t: Tid, sub: Sub)
    requires Conserved(s) && Signals(s) && t in s.th && p in s.th && LocalOk(s.th[p]) && Accepts(s.th[p].word, w)
    requires s.th[t].sub == (match w case None => Unpark(p) case Some(i) => SpawnUnpark(i, p))
    requires sub == if s.th[p].word.Waiting? then SignalLock(p) else NoSub
    requires var s1 := Put(s, p, s.th[p].(word := Notified(w))); s' == Put(s1, t, s1.th[t].(sub := sub))
    ensures Conserved(s') && Signals(s')
  {
    DeliveredShape(s.th[p], w);
    hide LocalOk, Conserved, Signals, TokensOf, PoolOf, SameSeat, Accepts, WordIndex, MainIndex;
    DeliveredPlaces(s, s', p, w, t, sub);
    DeliveredSignals(s, s', p, w, t, sub);
  }

  lemma Delivered(s: Sys, p: Tid, w: Option<nat>, t: Tid, sub: Sub)
    requires Inv(s) && t in s.th && p in s.th && Accepts(s.th[p].word, w)
    requires s.th[t].sub == (match w case None => Unpark(p) case Some(i) => SpawnUnpark(i, p))
    requires sub == if s.th[p].word.Waiting? then SignalLock(p) else NoSub
    ensures var s1 := Put(s, p, s.th[p].(word := Notified(w))); Inv(Put(s1, t, s1.th[t].(sub := sub)))
  {
    hide Inv, LocalOk, Conserved, Signals, TokensOf, PoolOf, SameSeat, Accepts, WordIndex, MainIndex;
    InvAt(s, p);
    InvAt(s, t);
    var yp := s.th[p].(word := Notified(w));
    var s1 := Put(s, p, yp);
    var yt := s1.th[t].(sub := sub);
    DeliveredRest(s, Put(s1, t, yt), p, w, t, sub);
    if p == t { DeliveredShape(s.th[p], w); }
    UnparkerShape(s.th[p], s1.th[t], w, sub);
    TwoThreads(s, Put(s1, t, yt), p, yp, t, yt);
  }

  lemma UnparkKeeps(s: Sys, t: Tid, p: Tid, w: Option<nat>, refused: Sub)
    requires Inv(s) && t in s.th
    requires s.th[t].sub == (match w case None => Unpark(p) case Some(i) => SpawnUnpark(i, p))
    requires refused == (match w case None => NoSub case Some(i) => Spawn(i))
    ensures UnparkStep(s, t, p, w, refused).Some? && Inv(UnparkStep(s, t, p, w, refused).value)
  {
    assert SubKnown(s, s.th[t]);
    hide Inv, SubToken;
    if Accepts(s.th[p].word, w) {
      Delivered(s, p, w, t, if s.th[p].word.Waiting? then SignalLock(p) else NoSub);
    } else {
      SubSettled(s, UnparkStep(s, t, p, w, refused).value, t, refused);
    }
  }

  /** Going through the mutex: from now on the parker cannot be between its check and its wait. */
  lemma SignalLockSignals(s: Sys, t: Tid, p: Tid)
    requires Signals(s) && t in s.th && p in s.th && s.th[t].sub == SignalLock(p) && !s.th[p].main.ParkWait?
    ensures Signals(Put(s, t, s.th[t].(sub := SignalNotify(p))))
  {
    var s' := Put(s, t, s.th[t].(sub := SignalNotify(p)));
    assert NotifyDue(s', p) by { assert s'.th[t].sub == SignalNotify(p); }
    forall q | q in s'.th && s'.th[q].word.Notified? && q != p
      ensures s'.th[q].main.ParkWait? ==> LockDue(s', q)
      ensures s'.th[q].main.ParkBlocked? && s'.th[q].blocked ==> LockDue(s', q) || NotifyDue(s', q)
    {
      if LockDue(s, q) {
        var u :| u in s.th && s.th[u].sub == SignalLock(q);
        assert s'.th[u].sub == SignalLock(q);
      }
      if NotifyDue(s, q) {
        var u :| u in s.th && s.th[u].sub == SignalNotify(q);
        assert s'.th[u].sub == SignalNotify(q);
      }
    }
  }

  lemma SignalNotifySignals(s: Sys, s': Sys, t: Tid, p: Tid)
    requires Signals(s) && t in s.th && p in s.th && s.th[t].sub == SignalNotify(p)
    requires var s1 := Put(s, p, s.th[p].(blocked := false)); s' == Put(s1, t, s1.th[t].(sub := NoSub))
    ensures Signals(s')
  {
    forall q | q in s'.th && s'.th[q].word.Notified?
      ensures s'.th[q].main.ParkWait? ==> LockDue(s', q)
      ensures s'.th[q].main.ParkBlocked? && s'.th[q].blocked ==> LockDue(s', q) || NotifyDue(s', q)
    {
      if LockDue(s, q) {
        var u :| u in s.th && s.th[u].sub == SignalLock(q);
        assert s'.th[u].sub == SignalLock(q);
      }
      if NotifyDue(s, q) && q != p {
        var u :| u in s.th && s.th[u].sub == SignalNotify(q);
        assert s'.th[u].sub == SignalNotify(q);
      }
    }
  }

  /** Holdings of a thread after its signal, or after it was signalled. */
  lemma SignalShape(x: Thread, sub: Sub)
    requires LocalOk(x) && (x.sub.SignalLock? || x.sub.SignalNotify?) && (sub.SignalNotify? || sub.NoSub?)
    ensures var y := x.(sub := sub);
      LocalOk(y) && SameSeat(x, y) && SameIndices(x, y) && SameTokens(x, y)
  {
  }

  lemma UnblockedShape(x: Thread)
    requires LocalOk(x)
    ensures var y := x.(blocked := false);
      LocalOk(y) && SameSeat(x, y) && SameIndices(x, y) && SameTokens(x, y)
  {
  }

  lemma SignalLockKeeps(s: Sys, t: Tid, p: Tid)
    requires Inv(s) && t in s.th && p in s.th && s.th[t].sub == SignalLock(p) && !s.th[p].main.ParkWait?
    ensures Inv(Put(s, t, s.th[t].(sub := SignalNotify(p))))
  {
    var yt := s.th[t].(sub := SignalNotify(p));
    assert LocalOk(s.th[t]);
    SignalLockSignals(s, t, p);
    SignalShape(s.th[t], SignalNotify(p));
    PlacesKept(s, Put(s, t, yt), t, yt);
    SeatsKept(s, Put(s, t, yt), t, yt);
    OneThread(s, Put(s, t, yt), t, yt);
  }

  lemma UnblockedPlaces(s: Sys, s': Sys, t: Tid, p: Tid)
    requires Conserved(s) && t in s.th && p in s.th && s.th[t].sub == SignalNotify(p)
    requires var s1 := Put(s, p, s.th[p].(blocked := false)); s' == Put(s1, t, s1.th[t].(sub := NoSub))
    ensures Conserved(s')
  {
    SamePlaces(s, s');
  }

  lemma SignallerShape(x: Thread, z: Thread)
    requires LocalOk(x) && LocalOk(z) && z.sub.SignalNotify?
    ensures var y, z' := x.(blocked := false), z.(sub := NoSub);
      && LocalOk(y) && LocalOk(z') && SameSeat(x, y) && SameSeat(z, z')
      && TokensOf(x) + TokensOf(z) == TokensOf(y) + TokensOf(z') && PoolOf(x) + PoolOf(z) == PoolOf(y) + PoolOf(z')
  {
    UnblockedShape(x);
    SignalShape(z, NoSub);
    hide LocalOk, SameSeat, MainToken, SubToken, WordToken;
  }

  lemma SignalNotifyKeeps(s: Sys, t: Tid, p: Tid)
    requires Inv(s) && t in s.th && p in s.th && s.th[t].sub == SignalNotify(p)
    ensures var s1 := Put(s, p, s.th[p].(blocked := false)); Inv(Put(s1, t, s1.th[t].(sub := NoSub)))
  {
    assert LocalOk(s.th[t]) && LocalOk(s.th[p]) && Conserved(s) && Signals(s) && SubKnown(s, s.th[p]);
    UnblockedShape(s.th[p]);
    hide Inv, LocalOk, Conserved, Signals, TokensOf, PoolOf, SameSeat;
    var yp := s.th[p].(blocked := false);
    var s1 := Put(s, p, yp);
    var yt := s1.th[t].(sub := NoSub);
    SignallerShape(s.th[p], s1.th[t]);
    UnblockedPlaces(s, Put(s1, t, yt), t, p);
    SignalNotifySignals(s, Put(s1, t, yt), t, p);
    TwoThreads(s, Put(s1, t, yt), p, yp, t, yt);
  }

  lemma SignalKeeps(s: Sys, t: Tid, p: Tid)
    requires Inv(s) && t in s.th && (s.th[t].sub == SignalLock(p) || s.th[t].sub == SignalNotify(p))
    ensures SignalStep(s, t, p).Some? && Inv(SignalStep(s, t, p).value)
  {
    assert SubKnown(s, s.th[t]) && LocalOk(s.th[p]);
    if s.th[t].sub.SignalNotify? { SignalNotifyKeeps(s, t, p); }
    else if !s.th[p].locked { SignalLockKeeps(s, t, p); }
  }

  lemma SubSteps(s: Sys, t: Tid, c: Choice)
    requires Inv(s) && t in s.th && !s.th[t].sub.NoSub?
    ensures SubStep(s, t, c).Some? && Inv(SubStep(s, t, c).value)
  {
    var m := s.th[t].sub;
    if m.IdlePop? { IdlePopKeeps(s, t); }
    else if m.PushBack? { PushBackKeeps(s, t, m.i); }
    else if m.SpawnUnpark? { UnparkKeeps(s, t, m.p, Some(m.i), Spawn(m.i)); }
    else if m.SpawnThread? { SpawnThreadKeeps(s, t, m.i, c); }
    else if m.Unpark? { UnparkKeeps(s, t, m.p, None, NoSub); }
    else if m.SignalLock? || m.SignalNotify? { SignalKeeps(s, t, m.p); }
    else { NotifySteps(s, t); }
  }

  // ---- every event, every run ------------------------------------------------------------------

  lemma NewThreadShape(m: Main)
    requires m.Outside? || m.RetryLoad?
    ensures var y := NewThread(m, false);
      && LocalOk(y) && TokensOf(y) == 0 && PoolOf(y) == 0
      && MainIndex(y).None? && SubIndex(y).None? && WordIndex(y).None? && !AtSeat(y.main)
  {
  }

  lemma ArrivedPlaces(s: Sys, t: Tid, y: Thread)
    requires Conserved(s) && t !in s.th && MainIndex(y).None? && SubIndex(y).None? && WordIndex(y).None?
    ensures Conserved(Put(s, t, y))
  {
    SamePlaces(s, Put(s, t, y));
  }

  lemma Arrived(s: Sys, t: Tid, m: Main)
    requires Inv(s) && t !in s.th && (m.Outside? || m.RetryLoad?)
    ensures Inv(Put(s, t, NewThread(m, false)))
  {
    var y := NewThread(m, false);
    NewThreadShape(m);
    ArrivedPlaces(s, t, y);
    SeatsKept(s, Put(s, t, y), t, y);
    SignalsKept(s, Put(s, t, y), t, y);
    OneThread(s, Put(s, t, y), t, y);
  }

  lemma Called(s: Sys, t: Tid, sub: Sub)
    requires Inv(s) && t in s.th && s.th[t].sub.NoSub?
    requires sub == NotifyPending || (sub.Unpark? && sub.p in s.th)
    ensures Inv(Put(s, t, s.th[t].(sub := sub)))
  {
    SubSettled(s, Put(s, t, s.th[t].(sub := sub)), t, sub);
  }

  lemma OutsideQuiet(x: Thread, m: Main)
    requires LocalOk(x) && IsOutside(x) && (m.Done? || m == RetryLoad(AtStart))
    ensures QuietChange(x, x.(main := m))
  {
  }

  lemma LeftOutside(s: Sys, t: Tid, m: Main)
    requires Inv(s) && t in s.th && IsOutside(s.th[t]) && (m.Done? || m == RetryLoad(AtStart))
    ensures Inv(Put(s, t, s.th[t].(main := m)))
  {
    hide Inv, LocalOk, QuietChange;
    InvAt(s, t);
    OutsideQuiet(s.th[t], m);
    Quiet(s, t, s.th[t].(main := m));
  }

  /** No step panics, and every step keeps the invariant. */
  lemma StepKeeps(s: Sys, e: Event)
    requires Inv(s)
    ensures Step(s, e).Some? && Inv(Step(s, e).value)
  {
    hide Inv, SubStep, SharedStep, OwnStep;
    match e
    case Arrive(t) => if t !in s.th { Arrived(s, t, Outside); }
    case Enter(t) =>
      if t !in s.th { Arrived(s, t, RetryLoad(AtStart)); }
      else if IsOutside(s.th[t]) { LeftOutside(s, t, RetryLoad(AtStart)); }
    case Exit(t) => if t in s.th && IsOutside(s.th[t]) { LeftOutside(s, t, Done); }
    case CallNotify(t) => if t in s.th && s.th[t].sub.NoSub? { Called(s, t, NotifyPending); }
    case CallWake(t, p) => if t in s.th && p in s.th && s.th[t].sub.NoSub? { Called(s, t, Unpark(p)); }
    case Advance(t, c) =>
      if t in s.th {
        if !s.th[t].sub.NoSub? { SubSteps(s, t, c); }
        else if Shared(s.th[t].main) { SharedSteps(s, t, c); }
        else { OwnSteps(s, t, c); }
      }
  }

  lemma InitOk(n: nat, max: nat)
    requires n >= 1
    ensures Inv(Init(n, max))
  {
    var s := Init(n, max);
    forall i: nat | i < n ensures Held(s, i) { assert At(s, InIdle(i)) == Some(i); }
    assert Holders(s.th, MainToken) == {} && Holders(s.th, SubToken) == {} && Holders(s.th, WordToken) == {};
    assert Holders(s.th, Spawned) == {} && Holders(s.th, Spawning) == {};
  }

  lemma RunKeeps(s: Sys, es: seq<Event>)
    requires Inv(s)
    ensures Run(s, es).Some? && Inv(Run(s, es).value)
    decreases |es|
  {
    if es != [] {
      StepKeeps(s, es[0]);
      RunKeeps(Step(s, es[0]).value, es[1..]);
    }
  }
}
