/** The promises of the hand-off protocol, for any number of threads and every run. */
module HandoffTheorems {
  import opened Prelude
  import opened ParkWord
  import opened Handoff
  import opened HandoffInvariant
  import opened HandoffProof

  /** The states some run of n workers and at most max pool threads ends in. */
  ghost predicate Reachable(s: Sys) {
    exists n: nat, max: nat, es: seq<Event> :: n >= 1 && Run(Init(n, max), es) == Some(s)
  }

  lemma ReachableInv(s: Sys)
    requires Reachable(s)
    ensures Inv(s)
  {
    var n: nat, max: nat, es: seq<Event> :| n >= 1 && Run(Init(n, max), es) == Some(s);
    InitOk(n, max);
    RunKeeps(Init(n, max), es);
  }

  /** No `unwrap`, `unreachable!` or checked `assert!` of the protocol ever fails. */
  lemma NeverPanics(n: nat, max: nat, es: seq<Event>)
    requires n >= 1
    ensures Run(Init(n, max), es).Some?
  {
    InitOk(n, max);
    RunKeeps(Init(n, max), es);
  }

  /** Each worker index is in one place, and only there. */
  lemma IndexConservation(s: Sys, i: nat)
    requires Reachable(s) && i < s.n
    ensures exists pl :: At(s, pl) == Some(i) && forall pm :: At(s, pm) == Some(i) ==> pm == pl
  {
    ReachableInv(s);
    assert Held(s, i);
    var pl :| At(s, pl) == Some(i);
    forall pm | At(s, pm) == Some(i) ensures pm == pl { assert SameHeld(s, pl, pm); }
  }

  lemma ElsewhereDiffers(s: Sys, pl: Place, pm: Place)
    requires Conserved(s) && pl != pm && At(s, pl).Some?
    ensures At(s, pl) != At(s, pm)
  {
    assert !SameHeld(s, pl, pm);
  }

  lemma WorkerThread(x: Thread)
    requires LocalOk(x) && x.wi.Some?
    ensures MainIndex(x) == x.wi
  {
  }

  lemma WorkerHasIndex(s: Sys, t: Tid)
    requires Inv(s) && t in s.th && s.th[t].wi.Some?
    ensures At(s, InMain(t)) == s.th[t].wi
  {
    assert LocalOk(s.th[t]);
    hide Inv, LocalOk, MainIndex;
    WorkerThread(s.th[t]);
  }

  /** Two threads are never the same worker, and no worker's index is on offer while it runs. */
  lemma WorkersDiffer(s: Sys, t: Tid, pl: Place)
    requires Reachable(s) && t in s.th && s.th[t].wi.Some?
    ensures forall u | u in s.th && u != t :: s.th[u].wi != s.th[t].wi
    ensures s.th[t].wi.value < s.n && (pl != InMain(t) ==> At(s, pl) != s.th[t].wi)
  {
    ReachableInv(s);
    WorkerHasIndex(s, t);
    if pl != InMain(t) { ElsewhereDiffers(s, InMain(t), pl); }
    forall u | u in s.th && u != t ensures s.th[u].wi != s.th[t].wi {
      if s.th[u].wi.Some? { WorkerHasIndex(s, u); ElsewhereDiffers(s, InMain(t), InMain(u)); }
    }
  }

  /** The producer of worker i sits in its run queue exactly while no thread has taken it. */
  lemma ProducerSeat(s: Sys, i: nat)
    requires Reachable(s) && i < s.n
    ensures |s.seats| == s.n
    ensures s.seats[i].producer == Some(i) <==> forall t | t in s.th :: s.th[t].producer != Some(i)
    ensures s.seats[i].producer == None <==>
      (exists t :: t in s.th && s.th[t].producer == Some(i) && s.th[t].wi == Some(i))
  {
    ReachableInv(s);
    forall t | t in s.th && s.th[t].producer == Some(i) ensures s.th[t].wi == Some(i) && s.seats[i].producer == None {
      assert LocalOk(s.th[t]);
    }
  }

  /** `searching` counts the tokens that are out, so a release never finds it at zero. */
  lemma SearchConservation(s: Sys, t: Tid)
    requires Reachable(s) && t in s.th
    ensures s.searching == |Holders(s.th, MainToken)| + |Holders(s.th, SubToken)| + |Holders(s.th, WordToken)|
    ensures MainToken(s.th[t]) || SubToken(s.th[t]) || WordToken(s.th[t]) ==> s.searching > 0
  {
    ReachableInv(s);
    TokensAtLeast(s.th, t);
  }

  /** `spawned` counts the pool threads that exist or are about to, within the limit. */
  lemma SpawnLimit(s: Sys)
    requires Reachable(s)
    ensures s.spawned == |Holders(s.th, Spawned)| + |Holders(s.th, Spawning)| <= s.max
  {
    ReachableInv(s);
  }

  /** The flag read without the lock is false only when the idle list is empty. */
  lemma IdleFlag(s: Sys)
    requires Reachable(s)
    ensures s.pending <==> s.indices != []
  {
    ReachableInv(s);
  }

  // ---- parker delivery ---------------------------------------------------------------------

  /** A thread asleep on its condvar with its word already Notified has an unparker that is
      still going to signal it. */
  lemma SleeperIsSignalled(s: Sys, p: Tid)
    requires Reachable(s) && p in s.th && s.th[p].main.ParkBlocked? && s.th[p].blocked && s.th[p].word.Notified?
    ensures exists u :: u in s.th && (s.th[u].sub == SignalLock(p) || s.th[u].sub == SignalNotify(p))
  {
    ReachableInv(s);
    assert LockDue(s, p) || NotifyDue(s, p);
  }

  /** An `unpark(Some(i))` that returns true found its parker in `park` and left i in the word;
      one that returns false changed nothing but its caller. */
  lemma UnparkAnswers(s: Sys, t: Tid, c: Choice, i: nat, p: Tid)
    requires Reachable(s) && t in s.th && s.th[t].sub == SpawnUnpark(i, p)
    ensures p in s.th && Step(s, Advance(t, c)).Some?
    ensures var s' := Step(s, Advance(t, c)).value;
      if s'.th[t].sub == Spawn(i) then s' == Put(s, t, s.th[t].(sub := Spawn(i)))
      else (s.th[p].word.Waiting? || s.th[p].word.Polling?) && s'.th[p].word == Notified(Some(i))
  {
    hide Inv, Reachable, UnparkStep, MainStep;
    CallsKnown(s, t);
    UnparkStepAnswers(s, t, p, i);
  }

  lemma CallsKnown(s: Sys, t: Tid)
    requires Reachable(s) && t in s.th
    ensures SubKnown(s, s.th[t])
  {
    ReachableInv(s);
  }

  lemma UnparkStepAnswers(s: Sys, t: Tid, p: Tid, i: nat)
    requires t in s.th && p in s.th && s.th[t].sub == SpawnUnpark(i, p)
    ensures var r := UnparkStep(s, t, p, Some(i), Spawn(i));
      && r.Some?
      && if r.value.th[t].sub == Spawn(i) then r.value == Put(s, t, s.th[t].(sub := Spawn(i)))
         else (s.th[p].word.Waiting? || s.th[p].word.Polling?) && r.value.th[p].word == Notified(Some(i))
  {
    if !Accepts(s.th[p].word, Some(i)) { assert Deliver(s, p, Some(i)) == s; }
  }

  /** The owner's `poll_unparked` took what was in the word of x and carries it on in y. */
  predicate TakenByOwner(x: Thread, y: Thread) {
    && x.word.Notified? && y.word == Empty
    && (x.main == Consume(x.word.index, true) || x.main == Consume(x.word.index, false))
    && y.main == if x.main.listed then Unlist(x.word.index) else Woken(x.word.index)
  }

  ghost predicate WordKept(s: Sys, r: Option<Sys>, p: Tid)
    requires p in s.th
  {
    r.Some? ==> p in r.value.th && r.value.th[p].word == s.th[p].word
  }

  lemma OwnKeepsWord(pending: bool, few: bool, x: Thread, c: Choice)
    requires !Shared(x.main) && LocalOk(x) && x.word.Notified? && OwnStep(pending, few, x, c).Some?
    ensures var y := OwnStep(pending, few, x, c).value; y.word == x.word || TakenByOwner(x, y)
  {
  }

  lemma TallyKeepsWord(x: Thread, last: bool, c: Choice)
    ensures TallyNext(x, last, c).word == x.word
  {
  }

  lemma SharedKeepsWord(s: Sys, t: Tid, c: Choice, p: Tid)
    requires t in s.th && p in s.th && Shared(s.th[t].main)
    ensures WordKept(s, SharedStep(s, t, c), p)
  {
    TallyKeepsWord(s.th[t], s.searching == 1, c);
  }

  lemma NotifyKeepsWord(s: Sys, t: Tid, p: Tid)
    requires t in s.th && p in s.th
    ensures WordKept(s, NotifyStep(s, t), p)
  {
  }

  lemma UnparkKeepsWord(s: Sys, t: Tid, q: Tid, w: Option<nat>, refused: Sub, p: Tid)
    requires t in s.th && p in s.th && s.th[p].word.Notified?
    ensures WordKept(s, UnparkStep(s, t, q, w, refused), p)
  {
  }

  lemma SubKeepsWord(s: Sys, t: Tid, c: Choice, p: Tid)
    requires t in s.th && p in s.th && s.th[p].word.Notified?
    ensures WordKept(s, SubStep(s, t, c), p)
  {
    hide NotifyStep, UnparkStep;
    var m := s.th[t].sub;
    if m.SpawnUnpark? { UnparkKeepsWord(s, t, m.p, Some(m.i), Spawn(m.i), p); }
    else if m.Unpark? { UnparkKeepsWord(s, t, m.p, None, NoSub, p); }
    else { NotifyKeepsWord(s, t, p); }
  }

  lemma LocalAt(s: Sys, p: Tid)
    requires Inv(s) && p in s.th
    ensures LocalOk(s.th[p])
  {
  }

  /** What an unparker left in a word stays there until the owner's own `poll_unparked` takes
      it out and carries it on. */
  lemma DeliveryStep(s: Sys, e: Event, s': Sys, p: Tid)
    requires Inv(s) && Step(s, e) == Some(s') && p in s.th && s.th[p].word.Notified?
    ensures p in s'.th
    ensures s'.th[p].word == s.th[p].word || (e.Advance? && e.t == p && TakenByOwner(s.th[p], s'.th[p]))
  {
    hide Inv, LocalOk, TakenByOwner, SubStep, SharedStep, OwnStep;
    LocalAt(s, p);
    if e.Advance? && e.t in s.th {
      if !s.th[e.t].sub.NoSub? { SubKeepsWord(s, e.t, e.c, p); }
      else if Shared(s.th[e.t].main) { SharedKeepsWord(s, e.t, e.c, p); }
      else if e.t == p { OwnKeepsWord(s.pending, 2 * s.searching < s.n, s.th[p], e.c); }
    }
  }

  /** The word of p is this at the start and after each event. */
  ghost predicate Kept(s: Sys, es: seq<Event>, p: Tid, word: ParkState)
    decreases |es|
  {
    && p in s.th && s.th[p].word == word
    && (es != [] ==> Step(s, es[0]).Some? && Kept(Step(s, es[0]).value, es[1..], p, word))
  }

  /** This step is the owner's taking of what is in the word of p. */
  predicate Takes(s: Sys, e: Event, p: Tid) {
    && p in s.th && e.Advance? && e.t == p && Step(s, e).Some? && p in Step(s, e).value.th
    && TakenByOwner(s.th[p], Step(s, e).value.th[p])
  }

  /** The word is there up to event k, and this event takes it. */
  ghost predicate TakenAt(s: Sys, es: seq<Event>, k: nat, p: Tid, word: ParkState) {
    k < |es| && Kept(s, es[..k], p, word) && Run(s, es[..k]).Some? && Takes(Run(s, es[..k]).value, es[k], p)
  }

  /** In every run from the moment of a delivery, what was delivered stays in the word, or stays up
      to one event, by which the owner takes it out and carries it on: it is returned by exactly one
      `wait`. */
  lemma DeliveredOnce(s: Sys, es: seq<Event>, p: Tid)
    requires Reachable(s) && p in s.th && s.th[p].word.Notified?
    ensures Run(s, es).Some?
    ensures Kept(s, es, p, s.th[p].word) != exists k :: TakenAt(s, es, k, p, s.th[p].word)
    ensures forall k, m | TakenAt(s, es, k, p, s.th[p].word) && TakenAt(s, es, m, p, s.th[p].word) :: k == m
  {
    hide Inv, Reachable, TakenAt, Kept;
    ReachableInv(s);
    RunKeeps(s, es);
    KeptOrTaken(s, es, p);
    forall k, m | TakenAt(s, es, k, p, s.th[p].word) && TakenAt(s, es, m, p, s.th[p].word) ensures k == m {
      TakenOnce(s, es, k, m, p, s.th[p].word);
      TakenOnce(s, es, m, k, p, s.th[p].word);
    }
    forall k | TakenAt(s, es, k, p, s.th[p].word) ensures !Kept(s, es, p, s.th[p].word) {
      NotKept(s, es, k, p, s.th[p].word);
    }
  }

  lemma {:induction false} KeptOrTaken(s: Sys, es: seq<Event>, p: Tid)
    requires Inv(s) && p in s.th && s.th[p].word.Notified?
    ensures Kept(s, es, p, s.th[p].word) || exists k :: TakenAt(s, es, k, p, s.th[p].word)
    decreases |es|
  {
    hide Inv, Step, TakenByOwner;
    var word := s.th[p].word;
    if es != [] {
      StepKeeps(s, es[0]);
      var s' := Step(s, es[0]).value;
      DeliveryStep(s, es[0], s', p);
      if s'.th[p].word == word {
        KeptOrTaken(s', es[1..], p);
        if k :| TakenAt(s', es[1..], k, p, word) { TakenLater(s, es, k, p, word); }
      } else {
        assert es[..0] == [] && TakenAt(s, es, 0, p, word);
      }
    }
  }

  lemma TakenLater(s: Sys, es: seq<Event>, k: nat, p: Tid, word: ParkState)
    requires es != [] && Step(s, es[0]).Some? && p in s.th && s.th[p].word == word
    requires TakenAt(Step(s, es[0]).value, es[1..], k, p, word)
    ensures TakenAt(s, es, k + 1, p, word)
  {
    hide Step, Takes;
    assert es[..k + 1][0] == es[0] && es[..k + 1][1..] == es[1..][..k];
  }

  /** A word that is kept is there after any part of the run. */
  lemma {:induction false} KeptUpTo(s: Sys, es: seq<Event>, k: nat, p: Tid, word: ParkState)
    requires Kept(s, es, p, word) && k <= |es|
    ensures var r := Run(s, es[..k]); r.Some? && p in r.value.th && r.value.th[p].word == word
    decreases |es|
  {
    hide Step;
    if k > 0 {
      assert es[..k][0] == es[0] && es[..k][1..] == es[1..][..k - 1];
      KeptUpTo(Step(s, es[0]).value, es[1..], k - 1, p, word);
    } else {
      assert es[..0] == [];
    }
  }

  /** After the taking the word is Empty, so it has not been kept. */
  lemma NotKept(s: Sys, es: seq<Event>, k: nat, p: Tid, word: ParkState)
    requires TakenAt(s, es, k, p, word) && word.Notified?
    ensures !Kept(s, es, p, word)
  {
    hide Step, Kept;
    assert es[..k + 1] == es[..k] + [es[k]];
    RunLast(s, es[..k], es[k]);
    if Kept(s, es, p, word) { KeptUpTo(s, es, k + 1, p, word); }
  }

  lemma TakenOnce(s: Sys, es: seq<Event>, k: nat, m: nat, p: Tid, word: ParkState)
    requires TakenAt(s, es, k, p, word) && TakenAt(s, es, m, p, word) && word.Notified?
    ensures m <= k
  {
    hide Step, Kept, Run, Takes;
    if k < m {
      assert es[..m][..k] == es[..k] && es[..m][k] == es[k];
      assert TakenAt(s, es[..m], k, p, word);
      NotKept(s, es[..m], k, p, word);
    }
  }

  lemma {:induction false} RunLast(s: Sys, es: seq<Event>, e: Event)
    requires Run(s, es).Some?
    ensures Run(s, es + [e]) == Step(Run(s, es).value, e)
    decreases |es|
  {
    hide Step;
    if es == [] {
      assert es + [e] == [e] && [e][1..] == [];
    } else {
      assert (es + [e])[1..] == es[1..] + [e];
      RunLast(Step(s, es[0]).value, es[1..], e);
    }
  }
}
