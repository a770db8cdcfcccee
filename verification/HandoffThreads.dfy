/** Which runtimes are safe from the upper-bound assertions on `searching`: exactly those with never
    more live threads than workers. */
module HandoffThreads {
  import opened Prelude
  import opened ParkWord
  import opened Handoff
  import opened HandoffInvariant
  import opened HandoffProof
  import opened HandoffTheorems
  import opened HandoffBound

  predicate Alive(x: Thread) { !x.main.Done? }

  // ---- the assertions --------------------------------------------------------------------------

  /** `search_begin` and `search_retry` add a token and assert that there was room for it. */
  predicate Adds(x: Thread) { x.sub.NoSub? && (x.main.RetryAdd? || x.main.SearchAdd?) }

  /** The loads and the releases assert that the counter is at most the number of workers. */
  predicate Checks(x: Thread, c: Choice) {
    || x.sub.NotifyLoad? || x.sub.NotifyCas? || x.sub.Release?
    || (x.sub.NoSub? &&
          ((x.main.PollQueues? && !x.main.searched && !x.searching && !c.flag)
           || (x.main.Found? && x.searching) || (x.main.DropSearch? && x.main.was)))
  }

  /** No upper-bound assertion fails in this step. */
  predicate BoundsHold(s: Sys, e: Event) {
    e.Advance? && e.t in s.th ==>
      && (Adds(s.th[e.t]) ==> s.searching < s.n)
      && (Checks(s.th[e.t], e.c) ==> s.searching <= s.n)
  }

  // ---- one token a thread ----------------------------------------------------------------------

  /** Where a thread can be while its call of `notify` is under way. */
  predicate Calls(m: Main) { MayNotify(m) || m.Leave? || m.Finish? }

  predicate Notifies(m: Sub) { !m.NoSub? && !m.Unpark? && !m.SignalLock? && !m.SignalNotify? }

  predicate OneToken(x: Thread) {
    (Notifies(x.sub) ==> Calls(x.main)) && (SubToken(x) ==> !MainToken(x))
  }

  lemma TokensOfOne(x: Thread)
    requires LocalOk(x) && OneToken(x)
    ensures TokensOf(x) <= B(Alive(x))
    ensures Adds(x) ==> TokensOf(x) == 0 && Alive(x)
  {
  }

  lemma OwnOneToken(pending: bool, few: bool, x: Thread, c: Choice)
    requires !Shared(x.main) && x.sub.NoSub?
    ensures OwnStep(pending, few, x, c).Some? ==> OwnStep(pending, few, x, c).value.sub.NoSub?
  {
  }

  lemma TallyOneToken(x: Thread, last: bool, c: Choice)
    requires x.sub.NoSub?
    ensures OneToken(TallyNext(x, last, c))
  {
  }

  ghost predicate AllOne(th: map<Tid, Thread>) { forall t | t in th :: OneToken(th[t]) }

  lemma QuietOne(y: Thread)
    requires y.sub.NoSub?
    ensures OneToken(y)
  {
  }

  lemma PutOne(th: map<Tid, Thread>, t: Tid, y: Thread)
    requires AllOne(th) && OneToken(y)
    ensures AllOne(th[t := y])
  {
    hide OneToken;
  }

  /** Outside a call the next state of a thread has one token. */
  lemma MainOneToken(s: Sys, t: Tid, c: Choice)
    requires AllOne(s.th) && t in s.th && s.th[t].sub.NoSub? && MainStep(s, t, c).Some?
    ensures AllOne(MainStep(s, t, c).value.th)
  {
    hide AllOne, OneToken, SharedStep, OwnStep, Shared;
    if Shared(s.th[t].main) {
      SharedOneToken(s, t, c);
    } else {
      OwnOneToken(s.pending, 2 * s.searching < s.n, s.th[t], c);
      var y := OwnStep(s.pending, 2 * s.searching < s.n, s.th[t], c).value;
      QuietOne(y);
      PutOne(s.th, t, y);
    }
  }

  lemma SharedOneToken(s: Sys, t: Tid, c: Choice)
    requires AllOne(s.th) && t in s.th && s.th[t].sub.NoSub? && Shared(s.th[t].main) && SharedStep(s, t, c).Some?
    ensures AllOne(SharedStep(s, t, c).value.th)
  {
    TallyOneToken(s.th[t], s.searching == 1, c);
    SharedThread(s, t, c);
    hide AllOne, OneToken, SharedStep, TallyNext;
    var s' := SharedStep(s, t, c).value;
    if s'.th[t].sub.NoSub? { QuietOne(s'.th[t]); }
    PutOne(s.th, t, s'.th[t]);
  }

  lemma SharedThread(s: Sys, t: Tid, c: Choice)
    requires t in s.th && s.th[t].sub.NoSub? && Shared(s.th[t].main) && SharedStep(s, t, c).Some?
    ensures var s' := SharedStep(s, t, c).value;
      && t in s'.th && s'.th == s.th[t := s'.th[t]]
      && (s'.th[t].sub.NoSub? || s'.th[t] == TallyNext(s.th[t], s.searching == 1, c))
  {
    hide TallyNext;
  }

  /** A call that goes on, or ends, with no token that it did not have. */
  lemma SubOne(x: Thread, sub: Sub)
    requires OneToken(x) && (Notifies(sub) ==> Notifies(x.sub)) && (SubToken(x.(sub := sub)) ==> SubToken(x))
    ensures OneToken(x.(sub := sub))
  {
  }

  lemma NotifyNextOne(s: Sys, x: Thread)
    requires OneToken(x) && Notifying(x.sub) && (MainToken(x) ==> s.searching > 0)
    ensures OneToken(x.(sub := NotifyNext(s, x.sub)))
  {
  }

  lemma NotifyOne(s: Sys, t: Tid)
    requires AllOne(s.th) && t in s.th && Notifying(s.th[t].sub) && NotifyStep(s, t).Some?
    requires MainToken(s.th[t]) ==> s.searching > 0
    ensures AllOne(NotifyStep(s, t).value.th)
  {
    var y := s.th[t].(sub := NotifyNext(s, s.th[t].sub));
    NotifyNextOne(s, s.th[t]);
    hide AllOne, OneToken, NotifyNext;
    PutOne(s.th, t, y);
  }

  lemma ListOne(s: Sys, t: Tid)
    requires AllOne(s.th) && t in s.th
    ensures s.th[t].sub.IdlePop? ==> AllOne(IdlePopStep(s, t).value.th)
    ensures s.th[t].sub.PushBack? ==> AllOne(PushBackStep(s, t, s.th[t].sub.i).value.th)
  {
    var x := s.th[t];
    assert OneToken(x);
    hide AllOne, OneToken;
    if x.sub.IdlePop? && s.indices != [] {
      SubOne(x, Spawn(s.indices[|s.indices| - 1]));
      PutOne(s.th, t, x.(sub := Spawn(s.indices[|s.indices| - 1])));
    }
    if x.sub.IdlePop? || x.sub.PushBack? { SubOne(x, Release); PutOne(s.th, t, x.(sub := Release)); }
  }

  lemma WordOne(x: Thread, word: ParkState)
    requires OneToken(x)
    ensures OneToken(x.(word := word)) && OneToken(x.(blocked := false))
  {
  }

  lemma DeliverOne(s: Sys, t: Tid, p: Tid, w: Option<nat>, refused: Sub)
    requires AllOne(s.th) && t in s.th && UnparkStep(s, t, p, w, refused).Some?
    requires Notifies(refused) ==> Notifies(s.th[t].sub)
    requires SubToken(s.th[t].(sub := refused)) ==> SubToken(s.th[t])
    ensures AllOne(UnparkStep(s, t, p, w, refused).value.th)
  {
    var s' := Deliver(s, p, w);
    var sub := AfterUnpark(s.th[p].word, p, w, refused);
    assert sub == refused || sub.NoSub? || sub.SignalLock?;
    assert OneToken(s.th[p]);
    WordOne(s.th[p], Notified(w));
    hide AllOne, OneToken, AfterUnpark;
    PutOne(s.th, p, s.th[p].(word := Notified(w)));
    assert AllOne(s'.th);
    assert s'.th[t].sub == s.th[t].sub && SubToken(s'.th[t]) == SubToken(s.th[t]);
    assert OneToken(s'.th[t]) by { AllOneAt(s'.th, t); }
    SubOne(s'.th[t], sub);
    PutOne(s'.th, t, s'.th[t].(sub := sub));
  }

  lemma AllOneAt(th: map<Tid, Thread>, t: Tid)
    requires AllOne(th) && t in th
    ensures OneToken(th[t])
  {
  }

  lemma StartOne(s: Sys, t: Tid, c: Choice)
    requires AllOne(s.th) && t in s.th && s.th[t].sub.SpawnThread? && SpawnThreadStep(s, t, s.th[t].sub.i, c).Some?
    ensures AllOne(SpawnThreadStep(s, t, s.th[t].sub.i, c).value.th)
  {
    var x, i := s.th[t], s.th[t].sub.i;
    var y := NewThread(Unstarted(i), true);
    hide OneToken, AllOne;
    AllOneAt(s.th, t);
    SubOne(x, PushBack(i));
    QuietOne(x.(sub := NoSub));
    QuietOne(y);
    PutOne(s.th, t, x.(sub := PushBack(i)));
    PutOne(s.th, c.tid, y);
    PutOne(s.th[c.tid := y], t, x.(sub := NoSub));
  }

  lemma SignalOne(s: Sys, t: Tid, p: Tid)
    requires AllOne(s.th) && t in s.th && (s.th[t].sub == SignalLock(p) || s.th[t].sub == SignalNotify(p))
    requires SignalStep(s, t, p).Some?
    ensures AllOne(SignalStep(s, t, p).value.th)
  {
    hide OneToken, AllOne;
    var y := s.th[p].(blocked := false);
    AllOneAt(s.th, p);
    AllOneAt(s.th, t);
    WordOne(s.th[p], Empty);
    SubOne(s.th[t], SignalNotify(p));
    QuietOne(s.th[p := y][t].(sub := NoSub));
    PutOne(s.th, t, s.th[t].(sub := SignalNotify(p)));
    PutOne(s.th, p, y);
    PutOne(s.th[p := y], t, s.th[p := y][t].(sub := NoSub));
  }

  lemma SubOneToken(s: Sys, t: Tid, c: Choice)
    requires AllOne(s.th) && t in s.th && !s.th[t].sub.NoSub? && SubStep(s, t, c).Some?
    requires MainToken(s.th[t]) ==> s.searching > 0
    ensures AllOne(SubStep(s, t, c).value.th)
  {
    hide AllOne, OneToken, MainToken;
    var m := s.th[t].sub;
    if m.IdlePop? || m.PushBack? { ListOne(s, t); }
    else if m.SpawnUnpark? { DeliverOne(s, t, m.p, Some(m.i), Spawn(m.i)); }
    else if m.Unpark? { DeliverOne(s, t, m.p, None, NoSub); }
    else if m.SpawnThread? { StartOne(s, t, c); }
    else if m.SignalLock? || m.SignalNotify? { SignalOne(s, t, m.p); }
    else { NotifyOne(s, t); }
  }

  lemma TokensCounted(s: Sys, t: Tid)
    requires Inv(s) && t in s.th
    ensures MainToken(s.th[t]) ==> s.searching > 0
  {
    TokensAtLeast(s.th, t);
  }

  lemma StepOneToken(s: Sys, e: Event)
    requires Inv(s) && AllOne(s.th) && Step(s, e).Some?
    ensures AllOne(Step(s, e).value.th)
  {
    hide Inv, MainStep, SubStep, AllOne, OneToken, MainToken, MayNotify;
    match e
    case Arrive(t) => OutsideOne(s, t, NewThread(Outside, false));
    case Enter(t) =>
      if t !in s.th { OutsideOne(s, t, NewThread(RetryLoad(AtStart), false)); }
      else if IsOutside(s.th[t]) { OutsideOne(s, t, s.th[t].(main := RetryLoad(AtStart))); }
    case Exit(t) => if t in s.th && IsOutside(s.th[t]) { OutsideOne(s, t, s.th[t].(main := Done)); }
    case CallNotify(t) =>
      if t in s.th && s.th[t].sub.NoSub? && MayNotify(s.th[t].main) { CallOne(s, t, NotifyPending); }
    case CallWake(t, p) => if t in s.th && s.th[t].sub.NoSub? { CallOne(s, t, Unpark(p)); }
    case Advance(t, c) =>
      if t in s.th {
        TokensCounted(s, t);
        if s.th[t].sub.NoSub? { MainOneToken(s, t, c); } else { SubOneToken(s, t, c); }
      }
  }

  lemma OutsideOne(s: Sys, t: Tid, y: Thread)
    requires AllOne(s.th) && y.sub.NoSub?
    ensures AllOne(s.th[t := y])
  {
    QuietOne(y);
    PutOne(s.th, t, y);
  }

  lemma CallOne(s: Sys, t: Tid, sub: Sub)
    requires AllOne(s.th) && t in s.th && (sub.Unpark? || (sub.NotifyPending? && MayNotify(s.th[t].main)))
    ensures AllOne(s.th[t := s.th[t].(sub := sub)])
  {
    assert OneToken(s.th[t].(sub := sub));
    hide OneToken, AllOne;
    PutOne(s.th, t, s.th[t].(sub := sub));
  }

  lemma {:induction false} RunOneToken(s: Sys, es: seq<Event>)
    requires Inv(s) && AllOne(s.th)
    ensures Run(s, es).Some? && Inv(Run(s, es).value) && AllOne(Run(s, es).value.th)
    decreases |es|
  {
    hide Inv, Step, AllOne;
    if es != [] {
      StepKeeps(s, es[0]);
      StepOneToken(s, es[0]);
      RunOneToken(Step(s, es[0]).value, es[1..]);
    }
  }

  lemma TokensAt(s: Sys, u: Tid)
    requires Inv(s) && AllOne(s.th) && u in s.th
    ensures TokensOf(s.th[u]) <= B(Alive(s.th[u])) && (Adds(s.th[u]) ==> TokensOf(s.th[u]) == 0 && Alive(s.th[u]))
  {
    LocalAt(s, u);
    AllOneAt(s.th, u);
    hide Inv, AllOne;
    TokensOfOne(s.th[u]);
  }

  lemma TokensAre(s: Sys)
    requires Inv(s)
    ensures s.searching == Tokens(s.th)
  {
    hide LocalOk, Conserved, Seats, Signals, Known, Tokens;
  }

  /** The counter is at most the number of live threads, and below it when one adds its token. */
  lemma SearchingBelowThreads(s: Sys, t: Tid)
    requires Inv(s) && AllOne(s.th)
    ensures s.searching <= |Holders(s.th, Alive)|
    ensures t in s.th && Adds(s.th[t]) ==> s.searching < |Holders(s.th, Alive)|
  {
    hide Inv, AllOne, Alive, Adds, TokensOf, Tokens;
    forall u | u in s.th ensures TokensOf(s.th[u]) <= B(Alive(s.th[u])) { TokensAt(s, u); }
    TokensAre(s);
    TokensBelow(s.th, Holders(s.th, Alive));
    if t in s.th && Adds(s.th[t]) {
      TokensAt(s, t);
      TokensBelow(s.th, Holders(s.th, Alive) - {t});
    }
  }

  /** Tokens are no more than the threads that may have one each. */
  lemma TokensBelow(th: map<Tid, Thread>, some: set<Tid>)
    requires forall u | u in th :: TokensOf(th[u]) <= B(u in some)
    ensures Tokens(th) <= |some|
  {
    hide MainToken, SubToken, WordToken;
    var a, b, c := Holders(th, MainToken), Holders(th, SubToken), Holders(th, WordToken);
    forall u | u in th ensures TokensOf(th[u]) == B(u in a) + B(u in b) + B(u in c) {}
    assert forall u | u in a || u in b || u in c :: u in th;
    hide Holders, TokensOf;
    SizesBelow(a, b, c, some);
  }

  lemma SizesBelow(a: set<Tid>, b: set<Tid>, c: set<Tid>, some: set<Tid>)
    requires forall u | u in a || u in b || u in c :: B(u in a) + B(u in b) + B(u in c) <= B(u in some)
    ensures |a| + |b| + |c| <= |some|
  {
    assert a !! b && a !! c && b !! c;
    assert |a + b + c| == |a + b| + |c|;
    SubsetSize(a + b + c, some);
  }

  // ---- every run -------------------------------------------------------------------------------

  /** Never more than m threads are alive. */
  ghost predicate UpTo(s: Sys, es: seq<Event>, m: nat)
    decreases |es|
  {
    && |Holders(s.th, Alive)| <= m
    && (es != [] && Step(s, es[0]).Some? ==> UpTo(Step(s, es[0]).value, es[1..], m))
  }

  /** No assertion fails in the step after this run. */
  ghost predicate SafeStep(s: Sys, es: seq<Event>, e: Event) { Run(s, es).Some? ==> BoundsHold(Run(s, es).value, e) }

  /** In no run with never more than m live threads does an upper-bound assertion fail. */
  ghost predicate Safe(n: nat, max: nat, m: nat) {
    forall es: seq<Event>, e: Event | UpTo(Init(n, max), es, m) :: SafeStep(Init(n, max), es, e)
  }

  lemma {:induction false} UpToLast(s: Sys, es: seq<Event>, m: nat)
    requires UpTo(s, es, m) && Run(s, es).Some?
    ensures |Holders(Run(s, es).value.th, Alive)| <= m
    decreases |es|
  {
    hide Step, Holders;
    if es != [] { UpToLast(Step(s, es[0]).value, es[1..], m); }
  }

  /** A runtime with n workers is safe from the upper-bound assertions exactly if it never has more
      than n threads: pool threads, callers of block_on, and threads that only schedule or wake. */
  lemma SafeExactly(n: nat, max: nat, m: nat)
    requires n > 0
    ensures Safe(n, max, m) <==> m <= n
  {
    if m <= n {
      forall es: seq<Event>, e: Event | UpTo(Init(n, max), es, m) ensures SafeStep(Init(n, max), es, e) {
        FewThreads(n, max, m, es, e);
      }
    } else {
      Unsafe(n, max, m);
    }
  }

  lemma FewThreads(n: nat, max: nat, m: nat, es: seq<Event>, e: Event)
    requires 0 < n && m <= n && UpTo(Init(n, max), es, m)
    ensures SafeStep(Init(n, max), es, e)
  {
    InitOk(n, max);
    assert AllOne(Init(n, max).th);
    hide Inv, AllOne, Holders, Adds, Checks;
    RunOneToken(Init(n, max), es);
    var s := Run(Init(n, max), es).value;
    UpToLast(Init(n, max), es, m);
    SameWorkers(Init(n, max), es);
    SearchingBelowThreads(s, if e.Advance? then e.t else 0);
  }

  lemma {:induction false} SameWorkers(s: Sys, es: seq<Event>)
    requires Run(s, es).Some?
    ensures Run(s, es).value.n == s.n
    decreases |es|
  {
    if es != [] {
      StepWorkers(s, es[0]);
      hide Step;
      SameWorkers(Step(s, es[0]).value, es[1..]);
    }
  }

  lemma StepWorkers(s: Sys, e: Event)
    requires Step(s, e).Some?
    ensures Step(s, e).value.n == s.n
  {
  }

  // ---- the failing run -------------------------------------------------------------------------

  /** An event of one of the first m threads, in which none is started. */
  predicate Named(e: Event, m: nat) { (e.Enter? && e.t < m) || (e.Advance? && e.t < m && !e.c.flag) }

  lemma MainNames(s: Sys, t: Tid, c: Choice)
    requires t in s.th && s.th[t].sub.NoSub? && MainStep(s, t, c).Some?
    ensures MainStep(s, t, c).value.th.Keys == s.th.Keys
  {
    if Shared(s.th[t].main) { SharedThread(s, t, c); }
    hide OwnStep, SharedStep;
  }

  lemma SubNames(s: Sys, t: Tid, c: Choice)
    requires t in s.th && SubStep(s, t, c).Some? && !c.flag
    ensures SubStep(s, t, c).value.th.Keys == s.th.Keys
  {
    hide NotifyNext, AfterUnpark, Accepts;
  }

  lemma StepNames(s: Sys, e: Event, m: nat)
    requires Named(e, m) && Step(s, e).Some? && forall t | t in s.th :: t < m
    ensures forall t | t in Step(s, e).value.th :: t < m
  {
    hide MainStep, SubStep;
    if e.Advance? && e.t in s.th {
      if s.th[e.t].sub.NoSub? { MainNames(s, e.t, e.c); } else { SubNames(s, e.t, e.c); }
    }
  }

  lemma {:induction false} BelowSize(held: set<Tid>, m: nat)
    requires forall t | t in held :: t < m
    ensures |held| <= m
  {
    if m > 0 {
      BelowSize(held - {m - 1}, m - 1);
      SubsetSize(held, held - {m - 1} + {m - 1});
    } else {
      assert held == {};
    }
  }

  lemma {:induction false} NamesUpTo(s: Sys, es: seq<Event>, m: nat)
    requires (forall e | e in es :: Named(e, m)) && forall t | t in s.th :: t < m
    ensures UpTo(s, es, m)
    decreases |es|
  {
    BelowSize(Holders(s.th, Alive), m);
    hide Step, Named, Holders;
    if es != [] && Step(s, es[0]).Some? {
      StepNames(s, es[0], m);
      NamesUpTo(Step(s, es[0]).value, es[1..], m);
    }
  }

  lemma {:induction false} TakeNames(k: nat, m: nat)
    requires k <= m
    ensures forall e | e in TakeEvents(k) :: Named(e, m)
  {
    if k > 0 { TakeNames(k - 1, m); }
  }

  lemma {:induction false} MoreThreads(s: Sys, es: seq<Event>, k: nat, m: nat)
    requires UpTo(s, es, k) && k <= m
    ensures UpTo(s, es, m)
    decreases |es|
  {
    hide Step, Holders;
    if es != [] && Step(s, es[0]).Some? { MoreThreads(Step(s, es[0]).value, es[1..], k, m); }
  }

  lemma OvershootNames(n: nat)
    ensures forall e | e in Overshoot(n) :: Named(e, n + 1)
  {
    TakeNames(n, n + 1);
    hide TakeEvents;
  }

  lemma InitEmpty(n: nat, max: nat)
    ensures forall t | t in Init(n, max).th :: t < n + 1
  {
  }

  lemma Unsafe(n: nat, max: nat, m: nat)
    requires 0 < n < m
    ensures !Safe(n, max, m)
  {
    hide Named, Step, Run, Overshoot, Holders, Init, UpTo;
    var es := Overshoot(n);
    OvershootNames(n);
    InitEmpty(n, max);
    NamesUpTo(Init(n, max), es, n + 1);
    MoreThreads(Init(n, max), es, n + 1, m);
    SearchingOvershoots(n, max);
    assert !SafeStep(Init(n, max), es, Tick(n));
  }
}
