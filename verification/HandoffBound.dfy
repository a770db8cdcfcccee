/** How far `searching` can go. The original asserts in several places that it never exceeds
    the number of workers; it can, and this is by how much. */
module HandoffBound {
  import opened Prelude
  import opened ParkWord
  import opened Handoff
  import opened HandoffInvariant
  import opened HandoffProof
  import opened HandoffTheorems

  /** Tokens that outlive or precede their index: `search_failed` between its push and its
      decrement, and a claim of `notify` that has popped nothing or has pushed back. */
  predicate LooseMain(x: Thread) { x.main.DropSearch? && x.main.was }

  predicate LooseSub(x: Thread) { x.sub.IdleLoad? || x.sub.IdlePop? || x.sub.Release? }

  function Loose(th: map<Tid, Thread>): (r: nat) { |Holders(th, LooseMain)| + |Holders(th, LooseSub)| }

  predicate HasMain(x: Thread) { MainIndex(x).Some? }

  predicate HasSub(x: Thread) { SubIndex(x).Some? }

  /** An index in the main place of a thread that has no token for it. */
  predicate QuietMain(x: Thread) { HasMain(x) && !MainToken(x) }

  /** The indices that travel without a token: in the idle list, or with a thread that does not search. */
  function Spare(s: Sys): (r: nat) { |s.indices| + |Holders(s.th, QuietMain)| }

  lemma TokenKinds(x: Thread)
    requires LocalOk(x)
    ensures MainToken(x) ==> HasMain(x) != LooseMain(x)
    ensures LooseMain(x) ==> MainToken(x)
    ensures SubToken(x) <==> HasSub(x) || LooseSub(x)
    ensures !(HasSub(x) && LooseSub(x))
  {
  }

  /** Indices sitting at places of one kind are as many as the threads there. */
  lemma Images(ts: set<Tid>, at: Tid -> Option<nat>) returns (held: set<nat>)
    requires forall t | t in ts :: at(t).Some?
    requires forall t, u | t in ts && u in ts && at(t) == at(u) :: t == u
    ensures |held| == |ts| && forall i :: i in held <==> exists t :: t in ts && at(t) == Some(i)
  {
    if ts == {} { held := {}; }
    else {
      var t :| t in ts;
      var rest := Images(ts - {t}, at);
      held := rest + {at(t).value};
      assert at(t).value !in rest;
      assert ts == ts - {t} + {t};
    }
  }

  lemma {:induction false} CountBelow(held: set<nat>, n: nat)
    requires forall i: nat :: i in held <==> i < n
    ensures |held| == n
  {
    if n > 0 {
      CountBelow(held - {n - 1}, n - 1);
      assert held == held - {n - 1} + {n - 1};
    } else {
      assert held == {};
    }
  }

  lemma {:induction false} CountListed(list: seq<nat>) returns (held: set<nat>)
    requires forall j, k | 0 <= j < k < |list| :: list[j] != list[k]
    ensures |held| == |list| && forall i :: i in held <==> i in list
  {
    if list == [] { held := {}; }
    else {
      var last := |list| - 1;
      var rest := CountListed(list[..last]);
      held := rest + {list[last]};
      assert list == list[..last] + [list[last]];
    }
  }

  datatype Kind = Idle | Main | Sub | Word

  function PlaceOf(kind: Kind, t: nat): (r: Place) {
    match kind case Idle => InIdle(t) case Main => InMain(t) case Sub => InSub(t) case Word => InWord(t)
  }

  ghost predicate HeldIn(s: Sys, kind: Kind, i: nat) { exists t :: At(s, PlaceOf(kind, t)) == Some(i) }

  /** The indices at one kind of place. */
  ghost predicate HeldIs(s: Sys, held: set<nat>, kind: Kind) { forall i :: i in held <==> HeldIn(s, kind, i) }

  lemma KindsApart(s: Sys, a: set<nat>, k: Kind, b: set<nat>, l: Kind)
    requires Conserved(s) && HeldIs(s, a, k) && HeldIs(s, b, l) && k != l
    ensures a !! b
  {
    forall i | i in a ensures i !in b {
      assert HeldIn(s, k, i);
      var t :| At(s, PlaceOf(k, t)) == Some(i);
      forall u ensures At(s, PlaceOf(l, u)) != Some(i) { ElsewhereDiffers(s, PlaceOf(k, t), PlaceOf(l, u)); }
    }
  }

  lemma IdleHeld(s: Sys) returns (held: set<nat>)
    requires Conserved(s)
    ensures |held| == |s.indices| && HeldIs(s, held, Idle)
  {
    forall j, k | 0 <= j < k < |s.indices| ensures s.indices[j] != s.indices[k] {
      assert SameHeld(s, InIdle(j), InIdle(k)) <==> s.indices[j] == s.indices[k];
    }
    held := CountListed(s.indices);
    forall i ensures i in held <==> HeldIn(s, Idle, i) {
      if i in held {
        var k :| 0 <= k < |s.indices| && s.indices[k] == i;
        assert At(s, PlaceOf(Idle, k)) == Some(i);
      }
    }
  }

  lemma ThreadsHeld(s: Sys, f: Thread -> bool, kind: Kind) returns (held: set<nat>)
    requires Conserved(s) && !kind.Idle?
    requires forall t :: At(s, PlaceOf(kind, t)).Some? <==> t in s.th && f(s.th[t])
    ensures |held| == |Holders(s.th, f)| && HeldIs(s, held, kind)
  {
    var ts := Holders(s.th, f);
    assert forall t :: t in ts <==> At(s, PlaceOf(kind, t)).Some?;
    forall t, u | t in ts && u in ts && At(s, PlaceOf(kind, t)) == At(s, PlaceOf(kind, u)) ensures t == u {
      assert SameHeld(s, PlaceOf(kind, t), PlaceOf(kind, u));
    }
    held := Images(ts, t => At(s, PlaceOf(kind, t)));
    forall i ensures i in held <==> HeldIn(s, kind, i) {
    }
  }

  lemma MainHeld(s: Sys) returns (held: set<nat>)
    requires Conserved(s)
    ensures |held| == |Holders(s.th, HasMain)| && HeldIs(s, held, Main)
  {
    hide Conserved, HeldIs;
    held := ThreadsHeld(s, HasMain, Main);
  }

  lemma SubHeld(s: Sys) returns (held: set<nat>)
    requires Conserved(s)
    ensures |held| == |Holders(s.th, HasSub)| && HeldIs(s, held, Sub)
  {
    hide Conserved, HeldIs;
    held := ThreadsHeld(s, HasSub, Sub);
  }

  lemma WordHeld(s: Sys) returns (held: set<nat>)
    requires Conserved(s)
    ensures |held| == |Holders(s.th, WordToken)| && HeldIs(s, held, Word)
  {
    hide Conserved, HeldIs;
    held := ThreadsHeld(s, WordToken, Word);
  }

  /** Each of the n indices is in one of the four kinds of place. */
  lemma IndexCount(s: Sys)
    requires Conserved(s)
    ensures |s.indices| + |Holders(s.th, HasMain)| + |Holders(s.th, HasSub)| + |Holders(s.th, WordToken)| == s.n
  {
    hide HeldIs, Conserved, HasMain, HasSub, WordToken;
    var d := IdleHeld(s);
    var a := MainHeld(s);
    var b := SubHeld(s);
    var c := WordHeld(s);
    PlacesApart(s, d, a, b, c);
    Everywhere(s, d, a, b, c);
    CountBelow(d + a + b + c, s.n);
    ApartCount(d, a, b, c);
  }

  lemma PlacesApart(s: Sys, d: set<nat>, a: set<nat>, b: set<nat>, c: set<nat>)
    requires Conserved(s) && HeldIs(s, d, Idle) && HeldIs(s, a, Main) && HeldIs(s, b, Sub) && HeldIs(s, c, Word)
    ensures d !! a && d !! b && d !! c && a !! b && a !! c && b !! c
  {
    hide HeldIs, Conserved;
    KindsApart(s, d, Idle, a, Main);
    KindsApart(s, d, Idle, b, Sub);
    KindsApart(s, d, Idle, c, Word);
    KindsApart(s, a, Main, b, Sub);
    KindsApart(s, a, Main, c, Word);
    KindsApart(s, b, Sub, c, Word);
  }

  lemma Everywhere(s: Sys, d: set<nat>, a: set<nat>, b: set<nat>, c: set<nat>)
    requires Conserved(s) && HeldIs(s, d, Idle) && HeldIs(s, a, Main) && HeldIs(s, b, Sub) && HeldIs(s, c, Word)
    ensures forall i: nat :: i in d + a + b + c <==> i < s.n
  {
    forall i: nat ensures i in d + a + b + c <==> i < s.n {
      if i < s.n {
        assert Held(s, i);
        var pl :| At(s, pl) == Some(i);
        var kind := match pl case InIdle(_) => Idle case InMain(_) => Main case InSub(_) => Sub case InWord(_) => Word;
        assert HeldIn(s, kind, i) by {
          var t := match pl case InIdle(k) => k case InMain(t) => t case InSub(t) => t case InWord(t) => t;
          assert pl == PlaceOf(kind, t);
        }
      }
    }
  }

  lemma ApartCount(d: set<nat>, a: set<nat>, b: set<nat>, c: set<nat>)
    requires d !! a && d !! b && d !! c && a !! b && a !! c && b !! c
    ensures |d + a + b + c| == |d| + |a| + |b| + |c|
  {
    assert |d + a + b| == |d + a| + |b|;
  }

  lemma TokenCount(th: map<Tid, Thread>)
    requires forall t | t in th :: LocalOk(th[t])
    ensures |Holders(th, MainToken)| + |Holders(th, QuietMain)| == |Holders(th, HasMain)| + |Holders(th, LooseMain)|
    ensures |Holders(th, SubToken)| == |Holders(th, HasSub)| + |Holders(th, LooseSub)|
  {
    forall t | t in th
      ensures MainToken(th[t]) ==> HasMain(th[t]) != LooseMain(th[t])
      ensures LooseMain(th[t]) ==> MainToken(th[t])
      ensures SubToken(th[t]) <==> HasSub(th[t]) || LooseSub(th[t])
      ensures !(HasSub(th[t]) && LooseSub(th[t]))
    {
      TokenKinds(th[t]);
    }
    hide MainToken, SubToken, HasMain, HasSub, LooseMain, LooseSub, LocalOk;
    var tokens, loose := Holders(th, MainToken), Holders(th, LooseMain);
    assert Holders(th, HasMain) == (tokens - loose) + Holders(th, QuietMain);
    assert tokens == (tokens - loose) + loose;
    assert Holders(th, SubToken) == Holders(th, HasSub) + Holders(th, LooseSub);
  }

  /** `searching` exceeds the number of workers by the loose tokens, less the indices that travel
      without one. So an assertion `searching <= workers.len()` holds exactly where there are not
      more loose tokens than such indices, and `searching < workers.len()` where there are fewer. */
  lemma SearchingExact(s: Sys)
    requires Reachable(s)
    ensures s.searching + Spare(s) == s.n + Loose(s.th)
    ensures s.searching <= s.n <==> Loose(s.th) <= Spare(s)
    ensures s.searching < s.n <==> Loose(s.th) < Spare(s)
  {
    ReachableInv(s);
    hide LocalOk, Conserved, Seats, Signals, Known;
    IndexCount(s);
    TokenCount(s.th);
  }

  // ---- the asserts that can fail -----------------------------------------------------------

  lemma RunConcat(s: Sys, a: seq<Event>, b: seq<Event>)
    requires Run(s, a).Some?
    ensures Run(s, a + b) == Run(Run(s, a).value, b)
    decreases |a|
  {
    if a == [] {
      assert a + b == b;
    } else {
      assert (a + b)[1..] == a[1..] + b;
      RunConcat(Step(s, a[0]).value, a[1..], b);
    }
  }

  /** The step of t with every answer of the environment negative. */
  function Tick(t: Tid): (r: Event) { Advance(t, Choice(false, 0)) }

  function Ticks(t: Tid, k: nat): (es: seq<Event>)
    ensures |es| == k && forall j | 0 <= j < k :: es[j] == Tick(t)
  {
    seq(k, _ => Tick(t))
  }

  lemma OneTick(s: Sys, t: Tid, k: nat, s': Sys)
    requires k > 0 && Step(s, Tick(t)) == Some(s')
    ensures Run(s, Ticks(t, k)) == Run(s', Ticks(t, k - 1))
  {
    assert Ticks(t, k)[1..] == Ticks(t, k - 1);
  }

  /** A thread enters block_on and takes the last idle index. */
  function Taken(s: Sys, t: Tid): (r: Sys)
    requires s.indices != []
  {
    var last := |s.indices| - 1;
    Put(s, t, NewThread(TakeSeat(s.indices[last], false), false)).(
      indices := s.indices[..last], pending := PopFlag(s), searching := s.searching + 1)
  }

  /** The states on the way from the call of block_on to having taken the index. */
  function Taking(s: Sys, t: Tid, k: nat): (r: Sys)
    requires s.indices != []
  {
    var last := |s.indices| - 1;
    match k
    case 0 => Put(s, t, NewThread(RetryLoad(AtStart), false))
    case 1 => Put(s, t, NewThread(RetryPop(AtStart), false))
    case 2 => Put(s, t, NewThread(RetryAdd(AtStart, s.indices[last]), false)).(
                indices := s.indices[..last], pending := PopFlag(s))
    case _ => Taken(s, t)
  }

  lemma TakingPop(s: Sys, t: Tid, k: nat)
    requires s.pending && s.indices != [] && k < 2
    ensures Step(Taking(s, t, k), Tick(t)) == Some(Taking(s, t, k + 1))
  {
    assert Taking(s, t, k).th[t := Taking(s, t, k + 1).th[t]] == Taking(s, t, k + 1).th;
  }

  lemma TakingAdd(s: Sys, t: Tid)
    requires s.pending && s.indices != []
    ensures Step(Taking(s, t, 2), Tick(t)) == Some(Taken(s, t))
  {
    assert Taking(s, t, 2).th[t := Taken(s, t).th[t]] == Taken(s, t).th;
  }

  lemma TakingStep(s: Sys, t: Tid, k: nat)
    requires s.pending && s.indices != [] && k < 3
    ensures Step(Taking(s, t, k), Tick(t)) == Some(Taking(s, t, k + 1))
  {
    hide Step;
    if k < 2 { TakingPop(s, t, k); } else { TakingAdd(s, t); }
  }

  lemma Takes(s: Sys, t: Tid, m: nat)
    requires t !in s.th && s.pending && s.indices != [] && m <= 3
    ensures Run(s, [Enter(t)] + Ticks(t, m)) == Some(Taking(s, t, m))
  {
    assert ([Enter(t)] + Ticks(t, m))[1..] == Ticks(t, m);
    TakesFrom(s, t, 0, m);
  }

  lemma {:induction false} TakesFrom(s: Sys, t: Tid, k: nat, m: nat)
    requires s.pending && s.indices != [] && k + m <= 3
    ensures Run(Taking(s, t, k), Ticks(t, m)) == Some(Taking(s, t, k + m))
    decreases m
  {
    hide Step, Taking;
    if m > 0 {
      TakingStep(s, t, k);
      OneTick(Taking(s, t, k), t, m, Taking(s, t, k + 1));
      TakesFrom(s, t, k + 1, m - 1);
    }
  }

  /** It finds nothing to do and gives the index back, but has not yet left the search. */
  function GivenUp(s: Sys, t: Tid, i: nat): (r: Sys) {
    Put(s, t, NewThread(DropSearch(true, false), false)).(indices := s.indices + [i], pending := true)
  }

  /** The states on the way from taking a seat to having pushed the index. */
  function OnTheWay(s: Sys, t: Tid, i: nat, k: nat): (r: Sys)
    requires i < |s.seats|
  {
    var x := NewThread(Outside, false).(wi := Some(i), searching := true);
    var working := s.(seats := s.seats[i := Seat(None, None)]);
    var at := x.(producer := Some(i));
    match k
    case 0 => Put(s, t, NewThread(TakeSeat(i, false), false))
    case 1 => Put(s, t, x.(main := SeatTaken(false))).(seats := s.seats[i := s.seats[i].(lock := Some(t))])
    case 2 => Put(working, t, at.(main := PollFuture))
    case 3 => Put(working, t, at.(main := PollQueues(false)))
    case 4 => Put(working, t, at.(main := PollQueues(true)))
    case 5 => Put(working, t, at.(main := GiveSeat(false)))
    case 6 => Put(s, t, at.(main := SeatGiven(false))).(seats := s.seats[i := Seat(Some(t), None)])
    case 7 => Put(s, t, NewThread(PushIdle(i, true, false), false))
    case _ => GivenUp(s, t, i)
  }

  lemma WayPoll(s: Sys, t: Tid, i: nat)
    requires i < |s.seats|
    ensures Step(OnTheWay(s, t, i, 2), Tick(t)) == Some(OnTheWay(s, t, i, 3))
  {
    assert OnTheWay(s, t, i, 2).th[t := OnTheWay(s, t, i, 3).th[t]] == OnTheWay(s, t, i, 3).th;
  }

  lemma WayQueues(s: Sys, t: Tid, i: nat)
    requires i < |s.seats|
    ensures Step(OnTheWay(s, t, i, 3), Tick(t)) == Some(OnTheWay(s, t, i, 4))
  {
    assert OnTheWay(s, t, i, 3).th[t := OnTheWay(s, t, i, 4).th[t]] == OnTheWay(s, t, i, 4).th;
  }

  lemma WaySearched(s: Sys, t: Tid, i: nat)
    requires i < |s.seats|
    ensures Step(OnTheWay(s, t, i, 4), Tick(t)) == Some(OnTheWay(s, t, i, 5))
  {
    assert OnTheWay(s, t, i, 4).th[t := OnTheWay(s, t, i, 5).th[t]] == OnTheWay(s, t, i, 5).th;
  }

  lemma WayIn(s: Sys, t: Tid, i: nat, k: nat)
    requires i < |s.seats| && s.seats[i] == Seat(None, Some(i)) && k < 2
    ensures Step(OnTheWay(s, t, i, k), Tick(t)) == Some(OnTheWay(s, t, i, k + 1))
  {
    assert OnTheWay(s, t, i, k).th[t := OnTheWay(s, t, i, k + 1).th[t]] == OnTheWay(s, t, i, k + 1).th;
    assert s.seats[i := s.seats[i].(lock := Some(t))][i := Seat(None, None)] == s.seats[i := Seat(None, None)];
  }

  lemma WayOut(s: Sys, t: Tid, i: nat, k: nat)
    requires i < |s.seats| && s.seats[i] == Seat(None, Some(i)) && 5 <= k < 8
    ensures Step(OnTheWay(s, t, i, k), Tick(t)) == Some(OnTheWay(s, t, i, k + 1))
  {
    assert OnTheWay(s, t, i, k).th[t := OnTheWay(s, t, i, k + 1).th[t]] == OnTheWay(s, t, i, k + 1).th;
    assert s.seats[i := Seat(None, None)][i := Seat(Some(t), None)] == s.seats[i := Seat(Some(t), None)];
    assert s.seats[i := Seat(Some(t), None)][i := Seat(None, Some(i))] == s.seats;
  }

  lemma GivesUp(s: Sys, t: Tid, i: nat, k: nat)
    requires i < |s.seats| && s.seats[i] == Seat(None, Some(i)) && k <= 8
    ensures Run(OnTheWay(s, t, i, k), Ticks(t, 8 - k)) == Some(GivenUp(s, t, i))
    decreases 8 - k
  {
    if k < 8 {
      if k < 2 { WayIn(s, t, i, k); } else if k == 2 { WayPoll(s, t, i); }
      else if k == 3 { WayQueues(s, t, i); } else if k == 4 { WaySearched(s, t, i); } else { WayOut(s, t, i, k); }
      OneTick(OnTheWay(s, t, i, k), t, 8 - k, OnTheWay(s, t, i, k + 1));
      GivesUp(s, t, i, k + 1);
    }
  }

  /** The first k threads have taken the last k of n indices. */
  function TakenBy(n: nat, max: nat, k: nat): (s: Sys)
    requires k <= n
    ensures |s.indices| == n - k
  {
    if k == 0 then Init(n, max) else Taken(TakenBy(n, max, k - 1), k - 1)
  }

  lemma {:induction false} TakenFacts(n: nat, max: nat, k: nat)
    requires k <= n
    ensures var s := TakenBy(n, max, k);
      && s.n == n && s.indices == Init(n, max).indices[..n - k] && s.pending == (n > k || k == 0)
      && s.seats == Init(n, max).seats && s.searching == k
      && (forall t :: t in s.th <==> 0 <= t < k)
      && (k > 0 ==> s.th[0] == NewThread(TakeSeat(n - 1, false), false))
  {
    if k > 0 { TakenFacts(n, max, k - 1); }
  }

  function TakeEvents(k: nat): (es: seq<Event>) {
    if k == 0 then [] else TakeEvents(k - 1) + ([Enter(k - 1)] + Ticks(k - 1, 3))
  }

  /** One more thread takes an index at the end of a run. */
  lemma OneMoreTakes(s0: Sys, es: seq<Event>, s: Sys, t: Tid)
    requires Run(s0, es) == Some(s) && t !in s.th && s.pending && s.indices != []
    ensures Run(s0, es + ([Enter(t)] + Ticks(t, 3))) == Some(Taken(s, t))
  {
    hide Step, Run, Taken;
    Takes(s, t, 3);
    LastTaking(s, t);
    RunConcat(s0, es, [Enter(t)] + Ticks(t, 3));
  }

  lemma LastTaking(s: Sys, t: Tid)
    requires s.indices != []
    ensures Taking(s, t, 3) == Taken(s, t)
  {
  }

  lemma {:induction false} AllTake(n: nat, max: nat, k: nat)
    requires k <= n
    ensures Run(Init(n, max), TakeEvents(k)) == Some(TakenBy(n, max, k))
  {
    hide Step, Run, Taken, TakenBy, TakeEvents, Init, Ticks;
    if k > 0 {
      AllTake(n, max, k - 1);
      CanTake(n, max, k - 1);
      NextTaken(n, max, k);
      OneMoreTakes(Init(n, max), TakeEvents(k - 1), TakenBy(n, max, k - 1), k - 1);
    } else {
      NoneTake(n, max);
    }
  }

  lemma NoneTake(n: nat, max: nat)
    ensures Run(Init(n, max), TakeEvents(0)) == Some(TakenBy(n, max, 0))
  {
    hide Init;
    NoEvents(Init(n, max));
  }

  lemma NextTaken(n: nat, max: nat, k: nat)
    requires 0 < k <= n
    ensures TakenBy(n, max, k) == Taken(TakenBy(n, max, k - 1), k - 1)
    ensures TakeEvents(k) == TakeEvents(k - 1) + ([Enter(k - 1)] + Ticks(k - 1, 3))
  {
    hide Taken, Init, Ticks;
  }

  lemma CanTake(n: nat, max: nat, k: nat)
    requires k < n
    ensures var s := TakenBy(n, max, k); k !in s.th && s.pending && s.indices != []
  {
    TakenFacts(n, max, k);
  }

  lemma NoEvents(s: Sys)
    ensures Run(s, []) == Some(s)
  {
  }

  lemma FirstGivesUp(n: nat, max: nat)
    requires n > 0
    ensures Run(TakenBy(n, max, n), Ticks(0, 8)) == Some(GivenUp(TakenBy(n, max, n), 0, n - 1))
  {
    hide Step, Run, TakenBy;
    TakenFacts(n, max, n);
    var s := TakenBy(n, max, n);
    assert s == OnTheWay(s, 0, n - 1, 0) by { assert s.th == s.th[0 := NewThread(TakeSeat(n - 1, false), false)]; }
    GivesUp(s, 0, n - 1, 0);
  }

  /** All workers' indices are taken by searching threads, the first gives its own back, and one
      more thread takes that before the first has left the search. */
  function Overshoot(n: nat): (es: seq<Event>) { TakeEvents(n) + Ticks(0, 8) + ([Enter(n)] + Ticks(n, 2)) }

  lemma Overshooting(n: nat, max: nat, s: Sys)
    requires n > 0 && s == GivenUp(TakenBy(n, max, n), 0, n - 1)
    ensures Run(Init(n, max), Overshoot(n)) == Some(Taking(s, n, 2))
    ensures Step(Taking(s, n, 2), Tick(n)) == Some(Taken(s, n))
  {
    TakenFacts(n, max, n);
    TakingAdd(s, n);
    hide Step, Run, TakenBy, Taking;
    AllTake(n, max, n);
    FirstGivesUp(n, max);
    RunConcat(Init(n, max), TakeEvents(n), Ticks(0, 8));
    Takes(s, n, 2);
    RunConcat(Init(n, max), TakeEvents(n) + Ticks(0, 8), [Enter(n)] + Ticks(n, 2));
  }

  /** For any number of workers and any limit there is a run after which a thread in `search_retry`
      is about to add its token to a counter that already is the number of workers, and so is about
      to fail `assert!(searching < self.workers.len())`; the counter is then above that number.
      As a runtime with one worker panics when it is made (`VictimOrder.SourceFrom`), this matters
      for two and more. */
  lemma SearchingOvershoots(n: nat, max: nat)
    requires n > 0
    ensures var r := Run(Init(n, max), Overshoot(n));
      && r.Some? && r.value.n == n == r.value.searching
      && n in r.value.th && r.value.th[n].main.RetryAdd? && r.value.th[n].sub.NoSub?
      && Step(r.value, Tick(n)).Some? && Step(r.value, Tick(n)).value.searching == n + 1
  {
    hide Step, Run, TakenBy, Overshoot;
    TakenFacts(n, max, n);
    Overshooting(n, max, GivenUp(TakenBy(n, max, n), 0, n - 1));
  }
}
