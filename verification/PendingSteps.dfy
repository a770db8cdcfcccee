/** The count of I/O operations that wait for readiness, under any interleaving: the counter and
    each flag are atomics of their own, and the read side and the write side of every pollable
    have a user each.

    One step is one atomic operation; None is a failing assertion. What the waker's polls and the
    attempts at the operation return are inputs. */
module PendingSteps {
  import opened Prelude
  import opened WakerSlab

  datatype Kind = Read | Write

  /** An array of two, indexed by kind. */
  datatype Two<T> = Two(read: T, write: T) {
    function At(k: Kind): (r: T) { if k.Read? then read else write }
    function With(k: Kind, t: T): (r: Two<T>) { if k.Read? then this.(read := t) else this.(write := t) }
  }

  /** Where an operation is inside `poll_io`. */
  datatype Pc =
    | Idle
    | LoadFlag | PollWaker(was: bool)
    | Begin | SetFlag                    // io_pending_begin, then the store
    | Complete | ClearFlag               // io_pending_complete, then the store
    | Attempt                            // the budget, and the attempts that follow

  datatype Port = Port(flag: bool, pc: Pc)

  /** How far the pollable's `drop` has come. */
  datatype Phase = Live | Waking(k: Kind) | Checking(k: Kind) | Uncounting(k: Kind) | Freeing

  datatype Source = Source(ports: Two<Port>, phase: Phase)

  datatype Sys = Sys(
    blocks: nat, entries: nat,           // the size of the slab
    max: nat,                            // usize::MAX
    pending: nat,
    sources: map<WakerIndex, Source>)    // the pollables that are registered

  datatype Event =
    | New(i: WakerIndex)                            // the slab gives out i and the registry accepts
    | Call(i: WakerIndex, k: Kind)                  // the user of this kind calls poll_io or try_io
    | Advance(i: WakerIndex, k: Kind, answer: bool) // Ready, or an attempt that would block
    | Drop(i: WakerIndex)                           // when no operation is under way: `&mut self`
    | DropStep(i: WakerIndex)

  const Fresh: Source := Source(Two(Port(false, Idle), Port(false, Idle)), Live)

  function Init(blocks: nat, entries: nat, max: nat): (s: Sys) { Sys(blocks, entries, max, 0, map[]) }

  function Put(s: Sys, i: WakerIndex, x: Source): (r: Sys) { s.(sources := s.sources[i := x]) }

  function Step(s: Sys, e: Event): (r: Option<Sys>) {
    match e
    case New(i) => Some(if i in s.sources || i.block >= s.blocks || i.entry >= s.entries then s else Put(s, i, Fresh))
    case Call(i, k) =>
      Some(if i in s.sources && s.sources[i].phase.Live? && s.sources[i].ports.At(k).pc.Idle?
           then Put(s, i, WithPc(s.sources[i], k, LoadFlag)) else s)
    case Advance(i, k, answer) => if i in s.sources then PortStep(s, i, k, answer) else Some(s)
    case Drop(i) =>
      Some(if i in s.sources && s.sources[i].phase.Live? && Quiet(s.sources[i])
           then Put(s, i, s.sources[i].(phase := Waking(Read))) else s)
    case DropStep(i) => if i in s.sources then PhaseStep(s, i) else Some(s)
  }

  function Run(s: Sys, es: seq<Event>): (r: Option<Sys>)
    decreases |es|
  {
    if es == [] then Some(s)
    else match Step(s, es[0])
      case None => None
      case Some(s') => Run(s', es[1..])
  }

  predicate Quiet(x: Source) { x.ports.read.pc.Idle? && x.ports.write.pc.Idle? }

  function WithPc(x: Source, k: Kind, pc: Pc): (y: Source) { x.(ports := x.ports.With(k, x.ports.At(k).(pc := pc))) }

  function PortStep(s: Sys, i: WakerIndex, k: Kind, answer: bool): (r: Option<Sys>)
    requires i in s.sources
  {
    var x := s.sources[i];
    var pc := x.ports.At(k).pc;
    if pc.Begin? && s.pending == s.max then None
    else if pc.Complete? && s.pending == 0 then None
    else Some(Put(s, i, x.(ports := x.ports.With(k, PortNext(x.ports.At(k), answer)))).(
                pending := if pc.Begin? then s.pending + 1 else if pc.Complete? then s.pending - 1 else s.pending))
  }

  function PortNext(p: Port, answer: bool): (q: Port) {
    match p.pc
    case Idle => p
    case LoadFlag => p.(pc := PollWaker(p.flag))
    case PollWaker(was) =>
      p.(pc := if answer then (if was then Complete else Attempt) else (if was then Idle else Begin))
    case Begin => p.(pc := SetFlag)
    case SetFlag => Port(true, Idle)
    case Complete => p.(pc := ClearFlag)
    case ClearFlag => Port(false, Attempt)
    case Attempt => p.(pc := if answer then LoadFlag else Idle)
  }

  /** `drop`: both wakers are woken, each flag is looked at, and the index is freed. */
  function PhaseStep(s: Sys, i: WakerIndex): (r: Option<Sys>)
    requires i in s.sources
  {
    var x := s.sources[i];
    if x.phase.Freeing? then Some(s.(sources := s.sources - {i}))
    else if x.phase.Uncounting? && s.pending == 0 then None
    else Some(Put(s, i, x.(phase := PhaseNext(x))).(
                pending := if x.phase.Uncounting? then s.pending - 1 else s.pending))
  }

  function PhaseNext(x: Source): (p: Phase) {
    match x.phase
    case Live => Live
    case Waking(k) => if k.Read? then Waking(Write) else Checking(Read)
    case Checking(k) => if x.ports.At(k).flag then Uncounting(k) else AfterKind(k)
    case Uncounting(k) => AfterKind(k)
    case Freeing => Freeing
  }

  function AfterKind(k: Kind): (p: Phase) { if k.Read? then Checking(Write) else Freeing }

  // ---- what is counted -------------------------------------------------------------------------

  /** `drop` has dealt with this flag. */
  predicate Settled(p: Phase, k: Kind) { p.Freeing? || (k.Read? && (p == Checking(Write) || p == Uncounting(Write))) }

  /** A set flag that is not being completed and that no `drop` has uncounted. */
  predicate Flagged(x: Source, k: Kind) {
    x.ports.At(k).flag && !x.ports.At(k).pc.ClearFlag? && !Settled(x.phase, k)
  }

  /** An operation that has counted itself and has not stored its flag yet. */
  predicate Unstored(x: Source, k: Kind) { x.ports.At(k).pc.SetFlag? }

  predicate IsCounted(x: Source, k: Kind) { Flagged(x, k) || Unstored(x, k) }

  function Ports(s: Sys, f: (Source, Kind) -> bool): (r: set<(WakerIndex, Kind)>) {
    set i, k | i in s.sources && f(s.sources[i], k) :: (i, k)
  }

  predicate PortOk(p: Port) {
    && (p.pc.PollWaker? ==> p.pc.was == p.flag)
    && (p.pc.Begin? || p.pc.SetFlag? || p.pc.Attempt? ==> !p.flag)
    && (p.pc.Complete? || p.pc.ClearFlag? ==> p.flag)
  }

  predicate SourceOk(x: Source) {
    && PortOk(x.ports.read) && PortOk(x.ports.write)
    && (!x.phase.Live? ==> Quiet(x))
    && (x.phase.Uncounting? ==> x.ports.At(x.phase.k).flag)
  }

  ghost predicate Inv(s: Sys) {
    && (forall i | i in s.sources :: SourceOk(s.sources[i]) && i.block < s.blocks && i.entry < s.entries)
    && s.pending == |Ports(s, IsCounted)|
    && 2 * (s.blocks * s.entries) <= s.max
  }

  // ---- the proof -------------------------------------------------------------------------------

  /** A source takes the place of another that differs in one kind at most. */
  lemma CountedPut(s: Sys, s': Sys, i: WakerIndex, k: Kind)
    requires s'.sources.Keys == s.sources.Keys + {i}
    requires forall j | j in s.sources && j != i :: s'.sources[j] == s.sources[j]
    requires forall l | l != k :: IsCounted(s'.sources[i], l) == (i in s.sources && IsCounted(s.sources[i], l))
    ensures |Ports(s', IsCounted)| - B(IsCounted(s'.sources[i], k))
      == |Ports(s, IsCounted)| - B(i in s.sources && IsCounted(s.sources[i], k))
  {
    var a, b := Ports(s, IsCounted), Ports(s', IsCounted);
    forall w ensures w in a - {(i, k)} <==> w in b - {(i, k)} {
      assert w == (w.0, w.1);
    }
    CountToggled(a, b, (i, k));
  }

  /** At most two waiting operations per index. */
  lemma {:induction false} TwoPerIndex(live: set<WakerIndex>, waiting: set<(WakerIndex, Kind)>)
    requires forall w | w in waiting :: w.0 in live
    ensures |waiting| <= 2 * |live|
  {
    if live == {} {
      assert waiting == {};
    } else {
      var i :| i in live;
      var rest := waiting - {(i, Read), (i, Write)};
      forall w | w in rest ensures w.0 != i {
        assert w.1.Read? || w.1.Write?;
        assert w == (w.0, w.1);
      }
      TwoPerIndex(live - {i}, rest);
      SubsetSize(waiting, rest + {(i, Read), (i, Write)});
    }
  }

  lemma Bounded(s: Sys, waiting: set<(WakerIndex, Kind)>)
    requires Inv(s) && forall w | w in waiting :: w.0 in s.sources
    ensures |waiting| <= s.max
  {
    var live, grid := s.sources.Keys, Grid(s.blocks, s.entries);
    assert |grid| == s.blocks * s.entries && live <= grid;
    hide Grid;
    TwoPerIndex(live, waiting);
    SubsetSize(live, grid);
  }

  /** An operation that is not counted leaves room in the counter. */
  lemma Room(s: Sys, i: WakerIndex, k: Kind)
    requires Inv(s) && i in s.sources && !IsCounted(s.sources[i], k)
    ensures s.pending < s.max
  {
    var counted := Ports(s, IsCounted);
    assert (i, k) !in counted;
    assert s.pending == |counted|;
    hide Inv;
    Bounded(s, counted + {(i, k)});
  }

  lemma NotEmpty(s: Sys, i: WakerIndex, k: Kind)
    requires i in s.sources && IsCounted(s.sources[i], k)
    ensures |Ports(s, IsCounted)| > 0
  {
    assert (i, k) in Ports(s, IsCounted);
  }

  /** What one step of an operation does to its port. */
  lemma PortKeeps(x: Source, k: Kind, answer: bool)
    requires SourceOk(x) && (!x.ports.At(k).pc.Idle? ==> x.phase.Live?)
    ensures var y := x.(ports := x.ports.With(k, PortNext(x.ports.At(k), answer)));
      && SourceOk(y) && (forall l | l != k :: IsCounted(y, l) == IsCounted(x, l))
      && B(IsCounted(y, k)) - B(IsCounted(x, k))
           == B(x.ports.At(k).pc.Begin?) - B(x.ports.At(k).pc.Complete?)
  {
  }

  lemma PortStepKeeps(s: Sys, i: WakerIndex, k: Kind, answer: bool)
    requires Inv(s) && i in s.sources
    ensures PortStep(s, i, k, answer).Some? && Inv(PortStep(s, i, k, answer).value)
  {
    var x := s.sources[i];
    if x.ports.At(k).pc.Begin? { Room(s, i, k); }
    if x.ports.At(k).pc.Complete? { NotEmpty(s, i, k); }
    PortKeeps(x, k, answer);
    CountedPut(s, PortStep(s, i, k, answer).value, i, k);
  }

  lemma PhaseKeeps(x: Source)
    requires SourceOk(x) && !x.phase.Freeing?
    ensures var y, k := x.(phase := PhaseNext(x)), if x.phase.Checking? || x.phase.Uncounting? then x.phase.k else Read;
      && SourceOk(y) && (forall l | l != k :: IsCounted(y, l) == IsCounted(x, l))
      && B(IsCounted(y, k)) + B(x.phase.Uncounting?) == B(IsCounted(x, k))
  {
  }

  lemma PhaseStepKeeps(s: Sys, i: WakerIndex)
    requires Inv(s) && i in s.sources
    ensures PhaseStep(s, i).Some? && Inv(PhaseStep(s, i).value)
  {
    var x := s.sources[i];
    if x.phase.Freeing? {
      assert Ports(PhaseStep(s, i).value, IsCounted) == Ports(s, IsCounted);
    } else {
      if x.phase.Uncounting? { NotEmpty(s, i, x.phase.k); }
      PhaseKeeps(x);
      CountedPut(s, PhaseStep(s, i).value, i, if x.phase.Checking? || x.phase.Uncounting? then x.phase.k else Read);
    }
  }

  lemma QuietPut(s: Sys, i: WakerIndex, y: Source)
    requires Inv(s) && SourceOk(y) && i.block < s.blocks && i.entry < s.entries
    requires forall k :: IsCounted(y, k) == (i in s.sources && IsCounted(s.sources[i], k))
    ensures Inv(Put(s, i, y))
  {
    CountedPut(s, Put(s, i, y), i, Read);
  }

  lemma StepKeeps(s: Sys, e: Event)
    requires Inv(s)
    ensures Step(s, e).Some? && Inv(Step(s, e).value)
  {
    match e
    case New(i) => if Step(s, e) != Some(s) { QuietPut(s, i, Fresh); }
    case Call(i, k) => if Step(s, e) != Some(s) { QuietPut(s, i, WithPc(s.sources[i], k, LoadFlag)); }
    case Advance(i, k, answer) => if i in s.sources { PortStepKeeps(s, i, k, answer); }
    case Drop(i) => if Step(s, e) != Some(s) { QuietPut(s, i, s.sources[i].(phase := Waking(Read))); }
    case DropStep(i) => if i in s.sources { PhaseStepKeeps(s, i); }
  }

  lemma {:induction false} RunKeeps(s: Sys, es: seq<Event>)
    requires Inv(s)
    ensures Run(s, es).Some? && Inv(Run(s, es).value)
    decreases |es|
  {
    if es != [] {
      StepKeeps(s, es[0]);
      RunKeeps(Step(s, es[0]).value, es[1..]);
    }
  }

  // ---- what it promises ------------------------------------------------------------------------

  ghost predicate Reachable(s: Sys) {
    exists blocks: nat, entries: nat, max: nat, es: seq<Event> ::
      2 * (blocks * entries) <= max && Run(Init(blocks, entries, max), es) == Some(s)
  }

  lemma InitOk(blocks: nat, entries: nat, max: nat)
    requires 2 * (blocks * entries) <= max
    ensures Inv(Init(blocks, entries, max))
  {
    assert Ports(Init(blocks, entries, max), IsCounted) == {};
  }

  lemma ReachableInv(s: Sys)
    requires Reachable(s)
    ensures Inv(s)
  {
    var blocks: nat, entries: nat, max: nat, es: seq<Event> :|
      2 * (blocks * entries) <= max && Run(Init(blocks, entries, max), es) == Some(s);
    InitOk(blocks, entries, max);
    RunKeeps(Init(blocks, entries, max), es);
  }

  /** However operations and drops overlap, the counter neither overflows nor goes below zero. */
  lemma NeverPanics(blocks: nat, entries: nat, max: nat, es: seq<Event>)
    requires 2 * (blocks * entries) <= max
    ensures Run(Init(blocks, entries, max), es).Some?
  {
    InitOk(blocks, entries, max);
    RunKeeps(Init(blocks, entries, max), es);
  }

  lemma Disjoint(x: Source, k: Kind)
    requires SourceOk(x)
    ensures !(Flagged(x, k) && Unstored(x, k))
  {
  }

  lemma PortsApart(s: Sys)
    requires forall i | i in s.sources :: SourceOk(s.sources[i])
    ensures Ports(s, Flagged) !! Ports(s, Unstored)
    ensures Ports(s, IsCounted) == Ports(s, Flagged) + Ports(s, Unstored)
  {
    forall i, k | i in s.sources ensures !(Flagged(s.sources[i], k) && Unstored(s.sources[i], k)) {
      Disjoint(s.sources[i], k);
    }
    hide SourceOk, Flagged, Unstored;
  }

  /** The counter is the flags that are set and not being taken back, and the operations that have
      counted themselves and not stored their flag yet. */
  lemma PendingCount(s: Sys)
    requires Reachable(s)
    ensures s.pending == |Ports(s, Flagged)| + |Ports(s, Unstored)| <= s.max
  {
    hide Reachable, SourceOk, Ports;
    ReachableInv(s);
    PortsApart(s);
    CountedFits(s);
  }

  lemma CountedFits(s: Sys)
    requires Inv(s)
    ensures s.pending <= s.max
  {
    var counted := Ports(s, IsCounted);
    assert forall w | w in counted :: w.0 in s.sources;
    assert s.pending == |counted|;
    hide Inv, Ports;
    Bounded(s, counted);
  }

  predicate FlagSet(x: Source, k: Kind) { x.ports.At(k).flag }

  /** Between operations it is the flags that are set, whatever has overlapped before. */
  lemma QuietCount(s: Sys)
    requires Reachable(s) && forall i | i in s.sources :: Quiet(s.sources[i]) && s.sources[i].phase.Live?
    ensures s.pending == |Ports(s, FlagSet)|
  {
    ReachableInv(s);
    assert Ports(s, FlagSet) == Ports(s, IsCounted);
  }

  /** An operation of this kind was the last one, and it waits. */
  predicate Waits(x: Source, k: Kind) { x.phase.Live? && x.ports.At(k).pc.Idle? && x.ports.At(k).flag }

  /** The counter is zero exactly when nothing is counted: a thread that skips the selector because
      of it leaves no operation behind that has returned and waits. */
  lemma ZeroMeansNobodyWaits(s: Sys)
    requires Reachable(s)
    ensures s.pending == 0 <==> forall i, k | i in s.sources :: !IsCounted(s.sources[i], k)
    ensures s.pending == 0 ==> forall i, k | i in s.sources :: !Waits(s.sources[i], k)
  {
    ReachableInv(s);
    ZeroCounts(s);
    assert forall x: Source, k :: Waits(x, k) ==> IsCounted(x, k);
  }

  lemma ZeroCounts(s: Sys)
    requires Inv(s)
    ensures s.pending == 0 <==> forall i, k | i in s.sources :: !IsCounted(s.sources[i], k)
  {
    if s.pending == 0 {
      forall i, k | i in s.sources ensures !IsCounted(s.sources[i], k) {
        if IsCounted(s.sources[i], k) { NotEmpty(s, i, k); }
      }
    } else {
      var w :| w in Ports(s, IsCounted);
      assert IsCounted(s.sources[w.0], w.1);
    }
  }

  // ---- operations that nothing overlaps --------------------------------------------------------

  /** The state with another port, or another phase, at i. */
  function Here(s: Sys, i: WakerIndex, k: Kind, p: Port, pending: nat): (r: Sys)
    requires i in s.sources
  {
    Put(s, i, s.sources[i].(ports := s.sources[i].ports.With(k, p))).(pending := pending)
  }

  /** The same user's next step. */
  lemma NextHere(s: Sys, i: WakerIndex, k: Kind, p: Port, pending: nat, answer: bool, es: seq<Event>)
    requires i in s.sources && (p.pc.Begin? ==> pending < s.max) && (p.pc.Complete? ==> pending > 0)
    ensures var after := if p.pc.Begin? then pending + 1 else if p.pc.Complete? then pending - 1 else pending;
      Run(Here(s, i, k, p, pending), [Advance(i, k, answer)] + es) == Run(Here(s, i, k, PortNext(p, answer), after), es)
  {
    var after := if p.pc.Begin? then pending + 1 else if p.pc.Complete? then pending - 1 else pending;
    var here, next := Here(s, i, k, p, pending), Here(s, i, k, PortNext(p, answer), after);
    assert here.sources[i := next.sources[i]] == next.sources;
    assert ([Advance(i, k, answer)] + es)[1..] == es;
  }

  /** One operation up to its first wait, yield or result. */
  function RoundEvents(i: WakerIndex, k: Kind, flag: bool, answer: bool): (es: seq<Event>) {
    [Call(i, k)] + ([Advance(i, k, false)] + ([Advance(i, k, answer)] + Rest(i, k, flag, answer)))
  }

  function Rest(i: WakerIndex, k: Kind, flag: bool, answer: bool): (es: seq<Event>) {
    var next := [Advance(i, k, false)];
    var last := if answer then next + [] else [];
    if flag == answer then next + (next + last) else last
  }

  lemma RestRun(s: Sys, i: WakerIndex, k: Kind, flag: bool, answer: bool, n: nat)
    requires i in s.sources && (if flag then n > 0 else n < s.max)
    ensures Run(Here(s, i, k, PortNext(Port(flag, PollWaker(flag)), answer), n), Rest(i, k, flag, answer)) ==
      Some(Here(s, i, k, Port(!answer, Idle), n + B(!answer) - B(flag)))
  {
    hide Here;
    var next := [Advance(i, k, false)];
    var last := if answer then next + [] else [];
    if flag == answer {
      var m := if flag then n - 1 else n + 1;
      NextHere(s, i, k, Port(flag, if flag then Complete else Begin), n, false, next + last);
      NextHere(s, i, k, Port(flag, if flag then ClearFlag else SetFlag), m, false, last);
      if answer { NextHere(s, i, k, Port(false, Attempt), m, false, []); }
    } else if answer {
      NextHere(s, i, k, Port(false, Attempt), n, false, []);
    }
  }

  lemma CounterFits(s: Sys, i: WakerIndex, k: Kind)
    requires Inv(s) && i in s.sources && s.sources[i].phase.Live? && s.sources[i].ports.At(k).pc.Idle?
    ensures if s.sources[i].ports.At(k).flag then s.pending > 0 else s.pending < s.max
  {
    if s.sources[i].ports.At(k).flag { NotEmpty(s, i, k); } else { Room(s, i, k); }
  }

  lemma CallHere(s: Sys, i: WakerIndex, k: Kind)
    requires i in s.sources && s.sources[i].phase.Live? && s.sources[i].ports.At(k).pc.Idle?
    ensures Step(s, Call(i, k)) == Some(Here(s, i, k, Port(s.sources[i].ports.At(k).flag, LoadFlag), s.pending))
  {
  }

  /** It leaves the flag set and the operation counted exactly if the waker was not ready. */
  lemma RoundRun(s: Sys, i: WakerIndex, k: Kind, answer: bool)
    requires Inv(s) && i in s.sources && s.sources[i].phase.Live? && s.sources[i].ports.At(k).pc.Idle?
    ensures var flag := s.sources[i].ports.At(k).flag;
      && s.pending + B(!answer) >= B(flag)
      && Run(s, RoundEvents(i, k, flag, answer)) ==
        Some(Here(s, i, k, Port(!answer, Idle), s.pending + B(!answer) - B(flag)))
  {
    hide Inv, Here, Step, IsCounted, Run, Rest;
    var f, n := s.sources[i].ports.At(k).flag, s.pending;
    CounterFits(s, i, k);
    CallHere(s, i, k);
    var rest := [Advance(i, k, answer)] + Rest(i, k, f, answer);
    RunFirst(s, Call(i, k), [Advance(i, k, false)] + rest);
    NextHere(s, i, k, Port(f, LoadFlag), n, false, rest);
    NextHere(s, i, k, Port(f, PollWaker(f)), n, answer, Rest(i, k, f, answer));
    RestRun(s, i, k, f, answer, n);
  }

  lemma RunFirst(s: Sys, e: Event, es: seq<Event>)
    requires Step(s, e).Some?
    ensures Run(s, [e] + es) == Run(Step(s, e).value, es)
  {
    assert ([e] + es)[1..] == es;
  }

  /** An operation whose attempt would have blocked asks the waker again, in the same call; if that is not
      ready now, the operation is counted and waits. */
  lemma BlockedRun(s: Sys, i: WakerIndex, k: Kind)
    requires i in s.sources && s.pending < s.max
    ensures Run(Here(s, i, k, Port(false, Attempt), s.pending), [Advance(i, k, true)]
        + ([Advance(i, k, false)] + ([Advance(i, k, false)] + Rest(i, k, false, false)))) ==
      Some(Here(s, i, k, Port(true, Idle), s.pending + 1))
  {
    hide Here, Run, Rest;
    var n := s.pending;
    var rest := [Advance(i, k, false)] + Rest(i, k, false, false);
    NextHere(s, i, k, Port(false, Attempt), n, true, [Advance(i, k, false)] + rest);
    NextHere(s, i, k, Port(false, LoadFlag), n, false, rest);
    NextHere(s, i, k, Port(false, PollWaker(false)), n, false, Rest(i, k, false, false));
    RestRun(s, i, k, false, false, n);
  }

  function InPhase(s: Sys, i: WakerIndex, phase: Phase, pending: nat): (r: Sys)
    requires i in s.sources
  {
    Put(s, i, s.sources[i].(phase := phase)).(pending := pending)
  }

  function DropSteps(i: WakerIndex, n: nat): (es: seq<Event>) {
    if n == 0 then [] else [DropStep(i)] + DropSteps(i, n - 1)
  }

  lemma NextPhase(s: Sys, i: WakerIndex, phase: Phase, pending: nat, n: nat)
    requires i in s.sources && n > 0 && !phase.Freeing? && (phase.Uncounting? ==> pending > 0)
    ensures var after := if phase.Uncounting? then pending - 1 else pending;
      Run(InPhase(s, i, phase, pending), DropSteps(i, n)) ==
        Run(InPhase(s, i, PhaseNext(s.sources[i].(phase := phase)), after), DropSteps(i, n - 1))
  {
    var after := if phase.Uncounting? then pending - 1 else pending;
    var here, next := InPhase(s, i, phase, pending), InPhase(s, i, PhaseNext(s.sources[i].(phase := phase)), after);
    assert here.sources[i := next.sources[i]] == next.sources;
    RunFirst(here, DropStep(i), DropSteps(i, n - 1));
  }

  /** Looking at one flag takes a step, or two if it is set. */
  lemma KindRun(s: Sys, i: WakerIndex, k: Kind, pending: nat, n: nat)
    requires i in s.sources && n > B(s.sources[i].ports.At(k).flag) && pending >= B(s.sources[i].ports.At(k).flag)
    ensures Run(InPhase(s, i, Checking(k), pending), DropSteps(i, n)) ==
      Run(InPhase(s, i, AfterKind(k), pending - B(s.sources[i].ports.At(k).flag)),
        DropSteps(i, n - 1 - B(s.sources[i].ports.At(k).flag)))
  {
    hide InPhase, Run, DropSteps;
    NextPhase(s, i, Checking(k), pending, n);
    if s.sources[i].ports.At(k).flag { NextPhase(s, i, Uncounting(k), pending, n - 1); }
  }

  function DropEvents(i: WakerIndex, flags: nat): (es: seq<Event>) { [Drop(i)] + DropSteps(i, 5 + flags) }

  lemma FlagsFit(s: Sys, i: WakerIndex)
    requires Inv(s) && i in s.sources && s.sources[i].phase.Live? && Quiet(s.sources[i])
    ensures s.pending >= B(s.sources[i].ports.read.flag) + B(s.sources[i].ports.write.flag)
  {
    var x := s.sources[i];
    var counted := Ports(s, IsCounted);
    assert IsCounted(x, Read) == x.ports.read.flag && IsCounted(x, Write) == x.ports.write.flag;
    assert s.pending == |counted| && ((i, Read) in counted <==> IsCounted(x, Read)) &&
      ((i, Write) in counted <==> IsCounted(x, Write));
    hide Inv, Ports, IsCounted;
    var mine := (if x.ports.read.flag then {(i, Read)} else {}) + (if x.ports.write.flag then {(i, Write)} else {});
    assert mine <= counted;
    SubsetSize(mine, counted);
  }

  lemma RemoveUpdated<K, V>(m: map<K, V>, k: K, v: V)
    ensures m[k := v] - {k} == m - {k}
  {
  }

  lemma LastPhase(s: Sys, i: WakerIndex, pending: nat)
    requires i in s.sources
    ensures Run(InPhase(s, i, Freeing, pending), DropSteps(i, 1)) ==
      Some(s.(sources := s.sources - {i}, pending := pending))
  {
    RemoveUpdated(s.sources, i, s.sources[i].(phase := Freeing));
    FreeStep(s, i, pending);
    hide InPhase, Step;
    assert DropSteps(i, 1) == [DropStep(i)] + [];
    RunFirst(InPhase(s, i, Freeing, pending), DropStep(i), []);
  }

  lemma FreeStep(s: Sys, i: WakerIndex, pending: nat)
    requires i in s.sources
    ensures Step(InPhase(s, i, Freeing, pending), DropStep(i)) ==
      Some(s.(sources := s.sources[i := s.sources[i].(phase := Freeing)] - {i}, pending := pending))
  {
  }

  /** Dropping a pollable uncounts what waits and frees its index. */
  lemma DropRun(s: Sys, i: WakerIndex)
    requires Inv(s) && i in s.sources && s.sources[i].phase.Live? && Quiet(s.sources[i])
    ensures var n := B(s.sources[i].ports.read.flag) + B(s.sources[i].ports.write.flag);
      s.pending >= n && Run(s, DropEvents(i, n)) == Some(s.(sources := s.sources - {i}, pending := s.pending - n))
  {
    hide Inv, InPhase, Run, DropSteps;
    var r, w := B(s.sources[i].ports.read.flag), B(s.sources[i].ports.write.flag);
    FlagsFit(s, i);
    BeginDrop(s, i);
    RunFirst(s, Drop(i), DropSteps(i, 5 + (r + w)));
    NextPhase(s, i, Waking(Read), s.pending, 5 + r + w);
    NextPhase(s, i, Waking(Write), s.pending, 4 + r + w);
    KindRun(s, i, Read, s.pending, 3 + r + w);
    KindRun(s, i, Write, s.pending - r, 2 + w);
    LastPhase(s, i, s.pending - r - w);
  }

  lemma BeginDrop(s: Sys, i: WakerIndex)
    requires i in s.sources && s.sources[i].phase.Live? && Quiet(s.sources[i])
    ensures Step(s, Drop(i)) == Some(InPhase(s, i, Waking(Read), s.pending))
  {
  }
}
