/** The count of I/O operations that wait for readiness: one per set flag of a live pollable. */
module PendingIo {
  import opened Prelude
  import opened WakerSlab
  import opened PendingSteps
  import Aw = AtomicWaker

  const BUDGET: nat := 128

  type Budget = b: nat | b <= BUDGET witness 0

  function Spent(budget: Budget): (r: Budget) { if budget > 0 then budget - 1 else BUDGET }

  ghost function Marked<T>(s: set<T>, t: T, on: bool): (r: set<T>) { if on then s + {t} else s - {t} }

  ghost function Without<K(!new), V>(m: map<K, V>, k: K): (r: map<K, V>)
    ensures k !in r && forall i | i != k :: (i in r <==> i in m) && (i in m ==> r[i] == m[i])
  {
    map i | i in m && i != k :: m[i]
  }

  /** What one attempt at the operation returns. */
  datatype Io = Interrupted | WouldBlock | Done(value: int)

  datatype Outcome =
    | Waits               // the waker was not ready; it keeps the caller's context
    | Yields              // out of budget; the caller's own waker has been woken
    | Ready(value: int)
    | Unfinished          // the scripted answers ran out while the loop was still going

  /** How often `WouldBlock` occurs among the first answers. */
  ghost function Blocked(ios: seq<Io>): (n: nat)
    ensures n <= |ios|
  {
    if ios == [] then 0 else Blocked(ios[..|ios| - 1]) + if ios[|ios| - 1].WouldBlock? then 1 else 0
  }

  /** The first rounds polls of the waker are Ready, and the first tries attempts give no result. */
  ghost predicate Fruitless(answers: seq<bool>, ios: seq<Io>, rounds: nat, tries: nat) {
    && rounds <= |answers| && (forall j | 0 <= j < rounds :: answers[j])
    && tries <= |ios| && (forall j | 0 <= j < tries :: !ios[j].Done?)
  }

  /** The scripted answers end before the operation: the waker's, when it is polled once more, or the
      attempts', in the middle of a round. */
  ghost predicate RanOut(answers: seq<bool>, ios: seq<Io>, rounds: nat, tries: nat) {
    && Fruitless(answers, ios, rounds, tries)
    && (if rounds == Blocked(ios[..tries]) then rounds == |answers|
        else rounds == Blocked(ios[..tries]) + 1 && tries == |ios|)
  }

  /** After rounds polls of the waker, all Ready, the last attempt is the first that gives a result. */
  ghost predicate FirstDone(answers: seq<bool>, ios: seq<Io>, rounds: nat, tries: nat, value: Io) {
    && 0 < tries && Fruitless(answers, ios, rounds, tries - 1) && tries <= |ios| && ios[tries - 1] == value
    && rounds == Blocked(ios[..tries]) + 1
  }

  /** Each round but the last ends with an attempt that would have blocked, and then the waker is not
      ready. */
  ghost predicate FirstUnready(answers: seq<bool>, ios: seq<Io>, rounds: nat, tries: nat) {
    && Fruitless(answers, ios, rounds, tries) && rounds == Blocked(ios[..tries])
    && rounds < |answers| && !answers[rounds] && (tries == 0 || ios[tries - 1].WouldBlock?)
  }

  lemma BlockedNext(ios: seq<Io>, n: nat)
    requires n < |ios|
    ensures Blocked(ios[..n + 1]) == Blocked(ios[..n]) + if ios[n].WouldBlock? then 1 else 0
  {
    assert ios[..n + 1][..n] == ios[..n];
  }

  /** The set names exactly the flags that are set. */
  ghost predicate Counted(flags: map<WakerIndex, Two<bool>>, waiting: set<(WakerIndex, Kind)>) {
    forall i, k :: (i, k) in waiting <==> i in flags && flags[i].At(k)
  }

  lemma CountedSet(flags: map<WakerIndex, Two<bool>>, waiting: set<(WakerIndex, Kind)>, i: WakerIndex, k: Kind,
    on: bool)
    requires Counted(flags, waiting) && i in flags
    ensures Counted(flags[i := flags[i].With(k, on)], Marked(waiting, (i, k), on))
  {
  }

  /** What is left when nothing at index i waits. */
  ghost function Released(waiting: set<(WakerIndex, Kind)>, i: WakerIndex): (r: set<(WakerIndex, Kind)>)
    ensures forall w :: w in r <==> w in waiting && w.0 != i
  {
    assert forall w: (WakerIndex, Kind) :: w.1 == Read || w.1 == Write;
    waiting - {(i, Read)} - {(i, Write)}
  }

  lemma CountedDrop(flags: map<WakerIndex, Two<bool>>, waiting: set<(WakerIndex, Kind)>, i: WakerIndex)
    requires Counted(flags, waiting)
    ensures Counted(Without(flags, i), Released(waiting, i))
  {
  }

  // ---- the view of the step machine ------------------------------------------------------------

  /** A pollable between operations. */
  function AtRest(flags: Two<bool>): (x: Source) {
    Source(Two(Port(flags.read, Idle), Port(flags.write, Idle)), Live)
  }

  /** The state of the step machine in which no operation is under way. */
  function ViewOf(blocks: nat, entries: nat, max: nat, pending: nat, flags: map<WakerIndex, Two<bool>>): (s: Sys) {
    Sys(blocks, entries, max, pending, map i | i in flags :: AtRest(flags[i]))
  }

  lemma ViewInv(s: Sys, flags: map<WakerIndex, Two<bool>>, waiting: set<(WakerIndex, Kind)>)
    requires s == ViewOf(s.blocks, s.entries, s.max, |waiting|, flags) && Counted(flags, waiting)
    requires 2 * (s.blocks * s.entries) <= s.max && forall i | i in flags :: i.block < s.blocks && i.entry < s.entries
    ensures Inv(s) && waiting == Ports(s, IsCounted)
  {
    forall f, k ensures SourceOk(AtRest(f)) && IsCounted(AtRest(f), k) == f.At(k) { RestCounts(f, k); }
    hide AtRest, SourceOk, IsCounted;
    assert forall i | i in s.sources :: SourceOk(s.sources[i]);
    forall w: (WakerIndex, Kind) ensures w in waiting <==> w in Ports(s, IsCounted) {
      assert w == (w.0, w.1);
      assert w in Ports(s, IsCounted) <==> w.0 in flags && flags[w.0].At(w.1);
    }
    assert waiting == Ports(s, IsCounted);
  }

  lemma RestCounts(f: Two<bool>, k: Kind)
    ensures SourceOk(AtRest(f)) && IsCounted(AtRest(f), k) == f.At(k)
  {
  }

  lemma ViewPort(s: Sys, flags: map<WakerIndex, Two<bool>>, i: WakerIndex, k: Kind, on: bool, pending: nat)
    requires s == ViewOf(s.blocks, s.entries, s.max, s.pending, flags) && i in flags
    ensures Here(s, i, k, Port(on, Idle), pending) ==
      ViewOf(s.blocks, s.entries, s.max, pending, flags[i := flags[i].With(k, on)])
  {
    assert Here(s, i, k, Port(on, Idle), pending).sources ==
      ViewOf(s.blocks, s.entries, s.max, pending, flags[i := flags[i].With(k, on)]).sources;
  }

  lemma ViewWithout(flags: map<WakerIndex, Two<bool>>, i: WakerIndex)
    ensures (map j | j in flags :: AtRest(flags[j])) - {i} ==
      map j | j in Without(flags, i) :: AtRest(Without(flags, i)[j])
  {
  }

  lemma ViewNew(blocks: nat, entries: nat, max: nat, pending: nat, flags: map<WakerIndex, Two<bool>>, i: WakerIndex)
    requires i !in flags && i.block < blocks && i.entry < entries
    ensures Step(ViewOf(blocks, entries, max, pending, flags), New(i)) ==
      Some(ViewOf(blocks, entries, max, pending, flags[i := Two(false, false)]))
  {
    var s, s' := ViewOf(blocks, entries, max, pending, flags),
      ViewOf(blocks, entries, max, pending, flags[i := Two(false, false)]);
    assert s.sources[i := Fresh] == s'.sources;
  }

  /** Each pollable is listed under its own index. */
  ghost predicate Owned(np: NetPoller, owner: map<WakerIndex, Pollable>, known: set<Pollable>) {
    forall i | i in owner :: owner[i] in known && owner[i].index == i && owner[i].poller == np
  }

  ghost predicate FlagsOf(owner: map<WakerIndex, Pollable>, flags: map<WakerIndex, Two<bool>>, known: set<Pollable>)
    reads known
  {
    owner.Keys == flags.Keys && forall i | i in owner && owner[i] in known :: owner[i].pendings == flags[i]
  }

  lemma OwnedDrop(np: NetPoller, owner: map<WakerIndex, Pollable>, flags: map<WakerIndex, Two<bool>>,
    known: set<Pollable>, i: WakerIndex)
    requires Owned(np, owner, known) && FlagsOf(owner, flags, known)
    ensures Owned(np, Without(owner, i), known) && FlagsOf(Without(owner, i), Without(flags, i), known)
    ensures Without(owner, i).Keys == owner.Keys - {i}
  {
  }

  lemma OwnedAdd(np: NetPoller, owner: map<WakerIndex, Pollable>, flags: map<WakerIndex, Two<bool>>,
    known: set<Pollable>, waiting: set<(WakerIndex, Kind)>, p: Pollable)
    requires Owned(np, owner, known) && FlagsOf(owner, flags, known) && Counted(flags, waiting)
    requires p.index !in owner && p.poller == np && p.pendings == Two(false, false)
    ensures Owned(np, owner[p.index := p], known + {p})
    ensures FlagsOf(owner[p.index := p], flags[p.index := p.pendings], known + {p})
    ensures Counted(flags[p.index := p.pendings], waiting) && p.index !in flags
  {
    assert forall k :: !p.pendings.At(k);
  }

  class NetPoller {
    const usizeMax: nat
    const storage: WakerStorage
    var pending: nat
    ghost var owner: map<WakerIndex, Pollable>
    ghost var known: set<Pollable>    // every pollable there has been
    ghost var flags: map<WakerIndex, Two<bool>>
    ghost var waiting: set<(WakerIndex, Kind)>

    /** Live indices and pollables correspond, and the counter counts the set flags. */
    ghost predicate Valid()
      reads this, storage, storage.table, known
    {
      && storage.Valid()
      && 2 * (storage.numBlocks * storage.numEntries) <= usizeMax
      && owner.Keys == storage.live
      && Owned(this, owner, known) && FlagsOf(owner, flags, known)
      && Counted(flags, waiting)
      && pending == |waiting|
    }

    ghost function View(): (s: Sys)
      reads this, storage
    {
      ViewOf(storage.numBlocks, storage.numEntries, usizeMax, pending, flags)
    }

    /** Between operations the machine's invariant holds. */
    lemma ViewOk()
      requires Valid()
      ensures Inv(View()) && waiting == Ports(View(), IsCounted)
    {
      ViewInv(View(), flags, waiting);
    }

    /** `Valid`, but that nothing of the pollable at `i` is counted. */
    ghost predicate DeregisterOk(i: WakerIndex)
      reads this, storage, storage.table, known
    {
      && storage.Valid()
      && 2 * (storage.numBlocks * storage.numEntries) <= usizeMax
      && i in owner && owner.Keys == storage.live
      && Owned(this, owner, known) && FlagsOf(owner, flags, known)
      && Counted(Without(flags, i), waiting)
      && pending == |waiting|
    }

    constructor (blocks: nat, entries: nat, max: nat)
      requires 0 < blocks < U16 && 0 < entries <= U16 && 2 * (blocks * entries) <= max
      ensures Valid() && owner == map[] && pending == 0
    {
      storage := new WakerStorage(blocks, entries);
      usizeMax, pending := max, 0;
      owner, known, flags, waiting := map[], {}, map[], {};
    }

    /** The selector is left alone exactly when no operation waits, or when another thread has it. */
    method TryPoll(locked: bool) returns (polls: bool)
      requires Valid()
      ensures polls <==> !locked && exists i, k :: i in owner && owner[i].pendings.At(k)
    {
      ViewOk();
      ZeroCounts(View());
      assert forall i, k | i in owner :: IsCounted(View().sources[i], k) == owner[i].pendings.At(k);
      return pending != 0 && !locked;
    }

    method IoPendingBegin()
      requires pending != usizeMax    // an assertion, which every caller meets
      modifies this`pending
      ensures pending == old(pending) + 1
    {
      pending := pending + 1;
    }

    method IoPendingComplete()
      requires pending != 0           // an assertion, which every caller meets
      modifies this`pending
      ensures pending == old(pending) - 1
    {
      pending := pending - 1;
    }

    method Count(i: WakerIndex, k: Kind, on: bool)
      requires pending == |waiting| && ((i, k) in waiting) != on && (on ==> pending < usizeMax)
      modifies this`pending, this`waiting
      ensures pending == |waiting| == old(pending) + (if on then 1 else -1) &&
        waiting == Marked(old(waiting), (i, k), on)
    {
      if on { IoPendingBegin(); } else { IoPendingComplete(); }
      waiting := Marked(waiting, (i, k), on);
    }

    /** An operation that does not wait yet leaves room in the counter. */
    lemma RoomToBegin(i: WakerIndex, k: Kind)
      requires Valid() && i in owner && (i, k) !in waiting
      ensures pending < usizeMax
    {
      hide WakerStorage.Valid;
      ViewOk();
      Room(View(), i, k);
    }

    /** An index for a source, or none when the slab is full or the registry refuses. */
    method Register(accepted: bool) returns (r: Option<WakerIndex>)
      requires Valid()
      modifies storage, storage.table
      ensures storage.Valid() && (r.Some? ==> r.value.block < storage.numBlocks && r.value.entry < storage.numEntries)
      ensures r.None? ==> storage.live == old(storage.live)
      ensures r.Some? ==> r.value !in old(storage.live) && storage.live == old(storage.live) + {r.value}
      ensures r.Some? <==> accepted && exists b, e ::
        0 <= b < storage.numBlocks && 0 <= e < storage.numEntries && WakerIndex(b, e) !in old(storage.live)
    {
      r := storage.Alloc();
      if r.None? { return; }
      assert r.value.block < storage.numBlocks && r.value.entry < storage.numEntries &&
        WakerIndex(r.value.block, r.value.entry) == r.value;
      if !accepted {
        storage.Free(r.value);
        r := None;
      }
    }

    /** Frees the index of a pollable that counts nothing any more. */
    method Deregister(i: WakerIndex)
      requires DeregisterOk(i)
      modifies this`owner, this`flags, storage`available, storage`live
      ensures Valid() && owner == Without(old(owner), i) && flags == Without(old(flags), i)
    {
      hide WakerStorage.Valid, Counted, Owned, FlagsOf, Without;
      OwnedDrop(this, owner, flags, known, i);
      storage.Free(i);
      owner := Without(owner, i);
      flags := Without(flags, i);
    }

    method NewPollable(accepted: bool) returns (r: Option<Pollable>)
      requires Valid()
      modifies this`owner, this`known, this`flags, storage, storage.table
      ensures Valid() && pending == old(pending) && waiting == old(waiting)
      ensures r.None? ==> owner == old(owner)
      ensures r.Some? ==>
        fresh(r.value) && r.value.index !in old(owner) && owner == old(owner)[r.value.index := r.value]
      ensures r.Some? ==> Step(old(View()), New(r.value.index)) == Some(View())
    {
      hide WakerStorage.Valid, Counted, Owned, FlagsOf, Step, ViewOf;
      var index := Register(accepted);
      if index.None? { return None; }
      var p := new Pollable(this, index.value);
      OwnedAdd(this, owner, flags, known, waiting, p);
      ViewNew(storage.numBlocks, storage.numEntries, usizeMax, pending, flags, index.value);
      owner, known := owner[index.value := p], known + {p};
      flags := flags[index.value := p.pendings];
      r := Some(p);
    }
  }

  class Pollable {
    const poller: NetPoller
    const index: WakerIndex
    var budgets: Two<Budget>
    var pendings: Two<bool>

    constructor (np: NetPoller, i: WakerIndex)
      ensures poller == np && index == i && pendings == Two(false, false) && budgets == Two(BUDGET, BUDGET)
    {
      poller, index := np, i;
      budgets, pendings := Two(BUDGET, BUDGET), Two(false, false);
    }

    ghost predicate Registered()
      reads this, poller, poller.storage, poller.storage.table, poller.known
    {
      poller.Valid() && index in poller.owner && poller.owner[index] == this
    }

    method StoreFlags(p: Two<bool>)
      requires Owned(poller, poller.owner, poller.known) && FlagsOf(poller.owner, poller.flags, poller.known)
      requires index in poller.owner && poller.owner[index] == this
      modifies this`pendings, poller`flags
      ensures FlagsOf(poller.owner, poller.flags, poller.known)
      ensures pendings == p && poller.flags == old(poller.flags)[index := p]
    {
      pendings := p;
      poller.flags := poller.flags[index := p];
    }

    /** Marks the operation as waiting, or as no longer waiting, and counts it. */
    method SetPending(kind: Kind, on: bool)
      requires Registered() && pendings.At(kind) != on
      modifies this`pendings, poller`pending, poller`flags, poller`waiting
      ensures Registered() && pendings == old(pendings).With(kind, on) &&
        poller.flags == old(poller.flags)[index := pendings]
      ensures poller.waiting == Marked(old(poller.waiting), (index, kind), on)
      ensures poller.pending == old(poller.pending) + if on then 1 else -1
    {
      hide WakerStorage.Valid, Counted, Owned, FlagsOf, Without;
      WaitingFlags();
      if on { poller.RoomToBegin(index, kind); }
      poller.Count(index, kind, on);
      CountedSet(old(poller.flags), old(poller.waiting), index, kind, on);
      StoreFlags(pendings.With(kind, on));
    }

    lemma WaitingFlags()
      requires Registered()
      ensures index in poller.flags && poller.flags[index] == pendings
      ensures forall k :: (index, k) in poller.waiting <==> pendings.At(k)
    {
    }

    /** Takes one round from the budget, or refills an empty one. */
    method SpendBudget(kind: Kind) returns (ok: bool)
      requires Registered()
      modifies this`budgets
      ensures Registered() && ok == (old(budgets.At(kind)) > 0)
      ensures budgets == old(budgets).With(kind, Spent(old(budgets.At(kind))))
    {
      var budget := budgets.At(kind);
      ok := budget > 0;
      budgets := budgets.With(kind, Spent(budget));
    }

    /** Attempts from the answer `first` on, up to one that is neither interrupted nor blocked, or
        up to the first that is blocked. */
    static method Attempt(ios: seq<Io>, first: nat) returns (tries: nat)
      requires first <= |ios|
      ensures first <= tries <= |ios|
      ensures tries < |ios| ==> !ios[tries].Interrupted?
      ensures forall j | first <= j < tries :: ios[j].Interrupted?
      ensures Blocked(ios[..tries]) == Blocked(ios[..first])
    {
      tries := first;
      while tries < |ios| && ios[tries].Interrupted?
        invariant first <= tries <= |ios| && Blocked(ios[..tries]) == Blocked(ios[..first])
        invariant forall j | first <= j < tries :: ios[j].Interrupted?
      {
        BlockedNext(ios, tries);
        tries := tries + 1;
      }
    }

    /** The machine's run of an operation that nothing overlaps. */
    lemma RoundView(kind: Kind, answer: bool)
      requires Registered()
      ensures var n := poller.pending + B(!answer) - B(pendings.At(kind));
        && n >= 0 && poller.flags[index := poller.flags[index]] == poller.flags
        && Run(poller.View(), RoundEvents(index, kind, pendings.At(kind), answer)) ==
             Some(ViewOf(poller.storage.numBlocks, poller.storage.numEntries, poller.usizeMax, n,
               poller.flags[index := pendings.With(kind, !answer)]))
    {
      hide Inv, RoundEvents, Run, NetPoller.Valid, WakerStorage.Valid;
      var s := poller.View();
      poller.ViewOk();
      WaitingFlags();
      assert s.sources[index] == AtRest(pendings);
      RoundRun(s, index, kind, answer);
      ViewPort(s, poller.flags, index, kind, !answer, poller.pending + B(!answer) - B(pendings.At(kind)));
    }

    /** What follows a poll of the waker: the flag is set or cleared, a task's budget is spent. */
    method Round(kind: Kind, ctx: bool, answer: bool) returns (r: Option<Outcome>)
      requires Registered()
      modifies this`budgets, this`pendings, poller`pending, poller`flags, poller`waiting
      ensures Registered()
      ensures r == (if !answer then Some(Waits) else if ctx && old(budgets.At(kind)) == 0 then Some(Yields) else None)
      ensures pendings == old(pendings).With(kind, !answer)
      ensures poller.waiting == Marked(old(poller.waiting), (index, kind), !answer)
      ensures budgets == if answer && ctx then old(budgets).With(kind, Spent(old(budgets.At(kind)))) else old(budgets)
      ensures Run(old(poller.View()), RoundEvents(index, kind, old(pendings.At(kind)), answer)) == Some(poller.View())
    {
      hide NetPoller.Valid, RoundEvents, Run, Here, ViewOf;
      WaitingFlags();
      RoundView(kind, answer);
      if pendings.At(kind) == answer { SetPending(kind, !answer); }
      r := None;
      if !answer {
        r := Some(Waits);
      } else if ctx {
        var ok := SpendBudget(kind);
        if !ok { r := Some(Yields); }
      }
    }

    /** One operation of the only user of this kind. `answers` are what the waker's polls return,
        `ios` what the attempts return, `ctx` whether the caller is a task.

        The operation ends up counted exactly if it waits; an attempt is the result exactly if all
        before it were interrupted or would have blocked, and each of the latter reset the waker;
        a task makes at most as many rounds of attempts as its budget has left. */
    method PollIo(kind: Kind, ctx: bool, answers: seq<bool>, ios: seq<Io>)
      returns (r: Outcome, tries: nat, resets: nat, ghost rounds: nat)
      requires Registered()
      modifies this`budgets, this`pendings, poller`pending, poller`flags, poller`waiting
      ensures Registered()
      ensures !r.Unfinished? ==> pendings == old(pendings).With(kind, r.Waits?)
      ensures !r.Unfinished? ==> poller.waiting == Marked(old(poller.waiting), (index, kind), r.Waits?)
      ensures tries <= |ios| && resets == Blocked(ios[..tries])
      ensures r.Ready? ==> tries > 0 && ios[tries - 1] == Done(r.value)
      ensures forall j | 0 <= j < tries && ios[j].Done? :: r.Ready? && j == tries - 1
      ensures !ctx ==> !r.Yields? && budgets == old(budgets)
      ensures ctx && !r.Yields? ==> rounds <= old(budgets.At(kind))
      ensures ctx && !r.Yields? ==> budgets == old(budgets).With(kind, old(budgets.At(kind)) - rounds)
      ensures r.Yields? ==> rounds == old(budgets.At(kind)) && budgets == old(budgets).With(kind, BUDGET)
      ensures rounds <= |answers| && forall j | 0 <= j < rounds :: answers[j]
      ensures r.Waits? ==> rounds == resets && rounds < |answers| && !answers[rounds]
      ensures r.Ready? ==> rounds == resets + 1
      ensures r.Yields? ==> rounds == resets && rounds < |answers| && answers[rounds]
      ensures r.Waits? || r.Yields? ==> tries == 0 || ios[tries - 1].WouldBlock?
      ensures r.Unfinished? ==> RanOut(answers, ios, rounds, tries)
      ensures r.Unfinished? && rounds == 0 ==> pendings == old(pendings) && poller.waiting == old(poller.waiting)
      ensures r.Unfinished? && rounds > 0 ==> pendings == old(pendings).With(kind, false)
      ensures r.Unfinished? && rounds > 0 ==> poller.waiting == Marked(old(poller.waiting), (index, kind), false)
    {
      hide Registered, NetPoller.Valid, NetPoller.View, WakerStorage.Valid, Blocked, Run, RoundEvents;
      tries, resets, rounds := 0, 0, 0;
      var a := 0;
      while a < |answers|
        invariant Registered() && rounds == a <= |answers| && forall j | 0 <= j < a :: answers[j]
        invariant a > 0 ==> pendings == old(pendings).With(kind, false)
        invariant a > 0 ==> poller.waiting == Marked(old(poller.waiting), (index, kind), false)
        invariant a == 0 ==> pendings == old(pendings) && poller.waiting == old(poller.waiting)
        invariant tries <= |ios| && resets == rounds == Blocked(ios[..tries])
        invariant forall j | 0 <= j < tries :: !ios[j].Done?
        invariant tries == 0 || ios[tries - 1].WouldBlock?
        invariant ctx ==> rounds <= old(budgets.At(kind))
        invariant if ctx then budgets == old(budgets).With(kind, old(budgets.At(kind)) - rounds)
          else budgets == old(budgets)
      {
        var stop := Round(kind, ctx, answers[a]);
        if stop.Some? { return stop.value, tries, resets, rounds; }
        a, rounds := a + 1, rounds + 1;
        tries := Attempt(ios, tries);
        if tries == |ios| { return Unfinished, tries, resets, rounds; }
        BlockedNext(ios, tries);
        tries := tries + 1;
        if ios[tries - 1].Done? { return Ready(ios[tries - 1].value), tries, resets, rounds; }
        resets := resets + 1;
      }
      r := Unfinished;
    }

    /** An operation outside a task: it cannot yield, and one that has to wait is counted and
        reported as `WouldBlock`. */
    method TryIo(kind: Kind, answers: seq<bool>, ios: seq<Io>) returns (r: Option<Io>)
      requires Registered()
      modifies this`budgets, this`pendings, poller`pending, poller`flags, poller`waiting
      ensures Registered() && budgets == old(budgets)
      ensures r.Some? ==> r.value in ios + [WouldBlock] && !r.value.Interrupted?
      ensures r.None? ==> exists rounds, tries :: RanOut(answers, ios, rounds, tries)
      ensures r.Some? && r.value.Done? ==> exists rounds, tries :: FirstDone(answers, ios, rounds, tries, r.value)
      ensures r == Some(WouldBlock) ==> exists rounds, tries :: FirstUnready(answers, ios, rounds, tries)
      ensures r.Some? ==> pendings == old(pendings).With(kind, r == Some(WouldBlock))
      ensures r.Some? ==> poller.waiting == Marked(old(poller.waiting), (index, kind), r == Some(WouldBlock))
    {
      hide Registered, Blocked;
      var o, tries, _, rounds := PollIo(kind, false, answers, ios);
      assert o.Unfinished? ==> RanOut(answers, ios, rounds, tries);
      assert o.Ready? ==> FirstDone(answers, ios, rounds, tries, Done(o.value));
      assert o.Waits? ==> FirstUnready(answers, ios, rounds, tries);
      r := match o case Ready(v) => Some(Done(v)) case Waits => Some(WouldBlock) case _ => None;
    }

    method Uncount()
      requires poller.pending == |poller.waiting|
      requires forall k :: pendings.At(k) <==> (index, k) in poller.waiting
      modifies poller`pending, poller`waiting
      ensures poller.pending == |poller.waiting| == old(poller.pending) - B(pendings.read) - B(pendings.write)
      ensures poller.waiting == Released(old(poller.waiting), index)
    {
      assert pendings.At(Read) == pendings.read && pendings.At(Write) == pendings.write;
      if pendings.read { poller.Count(index, Read, false); }
      if pendings.write { poller.Count(index, Write, false); }
    }

    /** Uncounts whatever this pollable counts, before its index is given back. */
    method UncountAll()
      requires Registered()
      modifies poller`pending, poller`waiting
      ensures poller.DeregisterOk(index)
      ensures poller.waiting == Released(old(poller.waiting), index)
      ensures poller.pending == old(poller.pending) - B(pendings.read) - B(pendings.write)
    {
      hide WakerStorage.Valid, Counted, Owned, FlagsOf, Without, Released;
      WaitingFlags();
      CountedDrop(poller.flags, poller.waiting, index);
      Uncount();
    }

    /** The machine's run of a drop. */
    lemma DropView()
      requires Registered()
      ensures var n := B(pendings.read) + B(pendings.write);
        && poller.pending >= n
        && Run(poller.View(), DropEvents(index, n)) ==
             Some(ViewOf(poller.storage.numBlocks, poller.storage.numEntries, poller.usizeMax, poller.pending - n,
               Without(poller.flags, index)))
    {
      hide Inv, DropEvents, Run, NetPoller.Valid, WakerStorage.Valid, Without;
      var s := poller.View();
      poller.ViewOk();
      WaitingFlags();
      assert s.sources[index] == AtRest(pendings);
      ViewWithout(poller.flags, index);
      DropRun(s, index);
    }

    /** Everything this pollable counts is uncounted and its index is free again. */
    method Drop()
      requires Registered()
      modifies poller`pending, poller`flags, poller`waiting, poller`owner, poller.storage`available, poller.storage`live
      ensures poller.Valid() && poller.owner == Without(old(poller.owner), index)
      ensures poller.waiting == Released(old(poller.waiting), index)
      ensures Run(old(poller.View()), DropEvents(index, old(B(pendings.read) + B(pendings.write)))) ==
        Some(poller.View())
    {
      hide NetPoller.Valid, NetPoller.DeregisterOk, WakerStorage.Valid, Without, Run, DropEvents, ViewOf;
      DropView();
      UncountAll();
      poller.Deregister(index);
    }
  }
}
