/** A worker's run queue: its owner works at the new end, and at the old end now and then, where
    other workers steal. */
module RunQueue {
  import opened Prelude

  type Runnable = nat

  /** The runnables, oldest first, and whether the next pop has to be fair. */
  datatype Deque = Deque(items: seq<Runnable>, beFair: bool)

  datatype Op =
    | Push(r: Runnable, beFair: bool)
    | Pop(beFair: bool)
    | Stolen(n: nat)                  // other workers take the n oldest, or all there are

  /** What is left and what was taken. */
  datatype Outcome = Outcome(deque: Deque, taken: seq<Runnable>)

  predicate IsFair(d: Deque, op: Op) { op.Pop? && (op.beFair || d.beFair) }

  /** A pop that is asked to be fair leaves the flag for the next one. */
  function Apply(d: Deque, op: Op): (r: Outcome) {
    var n := |d.items|;
    match op
    case Push(r, f) => Outcome(Deque(d.items + [r], d.beFair || f), [])
    case Stolen(k) => var m := if k < n then k else n; Outcome(d.(items := d.items[m..]), d.items[..m])
    case Pop(f) =>
      var left := d.beFair && f;
      if n == 0 then Outcome(Deque([], left), [])
      else if IsFair(d, op) then Outcome(Deque(d.items[1..], left), [d.items[0]])
      else Outcome(Deque(d.items[..n - 1], left), [d.items[n - 1]])
  }

  function Run(d: Deque, ops: seq<Op>): (r: Outcome)
    decreases |ops|
  {
    if ops == [] then Outcome(d, [])
    else
      var o := Apply(d, ops[0]);
      var rest := Run(o.deque, ops[1..]);
      Outcome(rest.deque, o.taken + rest.taken)
  }

  ghost function Pushed(ops: seq<Op>): (r: multiset<Runnable>) {
    if ops == [] then multiset{}
    else (if ops[0].Push? then multiset{ops[0].r} else multiset{}) + Pushed(ops[1..])
  }

  /** The fair pops of a run. */
  ghost function FairPops(d: Deque, ops: seq<Op>): (r: nat)
    decreases |ops|
  {
    if ops == [] then 0
    else (if IsFair(d, ops[0]) then 1 else 0) + FairPops(Apply(d, ops[0]).deque, ops[1..])
  }

  // ---- what the order of service promises ------------------------------------------------------

  lemma ApplyConserves(d: Deque, op: Op)
    ensures multiset(d.items) + (if op.Push? then multiset{op.r} else multiset{})
      == multiset(Apply(d, op).deque.items) + multiset(Apply(d, op).taken)
  {
    var items, n := d.items, |d.items|;
    if op.Push? {
      assert multiset(items + [op.r]) == multiset(items) + multiset{op.r};
    } else if op.Stolen? {
      SplitsAt(items, if op.n < n then op.n else n);
    } else if n > 0 {
      PopConserves(items);
    }
  }

  /** Either end of a deque and the rest are the deque. */
  lemma PopConserves(s: seq<Runnable>)
    requires s != []
    ensures multiset(s) == multiset(s[1..]) + multiset([s[0]])
    ensures multiset(s) == multiset(s[..|s| - 1]) + multiset([s[|s| - 1]])
  {
    SplitsAt(s, 1);
    SplitsAt(s, |s| - 1);
    assert s[..1] == [s[0]];
    assert s[|s| - 1..] == [s[|s| - 1]];
  }

  lemma SplitsAt(s: seq<Runnable>, k: nat)
    requires k <= |s|
    ensures multiset(s) == multiset(s[..k]) + multiset(s[k..])
  {
    assert s == s[..k] + s[k..];
  }

  lemma Sums<T>(a: multiset<T>, p: multiset<T>, q: multiset<T>, b: multiset<T>, t: multiset<T>, c: multiset<T>,
    u: multiset<T>)
    requires a + p == b + t && b + q == c + u
    ensures a + (p + q) == c + (t + u)
  {
    assert a + (p + q) == a + p + q;
    assert b + t + q == b + q + t;
    assert c + u + t == c + (t + u);
  }

  /** No run loses a runnable or hands one out twice. */
  lemma {:induction false} RunConserves(d: Deque, ops: seq<Op>)
    ensures multiset(d.items) + Pushed(ops) == multiset(Run(d, ops).deque.items) + multiset(Run(d, ops).taken)
    decreases |ops|
  {
    if ops != [] {
      var o := Apply(d, ops[0]);
      var rest := Run(o.deque, ops[1..]);
      ApplyConserves(d, ops[0]);
      RunConserves(o.deque, ops[1..]);
      hide Apply;
      var p := if ops[0].Push? then multiset{ops[0].r} else multiset{};
      assert Pushed(ops) == p + Pushed(ops[1..]);
      assert Run(d, ops) == Outcome(rest.deque, o.taken + rest.taken);
      assert multiset(o.taken + rest.taken) == multiset(o.taken) + multiset(rest.taken);
      Sums(multiset(d.items), p, Pushed(ops[1..]), multiset(o.deque.items), multiset(o.taken),
        multiset(rest.deque.items), multiset(rest.taken));
    }
  }

  /** A runnable with `p` older ones before it is taken before, or by, fair pop number `p + 1`,
      however many newer ones are pushed meanwhile. */
  lemma {:induction false} NoStarvation(d: Deque, ops: seq<Op>, p: nat)
    requires p < |d.items| && FairPops(d, ops) > p
    ensures d.items[p] in Run(d, ops).taken
    decreases |ops|
  {
    var op := ops[0];
    var o := Apply(d, op);
    if d.items[p] !in o.taken {
      var q := if IsFair(d, op) then p - 1 else if op.Stolen? then p - |o.taken| else p;
      assert q >= 0 && o.deque.items[q] == d.items[p];
      NoStarvation(o.deque, ops[1..], q);
    }
  }

  /** A runnable that is put back fairly, as a task that was woken while it ran is, does not come
      next if there are others: the oldest comes next. */
  lemma FairPushYields(d: Deque, r: Runnable, f: bool)
    requires d.items != []
    ensures Run(d, [Push(r, true), Pop(f)]).taken == [d.items[0]]
  {
    var d' := Apply(d, Push(r, true)).deque;
    assert Run(d', [Pop(f)]).taken == Apply(d', Pop(f)).taken + Run(Apply(d', Pop(f)).deque, []).taken;
    assert [Push(r, true), Pop(f)][1..] == [Pop(f)] && [Pop(f)][1..] == [];
  }

  lemma RunConcat(d: Deque, a: seq<Op>, b: seq<Op>)
    ensures var o := Run(d, a);
      Run(d, a + b) == Outcome(Run(o.deque, b).deque, o.taken + Run(o.deque, b).taken)
    decreases |a|
  {
    hide Apply;
    if a == [] {
      assert a + b == b;
    } else {
      assert (a + b)[1..] == a[1..] + b;
      RunConcat(Apply(d, a[0]).deque, a[1..], b);
    }
  }

  function Pushes(rs: seq<Runnable>): (ops: seq<Op>) { seq(|rs|, k requires 0 <= k < |rs| => Push(rs[k], false)) }

  function Pops(n: nat): (ops: seq<Op>) { seq(n, _ => Pop(false)) }

  function Backwards(rs: seq<Runnable>): (r: seq<Runnable>) { seq(|rs|, k requires 0 <= k < |rs| => rs[|rs| - 1 - k]) }

  /** Where fairness is not asked for, the owner works at the new end: what it has pushed comes back
      newest first, and whatever is older stays as it is. */
  lemma {:induction false} UnfairIsStack(d: Deque, rs: seq<Runnable>)
    requires !d.beFair
    ensures Run(d, Pushes(rs) + Pops(|rs|)) == Outcome(d, Backwards(rs))
    decreases |rs|
  {
    if rs == [] {
      assert Pushes(rs) + Pops(0) == [];
    } else {
      var r, rest := rs[0], rs[1..];
      var d' := Deque(d.items + [r], false);
      UnfairIsStack(d', rest);
      assert Pushes(rs) + Pops(|rs|) == [Push(r, false)] + ((Pushes(rest) + Pops(|rest|)) + [Pop(false)]);
      RunConcat(d, [Push(r, false)], (Pushes(rest) + Pops(|rest|)) + [Pop(false)]);
      RunConcat(d', Pushes(rest) + Pops(|rest|), [Pop(false)]);
      RunOne(d, Push(r, false));
      RunOne(d', Pop(false));
      assert d'.items[..|d.items|] == d.items;
      assert Backwards(rs) == Backwards(rest) + [r];
    }
  }

  lemma RunOne(d: Deque, op: Op)
    ensures Run(d, [op]) == Apply(d, op)
  {
    assert [op][1..] == [];
  }

  /** A pop that is asked to be fair takes the oldest and leaves a set flag for the pop after it, which
      takes the next one; a pop that is not asked uses the flag up. */
  lemma FlagLasts(d: Deque, f: bool)
    requires d.beFair && |d.items| >= 2
    ensures Run(d, [Pop(true), Pop(f)]).taken == d.items[..2]
    ensures Run(d, [Pop(false), Pop(false)]).taken == [d.items[0], d.items[|d.items| - 1]]
  {
    RunConcat(d, [Pop(true)], [Pop(f)]);
    RunConcat(d, [Pop(false)], [Pop(false)]);
    RunOne(d, Pop(true));
    RunOne(d, Pop(false));
    RunOne(Apply(d, Pop(true)).deque, Pop(f));
    RunOne(Apply(d, Pop(false)).deque, Pop(false));
    assert [Pop(true)] + [Pop(f)] == [Pop(true), Pop(f)] && [Pop(false)] + [Pop(false)] == [Pop(false), Pop(false)];
  }

  // ---- the queues ------------------------------------------------------------------------------

  class Injector {
    var items: seq<Runnable>

    constructor ()
      ensures items == []
    {
      items := [];
    }

    method Push(r: Runnable)
      modifies this
      ensures items == old(items) + [r]
    {
      items := items + [r];
    }
  }

  class Producer {
    var beFair: bool
    var worker: seq<Runnable>

    function Value(): (r: Deque)
      reads this
    {
      Deque(worker, beFair)
    }

    constructor ()
      ensures Value() == Deque([], false)
    {
      beFair, worker := false, [];
    }

    method Push(r: Runnable, fair: bool)
      modifies this
      ensures Value() == Apply(old(Value()), Op.Push(r, fair)).deque
    {
      worker := worker + [r];
      if fair { beFair := true; }
    }

    method Pop(fair: bool) returns (r: Option<Runnable>)
      modifies this
      ensures var o := Apply(old(Value()), Op.Pop(fair));
        Value() == o.deque && o.taken == if r.Some? then [r.value] else []
    {
      var n := |worker|;
      var isFair := fair;
      if !fair { isFair, beFair := beFair, false; }
      if n == 0 { return None; }
      if isFair {
        r, worker := Some(worker[0]), worker[1..];
      } else {
        r, worker := Some(worker[n - 1]), worker[..n - 1];
      }
    }

    /** Moves a batch of another worker's oldest runnables here and hands one of them out. How many
        there are and in which order they arrive is the deque's choice, `batch` and `order`. */
    method Steal(from: Producer, batch: nat, order: seq<Runnable>) returns (r: Option<Runnable>)
      requires from != this && batch <= |from.worker| && (batch == 0 <==> from.worker == [])
      requires multiset(order) == multiset(from.worker[..batch])
      modifies this, from
      ensures from.Value() == Apply(old(from.Value()), Stolen(batch)).deque
      ensures beFair == old(beFair) && old(worker) <= worker
      ensures r.None? <==> old(from.worker) == []
      ensures multiset(worker) + (if r.Some? then multiset{r.value} else multiset{}) + multiset(from.worker)
        == old(multiset(worker) + multiset(from.worker))
    {
      assert from.worker == from.worker[..batch] + from.worker[batch..];
      assert |order| == |multiset(order)| == |multiset(from.worker[..batch])| == batch;
      from.worker := from.worker[batch..];
      if batch == 0 { return None; }
      assert order == [order[0]] + order[1..];
      r, worker := Some(order[0]), worker + order[1..];
    }

    method Consume(from: Injector, batch: nat, order: seq<Runnable>) returns (r: Option<Runnable>)
      requires batch <= |from.items| && (batch == 0 <==> from.items == [])
      requires multiset(order) == multiset(from.items[..batch])
      modifies this, from
      ensures from.items == old(from.items)[batch..]
      ensures beFair == old(beFair) && old(worker) <= worker
      ensures r.None? <==> old(from.items) == []
      ensures multiset(worker) + (if r.Some? then multiset{r.value} else multiset{}) + multiset(from.items)
        == old(multiset(worker) + multiset(from.items))
    {
      assert from.items == from.items[..batch] + from.items[batch..];
      assert |order| == |multiset(order)| == |multiset(from.items[..batch])| == batch;
      from.items := from.items[batch..];
      if batch == 0 { return None; }
      assert order == [order[0]] + order[1..];
      r, worker := Some(order[0]), worker + order[1..];
    }
  }

  // ---- where a runnable goes -------------------------------------------------------------------

  /** The part of a thread's context that `schedule` looks at. */
  class Context {
    const injector: Injector
    var intercept: Option<seq<Runnable>>   // where timers and I/O events are being processed
    var producer: Option<Producer>         // where the thread is a worker

    constructor (i: Injector)
      ensures injector == i && intercept == None && producer == None
    {
      injector, intercept, producer := i, None, None;
    }

    /** `schedule` puts the runnable in one place; `notify`, which follows unless it was intercepted,
        is a matter of the hand-off protocol. */
    method Schedule(r: Runnable, fair: bool)
      modifies this`intercept, injector, if producer.Some? then {producer.value} else {}
      ensures intercept == if old(intercept).Some? then Some(old(intercept).value + [r]) else None
      ensures producer.Some? && old(intercept).Some? ==> producer.value.Value() == old(producer.value.Value())
      ensures producer.Some? && old(intercept).None? ==>
        producer.value.Value() == Apply(old(producer.value.Value()), Op.Push(r, fair)).deque
      ensures injector.items == old(injector.items) + if old(intercept).None? && producer.None? then [r] else []
    {
      if intercept.Some? {
        intercept := Some(intercept.value + [r]);
      } else if producer.Some? {
        producer.value.Push(r, fair);
      } else {
        injector.Push(r);
      }
    }

    /** `poll_timers` and the poll of the network once something is due: what the wakers schedule
        meanwhile is kept for the poller, in order, and nothing goes anywhere else. */
    method Collect(ready: seq<Runnable>, woken: seq<Runnable>) returns (all: seq<Runnable>)
      requires intercept.None?
      modifies this`intercept, injector, if producer.Some? then {producer.value} else {}
      ensures intercept.None? && all == ready + woken && injector.items == old(injector.items)
      ensures producer.Some? ==> producer.value.Value() == old(producer.value.Value())
    {
      intercept := Some(ready);
      assert ready + woken[..0] == ready;
      for k := 0 to |woken|
        invariant intercept == Some(ready + woken[..k]) && injector.items == old(injector.items)
        invariant producer.Some? ==> producer.value.Value() == old(producer.value.Value())
      {
        Schedule(woken[k], false);
        assert ready + woken[..k] + [woken[k]] == ready + woken[..k + 1];
      }
      assert woken[..|woken|] == woken;
      all := intercept.value;
      intercept := None;
    }
  }

  // ---- a waiter's ready runnables --------------------------------------------------------------

  /** Everything that was intercepted goes to the injector, in order. */
  method Inject(ready: seq<Runnable>, injector: Injector)
    modifies injector
    ensures injector.items == old(injector.items) + ready
  {
    for k := 0 to |ready|
      invariant injector.items == old(injector.items) + ready[..k]
    {
      injector.Push(ready[k]);
    }
  }

  /** The first one is for the waiter itself, the others go to the injector. */
  method PopAndInject(ready: seq<Runnable>, injector: Injector) returns (r: Option<Runnable>)
    modifies injector
    ensures r.None? <==> ready == []
    ensures injector.items == old(injector.items) + if r.Some? then ready[1..] else []
    ensures r.Some? ==> ready == [r.value] + ready[1..]
  {
    if ready == [] { return None; }
    r := Some(ready[0]);
    Inject(ready[1..], injector);
  }
}
