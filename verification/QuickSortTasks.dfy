/** The sorting example as the runtime runs it: every slice is a task of its own, and tasks start,
    work and end in any order, with the steps of one between those of another.

    A running task may have rearranged its slice in any way; when it ends, the slice is what the
    body of `quick_sort` makes of the slice it started with. */
module QuickSortTasks {
  import opened Prelude
  import opened QuickSort

  /** The slice from lo up to hi, and what it was when the task started. */
  datatype Task = Task(lo: nat, hi: nat, was: Option<seq<int>>)

  datatype State = State(a: seq<int>, tasks: seq<Task>)

  datatype Event =
    | Start(k: nat)
    | Work(k: nat, a: seq<int>)     // some swaps in the slice of a running task
    | EndSorted(k: nat)             // the end of a short slice
    | EndSplit(k: nat, mid: nat)    // the end of a long one, after spawning two tasks

  predicate In(t: Task, i: int) { t.lo <= i < t.hi }

  function Slice(s: State, t: Task): (r: seq<int>)
    requires t.lo <= t.hi <= |s.a|
  {
    s.a[t.lo..t.hi]
  }

  ghost predicate Step(s: State, e: Event, s': State) {
    e.k < |s.tasks| &&
    var t := s.tasks[e.k];
    t.lo <= t.hi <= |s.a| &&
    match e
    case Start(k) => t.was.None? && s' == s.(tasks := s.tasks[k := t.(was := Some(Slice(s, t)))])
    case Work(_, a) => t.was.Some? && Rearranged(s.a, a, t.lo, t.hi) && s' == s.(a := a)
    case EndSorted(k) =>
      t.was.Some? && t.hi - t.lo <= 32 && Sorted(Slice(s, t)) && s' == s.(tasks := SwapRemove(s.tasks, k))
    case EndSplit(k, mid) =>
      && t.was.Some? && t.hi - t.lo > 32 && t.lo <= mid < t.hi && PartitionOf(t.was.value, s.a, t.lo, mid, t.hi)
      && s' == s.(tasks := s.tasks[k := Task(t.lo, mid, None)] + [Task(mid, t.hi, None)])
  }

  /** What `Partition` promises about the slice it was given and the one it leaves. */
  ghost predicate PartitionOf(was: seq<int>, a: seq<int>, lo: nat, mid: nat, hi: nat)
    requires lo <= mid < hi <= |a|
  {
    && Split(a, lo, mid, hi)
    && (mid == lo <==> Falling(was))
    && (mid == lo ==> !Falling(a[lo..hi]))
  }

  /** The last element is below all others. */
  predicate Falling(s: seq<int>) { |s| > 0 && LastLeast(s, 0, |s|) }

  // ---- the invariant ---------------------------------------------------------------------------

  ghost predicate TasksOk(s: State) {
    && (forall k | 0 <= k < |s.tasks| :: s.tasks[k].lo <= s.tasks[k].hi <= |s.a|)
    && (forall k, m | 0 <= k < m < |s.tasks| :: Disjoint(s.tasks[k], s.tasks[m]))
  }

  predicate Disjoint(t: Task, u: Task) { t.hi <= u.lo || u.hi <= t.lo }

  /** Elements that are out of order lie in the slice of one task. */
  ghost predicate Inversions(s: State) {
    forall i, j | 0 <= i < j < |s.a| && s.a[i] > s.a[j] :: Shared(s, i, j)
  }

  ghost predicate Shared(s: State, i: int, j: int) {
    exists k :: 0 <= k < |s.tasks| && In(s.tasks[k], i) && In(s.tasks[k], j)
  }

  /** A running task has the elements that it started with. */
  ghost predicate SlicesOk(s: State)
    requires TasksOk(s)
  {
    forall k | 0 <= k < |s.tasks| && s.tasks[k].was.Some? ::
      |s.tasks[k].was.value| == s.tasks[k].hi - s.tasks[k].lo &&
        multiset(s.tasks[k].was.value) == multiset(Slice(s, s.tasks[k]))
  }

  ghost predicate Inv(s: State, original: seq<int>) {
    TasksOk(s) && SlicesOk(s) && Inversions(s) && |s.a| == |original| && multiset(s.a) == multiset(original)
  }

  /** Work on one slice leaves the others alone. */
  lemma WorkApart(s: State, s': State, k: nat, m: nat)
    requires TasksOk(s) && k < |s.tasks| && m < |s.tasks| && k != m && s'.tasks == s.tasks
    requires Rearranged(s.a, s'.a, s.tasks[k].lo, s.tasks[k].hi)
    ensures Slice(s', s.tasks[m]) == Slice(s, s.tasks[m])
  {
    var t, u := s.tasks[k], s.tasks[m];
    assert Disjoint(s.tasks[k], s.tasks[m]) || Disjoint(s.tasks[m], s.tasks[k]);
    if u.hi <= t.lo {
      assert s'.a[..t.lo][u.lo..u.hi] == s.a[..t.lo][u.lo..u.hi];
    } else {
      assert s'.a[t.hi..][u.lo - t.hi..u.hi - t.hi] == s.a[t.hi..][u.lo - t.hi..u.hi - t.hi];
    }
  }

  /** Where an element of the worked-on slice came from, and that the others stayed. */
  lemma WorkedFrom(a: seq<int>, b: seq<int>, lo: nat, hi: nat, i: nat) returns (j: nat)
    requires lo <= hi <= |a| && Rearranged(a, b, lo, hi) && i < |b|
    ensures j < |a| && a[j] == b[i] && (lo <= i < hi <==> lo <= j < hi) && (!(lo <= i < hi) ==> j == i)
  {
    if lo <= i < hi {
      j := SameElements(a, b, lo, hi, i);
    } else {
      j := i;
      assert i < lo ==> b[..lo][i] == a[..lo][i];
      assert i >= hi ==> b[hi..][i - hi] == a[hi..][i - hi];
    }
  }

  lemma WorkInversions(s: State, s': State, k: nat)
    requires TasksOk(s) && Inversions(s) && k < |s.tasks| && s'.tasks == s.tasks
    requires Rearranged(s.a, s'.a, s.tasks[k].lo, s.tasks[k].hi)
    ensures Inversions(s')
  {
    var t := s.tasks[k];
    forall i, j | 0 <= i < j < |s'.a| && s'.a[i] > s'.a[j] ensures Shared(s', i, j) {
      if In(t, i) && In(t, j) {
        assert In(s'.tasks[k], i) && In(s'.tasks[k], j);
      } else {
        var i' := WorkedFrom(s.a, s'.a, t.lo, t.hi, i);
        var j' := WorkedFrom(s.a, s'.a, t.lo, t.hi, j);
        assert Shared(s, i', j');
        var m :| 0 <= m < |s.tasks| && In(s.tasks[m], i') && In(s.tasks[m], j');
        assert m < k ==> Disjoint(s.tasks[m], t);
        assert k < m ==> Disjoint(t, s.tasks[m]);
        assert In(s'.tasks[m], i) && In(s'.tasks[m], j);
      }
    }
  }

  lemma WorkKeeps(s: State, k: nat, a: seq<int>, s': State, original: seq<int>)
    requires Inv(s, original) && Step(s, Work(k, a), s')
    ensures Inv(s', original)
  {
    var t := s.tasks[k];
    WorkInversions(s, s', k);
    RearrangedPart(s.a, a, 0, t.lo, t.hi, |s.a|);
    assert s.a[0..|s.a|] == s.a && a[0..|s.a|] == a;
    forall m | 0 <= m < |s'.tasks| && s'.tasks[m].was.Some?
      ensures |s'.tasks[m].was.value| == s'.tasks[m].hi - s'.tasks[m].lo
      ensures multiset(s'.tasks[m].was.value) == multiset(Slice(s', s'.tasks[m]))
    {
      if m != k { WorkApart(s, s', k, m); }
    }
  }

  lemma SortedOrder(a: seq<int>, lo: nat, hi: nat)
    requires lo <= hi <= |a| && Sorted(a[lo..hi])
    ensures forall i, j | lo <= i < j < hi :: a[i] <= a[j]
  {
    forall i, j | lo <= i < j < hi ensures a[i] <= a[j] {
      assert a[lo..hi][i - lo] <= a[lo..hi][j - lo];
    }
  }

  lemma SortedInversions(s: State, k: nat, s': State)
    requires TasksOk(s) && Inversions(s) && Step(s, EndSorted(k), s')
    ensures Inversions(s')
  {
    var t, last := s.tasks[k], |s.tasks| - 1;
    SortedOrder(s.a, t.lo, t.hi);
    forall i, j | 0 <= i < j < |s'.a| && s'.a[i] > s'.a[j] ensures Shared(s', i, j) {
      assert Shared(s, i, j);
      var m :| 0 <= m < |s.tasks| && In(s.tasks[m], i) && In(s.tasks[m], j);
      var m' := if m == last then k else m;
      assert In(s'.tasks[m'], i) && In(s'.tasks[m'], j);
    }
  }

  lemma SortedKeeps(s: State, k: nat, s': State, original: seq<int>)
    requires Inv(s, original) && Step(s, EndSorted(k), s')
    ensures Inv(s', original)
  {
    var last := |s.tasks| - 1;
    SortedInversions(s, k, s');
    hide Inversions, Sorted;
    forall m, n | 0 <= m < n < |s'.tasks| ensures Disjoint(s'.tasks[m], s'.tasks[n]) {
      var m', n' := if m == k then last else m, if n == k then last else n;
      assert Disjoint(s.tasks[if m' < n' then m' else n'], s.tasks[if m' < n' then n' else m']);
    }
  }

  lemma SplitOrder(a: seq<int>, lo: nat, mid: nat, hi: nat)
    requires lo <= mid < hi <= |a| && Split(a, lo, mid, hi)
    ensures forall i, j | lo <= i < mid <= j < hi :: a[i] <= a[j]
  {
  }

  lemma SplitInversions(s: State, k: nat, mid: nat, s': State)
    requires TasksOk(s) && Inversions(s) && Step(s, EndSplit(k, mid), s')
    ensures Inversions(s')
  {
    var t, last := s.tasks[k], |s.tasks|;
    SplitOrder(s.a, t.lo, mid, t.hi);
    forall i, j | 0 <= i < j < |s'.a| && s'.a[i] > s'.a[j] ensures Shared(s', i, j) {
      assert Shared(s, i, j);
      var m :| 0 <= m < |s.tasks| && In(s.tasks[m], i) && In(s.tasks[m], j);
      if m != k {
        assert In(s'.tasks[m], i) && In(s'.tasks[m], j);
      } else if j < mid {
        assert In(s'.tasks[k], i) && In(s'.tasks[k], j);
      } else {
        assert In(s'.tasks[last], i) && In(s'.tasks[last], j);
      }
    }
  }

  lemma SplitKeeps(s: State, k: nat, mid: nat, s': State, original: seq<int>)
    requires Inv(s, original) && Step(s, EndSplit(k, mid), s')
    ensures Inv(s', original)
  {
    SplitInversions(s, k, mid, s');
    hide Inversions, Split, Falling;
    forall m, n | 0 <= m < n < |s'.tasks| ensures Disjoint(s'.tasks[m], s'.tasks[n]) {
      if n < |s.tasks| { assert Disjoint(s.tasks[m], s.tasks[n]); }
      else if m < k { assert Disjoint(s.tasks[m], s.tasks[k]); }
      else if m > k { assert Disjoint(s.tasks[k], s.tasks[m]); }
    }
  }

  lemma StartKeeps(s: State, k: nat, s': State, original: seq<int>)
    requires Inv(s, original) && Step(s, Start(k), s')
    ensures Inv(s', original)
  {
    forall i, j | 0 <= i < j < |s'.a| && s'.a[i] > s'.a[j] ensures Shared(s', i, j) {
      assert Shared(s, i, j);
      var m :| 0 <= m < |s.tasks| && In(s.tasks[m], i) && In(s.tasks[m], j);
      assert In(s'.tasks[m], i) && In(s'.tasks[m], j);
    }
    forall m, n | 0 <= m < n < |s'.tasks| ensures Disjoint(s'.tasks[m], s'.tasks[n]) {
      assert Disjoint(s.tasks[m], s.tasks[n]);
    }
  }

  lemma StepKeeps(s: State, e: Event, s': State, original: seq<int>)
    requires Inv(s, original) && Step(s, e, s')
    ensures Inv(s', original)
  {
    hide Inv;
    match e
    case Start(k) => StartKeeps(s, k, s', original);
    case Work(k, a) => WorkKeeps(s, k, a, s', original);
    case EndSorted(k) => SortedKeeps(s, k, s', original);
    case EndSplit(k, mid) => SplitKeeps(s, k, mid, s', original);
  }

  // ---- the work that is left -------------------------------------------------------------------

  /** A bound on the tasks that can still end for a slice with these elements. */
  function Weight(c: seq<int>): (w: nat) { |c| * |c| + (if Falling(c) then 3 else 1) }

  function WeightOf(s: State, t: Task): (w: nat)
    requires t.lo <= t.hi <= |s.a|
  {
    Weight(if t.was.Some? then t.was.value else Slice(s, t))
  }

  function Sum(ws: seq<nat>): (n: nat) { if ws == [] then 0 else Sum(ws[..|ws| - 1]) + ws[|ws| - 1] }

  function Left(s: State): (n: nat)
    requires TasksOk(s)
  {
    Sum(Weights(s))
  }

  function Weights(s: State): (ws: seq<nat>)
    requires TasksOk(s)
  {
    seq(|s.tasks|, k requires 0 <= k < |s.tasks| => WeightOf(s, s.tasks[k]))
  }

  lemma {:induction false} SumUpdate(ws: seq<nat>, k: nat, w: nat)
    requires k < |ws|
    ensures Sum(ws[k := w]) + ws[k] == Sum(ws) + w
  {
    var last := |ws| - 1;
    var vs: seq<nat> := ws[k := w];
    if k == last {
      assert vs[..last] == ws[..last];
    } else {
      assert vs[..last] == ws[..last][k := w];
      SumUpdate(ws[..last], k, w);
    }
  }

  lemma SumAppend(ws: seq<nat>, w: nat)
    ensures Sum(ws + [w]) == Sum(ws) + w
  {
    assert (ws + [w])[..|ws|] == ws;
  }

  lemma SumRemove(ws: seq<nat>, k: nat)
    requires k < |ws|
    ensures Sum(SwapRemove(ws, k)) + ws[k] == Sum(ws)
  {
    var last := |ws| - 1;
    SumUpdate(ws, k, ws[last]);
    var vs: seq<nat> := ws[k := ws[last]];
    assert SwapRemove(ws, k) == vs[..last];
  }

  lemma SquareOfSum(m: nat, n: nat)
    ensures (m + n) * (m + n) == m * m + n * n + 2 * (m * n)
  {
    assert (m + n) * (m + n) == m * (m + n) + n * (m + n);
  }

  lemma ProductAtLeast(m: nat, n: nat)
    requires m > 0 && n > 0
    ensures m * n >= m + n - 1
  {
    assert m * n - m - n + 1 == (m - 1) * (n - 1);
    NatProduct(m - 1, n - 1);
  }

  /** The parts of a long slice weigh less than the whole, even where one part is the whole. */
  lemma PartsWeigh(was: seq<int>, low: seq<int>, high: seq<int>)
    requires |was| > 32 && |low| + |high| == |was| && |high| > 0
    requires |low| == 0 ==> Falling(was) && !Falling(high)
    ensures Weight(low) + Weight(high) < Weight(was)
  {
    var m, n := |low|, |high|;
    SquareOfSum(m, n);
    if m > 0 { ProductAtLeast(m, n); }
    var mm, nn, mn := m * m, n * n, m * n;
    assert m == 0 ==> low == [] && mm == 0 && mn == 0;
    assert Weight(low) <= mm + 3 && Weight(high) <= nn + 3 && Weight(was) >= mm + nn + 2 * mn + 1;
  }

  lemma StartLeft(s: State, k: nat, s': State)
    requires TasksOk(s) && Step(s, Start(k), s') && TasksOk(s')
    ensures Left(s') == Left(s)
  {
    assert Weights(s') == Weights(s);
  }

  lemma WorkLeft(s: State, k: nat, a: seq<int>, s': State)
    requires TasksOk(s) && Step(s, Work(k, a), s') && TasksOk(s')
    ensures Left(s') == Left(s)
  {
    forall m | 0 <= m < |s.tasks| ensures WeightOf(s', s'.tasks[m]) == WeightOf(s, s.tasks[m]) {
      if m != k { WorkApart(s, s', k, m); }
    }
    assert Weights(s') == Weights(s);
  }

  lemma SortedLeft(s: State, k: nat, s': State)
    requires TasksOk(s) && Step(s, EndSorted(k), s') && TasksOk(s')
    ensures Left(s') < Left(s)
  {
    var ws, vs := Weights(s), Weights(s');
    var last := |s.tasks| - 1;
    assert s'.tasks == SwapRemove(s.tasks, k) && s'.a == s.a && WeightOf(s, s.tasks[k]) >= 1;
    hide Step, Weight, SwapRemove, Sum;
    forall m | 0 <= m < last ensures vs[m] == SwapRemove(ws, k)[m] {
      assert s'.tasks[m] == s.tasks[if m == k then last else m];
    }
    assert vs == SwapRemove(ws, k);
    SumRemove(ws, k);
  }

  lemma SplitLeft(s: State, k: nat, mid: nat, s': State, original: seq<int>)
    requires Inv(s, original) && Step(s, EndSplit(k, mid), s') && TasksOk(s')
    ensures Left(s') < Left(s)
  {
    var t, last := s.tasks[k], |s.tasks|;
    var ws := Weights(s);
    var low, high := s.a[t.lo..mid], s.a[mid..t.hi];
    assert Slice(s', s'.tasks[k]) == low && Slice(s', s'.tasks[last]) == high;
    assert |t.was.value| == t.hi - t.lo;
    assert mid == t.lo ==> high == s.a[t.lo..t.hi];
    hide Falling, Split, Inv, Inversions;
    PartsWeigh(t.was.value, low, high);
    assert Weights(s') == ws[k := Weight(low)] + [Weight(high)];
    SumUpdate(ws, k, Weight(low));
    SumAppend(ws[k := Weight(low)], Weight(high));
  }

  // ---- every run -------------------------------------------------------------------------------

  /** A run: the states before, between and after the steps, beginning with one task for all. */
  ghost predicate IsRun(es: seq<Event>, ss: seq<State>, original: seq<int>) {
    && |ss| == |es| + 1 && ss[0] == State(original, [Task(0, |original|, None)])
    && forall k | 0 <= k < |es| :: Step(ss[k], es[k], ss[k + 1])
  }

  lemma InitOk(original: seq<int>)
    ensures Inv(State(original, [Task(0, |original|, None)]), original)
  {
    var s := State(original, [Task(0, |original|, None)]);
    forall i, j | 0 <= i < j < |s.a| && s.a[i] > s.a[j] ensures Shared(s, i, j) {
      assert In(s.tasks[0], i) && In(s.tasks[0], j);
    }
  }

  function Ends(es: seq<Event>): (n: nat) {
    if es == [] then 0
    else Ends(es[..|es| - 1]) + if es[|es| - 1].EndSorted? || es[|es| - 1].EndSplit? then 1 else 0
  }

  lemma {:induction false} RunKeeps(es: seq<Event>, ss: seq<State>, original: seq<int>, k: nat)
    requires IsRun(es, ss, original) && k <= |es|
    ensures Inv(ss[k], original) && Left(ss[k]) + Ends(es[..k]) <= Weight(original)
  {
    if k == 0 {
      InitOk(original);
      FirstLeft(original);
    } else {
      RunKeeps(es, ss, original, k - 1);
      assert es[..k][..k - 1] == es[..k - 1];
      StepLeft(ss[k - 1], es[k - 1], ss[k], original);
    }
  }

  lemma FirstLeft(original: seq<int>)
    ensures var s := State(original, [Task(0, |original|, None)]); TasksOk(s) && Left(s) == Weight(original)
  {
    var s := State(original, [Task(0, |original|, None)]);
    assert Slice(s, s.tasks[0]) == original;
    assert Weights(s) == [] + [Weight(original)];
    SumAppend([], Weight(original));
  }

  lemma StepLeft(s: State, e: Event, s': State, original: seq<int>)
    requires Inv(s, original) && Step(s, e, s')
    ensures Inv(s', original) && Left(s') + (if e.EndSorted? || e.EndSplit? then 1 else 0) <= Left(s)
  {
    StepKeeps(s, e, s', original);
    hide Inversions, SlicesOk, Step, Left;
    match e
    case Start(k) => StartLeft(s, k, s');
    case Work(k, a) => WorkLeft(s, k, a, s');
    case EndSorted(k) => SortedLeft(s, k, s');
    case EndSplit(k, mid) => SplitLeft(s, k, mid, s', original);
  }

  /** In whatever order the tasks run, once none is left the array is sorted, and it has the elements
      it had. */
  lemma AnyOrderSorts(es: seq<Event>, ss: seq<State>, original: seq<int>)
    requires IsRun(es, ss, original) && ss[|es|].tasks == []
    ensures Sorted(ss[|es|].a) && multiset(ss[|es|].a) == multiset(original)
  {
    RunKeeps(es, ss, original, |es|);
    var s := ss[|es|];
    assert forall i, j :: !Shared(s, i, j);
  }

  /** In whatever order they run, there is a bound on how many tasks can end. */
  lemma TasksRunOut(es: seq<Event>, ss: seq<State>, original: seq<int>)
    requires IsRun(es, ss, original)
    ensures Ends(es) <= |original| * |original| + 3
  {
    RunKeeps(es, ss, original, |es|);
    assert es[..|es|] == es;
  }

  // ---- the body --------------------------------------------------------------------------------

  lemma FallingSlice(a: seq<int>, lo: nat, hi: nat)
    requires lo < hi <= |a|
    ensures Falling(a[lo..hi]) <==> LastLeast(a, lo, hi)
  {
    var c := a[lo..hi];
    assert forall k | 0 <= k < |c| :: c[k] == a[lo + k];
    assert forall k | lo <= k < hi :: a[k] == c[k - lo];
  }

  /** The body of `quick_sort` on the slice of a task: it is a start, some work, and an end, and so it
      is one however the work of other tasks, which leaves its slice alone, is mixed with it. */
  method Body(a: array<int>, lo: nat, hi: nat, ghost s: State, ghost k: nat)
    returns (ghost s1: State, ghost s2: State, ghost s3: State, ghost end: Event)
    requires TasksOk(s) && s.a == a[..] && k < |s.tasks| && s.tasks[k] == Task(lo, hi, None)
    modifies a
    ensures Step(s, Start(k), s1) && Step(s1, Work(k, a[..]), s2) && Step(s2, end, s3) && s3.a == a[..]
    ensures if hi - lo <= 32 then end == EndSorted(k) else end.EndSplit? && end.k == k
  {
    ghost var was := a[..];
    s1 := s.(tasks := s.tasks[k := Task(lo, hi, Some(was[lo..hi]))]);
    if hi - lo <= 32 {
      InsertionSort(a, lo, hi);
      s2 := s1.(a := a[..]);
      assert a[lo..hi] == a[..][lo..hi];
      s3, end := s2.(tasks := SwapRemove(s2.tasks, k)), EndSorted(k);
    } else {
      var mid := Partition(a, lo, hi);
      s2 := s1.(a := a[..]);
      FallingSlice(was, lo, hi);
      FallingSlice(a[..], lo, hi);
      s3, end := s2.(tasks := s2.tasks[k := Task(lo, mid, None)] + [Task(mid, hi, None)]), EndSplit(k, mid);
    }
  }
}
