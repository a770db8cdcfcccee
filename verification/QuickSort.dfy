/** The sorting example: a quicksort that hands both parts of every partition to tasks of their own.
    The parts do not overlap, so the model runs one after the other. A slice is an array from `lo`
    up to `hi`. */
module QuickSort {
  import V = VictimOrder

  predicate Sorted(s: seq<int>) {
    forall i, j | 0 <= i < j < |s| :: s[i] <= s[j]
  }

  /** The elements from `lo` to `hi` are rearranged and no others touched. */
  ghost predicate Rearranged(s: seq<int>, t: seq<int>, lo: nat, hi: nat)
    requires lo <= hi <= |s|
  {
    |t| == |s| && t[..lo] == s[..lo] && t[hi..] == s[hi..] && multiset(t[lo..hi]) == multiset(s[lo..hi])
  }

  lemma RearrangedSelf(s: seq<int>, lo: nat, hi: nat)
    requires lo <= hi <= |s|
    ensures Rearranged(s, s, lo, hi)
  {
  }

  lemma RearrangedTwice(s: seq<int>, t: seq<int>, u: seq<int>, lo: nat, hi: nat)
    requires lo <= hi <= |s| && Rearranged(s, t, lo, hi) && Rearranged(t, u, lo, hi)
    ensures Rearranged(s, u, lo, hi)
  {
  }

  /** Rearranging a part of a slice rearranges the slice. */
  lemma RearrangedPart(s: seq<int>, t: seq<int>, lo: nat, from: nat, till: nat, hi: nat)
    requires lo <= from <= till <= hi <= |s| && Rearranged(s, t, from, till)
    ensures Rearranged(s, t, lo, hi)
  {
    ThreeParts(s, lo, from, till, hi);
    ThreeParts(t, lo, from, till, hi);
    FrontPart(s, t, lo, from);
    BackPart(s, t, till, hi);
  }

  lemma ThreeParts(s: seq<int>, lo: nat, from: nat, till: nat, hi: nat)
    requires lo <= from <= till <= hi <= |s|
    ensures multiset(s[lo..hi]) == multiset(s[lo..from]) + multiset(s[from..till]) + multiset(s[till..hi])
  {
    assert s[lo..hi] == s[lo..from] + s[from..till] + s[till..hi];
  }

  lemma FrontPart(s: seq<int>, t: seq<int>, lo: nat, from: nat)
    requires lo <= from <= |s| && |t| == |s| && t[..from] == s[..from]
    ensures t[..lo] == s[..lo] && t[lo..from] == s[lo..from]
  {
    assert t[lo..from] == t[..from][lo..] && s[lo..from] == s[..from][lo..];
    assert t[..lo] == t[..from][..lo] && s[..lo] == s[..from][..lo];
  }

  lemma BackPart(s: seq<int>, t: seq<int>, till: nat, hi: nat)
    requires till <= hi <= |s| && |t| == |s| && t[till..] == s[till..]
    ensures t[till..hi] == s[till..hi] && t[hi..] == s[hi..]
  {
    assert t[till..hi] == t[till..][..hi - till] && s[till..hi] == s[till..][..hi - till];
    assert t[hi..] == t[till..][hi - till..] && s[hi..] == s[till..][hi - till..];
  }

  lemma RearrangedSwap(s: seq<int>, lo: nat, i: nat, j: nat, hi: nat)
    requires lo <= i < hi <= |s| && lo <= j < hi
    ensures Rearranged(s, s[i := s[j]][j := s[i]], lo, hi)
  {
    var t := s[i := s[j]][j := s[i]];
    var m := s[lo..hi];
    assert t[lo..hi] == m[i - lo := m[j - lo]][j - lo := m[i - lo]];
  }

  method Swap(a: array<int>, ghost was: seq<int>, lo: nat, hi: nat, i: nat, j: nat)
    requires lo <= i < hi <= a.Length == |was| && lo <= j < hi && Rearranged(was, a[..], lo, hi)
    modifies a
    ensures a[..] == old(a[..])[i := old(a[..])[j]][j := old(a[..])[i]]
    ensures Rearranged(was, a[..], lo, hi)
  {
    RearrangedSwap(a[..], lo, i, j, hi);
    RearrangedTwice(was, a[..], a[..][i := a[j]][j := a[i]], lo, hi);
    a[i], a[j] := a[j], a[i];
  }

  /** The elements up to `i` are in order, but that the one at `n` may be too far back. */
  ghost predicate OneOut(s: seq<int>, lo: nat, n: nat, i: nat)
    requires i < |s|
  {
    forall p, q | lo <= p < q <= i && q != n :: s[p] <= s[q]
  }

  lemma OneOutSwap(s: seq<int>, lo: nat, n: nat, i: nat)
    requires lo < n <= i < |s| && OneOut(s, lo, n, i) && s[n] < s[n - 1]
    ensures OneOut(s[n := s[n - 1]][n - 1 := s[n]], lo, n - 1, i)
  {
  }

  lemma OneOutDone(s: seq<int>, lo: nat, n: nat, i: nat)
    requires lo <= n <= i < |s| && OneOut(s, lo, n, i) && (n > lo ==> s[n - 1] <= s[n])
    ensures i + 1 < |s| ==> OneOut(s, lo, i + 1, i + 1)
    ensures Sorted(s[lo..i + 1])
  {
  }

  /** Moves the element at `i` forward to its place. */
  method Insert(a: array<int>, ghost was: seq<int>, lo: nat, hi: nat, i: nat)
    requires lo <= i < hi <= a.Length == |was|
    requires Rearranged(was, a[..], lo, hi) && OneOut(a[..], lo, i, i)
    modifies a
    ensures Rearranged(was, a[..], lo, hi) && Sorted(a[lo..i + 1])
    ensures i + 1 < hi ==> OneOut(a[..], lo, i + 1, i + 1)
  {
    hide Rearranged, OneOut, Sorted;
    var n := i;
    while n > lo && a[n] < a[n - 1]
      invariant lo <= n <= i && Rearranged(was, a[..], lo, hi) && OneOut(a[..], lo, n, i)
    {
      OneOutSwap(a[..], lo, n, i);
      Swap(a, was, lo, hi, n, n - 1);
      n := n - 1;
    }
    OneOutDone(a[..], lo, n, i);
    assert a[lo..i + 1] == a[..][lo..i + 1];
  }

  method InsertionSort(a: array<int>, lo: nat, hi: nat)
    requires lo <= hi <= a.Length
    modifies a
    ensures Rearranged(old(a[..]), a[..], lo, hi) && Sorted(a[lo..hi])
  {
    RearrangedSelf(a[..], lo, hi);
    var i := lo + 1;
    assert i < hi ==> OneOut(a[..], lo, i, i);
    assert i >= hi ==> Sorted(a[lo..hi]);
    hide Rearranged, OneOut, Sorted;
    while i < hi
      invariant lo < i && Rearranged(old(a[..]), a[..], lo, hi)
      invariant i < hi ==> OneOut(a[..], lo, i, i)
      invariant i >= hi ==> Sorted(a[lo..hi])
    {
      Insert(a, old(a[..]), lo, hi, i);
      i := i + 1;
    }
  }

  /** The elements up to `mid` are at most the one there, those after it are above it. */
  ghost predicate Split(s: seq<int>, lo: nat, mid: nat, hi: nat)
    requires lo <= mid < hi <= |s|
  {
    (forall k | lo <= k < mid :: s[k] <= s[mid]) && forall k | mid < k < hi :: s[k] > s[mid]
  }

  /** The last element is below all others. */
  predicate LastLeast(s: seq<int>, lo: nat, hi: nat)
    requires lo < hi <= |s|
  {
    forall k | lo <= k < hi - 1 :: s[k] > s[hi - 1]
  }

  /** Of the elements up to `j`, those up to `mid` are at most the pivot, the others above it. */
  ghost predicate Parted(s: seq<int>, lo: nat, mid: nat, j: nat, pivot: nat)
    requires lo <= mid <= j <= pivot < |s|
  {
    (forall k | lo <= k < mid :: s[k] <= s[pivot]) && forall k | mid <= k < j :: s[k] > s[pivot]
  }

  lemma PartedStep(s: seq<int>, lo: nat, mid: nat, j: nat, pivot: nat)
    requires lo <= mid <= j < pivot < |s| && Parted(s, lo, mid, j, pivot)
    ensures if s[j] <= s[pivot]
      then Parted(s[mid := s[j]][j := s[mid]], lo, mid + 1, j + 1, pivot)
      else Parted(s, lo, mid, j + 1, pivot)
  {
  }

  lemma PartedDone(s: seq<int>, lo: nat, mid: nat, pivot: nat)
    requires lo <= mid <= pivot < |s| && Parted(s, lo, mid, pivot, pivot)
    ensures var t := s[mid := s[pivot]][pivot := s[mid]];
      Split(t, lo, mid, pivot + 1) && (mid == lo < pivot ==> !LastLeast(t, lo, pivot + 1))
    ensures LastLeast(s, lo, pivot + 1) <==> mid == lo
  {
    var t := s[mid := s[pivot]][pivot := s[mid]];
    assert mid == lo < pivot ==> t[lo] < t[pivot];
    assert mid > lo ==> s[lo] <= s[pivot];
  }

  /** The loop of `partition`: the pivot stays in place, in front of it the elements are parted. */
  method Sift(a: array<int>, ghost was: seq<int>, lo: nat, hi: nat) returns (mid: nat)
    requires lo < hi <= a.Length && was == a[..]
    modifies a
    ensures lo <= mid < hi && a[hi - 1] == was[hi - 1] && Rearranged(was, a[..], lo, hi)
    ensures Parted(a[..], lo, mid, hi - 1, hi - 1)
    ensures if mid == lo then a[..] == was else !LastLeast(was, lo, hi)
  {
    RearrangedSelf(was, lo, hi);
    var pivot := hi - 1;
    mid := lo;
    assert Parted(a[..], lo, mid, lo, pivot);
    hide Rearranged, Parted, LastLeast;
    for j := lo to pivot
      invariant lo <= mid <= j && a[pivot] == was[pivot] && Rearranged(was, a[..], lo, hi)
      invariant Parted(a[..], lo, mid, j, pivot)
      invariant if mid == lo then a[..] == was else !LastLeast(was, lo, hi)
    {
      PartedStep(a[..], lo, mid, j, pivot);
      if a[j] <= a[pivot] {
        if mid == lo { NotLeast(was, lo, j, hi); }
        Swap(a, was, lo, hi, mid, j);
        mid := mid + 1;
      }
    }
  }

  /** The swap that puts the pivot in its place. */
  method PlacePivot(a: array<int>, ghost was: seq<int>, lo: nat, mid: nat, hi: nat)
    requires lo <= mid < hi <= a.Length == |was|
    requires Rearranged(was, a[..], lo, hi) && Parted(a[..], lo, mid, hi - 1, hi - 1)
    modifies a
    ensures Rearranged(was, a[..], lo, hi) && Split(a[..], lo, mid, hi) && a[mid] == old(a[hi - 1])
    ensures mid == lo < hi - 1 ==> !LastLeast(a[..], lo, hi)
  {
    hide Rearranged, Parted, Split, LastLeast;
    ghost var s := a[..];
    PartedDone(s, lo, mid, hi - 1);
    Swap(a, was, lo, hi, mid, hi - 1);
    assert a[..][mid] == s[hi - 1];
  }

  /** The pivot is the last element, and it ends up in front exactly when it is below all others. */
  method Partition(a: array<int>, lo: nat, hi: nat) returns (mid: nat)
    requires lo < hi <= a.Length
    modifies a
    ensures lo <= mid < hi && Rearranged(old(a[..]), a[..], lo, hi) && Split(a[..], lo, mid, hi)
    ensures a[mid] == old(a[hi - 1])
    ensures mid == lo <==> LastLeast(old(a[..]), lo, hi)
    ensures mid == lo < hi - 1 ==> !LastLeast(a[..], lo, hi)
  {
    hide Rearranged, Parted, Split, LastLeast;
    ghost var was := a[..];
    mid := Sift(a, was, lo, hi);
    PartedDone(a[..], lo, mid, hi - 1);
    PlacePivot(a, was, lo, mid, hi);
  }

  lemma NotLeast(s: seq<int>, lo: nat, j: nat, hi: nat)
    requires lo <= j < hi - 1 < |s| && s[j] <= s[hi - 1]
    ensures !LastLeast(s, lo, hi)
  {
  }

  /** What a task leaves: its slice sorted. */
  method QuickSort(a: array<int>, lo: nat, hi: nat)
    requires lo <= hi <= a.Length
    modifies a
    ensures Rearranged(old(a[..]), a[..], lo, hi) && Sorted(a[lo..hi])
    decreases hi - lo, if lo < hi && LastLeast(a[..], lo, hi) then 1 else 0
  {
    if hi - lo <= 32 {
      InsertionSort(a, lo, hi);
    } else {
      var mid := Partition(a, lo, hi);
      ghost var s := a[..];
      QuickSort(a, lo, mid);
      ghost var t := a[..];
      RearrangedPart(s, t, lo, lo, mid, hi);
      assert mid == lo ==> t == s;
      QuickSort(a, mid, hi);
      ghost var u := a[..];
      RearrangedPart(t, u, lo, mid, hi, hi);
      PartsSorted(s, t, u, lo, mid, hi);
    }
  }

  /** The elements of a rearranged slice are those it had. */
  lemma SameElements(s: seq<int>, t: seq<int>, lo: nat, hi: nat, k: nat) returns (j: nat)
    requires lo <= k < hi <= |s| && Rearranged(s, t, lo, hi)
    ensures lo <= j < hi && s[j] == t[k]
  {
    assert t[lo..hi][k - lo] in multiset(t[lo..hi]);
    assert t[k] in s[lo..hi];
    var i :| 0 <= i < hi - lo && s[lo..hi][i] == t[k];
    j := lo + i;
  }

  /** Sorting both parts of a split slice sorts it. */
  lemma PartsSorted(s: seq<int>, t: seq<int>, u: seq<int>, lo: nat, mid: nat, hi: nat)
    requires lo <= mid < hi <= |s| && Split(s, lo, mid, hi)
    requires Rearranged(s, t, lo, mid) && Rearranged(t, u, mid, hi)
    requires Sorted(t[lo..mid]) && Sorted(u[mid..hi])
    ensures Sorted(u[lo..hi])
  {
    forall k | lo <= k < mid ensures u[k] == t[k] && u[k] <= s[mid] {
      assert u[..mid][k] == t[..mid][k];
      var j := SameElements(s, t, lo, mid, k);
    }
    forall k | mid <= k < hi ensures u[k] >= s[mid] {
      var j := SameElements(t, u, mid, hi, k);
      assert t[j] == t[mid..][j - mid] == s[mid..][j - mid] == s[j];
    }
    forall i, j | lo <= i < j < hi ensures u[i] <= u[j] {
      if j < mid { assert t[lo..mid][i - lo] <= t[lo..mid][j - lo]; }
      if mid <= i { assert u[mid..hi][i - mid] <= u[mid..hi][j - mid]; }
    }
  }

  /** There is only one way to sort, so the order in which the tasks run does not show. */
  lemma {:induction false} SortedUnique(s: seq<int>, t: seq<int>)
    requires Sorted(s) && Sorted(t) && multiset(s) == multiset(t)
    ensures s == t
    decreases |s|
  {
    assert |s| == |multiset(s)| && |t| == |multiset(t)|;
    if |s| > 0 {
      FirstLeast(s, t);
      FirstLeast(t, s);
      TailMultiset(s);
      TailMultiset(t);
      SortedUnique(s[1..], t[1..]);
      assert s == [s[0]] + s[1..] && t == [t[0]] + t[1..];
    }
  }

  lemma FirstLeast(s: seq<int>, t: seq<int>)
    requires Sorted(s) && multiset(s) == multiset(t) && |s| > 0 && |t| > 0
    ensures s[0] <= t[0]
  {
    assert t[0] in multiset(s);
  }

  lemma TailMultiset(s: seq<int>)
    requires |s| > 0
    ensures multiset(s[1..]) == multiset(s) - multiset{s[0]}
  {
    assert s == [s[0]] + s[1..];
  }

  // ---- the example's checks --------------------------------------------------------------------

  /** Every two neighbours are in order. */
  predicate Verify(s: seq<int>) {
    forall i | 0 < i < |s| :: s[i - 1] <= s[i]
  }

  lemma {:induction false} VerifySorted(s: seq<int>)
    ensures Verify(s) <==> Sorted(s)
  {
    if |s| > 1 && Verify(s) {
      var t := s[..|s| - 1];
      VerifySorted(t);
      assert forall i | 0 <= i < |t| :: s[i] == t[i] && t[i] <= t[|t| - 1];
    }
  }

  /** One place for each element, up to its own. */
  predicate Choices(js: seq<nat>) { forall i | 0 <= i < |js| :: js[i] <= i }

  /** The elements after each of the first ones has been swapped with that at its chosen place. */
  function Arranged(s: seq<int>, js: seq<nat>): (t: seq<int>)
    requires |js| <= |s| && Choices(js)
    ensures |t| == |s|
  {
    if js == [] then s
    else
      var i := |js| - 1;
      var t := Arranged(s, js[..i]);
      t[i := t[js[i]]][js[i] := t[i]]
  }

  lemma NotArranged(s: seq<int>)
    ensures Arranged(s, []) == s
  {
  }

  /** Elements that have not been swapped yet do not matter. */
  lemma {:induction false} ArrangedFirst(s: seq<int>, x: int, js: seq<nat>)
    requires |js| <= |s| && Choices(js)
    ensures Arranged(s + [x], js) == Arranged(s, js) + [x]
    decreases |js|
  {
    if js != [] {
      ArrangedFirst(s, x, js[..|js| - 1]);
    }
  }

  lemma SwapMultiset(s: seq<int>, i: nat, j: nat)
    requires i < |s| && j < |s|
    ensures multiset(s[i := s[j]][j := s[i]]) == multiset(s)
    ensures var t := s[i := s[j]][j := s[i]]; t[i := t[j]][j := t[i]] == s
  {
  }

  /** The shuffle can lead to every arrangement. */
  lemma {:induction false} AllArrangements(s: seq<int>, t: seq<int>) returns (js: seq<nat>)
    requires multiset(s) == multiset(t)
    ensures |js| == |s| && Choices(js) && Arranged(s, js) == t
    decreases |s|
  {
    assert |s| == |multiset(s)| == |multiset(t)| == |t|;
    if s == [] { return []; }
    var n := |s| - 1;
    assert s[n] in multiset(s);
    var j: nat :| j <= n && t[j] == s[n];
    var u := t[n := t[j]][j := t[n]];
    SwapMultiset(t, n, j);
    FrontMultiset(s, u);
    js := AllArrangements(s[..n], u[..n]);
    FrontArranged(s, u, js);
    LastSwap(s, t, u, js, j);
    js := js + [j];
  }

  lemma FrontMultiset(s: seq<int>, u: seq<int>)
    requires s != [] && |u| == |s| && u[|s| - 1] == s[|s| - 1] && multiset(u) == multiset(s)
    ensures multiset(u[..|s| - 1]) == multiset(s[..|s| - 1])
  {
    var n := |s| - 1;
    assert s == s[..n] + [s[n]] && u == u[..n] + [s[n]];
    assert multiset(s) == multiset(s[..n]) + multiset{s[n]} && multiset(u) == multiset(u[..n]) + multiset{s[n]};
    assert multiset(u[..n]) == multiset(u) - multiset{s[n]};
  }

  lemma FrontArranged(s: seq<int>, u: seq<int>, js: seq<nat>)
    requires s != [] && |u| == |s| && u[|s| - 1] == s[|s| - 1] && |js| == |s| - 1 && Choices(js)
    requires Arranged(s[..|s| - 1], js) == u[..|s| - 1]
    ensures Arranged(s, js) == u
  {
    hide Arranged;
    var n := |s| - 1;
    ArrangedFirst(s[..n], s[n], js);
    assert s == s[..n] + [s[n]] && u == u[..n] + [s[n]];
  }

  lemma LastSwap(s: seq<int>, t: seq<int>, u: seq<int>, js: seq<nat>, j: nat)
    requires s != [] && |t| == |u| == |s| && |js| == |s| - 1 && Choices(js) && j < |s|
    requires Arranged(s, js) == u && u[|s| - 1 := u[j]][j := u[|s| - 1]] == t
    ensures Choices(js + [j]) && Arranged(s, js + [j]) == t
  {
    hide Arranged;
    ArrangedNext(s, js, j);
  }

  lemma ArrangedNext(s: seq<int>, js: seq<nat>, j: nat)
    requires |js| < |s| && Choices(js) && j <= |js|
    ensures Choices(js + [j])
    ensures var u := Arranged(s, js); Arranged(s, js + [j]) == u[|js| := u[j]][j := u[|js|]]
  {
    assert (js + [j])[..|js|] == js;
  }

  /** The states of the generator that the shuffle uses, and the places that it draws. */
  function State(k: nat): (xs: bv32) { if k == 0 then 0xdead_beef else V.Next32(State(k - 1)) }

  function Draws(n: nat): (js: seq<nat>)
    ensures |js| == n && Choices(js)
  {
    if n == 0 then [] else Draws(n - 1) + [State(n) as nat % n]
  }

  /** The elements are arranged by the places drawn; `AllArrangements` says that a shuffle that draws
      freely can lead anywhere. */
  method Shuffle(a: array<int>)
    modifies a
    ensures Rearranged(old(a[..]), a[..], 0, a.Length)
    ensures a[..] == Arranged(old(a[..]), Draws(a.Length))
  {
    hide V.Next32, Rearranged, Arranged;
    RearrangedSelf(a[..], 0, a.Length);
    NotArranged(a[..]);
    var xs: bv32 := 0xdead_beef;
    for i := 0 to a.Length
      invariant Rearranged(old(a[..]), a[..], 0, a.Length)
      invariant xs == State(i) && a[..] == Arranged(old(a[..]), Draws(i))
    {
      xs := V.Next32(xs);
      var j := xs as nat % (i + 1);
      ArrangedNext(old(a[..]), Draws(i), j);
      Swap(a, old(a[..]), 0, a.Length, i, j);
    }
  }
}
