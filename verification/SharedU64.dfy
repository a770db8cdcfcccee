/** A 64-bit value in three 32-bit words, with one writer and any number of readers.

    The writer stores a given list of values, of which the first is there at the start. Each load or
    store of a word is one step. A reader's `from`, `highOf` and `lowOf` are history: the last value
    that was completely stored when the load began, and the values its words came from. */
module SharedU64 {
  const TWO32: nat := 0x1_0000_0000

  type U64 = v: nat | v < TWO32 * TWO32

  function High(v: U64): (r: nat) { v / TWO32 }

  function Low(v: U64): (r: nat) { v % TWO32 }

  function Join(high: nat, low: nat): (r: nat) { high * TWO32 + low }

  lemma JoinHalves(v: U64, h: nat, l: nat)
    ensures Join(High(v), Low(v)) == v
    ensures l < TWO32 && Join(h, l) == v ==> h == High(v) && l == Low(v)
  {
  }

  datatype Phase = Between | HighCopied | LowStored

  datatype Reader =
    | Idle
    | Begun(from: nat)
    | HighRead(from: nat, high: nat, highOf: nat)
    | LowRead(from: nat, high: nat, low: nat, highOf: nat, lowOf: nat)
    | Returned(from: nat, value: nat, highOf: nat, lowOf: nat, till: nat)

  /** `stores` counts the stores that have begun. */
  datatype State = State(high2: nat, low: nat, high: nat, stores: nat, phase: Phase, readers: seq<Reader>)

  datatype Choice = Write | Read(r: nat)

  /** The last value that is stored completely. */
  function Stored(s: State): (r: nat)
    requires s.stores > 0 || s.phase.Between?
  {
    if s.phase.Between? then s.stores else s.stores - 1
  }

  predicate Values(vals: seq<U64>) { |vals| > 0 && vals[0] == 0 }

  function Init(readers: nat): (r: State) { State(0, 0, 0, 0, Between, seq(readers, _ => Idle)) }

  /** The writer copies the high word, stores the low word, then stores the high word. */
  function Store(vals: seq<U64>, s: State): (r: State) {
    match s.phase
    case Between =>
      if s.stores + 1 < |vals|
      then s.(high2 := High(vals[s.stores + 1]), stores := s.stores + 1, phase := HighCopied)
      else s
    case HighCopied => if s.stores < |vals| then s.(low := Low(vals[s.stores]), phase := LowStored) else s
    case LowStored => if s.stores < |vals| then s.(high := High(vals[s.stores]), phase := Between) else s
  }

  /** A reader loads the words in the opposite order, again and again until the high words agree. */
  function Load(s: State, r: Reader): (res: Reader) {
    var stored := if s.phase.Between? || s.stores == 0 then s.stores else s.stores - 1;
    match r
    case Idle => Begun(stored)
    case Returned(_, _, _, _, _) => Begun(stored)
    case Begun(from) => HighRead(from, s.high, stored)
    case HighRead(from, high, a) => LowRead(from, high, s.low, a, if s.phase.HighCopied? then stored else s.stores)
    case LowRead(from, high, low, a, b) =>
      if high == s.high2 then Returned(from, Join(high, low), a, b, s.stores) else Begun(from)
  }

  function Step(vals: seq<U64>, s: State, c: Choice): (r: State) {
    match c
    case Write => Store(vals, s)
    case Read(r) => if r < |s.readers| then s.(readers := s.readers[r := Load(s, s.readers[r])]) else s
  }

  function Run(vals: seq<U64>, s: State, cs: seq<Choice>): (r: State)
    decreases |cs|
  {
    if cs == [] then s else Run(vals, Step(vals, s, cs[0]), cs[1..])
  }

  // ---- the invariant ---------------------------------------------------------------------------

  ghost predicate WordsOk(vals: seq<U64>, s: State) {
    && Values(vals) && s.stores < |vals| && (s.stores > 0 || s.phase.Between?)
    && s.high2 == High(vals[s.stores])
    && s.low == Low(vals[if s.phase.HighCopied? then s.stores - 1 else s.stores])
    && s.high == High(vals[Stored(s)])
  }

  ghost predicate ReaderOk(vals: seq<U64>, s: State, r: Reader)
    requires WordsOk(vals, s)
  {
    match r
    case Idle => true
    case Begun(from) => from <= Stored(s)
    case HighRead(from, high, a) => from <= a <= Stored(s) && high == High(vals[a])
    case LowRead(from, high, low, a, b) => from <= a <= b <= s.stores && high == High(vals[a]) && low == Low(vals[b])
    case Returned(from, value, a, b, till) =>
      from <= a <= b <= till <= s.stores && High(vals[a]) == High(vals[till]) &&
        value == Join(High(vals[a]), Low(vals[b]))
  }

  ghost predicate Inv(vals: seq<U64>, s: State) {
    WordsOk(vals, s) && forall r | 0 <= r < |s.readers| :: ReaderOk(vals, s, s.readers[r])
  }

  lemma StepKeeps(vals: seq<U64>, s: State, c: Choice)
    requires Inv(vals, s)
    ensures Inv(vals, Step(vals, s, c)) && s.stores <= Step(vals, s, c).stores
  {
    hide High, Low, Join;
    var t := Step(vals, s, c);
    assert WordsOk(vals, t);
    forall r | 0 <= r < |t.readers| ensures ReaderOk(vals, t, t.readers[r]) {
      assert ReaderOk(vals, s, s.readers[r]);
    }
  }

  lemma {:induction false} RunKeeps(vals: seq<U64>, s: State, cs: seq<Choice>)
    requires Inv(vals, s)
    ensures Inv(vals, Run(vals, s, cs))
    decreases |cs|
  {
    if cs != [] {
      StepKeeps(vals, s, cs[0]);
      RunKeeps(vals, Step(vals, s, cs[0]), cs[1..]);
    }
  }

  lemma InitOk(vals: seq<U64>, readers: nat)
    requires Values(vals)
    ensures Inv(vals, Init(readers))
  {
  }

  // ---- what a load returns ---------------------------------------------------------------------

  /** The load returned the value that was complete when it began, or one that was being stored
      while it went on. */
  ghost predicate Whole(vals: seq<U64>, r: Reader)
    requires r.Returned? ==> r.till < |vals|
  {
    r.Returned? ==> exists i | r.from <= i <= r.till :: vals[i] == r.value
  }

  /** Every load of every run returns such a value. */
  ghost predicate NeverTorn(vals: seq<U64>)
    requires Values(vals)
  {
    forall n: nat, cs: seq<Choice>, r | 0 <= r < n :: WholeAfter(vals, n, cs, r)
  }

  ghost predicate WholeAfter(vals: seq<U64>, n: nat, cs: seq<Choice>, r: int)
    requires Values(vals)
  {
    var s := Run(vals, Init(n), cs);
    0 <= r < |s.readers| && (s.readers[r].Returned? ==> s.readers[r].till < |vals| && Whole(vals, s.readers[r]))
  }

  /** The high word of one value and the low word of a later one make a value that was stored
      from the one on and until a third, whenever the first and third have the same high word. */
  ghost predicate Mixes(vals: seq<U64>, a: nat, b: nat, c: nat)
    requires a <= b <= c < |vals|
  {
    High(vals[a]) == High(vals[c]) ==> exists i | a <= i <= c :: vals[i] == Join(High(vals[a]), Low(vals[b]))
  }

  ghost predicate AllMix(vals: seq<U64>) {
    forall a, b, c | 0 <= a <= b <= c < |vals| :: Mixes(vals, a, b, c)
  }

  /** High words never decrease. */
  ghost predicate Monotone(vals: seq<U64>) {
    forall i, j | 0 <= i <= j < |vals| :: High(vals[i]) <= High(vals[j])
  }

  /** After any run, a load has joined the halves of two stored values; they are one value, stored
      no earlier than the last complete one when the load began, exactly if their high words agree,
      and they do if the high words stored meanwhile never decrease. */
  lemma LoadReturnsStored(vals: seq<U64>, n: nat, cs: seq<Choice>, r: nat)
    requires Values(vals)
    ensures var s := Run(vals, Init(n), cs);
      r < |s.readers| && s.readers[r].Returned? ==>
        var Returned(from, value, a, b, till) := s.readers[r];
        && from <= a <= b <= till < |vals|
        && (value == vals[b] <==> High(vals[a]) == High(vals[b]))
        && ((forall i, j | from <= i <= j <= till :: High(vals[i]) <= High(vals[j])) ==> value == vals[b])
  {
    InitOk(vals, n);
    RunKeeps(vals, Init(n), cs);
    var s := Run(vals, Init(n), cs);
    if r < |s.readers| && s.readers[r].Returned? {
      hide High, Low, Join;
      var Returned(from, value, a, b, till) := s.readers[r];
      assert ReaderOk(vals, s, s.readers[r]);
      JoinHalves(vals[b], High(vals[a]), Low(vals[b]));
      LowSmall(vals[b]);
    }
  }

  lemma LowSmall(v: U64)
    ensures Low(v) < TWO32
  {
  }

  /** No load of any run is torn exactly if every mixture of two values that a third value's high
      word lets through is itself stored in between. */
  lemma TornExactly(vals: seq<U64>)
    requires Values(vals)
    ensures NeverTorn(vals) <==> AllMix(vals)
  {
    if AllMix(vals) {
      forall n: nat, cs: seq<Choice>, r | 0 <= r < n ensures WholeAfter(vals, n, cs, r) {
        MixedIsWhole(vals, n, cs, r);
      }
    }
    if NeverTorn(vals) {
      forall a, b, c | 0 <= a <= b <= c < |vals| ensures Mixes(vals, a, b, c) {
        var cs := TearingRun(vals, a, b, c);
        assert WholeAfter(vals, 1, cs, 0);
      }
    }
  }

  /** High words that never decrease are enough. */
  lemma MonotoneIsWhole(vals: seq<U64>)
    requires Values(vals) && Monotone(vals)
    ensures NeverTorn(vals)
  {
    forall a, b, c | 0 <= a <= b <= c < |vals| ensures Mixes(vals, a, b, c) {
      JoinHalves(vals[b], 0, 0);
      assert High(vals[a]) <= High(vals[b]) <= High(vals[c]);
    }
    TornExactly(vals);
  }

  /** They are not always whole: a high word that is left and comes back lets a mixture through. */
  lemma ComebackTears()
    ensures !NeverTorn([0, TWO32 + 5, 7])
  {
    var vals: seq<U64> := [0, TWO32 + 5, 7];
    assert !Mixes(vals, 0, 1, 2);
    TornExactly(vals);
  }

  lemma MixedIsWhole(vals: seq<U64>, n: nat, cs: seq<Choice>, r: nat)
    requires Values(vals) && AllMix(vals) && r < n
    ensures WholeAfter(vals, n, cs, r)
  {
    InitOk(vals, n);
    RunKeeps(vals, Init(n), cs);
    ReadersStay(vals, Init(n), cs);
    var s := Run(vals, Init(n), cs);
    assert ReaderOk(vals, s, s.readers[r]);
    if s.readers[r].Returned? {
      assert Mixes(vals, s.readers[r].highOf, s.readers[r].lowOf, s.readers[r].till);
    }
  }

  lemma {:induction false} ReadersStay(vals: seq<U64>, s: State, cs: seq<Choice>)
    ensures |Run(vals, s, cs).readers| == |s.readers|
    decreases |cs|
  {
    if cs != [] { ReadersStay(vals, Step(vals, s, cs[0]), cs[1..]); }
  }

  // ---- runs that tear --------------------------------------------------------------------------

  /** Between stores, with the first `k` values stored. */
  function After(vals: seq<U64>, k: nat, readers: seq<Reader>): (r: State)
    requires k < |vals|
  {
    State(High(vals[k]), Low(vals[k]), High(vals[k]), k, Between, readers)
  }

  function Writes(k: nat): (r: seq<Choice>) { if k == 0 then [] else [Write, Write, Write] + Writes(k - 1) }

  lemma {:induction false} RunConcat(vals: seq<U64>, s: State, a: seq<Choice>, b: seq<Choice>)
    ensures Run(vals, s, a + b) == Run(vals, Run(vals, s, a), b)
    decreases |a|
  {
    if a == [] {
      assert a + b == b;
    } else {
      assert (a + b)[1..] == a[1..] + b;
      RunConcat(vals, Step(vals, s, a[0]), a[1..], b);
    }
  }

  lemma {:induction false} RunWrites(vals: seq<U64>, k: nat, m: nat, readers: seq<Reader>)
    requires k + m < |vals|
    ensures Run(vals, After(vals, k, readers), Writes(m)) == After(vals, k + m, readers)
    decreases m
  {
    if m > 0 {
      var s := After(vals, k, readers);
      assert Store(vals, Store(vals, Store(vals, s))) == After(vals, k + 1, readers);
      RunThree(vals, s);
      RunConcat(vals, s, [Write, Write, Write], Writes(m - 1));
      RunWrites(vals, k + 1, m - 1, readers);
    }
  }

  lemma RunOne(vals: seq<U64>, s: State, c: Choice)
    ensures Run(vals, s, [c]) == Step(vals, s, c)
  {
    assert Run(vals, Step(vals, s, c), []) == Step(vals, s, c);
    assert [c][1..] == [];
  }

  lemma RunThree(vals: seq<U64>, s: State)
    ensures Run(vals, s, [Write, Write, Write]) == Store(vals, Store(vals, Store(vals, s)))
  {
    RunOne(vals, s, Write);
    RunOne(vals, Store(vals, s), Write);
    RunOne(vals, Store(vals, Store(vals, s)), Write);
    RunConcat(vals, s, [Write], [Write]);
    RunConcat(vals, s, [Write] + [Write], [Write]);
  }

  /** `m` more stores, then one step of the only reader. */
  lemma WritesThenLoad(vals: seq<U64>, k: nat, m: nat, r: Reader)
    requires k + m < |vals|
    ensures Run(vals, After(vals, k, [r]), Writes(m) + [Read(0)]) ==
      After(vals, k + m, [Load(After(vals, k + m, [r]), r)])
  {
    RunConcat(vals, After(vals, k, [r]), Writes(m), [Read(0)]);
    RunWrites(vals, k, m, [r]);
    RunOne(vals, After(vals, k + m, [r]), Read(0));
  }

  lemma RunFour(vals: seq<U64>, s: State, a: seq<Choice>, b: seq<Choice>, c: seq<Choice>, d: seq<Choice>)
    ensures Run(vals, s, a + b + c + d) == Run(vals, Run(vals, Run(vals, Run(vals, s, a), b), c), d)
  {
    RunConcat(vals, s, a, b);
    RunConcat(vals, s, a + b, c);
    RunConcat(vals, s, a + b + c, d);
  }

  /** A load that reads the high word after value `a`, the low word after `b`, the copy after `c`. */
  lemma TearingRun(vals: seq<U64>, a: nat, b: nat, c: nat) returns (cs: seq<Choice>)
    requires Values(vals) && a <= b <= c < |vals|
    ensures High(vals[a]) == High(vals[c]) ==>
      Run(vals, Init(1), cs) == After(vals, c, [Returned(a, Join(High(vals[a]), Low(vals[b])), a, b, c)])
  {
    hide Run, Writes, Join;
    var r0 := Idle;
    var r1 := Begun(a);
    var r2 := HighRead(a, High(vals[a]), a);
    var r3 := LowRead(a, High(vals[a]), Low(vals[b]), a, b);
    assert Init(1) == After(vals, 0, [r0]);
    var c0, c1, c2, c3 := Writes(a) + [Read(0)], Writes(0) + [Read(0)], Writes(b - a) + [Read(0)],
      Writes(c - b) + [Read(0)];
    WritesThenLoad(vals, 0, a, r0);
    WritesThenLoad(vals, a, 0, r1);
    WritesThenLoad(vals, a, b - a, r2);
    WritesThenLoad(vals, b, c - b, r3);
    RunFour(vals, Init(1), c0, c1, c2, c3);
    cs := c0 + c1 + c2 + c3;
  }

  // ---- the writer's own reads, and quiet loads -------------------------------------------------

  /** Between its stores the writer reads back what it stored last, from two words. */
  lemma GetIsExact(vals: seq<U64>, n: nat, cs: seq<Choice>)
    requires Values(vals)
    ensures var s := Run(vals, Init(n), cs);
      s.stores < |vals| && (s.phase.Between? ==> Join(s.high, s.low) == vals[s.stores])
  {
    InitOk(vals, n);
    RunKeeps(vals, Init(n), cs);
    var s := Run(vals, Init(n), cs);
    JoinHalves(vals[s.stores], 0, 0);
  }

  /** A load that no store overlaps needs one attempt and returns the last value. */
  lemma QuietLoad(vals: seq<U64>, s: State, r: nat)
    requires Inv(vals, s) && s.phase.Between? && r < |s.readers| && s.readers[r].Begun?
    ensures var t := Run(vals, s, [Read(r), Read(r), Read(r)]);
      r < |t.readers| && t.readers[r].Returned? && t.readers[r].value == vals[s.stores]
  {
    var s1 := Step(vals, s, Read(r));
    var s2 := Step(vals, s1, Read(r));
    RunOne(vals, s, Read(r));
    RunOne(vals, s1, Read(r));
    RunOne(vals, s2, Read(r));
    RunConcat(vals, s, [Read(r)], [Read(r)]);
    RunConcat(vals, s, [Read(r)] + [Read(r)], [Read(r)]);
    JoinHalves(vals[s.stores], 0, 0);
  }

  /** A load that has been disturbed, as its high words differ, starts over, and returns the last value
      if it is left alone from then on. */
  lemma LoadStartsOver(vals: seq<U64>, s: State, r: nat)
    requires Inv(vals, s) && s.phase.Between? && r < |s.readers|
    requires s.readers[r].LowRead? && s.readers[r].high != s.high2
    ensures var t := Run(vals, s, [Read(r)] + [Read(r), Read(r), Read(r)]);
      r < |t.readers| && t.readers[r].Returned? && t.readers[r].value == vals[s.stores]
  {
    var s' := Step(vals, s, Read(r));
    StepKeeps(vals, s, Read(r));
    RunOne(vals, s, Read(r));
    RunConcat(vals, s, [Read(r)], [Read(r), Read(r), Read(r)]);
    QuietLoad(vals, s', r);
  }
}
