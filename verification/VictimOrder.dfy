/** The order in which a worker visits the others: a walk around them with a stride coprime to their
    number, from a pseudo-random start. */
module VictimOrder {
  import opened Prelude

  // ---- greatest common divisors ----------------------------------------------------------------

  function Gcd(a: nat, b: nat): (r: nat)
    decreases b
  {
    if b == 0 then a else Gcd(b, a % b)
  }

  /** Every common divisor of two numbers divides their `Gcd`. */
  lemma {:induction false} GcdGreatest(a: nat, b: nat, d: nat, p: nat, q: nat) returns (r: nat)
    requires a == p * d && b == q * d
    ensures Gcd(a, b) == r * d
    decreases b
  {
    if b == 0 {
      r := p;
    } else {
      var k := a / b;
      assert a % b == p * d - k * (q * d) == (p - k * q) * d;
      Scale(p - k * q, d);
      assert d > 0;
      r := GcdGreatest(b, a % b, d, q, p - k * q);
    }
  }

  lemma Regroup(k: int, m: int, s: int, g: int)
    ensures k * (m * g) + s * g == (k * m + s) * g
  {
    calc {
      k * (m * g) + s * g;
      (k * m) * g + s * g;
      (k * m + s) * g;
    }
  }

  lemma DivMod(a: nat, b: nat)
    requires b > 0
    ensures a == a / b * b + a % b
  {
  }

  /** A divisor of b and of the remainder divides a. */
  lemma DividesStep(a: nat, b: nat, k: nat, m: nat, g: nat, p: nat, s: nat) returns (q: nat)
    requires a == k * b + m && b == p * g && m == s * g
    ensures a == q * g
  {
    NatProduct(k, p);
    Regroup(k, p, s, g);
    q := k * p + s;
  }

  lemma GcdNext(a: nat, b: nat)
    ensures Gcd(a, b) == if b == 0 then a else Gcd(b, a % b)
  {
  }

  /** `Gcd` divides both numbers. */
  lemma {:induction false} GcdDivides(a: nat, b: nat) returns (p: nat, q: nat)
    ensures a == p * Gcd(a, b) && b == q * Gcd(a, b)
    decreases b
  {
    hide Gcd;
    GcdNext(a, b);
    var g := Gcd(a, b);
    if b == 0 {
      p, q := 1, 0;
    } else {
      var s: nat;
      q, s := GcdDivides(b, a % b);
      DivMod(a, b);
      var k, m := a / b, a % b;
      p := DividesStep(a, b, k, m, g, q, s);
    }
  }

  lemma Rearrange(x: int, y: int, k: int, a: int, b: int)
    ensures x * b + y * (a - k * b) == y * a + (x - y * k) * b
  {
    calc {
      x * b + y * (a - k * b);
      x * b + y * a - y * (k * b);
      x * b + y * a - (y * k) * b;
      y * a + (x - y * k) * b;
    }
  }

  /** `Gcd` is a combination of the two numbers. */
  lemma {:induction false} Bezout(a: nat, b: nat) returns (x: int, y: int)
    ensures x * a + y * b == Gcd(a, b)
    decreases b
  {
    if b == 0 {
      x, y := 1, 0;
    } else {
      var x', y' := Bezout(b, a % b);
      var k := a / b;
      x, y := y', x' - y' * k;
      assert a % b == a - k * b;
      Rearrange(x', y', k, a, b);
    }
  }

  /** The product of a natural number and a number that is not zero is at least as far from zero. */
  lemma Scale(k: int, n: int)
    requires n >= 0
    ensures k >= 1 ==> k * n >= n
    ensures k <= -1 ==> k * n <= -n
  {
  }

  lemma Combine(prime: nat, range: nat, steps: nat, turns: nat, x: int, y: int)
    requires steps * prime == turns * range && x * prime + y * range == 1
    ensures steps == (x * turns + steps * y) * range
  {
    calc {
      steps;
      steps * (x * prime + y * range);
      x * (steps * prime) + steps * (y * range);
      x * (turns * range) + steps * (y * range);
      (x * turns) * range + (steps * y) * range;
    }
  }

  /** Fewer than `range` strides, but at least one, never lead back to the same place. */
  lemma NoReturn(prime: nat, range: nat, steps: nat, turns: nat)
    requires Gcd(prime, range) == 1 && 0 < steps < range
    ensures steps * prime != turns * range
  {
    if steps * prime == turns * range {
      var x, y := Bezout(prime, range);
      Combine(prime, range, steps, turns, x, y);
      Scale(x * turns + steps * y, range);
    }
  }

  // ---- the stride ------------------------------------------------------------------------------

  /** The largest non-zero number between half the range and the range that is coprime to it. There
      is none just for a range of 1, for which the source panics; for any other it is the largest
      candidate of all. */
  method SourceFrom(range: nat) returns (prime: Option<nat>)
    requires range > 0
    ensures prime.None? <==> range == 1
    ensures prime.Some? ==> 0 < prime.value < range && range / 2 <= prime.value && Gcd(prime.value, range) == 1
    ensures prime.Some? ==> prime.value == range - 1
  {
    var p := range;
    while p > range / 2
      invariant range / 2 <= p <= range
      invariant range > 1 ==> p == range
    {
      p := p - 1;
      if range > 1 { Neighbours(range); }
      if Gcd(p, range) == 1 && p != 0 { return Some(p); }
    }
    prime := None;
  }

  lemma Neighbours(n: nat)
    requires n > 1
    ensures Gcd(n - 1, n) == 1
  {
    assert (n - 1) % n == n - 1;
    assert n % (n - 1) == if n == 2 then 0 else 1;
    assert n > 2 ==> Gcd(n - 1, 1) == Gcd(1, 0);
  }

  // ---- the walk --------------------------------------------------------------------------------

  ghost predicate Distinct(s: seq<nat>) {
    forall j, k | 0 <= j < k < |s| :: s[j] != s[k]
  }

  /** Every number below `n` once, and nothing else. */
  ghost predicate Permutation(s: seq<nat>, n: nat) {
    |s| == n && Distinct(s) && forall v: nat :: v in s <==> v < n
  }

  ghost function Below(n: nat): (r: set<nat>)
    ensures |r| == n && forall v: nat :: v in r <==> v < n
  {
    if n == 0 then {} else Below(n - 1) + {n - 1}
  }

  ghost function Elements(s: seq<nat>): (r: set<nat>)
    ensures forall v :: v in r <==> v in s
  {
    set v | v in s
  }

  lemma {:induction false} CountElements(s: seq<nat>)
    requires Distinct(s)
    ensures |Elements(s)| == |s|
  {
    if s != [] {
      var rest := s[1..];
      CountElements(rest);
      assert s == [s[0]] + rest && s[0] !in rest;
      assert Elements(s) == Elements(rest) + {s[0]};
    }
  }

  /** Distinct numbers below their count are all of those numbers. */
  lemma Pigeonhole(s: seq<nat>)
    requires Distinct(s) && forall k | 0 <= k < |s| :: s[k] < |s|
    ensures Permutation(s, |s|)
  {
    var all, got := Below(|s|), Elements(s);
    CountElements(s);
    assert all == (all - got) + got;
    assert |all - got| == 0;
    forall v: nat | v < |s| ensures v in s {
      assert v in all && v !in all - got;
    }
  }

  /** The walk is at `place` after `k` strides and so many turns. */
  ghost predicate At(place: nat, turns: nat, k: nat, start: nat, prime: nat, range: nat) {
    place + turns * range == start + k * prime
  }

  lemma NextPlace(place: nat, turns: nat, k: nat, start: nat, prime: nat, range: nat)
    requires At(place, turns, k, start, prime, range)
    ensures At(place + prime, turns, k + 1, start, prime, range)
    ensures place + prime >= range ==> At(place + prime - range, turns + 1, k + 1, start, prime, range)
  {
    assert (turns + 1) * range == turns * range + range && (k + 1) * prime == k * prime + prime;
  }

  lemma Distribute(a: int, b: int, c: int)
    ensures (a - b) * c == a * c - b * c
  {
  }

  lemma PlacesDiffer(p: nat, t: nat, j: nat, q: nat, u: nat, k: nat, start: nat, prime: nat, range: nat)
    requires At(p, t, j, start, prime, range) && At(q, u, k, start, prime, range)
    requires j < k < j + range && Gcd(prime, range) == 1
    ensures p != q
  {
    Distribute(k, j, prime);
    Distribute(u, t, range);
    Scale(u - t, range);
    Scale(k - j, prime);
    if p == q && u >= t { NoReturn(prime, range, k - j, u - t); }
  }

  ghost predicate Walk(s: seq<nat>, turns: seq<nat>, start: nat, prime: nat, range: nat) {
    |turns| == |s| && forall k | 0 <= k < |s| :: At(s[k], turns[k], k + 1, start, prime, range)
  }

  lemma WalkDistinct(s: seq<nat>, turns: seq<nat>, start: nat, prime: nat, range: nat)
    requires Walk(s, turns, start, prime, range) && |s| <= range && Gcd(prime, range) == 1
    ensures Distinct(s)
  {
    forall j, k | 0 <= j < k < |s| ensures s[j] != s[k] {
      PlacesDiffer(s[j], turns[j], j + 1, s[k], turns[k], k + 1, start, prime, range);
    }
  }

  lemma PlaceMod(r: nat, q: nat, k: nat, start: nat, prime: nat, n: nat)
    requires r < n && At(r, q, k, start, prime, n)
    ensures r == (start + k * prime) % n
  {
    var a := start + k * prime;
    var d := a / n - q;
    assert a % n - r == -(d * n);
    Scale(d, n);
  }

  /** The sequence the iterator yields: each worker once, in strides from the start, every sum short
      of twice the range. */
  method Indices(start: nat, prime: nat, range: nat, usizeMax: nat) returns (s: seq<nat>)
    requires start < range && 0 < prime < range && Gcd(prime, range) == 1 && 2 * range <= usizeMax
    ensures Permutation(s, range)
    ensures forall k | 0 <= k < range :: s[k] == (start + (k + 1) * prime) % range
  {
    hide Gcd;
    s := [];
    var index: nat := start;
    ghost var turns: seq<nat> := [];
    ghost var turn: nat := 0;
    for k := 0 to range
      invariant |s| == k && index < range && At(index, turn, k, start, prime, range)
      invariant Walk(s, turns, start, prime, range) && forall j | 0 <= j < k :: s[j] < range
    {
      NextPlace(index, turn, k, start, prime, range);
      assert index + prime <= usizeMax;
      index := index + prime;
      if index >= range {
        index, turn := index - range, turn + 1;
      }
      s, turns := s + [index], turns + [turn];
    }
    WalkDistinct(s, turns, start, prime, range);
    Pigeonhole(s);
    forall k | 0 <= k < range ensures s[k] == (start + (k + 1) * prime) % range {
      PlaceMod(s[k], turns[k], k + 1, start, prime, range);
    }
  }

  // ---- the generator ---------------------------------------------------------------------------

  function Next64(x: bv64): (r: bv64) {
    var a := x ^ (x << 13);
    var b := a ^ (a >> 7);
    b ^ (b << 17)
  }

  function Next32(x: bv32): (r: bv32) {
    var a := x ^ (x << 13);
    var b := a ^ (a >> 17);
    b ^ (b << 5)
  }

  /** Only zero leads to zero, so the state never stops being one that is not zero. */
  lemma NeverZero(x: bv64, y: bv32)
    ensures Next64(x) == 0 <==> x == 0
    ensures Next32(y) == 0 <==> y == 0
  {
  }

  /** The shifts are those of Marsaglia's "Xorshift RNGs"; the seeds of its examples lead here. */
  lemma ExampleValues()
    ensures Next64(88172645463325252) == 8748534153485358512
    ensures Next32(2463534242) == 723471715
  {
  }

  /** The factor of the seeds is odd: multiplying can be undone, so different seeds differ. */
  lemma HashUndone(seed: bv64)
    ensures seed * 0x9E37_79B9_7F4A_7C15 * 0xF1DE_83E1_9937_733D == seed
    ensures seed * 0x9E37_79B9_7F4A_7C15 == 0 ==> seed == 0
  {
  }

  /** The generator of a 64-bit target. */
  class RandomGenerator {
    var xorshift: bv64

    predicate Valid()
      reads this
    {
      xorshift != 0
    }

    /** Only the first seed, zero, needs the replacement. */
    constructor (seed: bv64)
      ensures Valid() && xorshift == if seed == 0 then 0xdead_beef else seed * 0x9E37_79B9_7F4A_7C15
    {
      var hashed := seed * 0x9E37_79B9_7F4A_7C15;
      HashUndone(seed);
      xorshift := if hashed != 0 then hashed else 0xdead_beef;
    }

    /** The state stays one that is not zero. */
    method Gen() returns (xs: bv64)
      requires Valid()
      modifies this
      ensures Valid() && xs == xorshift == Next64(old(xorshift))
    {
      hide Next64;
      NeverZero(xorshift, 0);
      xs := Next64(xorshift);
      xorshift := xs;
    }

    method GenIter(range: nat, prime: nat, usizeMax: nat) returns (s: seq<nat>)
      requires Valid() && 0 < prime < range && Gcd(prime, range) == 1 && 2 * range <= usizeMax
      modifies this
      ensures Valid() && Permutation(s, range)
      ensures xorshift == Next64(old(xorshift))
      ensures forall k | 0 <= k < range :: s[k] == (xorshift as nat % range + (k + 1) * prime) % range
    {
      hide Next64, Gcd;
      var xs := Gen();
      var start := xs as nat % range;
      s := Indices(start, prime, range, usizeMax);
    }
  }
}
