/** What several modules share. */
module Prelude {

  datatype Option<+T> = None | Some(value: T)

  /** `Vec::swap_remove`: the last element takes the place of the one removed. */
  function SwapRemove<T>(s: seq<T>, k: nat): (r: seq<T>)
    requires k < |s|
    ensures |r| == |s| - 1
    ensures multiset(r) + multiset{s[k]} == multiset(s)
    ensures forall x :: x in r ==> x in s
    ensures forall i | 0 <= i < |r| :: r[i] == if i == k then s[|s| - 1] else s[i]
  {
    var last := |s| - 1;
    assert s == s[..last] + [s[last]];
    if k == last then s[..last]
    else
      assert s[..last] == s[..k] + [s[k]] + s[k + 1..last];
      var r := s[..last][k := s[last]];
      assert r == s[..k] + [s[last]] + s[k + 1..last];
      r
  }

  lemma Associative<T>(a: seq<T>, b: seq<T>, c: seq<T>)
    ensures a + (b + c) == a + b + c
  {
  }

  lemma SubsetSize<T>(a: set<T>, b: set<T>)
    requires a <= b
    ensures |a| <= |b|
  {
    assert b == a + (b - a);
  }

  /** One if it holds. */
  function B(b: bool): (n: nat) { if b then 1 else 0 }

  lemma CountToggled<T>(a: set<T>, b: set<T>, t: T)
    requires a - {t} == b - {t}
    ensures |a| - B(t in a) == |b| - B(t in b)
  {
    assert |a - {t}| == |a| - B(t in a) by { if t !in a { assert a - {t} == a; } }
    assert |b - {t}| == |b| - B(t in b) by { if t !in b { assert b - {t} == b; } }
  }

  lemma NatProduct(m: nat, n: nat)
    ensures m * n >= 0
  {
  }
}
