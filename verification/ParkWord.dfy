/** The one word of a Parker: `ParkState` and its encoding in a usize. */
module ParkWord {
  import opened Prelude

  datatype ParkState = Empty | Waiting | Polling | Notified(index: Option<nat>)

  /** `usize::MAX`, for the pointer widths the crate supports. */
  predicate IsUsizeMax(m: nat) { m == 0xFFFF_FFFF || m == 0xFFFF_FFFF_FFFF_FFFF }

  /** `ParkState::from(usize)`. Every usize decodes. */
  function Decode(v: nat): (r: ParkState) {
    match v % 4
    case 0 => Empty
    case 1 => Waiting
    case 2 => Polling
    case _ => Notified(if v / 4 == 0 then None else Some(v / 4 - 1))
  }

  /** `Into<usize> for ParkState`; None is the failing `assert!`. */
  function Encode(m: nat, p: ParkState): (r: Option<nat>) {
    match p
    case Empty => Some(0)
    case Waiting => Some(1)
    case Polling => Some(2)
    case Notified(w) =>
      var index := match w case None => 0 case Some(i) => i + 1;
      if index < m / 4 then Some(3 + 4 * index) else None
  }

  /** An encoded word fits in a usize and decodes to the state it came from, so the
      worker index handed over in the word is never altered. */
  lemma DecodeEncode(m: nat, p: ParkState)
    requires IsUsizeMax(m)
    ensures Encode(m, p).Some? ==> Encode(m, p).value <= m && Decode(Encode(m, p).value) == p
    ensures Encode(m, p).None? <==> exists i: nat :: p == Notified(Some(i)) && i + 1 >= m / 4
  {
    if p.Notified? && p.index.Some? {
      var index := p.index.value + 1;
      assert (3 + 4 * index) % 4 == 3 && (3 + 4 * index) / 4 == index;
    }
  }

  /** Exactly the words that `Encode` can produce survive decoding and encoding. */
  lemma EncodeDecode(m: nat, v: nat)
    requires IsUsizeMax(m) && v <= m
    ensures Encode(m, Decode(v)) == Some(v) <==> v < 3 || (v % 4 == 3 && v / 4 < m / 4)
  {
    assert v == 4 * (v / 4) + v % 4;
  }
}
