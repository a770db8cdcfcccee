/** The allocator of I/O wakers: blocks that are created on demand and never replaced, and the
    indices that name their entries. */
module WakerSlab {
  import opened Prelude
  import Aw = AtomicWaker

  /** Both fields are u16. */
  datatype WakerIndex = WakerIndex(block: nat, entry: nat)

  const U16: nat := 0x1_0000

  // ---- tokens ----------------------------------------------------------------------------------

  /** `(block << 16) | entry` for an entry below 2^16. */
  function Token(i: WakerIndex): (r: nat) { i.block * U16 + i.entry }

  function FromToken(v: nat): (r: WakerIndex) { WakerIndex(v / U16 % U16, v % U16) }

  /** A token leads back to its index, so different indices have different tokens. */
  lemma TokenRoundTrip(i: WakerIndex)
    requires i.block < U16 && i.entry < U16
    ensures FromToken(Token(i)) == i
  {
    assert (i.block * U16 + i.entry) / U16 == i.block && (i.block * U16 + i.entry) % U16 == i.entry;
  }

  lemma TokensDiffer(i: WakerIndex, j: WakerIndex)
    requires i.block < U16 && i.entry < U16 && j.block < U16 && j.entry < U16 && i != j
    ensures Token(i) != Token(j)
  {
    TokenRoundTrip(i);
    TokenRoundTrip(j);
  }

  /** The signal token `usize::MAX` is no index's on a 64-bit target, and on a 32-bit one only
      that of the last entry of a block the table has no room for. */
  lemma SignalToken(i: WakerIndex, usizeMax: nat)
    requires i.block < U16 && i.entry < U16 && (usizeMax == 0xFFFF_FFFF || usizeMax == 0xFFFF_FFFF_FFFF_FFFF)
    ensures Token(i) == usizeMax <==> usizeMax == 0xFFFF_FFFF && i == WakerIndex(U16 - 1, U16 - 1)
  {
    if Token(i) == usizeMax {
      TokenRoundTrip(i);
      assert usizeMax == 0xFFFF_FFFF;
      assert FromToken(usizeMax) == WakerIndex(U16 - 1, U16 - 1);
    }
  }

  // ---- counting ---------------------------------------------------------------------------------

  /** The indices of the first `entries` entries of block `b`. */
  ghost function Row(b: nat, entries: nat): (r: set<WakerIndex>)
    ensures |r| == entries && forall i :: i in r <==> i.block == b && i.entry < entries
  {
    if entries == 0 then {} else Row(b, entries - 1) + {WakerIndex(b, entries - 1)}
  }

  ghost function Grid(blocks: nat, entries: nat): (r: set<WakerIndex>)
    ensures |r| == blocks * entries && forall i :: i in r <==> i.block < blocks && i.entry < entries
  {
    if blocks == 0 then {} else Grid(blocks - 1, entries) + Row(blocks - 1, entries)
  }

  // ---- the storage -----------------------------------------------------------------------------

  /** The wakers of one source for reading and for writing. */
  datatype Entry = Entry(read: Aw.Cell, write: Aw.Cell)

  type Block = array<Entry>
  type Block? = array?<Entry>

  class WakerStorage {
    const numBlocks: nat    // NUM_BLOCKS and NUM_ENTRIES depend on the target
    const numEntries: nat
    var table: array?<Block?>
    var nextBlock: nat
    var available: seq<WakerIndex>
    ghost var live: set<WakerIndex>

    predicate InRange(i: WakerIndex)
      reads `nextBlock
    {
      i.block < nextBlock && i.entry < numEntries
    }

    /** Every index of a stored block is live or available, never both, and listed once. */
    ghost predicate IndicesOk()
      reads `nextBlock, `available, `live
    {
      && (forall i | i in live :: InRange(i) && i !in available)
      && (forall i | i in available :: InRange(i))
      && (forall i | InRange(i) :: i in live || i in available)
      && (forall j, k | 0 <= j < k < |available| :: available[j] != available[k])
    }

    ghost predicate TableOk()
      reads `nextBlock, `table, table
    {
      && 0 < numBlocks < U16 && 0 < numEntries <= U16 && nextBlock <= numBlocks
      && (if table == null then nextBlock == 0 else table.Length == numBlocks)
      && (forall b | 0 <= b < nextBlock :: table[b] != null && table[b].Length == numEntries)
      && (forall b, c | 0 <= b < c < nextBlock :: table[b] != table[c])
    }

    ghost predicate Valid()
      reads this, table
    {
      IndicesOk() && TableOk()
    }

    constructor (blocks: nat, entries: nat)
      requires 0 < blocks < U16 && 0 < entries <= U16
      ensures Valid() && live == {} && numBlocks == blocks && numEntries == entries && table == null
    {
      numBlocks, numEntries := blocks, entries;
      table, nextBlock, available := null, 0, [];
      live := {};
    }

    /** The indices of the next block, the first one last. */
    method AddIndices()
      requires available == []
      modifies this`available
      ensures |available| == numEntries
      ensures forall k | 0 <= k < numEntries :: available[k] == WakerIndex(nextBlock, numEntries - 1 - k)
    {
      var n := numEntries;
      while n > 0
        invariant 0 <= n <= numEntries && |available| == numEntries - n
        invariant forall k | 0 <= k < numEntries - n :: available[k] == WakerIndex(nextBlock, numEntries - 1 - k)
      {
        n := n - 1;
        available := available + [WakerIndex(nextBlock, n)];
      }
    }

    /** A new block of idle wakers, all of its indices available, the first one last. */
    method Grow()
      requires Valid() && available == [] && table != null && nextBlock < numBlocks
      modifies this, table
      ensures Valid() && table == old(table) && live == old(live) && nextBlock == old(nextBlock) + 1
      ensures |available| == numEntries && available[numEntries - 1] == WakerIndex(old(nextBlock), 0)
      ensures forall b | 0 <= b < old(nextBlock) :: table[b] == old(table[b])
      ensures fresh(table[old(nextBlock)])
    {
      var block := new Entry[numEntries](_ => Entry(Aw.New, Aw.New));
      table[nextBlock] := block;
      AddIndices();
      forall i: WakerIndex | i.block == nextBlock && i.entry < numEntries ensures i in available {
        assert available[numEntries - 1 - i.entry] == i;
      }
      assert forall i | i in available :: i.block == nextBlock && i.entry < numEntries;
      assert forall i | i in live :: i.block < nextBlock;
      nextBlock := nextBlock + 1;
    }

    /** Hands out an index nobody has, as long as the table is not full; blocks stay. */
    method Alloc() returns (r: Option<WakerIndex>)
      requires Valid()
      modifies this, table
      ensures Valid() && old(nextBlock) <= nextBlock && (table == old(table) || (old(table) == null && fresh(table)))
      ensures r.Some? ==> r.value !in old(live) && InRange(r.value) && live == old(live) + {r.value}
      ensures r.None? ==> live == old(live)
      ensures r.None? <==> forall b, e | 0 <= b < numBlocks && 0 <= e < numEntries :: WakerIndex(b, e) in old(live)
      ensures forall b | 0 <= b < old(nextBlock) :: table != null && table[b] == old(table[b])
    {
      if |available| == 0 {
        if table == null {
          table := new Block?[numBlocks](_ => null);
        }
        if nextBlock == numBlocks { return None; }
        assert WakerIndex(nextBlock, 0) !in live;
        Grow();
      }
      var n := |available|;
      r := Some(available[n - 1]);
      assert forall k | 0 <= k < n - 1 :: available[k] != r.value;
      available := available[..n - 1];
      live := live + {r.value};
    }

    /** Takes back an index that is in use. */
    method Free(i: WakerIndex)
      requires Valid() && i in live
      modifies this`available, this`live
      ensures Valid() && live == old(live) - {i}
    {
      available := available + [i];
      live := live - {i};
    }

    /** Every live index leads to an entry, without a failing unwrap. */
    method With(i: WakerIndex) returns (block: Block)
      requires Valid() && i in live
      ensures table != null && i.block < table.Length && block == table[i.block] && i.entry < block.Length
    {
      block := table[i.block];
    }

    /** Different live indices lead to different entries. */
    lemma EntriesApart(i: WakerIndex, j: WakerIndex)
      requires Valid() && i in live && j in live && i != j
      ensures table != null && i.block < table.Length && j.block < table.Length
      ensures table[i.block] == table[j.block] ==> i.entry != j.entry
    {
      assert i.block < j.block ==> table[i.block] != table[j.block];
      assert j.block < i.block ==> table[j.block] != table[i.block];
    }

    /** No more indices are live than the table has entries. */
    lemma LiveBound()
      requires Valid()
      ensures |live| <= numBlocks * numEntries
    {
      SubsetSize(live, Grid(numBlocks, numEntries));
    }

    /** The token of a live index is its own and never the signal token. */
    lemma LiveTokens(i: WakerIndex, j: WakerIndex, usizeMax: nat)
      requires Valid() && i in live && j in live && (usizeMax == 0xFFFF_FFFF || usizeMax == 0xFFFF_FFFF_FFFF_FFFF)
      ensures FromToken(Token(i)) == i && Token(i) != usizeMax
      ensures Token(i) == Token(j) ==> i == j
    {
      TokenRoundTrip(i);
      if i != j { TokensDiffer(i, j); }
      SignalToken(i, usizeMax);
    }
  }
}
