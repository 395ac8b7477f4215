/**
 The slab allocator (src/slab.c): a free list through the slots, a table of
 blocks, and generations that outlive the tenants of a slot.

 The storage of slot `i` is the `i`-th head; that distinct slots have distinct
 storage is proved in SlabLayout. Generations are unbounded.
 */
module Slab {
  import opened SlabLayout

  const NONE: nat := CAPACITY

  /** ntt_slab_head_t. */
  datatype Head = Head(generation: nat, nextFree: nat)

  /** A tenancy: what ntt_slab_take handed out, and the generation it found there. */
  datatype Tenancy = Tenancy(index: nat, generation: nat)

  /** The list of free slots, read off the heads. */
  ghost predicate Chain(heads: seq<Head>, first: nat, free: seq<nat>)
    decreases free
  {
    if free == [] then first == NONE
    else first == free[0] && first < |heads| && Chain(heads, heads[first].nextFree, free[1..])
  }

  ghost predicate Distinct(xs: seq<nat>) {
    forall i, j | 0 <= i < j < |xs| :: xs[i] != xs[j]
  }

  /** Handed out twice to nobody. */
  ghost predicate GivenOnce(given: seq<Tenancy>) {
    forall i, j | 0 <= i < j < |given| :: given[i] != given[j]
  }

  /** Every tenancy lies in the past of its slot, and that of a free slot is over. */
  ghost predicate Dated(given: seq<Tenancy>, heads: seq<Head>, free: seq<nat>) {
    forall i | 0 <= i < |given| ::
      && given[i].index < |heads| && given[i].generation <= heads[given[i].index].generation
      && (given[i].index in free ==> given[i].generation < heads[given[i].index].generation)
  }

  /** The free list does not see what happens to a slot that is not on it. */
  lemma {:induction false} ChainElsewhere(heads: seq<Head>, first: nat, free: seq<nat>, i: nat, h: Head)
    requires Chain(heads, first, free) && i < |heads| && i !in free
    ensures Chain(heads[i := h], first, free)
    decreases free
  {
    if free != [] {
      ChainElsewhere(heads, heads[first].nextFree, free[1..], i, h);
    }
  }

  /** The links determine the list. */
  lemma {:induction false} ChainIsUnique(heads: seq<Head>, first: nat, free: seq<nat>, other: seq<nat>)
    requires Chain(heads, first, free) && Chain(heads, first, other) && |heads| <= CAPACITY
    ensures free == other
    decreases free
  {
    if free != [] && other != [] {
      ChainIsUnique(heads, heads[first].nextFree, free[1..], other[1..]);
    }
  }

  lemma {:induction false} ChainSuffix(heads: seq<Head>, first: nat, free: seq<nat>, i: nat)
    requires Chain(heads, first, free) && i < |free|
    ensures Chain(heads, free[i], free[i..])
    decreases free
  {
    if i > 0 {
      ChainSuffix(heads, heads[first].nextFree, free[1..], i - 1);
      assert free[1..][i - 1..] == free[i..];
    }
  }

  /** A list that ends visits no slot twice. */
  lemma ChainIsAcyclic(heads: seq<Head>, first: nat, free: seq<nat>)
    requires Chain(heads, first, free) && |heads| <= CAPACITY
    ensures Distinct(free)
  {
    forall i, j | 0 <= i < j < |free| ensures free[i] != free[j] {
      ChainSuffix(heads, first, free, i);
      ChainSuffix(heads, first, free, j);
      if free[i] == free[j] {
        ChainIsUnique(heads, free[i], free[i..], free[j..]);
      }
    }
  }

  class Slab {
    var heads: seq<Head>
    var blocks: array<nat>   // objects allocated per block, zero for none
    var blockCnt: nat
    var freeHead: nat
    ghost var free: seq<nat>
    ghost var given: seq<Tenancy>

    /** The slots ever used. */
    function Size(): nat
      reads this
    {
      |heads|
    }

    /** Every slot below the size is live or free; this says which. */
    ghost predicate Live(i: nat)
      reads this
    {
      i < |heads| && i !in free
    }

    ghost predicate BlocksCover()
      reads this, blocks
    {
      && blocks.Length == BLOCKS
      && blockCnt == (if |heads| == 0 then 0 else BlockOf(|heads| - 1) + 1) <= BLOCKS
      && (forall b | 0 <= b < blockCnt :: blocks[b] == BlockCount(b))
    }

    ghost predicate Valid()
      reads this, blocks
    {
      && |heads| <= CAPACITY
      && BlocksCover()
      && Chain(heads, freeHead, free)
      && (forall k | 0 <= k < |free| :: free[k] < |heads|)
      && GivenOnce(given) && Dated(given, heads, free)
    }

    /** ntt_slab_init. */
    constructor ()
      ensures Valid() && fresh(blocks) && Size() == 0 && given == []
    {
      heads, free, given := [], [], [];
      blocks := new nat[BLOCKS](_ => 0);
      blockCnt := 0;
      freeHead := NONE;
    }

    /** The allocation of a block, if the fresh slot starts one; the write never leaves the table. */
    method AddBlock()
      requires BlocksCover() && |heads| < CAPACITY
      modifies this`blockCnt, blocks
      ensures blocks.Length == BLOCKS && blockCnt == BlockOf(|heads|) + 1 <= BLOCKS
      ensures forall b | 0 <= b < blockCnt :: blocks[b] == BlockCount(b)
    {
      if |heads| > 0 {
        NextBlockIsDue(|heads|);
      }
      if |heads| == BlockFirst(blockCnt) {
        blocks[blockCnt] := if blockCnt == FULL_BLOCKS then LAST_LEN else BlockLen(blockCnt);
        blockCnt := blockCnt + 1;
      }
    }

    /**
     ntt_slab_take: a free slot if there is one, with the generation it was
     left at, and otherwise a fresh slot of generation one. Either way nobody
     was ever handed the pair before. Running out of indices, which ends the
     process, changes nothing.
     */
    method Take() returns (ok: bool, index: nat)
      requires Valid()
      modifies this, blocks
      ensures Valid() && blocks == old(blocks)
      ensures ok <==> old(free != [] || |heads| < CAPACITY)
      ensures ok ==>
                && index < |heads| && !old(Live(index)) && Live(index)
                && given == old(given) + [Tenancy(index, heads[index].generation)]
      ensures ok && old(free) != [] ==> index == old(free)[0] && free == old(free)[1..] && heads == old(heads)
      ensures ok && old(free) == [] ==> index == old(|heads|) && free == [] && heads == old(heads) + [Head(1, NONE)]
      ensures !ok ==> heads == old(heads) && free == old(free) && given == old(given)
    {
      ChainIsAcyclic(heads, freeHead, free);
      if freeHead != NONE {
        ok, index := true, freeHead;
        freeHead := heads[index].nextFree;
        free := free[1..];
      } else {
        index := |heads|;
        if index == CAPACITY {
          return false, 0;
        }
        AddBlock();
        heads := heads + [Head(1, NONE)];
        ok := true;
      }
      given := given + [Tenancy(index, heads[index].generation)];
    }

    /** ntt_slab_retire. */
    method Retire(index: nat) returns (generation: nat)
      requires Valid() && Live(index)
      modifies this`heads
      ensures Valid() && generation == old(heads[index].generation) + 1
      ensures heads == old(heads)[index := Head(generation, old(heads[index].nextFree))]
    {
      ChainElsewhere(heads, freeHead, free, index, Head(heads[index].generation + 1, heads[index].nextFree));
      heads := heads[index := Head(heads[index].generation + 1, heads[index].nextFree)];
      generation := heads[index].generation;
    }

    /** ntt_slab_give: the generation is bumped before the slot is on the list. */
    method Give(index: nat)
      requires Valid() && Live(index)
      modifies this`heads, this`freeHead, this`free
      ensures Valid() && free == [index] + old(free)
      ensures |heads| == old(|heads|) && heads[index].generation == old(heads[index].generation) + 1
      ensures forall i | 0 <= i < |heads| && i != index :: heads[i] == old(heads[i])
    {
      var generation := Retire(index);
      ChainElsewhere(heads, freeHead, free, index, Head(generation, freeHead));
      heads := heads[index := Head(generation, freeHead)];
      freeHead := index;
      free := [index] + free;
    }
  }
}
