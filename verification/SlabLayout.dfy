/**
 How a slab finds an object by its index (src/slab.h): blocks that double in
 size, a last block cut short by the reserved index, and arithmetic on 32 bits
 throughout. Every wrap of that arithmetic is written out.
 */
module SlabLayout {
  import opened Word32

  /** NTT_FIRST_SLAB_BLOCK_LEN. */
  const FIRST_LEN: nat := 64

  /** NTT_SLAB_CAPACITY, which is also NTT_SLAB_NONE. */
  const CAPACITY: nat := WORD - 1

  /** NTT_SLAB_FULL_BLOCKS, NTT_SLAB_LAST_BLOCK_LEN and NTT_SLAB_BLOCKS. */
  const FULL_BLOCKS: nat := 26
  const LAST_LEN: nat := FIRST_LEN - 1
  const BLOCKS: nat := FULL_BLOCKS + 1

  /** 31 - __builtin_clz(x). */
  function HighestBit(x: nat): nat
    requires x > 0
  {
    if x == 1 then 0 else 1 + HighestBit(x / 2)
  }

  /** ntt_slab_block_of. */
  function BlockOf(index: nat): nat {
    HighestBit(index / FIRST_LEN + 1)
  }

  /** ntt_slab_block_first. */
  function BlockFirst(block: nat): nat {
    FIRST_LEN * (Pow2(block) - 1) % WORD
  }

  /** ntt_slab_block_len. */
  function BlockLen(block: nat): nat {
    FIRST_LEN * Pow2(block) % WORD
  }

  /** The objects ntt_slab_take allocates for a block. */
  function BlockCount(block: nat): nat {
    if block == FULL_BLOCKS then LAST_LEN else BlockLen(block)
  }

  predicate InBlock(index: nat, block: nat) {
    BlockFirst(block) <= index < BlockFirst(block) + BlockCount(block)
  }

  // ---------------------------------------------------------------------------
  // Powers
  // ---------------------------------------------------------------------------

  lemma {:induction false} HighestBitBrackets(x: nat)
    requires x > 0
    ensures Pow2(HighestBit(x)) <= x < 2 * Pow2(HighestBit(x))
  {
    if x > 1 {
      HighestBitBrackets(x / 2);
    }
  }

  lemma Powers()
    ensures Pow2(20) == 0x10_0000 && Pow2(21) == 0x20_0000
    ensures Pow2(FULL_BLOCKS) == 0x400_0000 && Pow2(BLOCKS) == 0x800_0000
  {
    assert Pow2(10) == 1024;
    Pow2Adds(10, 10);
    Pow2Adds(20, 6);
  }

  /** The 32-bit layout is the unbounded one for every block of the table. */
  lemma LayoutIsExact(block: nat)
    requires block < BLOCKS
    ensures BlockFirst(block) == FIRST_LEN * Pow2(block) - FIRST_LEN
    ensures block < FULL_BLOCKS ==> BlockCount(block) == FIRST_LEN * Pow2(block)
  {
    hide Pow2;
    Powers();
    if block < FULL_BLOCKS {
      Pow2Grows(block, FULL_BLOCKS);
    }
  }

  // ---------------------------------------------------------------------------
  // The blocks
  // ---------------------------------------------------------------------------

  /**
   The blocks tile the indices: the first starts at zero, each starts where the
   one before ends, and the last ends at the capacity.
   */
  lemma BlocksTile(block: nat)
    requires block < BLOCKS
    ensures BlockFirst(0) == 0
    ensures block < FULL_BLOCKS ==> BlockFirst(block) + BlockCount(block) == BlockFirst(block + 1)
    ensures BlockFirst(FULL_BLOCKS) + BlockCount(FULL_BLOCKS) == CAPACITY
  {
    LayoutIsExact(block);
    if block < FULL_BLOCKS {
      LayoutIsExact(block + 1);
    }
    LayoutIsExact(FULL_BLOCKS);
    hide Pow2;
    Powers();
  }

  /** The start of the block past the table wraps to that of the last block. */
  lemma PastTheTableWraps()
    ensures BlockFirst(BLOCKS) == BlockFirst(FULL_BLOCKS) == WORD - FIRST_LEN
    ensures BlockLen(FULL_BLOCKS) == 0
  {
    hide Pow2;
    Powers();
  }

  /** `BlockOf` inverts the layout: an index lies in one block of the table, and it is the one computed. */
  lemma BlockOfInverts(index: nat, block: nat)
    requires index < CAPACITY && block < BLOCKS
    ensures BlockOf(index) < BLOCKS
    ensures InBlock(index, block) <==> block == BlockOf(index)
  {
    var high := BlockOf(index);
    HighestBitBrackets(index / FIRST_LEN + 1);
    hide Pow2;
    Powers();
    if high >= BLOCKS {
      if high > BLOCKS {
        Pow2Grows(BLOCKS, high);
      }
      assert false;
    }
    LayoutIsExact(high);
    LayoutIsExact(block);
    if block < high {
      Pow2Grows(block, high);
    } else if high < block {
      Pow2Grows(high, block);
    }
  }

  /**
   The test by which ntt_slab_take finds that a fresh slot needs a block: with
   the blocks up to that of the slot before, the slot starts the next block
   exactly when it is where `BlockFirst` says, although that wraps once the
   table is full.
   */
  lemma NextBlockIsDue(size: nat)
    requires 0 < size < CAPACITY
    ensures var blocks := BlockOf(size - 1) + 1;
            && BlockOf(size) + 1 == (if size == BlockFirst(blocks) then blocks + 1 else blocks)
            && (size == BlockFirst(blocks) ==> blocks < BLOCKS)
  {
    hide Pow2, HighestBit;
    var before, here := BlockOf(size - 1), BlockOf(size);
    BlockOfInverts(size - 1, 0);
    BlockOfInverts(size - 1, before);
    BlockOfInverts(size, 0);
    BlockOfInverts(size, here);
    BlockOfInverts(size, before);
    BlocksTile(before);
    PastTheTableWraps();
    if before < FULL_BLOCKS {
      BlockOfInverts(size, before + 1);
      LayoutIsExact(before + 1);
    }
  }

  // ---------------------------------------------------------------------------
  // Addresses
  // ---------------------------------------------------------------------------

  /** The stride of ntt_slab_init: the object size rounded up to cache lines. */
  function Stride(objectSize: nat): nat { (objectSize + 63) / 64 * 64 % WORD }

  /** The byte at which ntt_slab_at finds an object within its block: a 32-bit product. */
  function ByteOffset(offset: nat, stride: nat): nat { offset * stride % WORD }

  /** The largest object whose stride 32 bits can express. */
  const LARGEST: nat := WORD - 64

  /** The stride is a whole number of cache lines, the least that holds the object. */
  lemma StrideRounds(objectSize: nat)
    requires 0 < objectSize <= LARGEST
    ensures Stride(objectSize) % 64 == 0 && objectSize <= Stride(objectSize) < objectSize + 64
    ensures Stride(objectSize) < WORD
  {
    var lines := (objectSize + 63) / 64;
    assert lines * 64 <= objectSize + 63 < lines * 64 + 64;
    assert lines * 64 < WORD;
  }

  /** Two objects of one block share no byte. */
  predicate Apart(a: nat, b: nat, objectSize: nat) {
    var stride := Stride(objectSize);
    || ByteOffset(a, stride) + objectSize <= ByteOffset(b, stride)
    || ByteOffset(b, stride) + objectSize <= ByteOffset(a, stride)
  }

  predicate InBounds(offset: nat, count: nat, objectSize: nat) {
    ByteOffset(offset, Stride(objectSize)) + objectSize <= count * Stride(objectSize)
  }

  /** No two objects of a block of `count` objects share a byte, and each lies within the block. */
  ghost predicate Separate(count: nat, objectSize: nat) {
    && (forall a, b | 0 <= a < b < count :: Apart(a, b, objectSize))
    && (forall a | 0 <= a < count :: InBounds(a, count, objectSize))
  }

  lemma OffsetsExact(offset: nat, stride: nat)
    requires offset * stride < WORD
    ensures ByteOffset(offset, stride) == offset * stride
  {
  }

  lemma ProductMonotone(a: nat, b: nat, stride: nat)
    requires a <= b
    ensures a * stride <= b * stride
  {
  }

  /** An object whose offset the product can express ends before the next one begins. */
  lemma ObjectFits(a: nat, b: nat, objectSize: nat)
    requires 0 < objectSize <= LARGEST && a < b && a * Stride(objectSize) < WORD
    ensures ByteOffset(a, Stride(objectSize)) + objectSize <= b * Stride(objectSize)
  {
    hide Stride;
    var stride := Stride(objectSize);
    StrideRounds(objectSize);
    OffsetsExact(a, stride);
    ProductMonotone(a + 1, b, stride);
    assert (a + 1) * stride == a * stride + stride;
  }

  /**
   The bytes of two objects whose offsets the product can express are disjoint
   and within their block, whatever the size of the object.
   */
  lemma NeighboursApart(a: nat, b: nat, count: nat, objectSize: nat)
    requires 0 < objectSize <= LARGEST && a < b < count && b * Stride(objectSize) < WORD
    ensures var i, j := ByteOffset(a, Stride(objectSize)), ByteOffset(b, Stride(objectSize));
            && i + objectSize <= j && j + objectSize <= count * Stride(objectSize)
    ensures Apart(a, b, objectSize) && InBounds(a, count, objectSize) && InBounds(b, count, objectSize)
  {
    hide Stride;
    ProductMonotone(a, b, Stride(objectSize));
    OffsetsExact(b, Stride(objectSize));
    ObjectFits(a, b, objectSize);
    ObjectFits(a, count, objectSize);
    ObjectFits(b, count, objectSize);
  }

  /** What a multiple of 64 leaves past a 32-bit word is a multiple of 64. */
  lemma WrapIsAligned(offset: nat, stride: nat)
    requires stride % 64 == 0 && WORD <= offset * stride
    ensures (offset * stride - WORD) % 64 == 0
  {
    var lines := stride / 64;
    assert offset * stride == 64 * (offset * lines);
    assert offset * stride - WORD == 64 * (offset * lines - WORD / 64);
  }

  /** The first offset the product cannot express lands on the first object. */
  lemma FirstWrapCollides(objectSize: nat) returns (offset: nat)
    requires 0 < objectSize <= LARGEST
    ensures var stride := Stride(objectSize);
            0 < offset && offset * stride >= WORD && (offset - 1) * stride < WORD && !Apart(0, offset, objectSize)
  {
    hide Stride;
    var stride := Stride(objectSize);
    StrideRounds(objectSize);
    offset := (WORD + stride - 1) / stride;
    var rest := (WORD + stride - 1) % stride;
    assert offset * stride == WORD + stride - 1 - rest;
    assert (offset - 1) * stride == offset * stride - stride;
    var past := offset * stride - WORD;
    assert 0 <= past < stride < WORD;
    assert offset * stride % WORD == past;
    WrapIsAligned(offset, stride);
    assert past <= stride - 64 < objectSize;
  }

  /**
   The objects of a block are separate exactly when the product of the last
   offset fits 32 bits. A caller can tell from the block and the object size;
   the documented capacity is larger.
   */
  lemma SeparateExactly(count: nat, objectSize: nat)
    requires count > 0 && 0 < objectSize <= LARGEST
    ensures Separate(count, objectSize) <==> (count - 1) * Stride(objectSize) < WORD
  {
    hide Stride;
    var stride := Stride(objectSize);
    if (count - 1) * stride < WORD {
      forall a, b | 0 <= a < b < count ensures Apart(a, b, objectSize) {
        ProductMonotone(b, count - 1, stride);
        NeighboursApart(a, b, count, objectSize);
      }
      forall a | 0 <= a < count ensures InBounds(a, count, objectSize) {
        ProductMonotone(a, count - 1, stride);
        ObjectFits(a, count, objectSize);
      }
    } else {
      var offset := FirstWrapCollides(objectSize);
      if offset > count - 1 {
        ProductMonotone(count - 1, offset - 1, stride);
      }
      assert !Apart(0, offset, objectSize);
    }
  }

  /** With objects of one cache line the blocks from the twenty-second on overlap themselves. */
  lemma WrapsForOneCacheLine(objectSize: nat)
    requires 0 < objectSize <= 64
    ensures Separate(BlockCount(20), objectSize) && !Separate(BlockCount(21), objectSize)
  {
    hide Pow2, Separate;
    Powers();
    StrideRounds(objectSize);
    assert Stride(objectSize) == 64;
    SeparateExactly(BlockCount(20), objectSize);
    SeparateExactly(BlockCount(21), objectSize);
  }

  /**
   Where an index below the capacity is found: in a block of its own, at an
   offset within that block, so distinct indices are told apart by block and
   offset.
   */
  lemma PlacesAreDistinct(i: nat, j: nat)
    requires i < CAPACITY && j < CAPACITY && i != j
    ensures BlockFirst(BlockOf(i)) <= i && i - BlockFirst(BlockOf(i)) < BlockCount(BlockOf(i))
    ensures BlockOf(i) != BlockOf(j) || i - BlockFirst(BlockOf(i)) != j - BlockFirst(BlockOf(j))
  {
    BlockOfInverts(i, 0);
    BlockOfInverts(i, BlockOf(i));
  }
}
