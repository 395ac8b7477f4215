/** The timer heap of a queue, in place (src/timer_heap.c). */
module TimerHeap {
  import opened Tally
  import opened Word32
  import opened BinaryHeap
  import opened TimerHeapModel
  import opened TimerHeapLemmas
  import opened TimerMap

  /** NTT_TIMER_MIN_CAPACITY. */
  const MIN_CAPACITY: nat := 8

  /** Timers a task may arm, and those their tasks may arm. */
  function TaskWork(task: Task): nat { ScriptWork(task.script) }

  function ScriptWork(script: Script): nat {
    match script
    case End => 0
    case Arm(_, task, rest) => 1 + TaskWork(task) + ScriptWork(rest)
    case Cancel(_, rest) => ScriptWork(rest)
    case Peek(rest) => ScriptWork(rest)
  }

  function SlotWork(slot: Slot): nat { if slot.cell.Held? then TaskWork(slot.cell.task) else 0 }

  // ---------------------------------------------------------------------------
  // Capacities
  // ---------------------------------------------------------------------------

  /** The first capacity in the doubling sequence from `cap` that holds `cnt`. */
  function LeastDoubling(cap: nat, cnt: nat): nat
    requires cap > 0
    decreases cnt - cap
  {
    if cap >= cnt then cap else LeastDoubling(2 * cap, cnt)
  }

  /** ntt_timer_heap_grow_capacity: within the bound no doubling wraps. */
  method GrowCapacity(cap: nat, cnt: nat) returns (newCap: nat)
    requires cnt <= 2 * LIMIT
    ensures newCap == LeastDoubling(if cap == 0 then MIN_CAPACITY else cap, cnt)
  {
    newCap := if cap == 0 then MIN_CAPACITY else cap;
    while newCap < cnt
      invariant newCap > 0
      invariant LeastDoubling(newCap, cnt) == LeastDoubling(if cap == 0 then MIN_CAPACITY else cap, cnt)
      decreases cnt - newCap
    {
      newCap := newCap * 2 % WORD;
    }
  }

  /** The capacity after `n` passes of that loop, on 32 bits. */
  function Doubled(cap: nat, n: nat): nat {
    if n == 0 then cap else Doubled(cap, n - 1) * 2 % WORD
  }

  lemma LargestPower()
    ensures MIN_CAPACITY * Pow2(28) == 2 * LIMIT
  {
    assert Pow2(14) == 0x4000;
    Pow2Adds(14, 14);
  }

  lemma {:induction false} DoubledIsPower(k: nat, n: nat)
    requires k <= 28
    ensures Doubled(MIN_CAPACITY * Pow2(k), n) == if k + n <= 28 then MIN_CAPACITY * Pow2(k + n) else 0
  {
    if n > 0 {
      DoubledIsPower(k, n - 1);
      PowerDoubles(k + n - 1);
    }
  }

  /** Doubling a capacity on 32 bits. */
  lemma PowerDoubles(k: nat)
    ensures MIN_CAPACITY * Pow2(k) * 2 == MIN_CAPACITY * Pow2(k + 1)
    ensures k <= 28 ==> MIN_CAPACITY * Pow2(k) <= 2 * LIMIT
    ensures k == 28 ==> MIN_CAPACITY * Pow2(k) == 2 * LIMIT
    ensures k < 28 ==> MIN_CAPACITY * Pow2(k) * 2 < WORD
  {
    LargestPower();
    if k < 28 {
      Pow2Grows(k, 28);
    }
  }

  /**
   From any capacity the heap can have, the loop ends if and only if the count
   is at most 2^31; beyond, it runs on at zero.
   */
  lemma GrowthEndsExactly(k: nat, cnt: nat)
    requires k <= 28 && cnt > 0
    ensures (exists n: nat :: Doubled(MIN_CAPACITY * Pow2(k), n) >= cnt) <==> cnt <= 2 * LIMIT
  {
    hide Doubled, Pow2;
    DoubledIsPower(k, 28 - k);
    PowerDoubles(28);
    forall n: nat ensures Doubled(MIN_CAPACITY * Pow2(k), n) <= 2 * LIMIT {
      DoubledIsPower(k, n);
      PowerDoubles(k + n);
    }
  }

  /** A full capacity grows to its double. */
  lemma DoublingIsNext(cap: nat)
    ensures LeastDoubling(if cap == 0 then MIN_CAPACITY else cap, cap + 1) == if cap == 0 then MIN_CAPACITY else 2 * cap
  {
    if cap > 0 {
      assert LeastDoubling(cap, cap + 1) == LeastDoubling(2 * cap, cap + 1);
    }
  }

  lemma {:induction false} DoublingIsLeast(cap: nat, cnt: nat)
    requires cap > 0
    ensures LeastDoubling(cap, cnt) >= cnt && LeastDoubling(cap, cnt) >= cap
    ensures LeastDoubling(cap, cnt) == cap || LeastDoubling(cap, cnt) < 2 * cnt
    decreases cnt - cap
  {
    if cap < cnt {
      DoublingIsLeast(2 * cap, cnt);
    }
  }

  /** What ntt_timer_heap_shrink makes of the capacity; the product is a 32-bit one. */
  function ShrunkCapacity(size: nat, cap: nat): nat {
    if cap <= MIN_CAPACITY || size * 4 % WORD > cap then cap else cap / 2
  }

  /**
   The entries stay within the shrunk capacity exactly while the product does
   not wrap onto a capacity that is needed. Every call comes after entries were
   removed, so the heap is never full: of the conditions for 2^30 entries and
   more, the last one is what such a call can fail.
   */
  lemma ShrinkIsSafe(size: nat, cap: nat)
    requires size <= cap && (cap <= LIMIT || cap == 2 * LIMIT)
    ensures size < LIMIT ==> ShrunkCapacity(size, cap) >= size
    ensures size >= LIMIT ==>
              (ShrunkCapacity(size, cap) >= size <==>
               size != cap && (size == LIMIT || size > LIMIT + LIMIT / 2))
  {
    if size < LIMIT {
      assert size * 4 % WORD == size * 4;
    } else if size < cap {
      assert size * 4 % WORD == size * 4 - WORD;
    } else {
      assert size * 4 % WORD == 0;
    }
  }

  /** A call on which the wrap loses entries: a heap of 2^30 + 2 entries after one pop. */
  lemma ShrinkLosesEntries()
    ensures var size := LIMIT + 2; var cap := LeastDoubling(LIMIT, size);
            size <= cap && ShrunkCapacity(size - 1, cap) < size - 1
  {
    assert LeastDoubling(LIMIT, LIMIT + 2) == LeastDoubling(2 * LIMIT, LIMIT + 2) == 2 * LIMIT;
  }

  /** A change of the capacity, with the entries there were at the time. */
  datatype Resize = Resize(grew: bool, size: nat, cap: nat)

  function Distance(a: nat, b: nat): nat { if a < b then b - a else a - b }

  /**
   A resize in the direction opposite to the last one comes only after a
   quarter of the new capacity was added or removed.
   */
  predicate FarApart(before: Resize, after: Resize) {
    before.grew != after.grew ==> 4 * Distance(before.size, after.size) >= after.cap
  }

  /** All resizes of a heap, up to the capacity it has now. */
  ghost predicate ResizesSound(resizes: seq<Resize>, cap: nat) {
    && (forall i | 0 < i < |resizes| :: Follows(resizes, i))
    && if resizes == [] then cap == 0
       else
         var last := resizes[|resizes| - 1];
         && cap == last.cap > 0
         && (if last.grew then cap == MIN_CAPACITY || 2 * last.size == cap else 2 * last.size <= cap)
  }

  ghost predicate Follows(resizes: seq<Resize>, i: nat)
    requires 0 < i < |resizes|
  {
    FarApart(resizes[i - 1], resizes[i])
  }

  /** Growth happens to a full heap, so a shrink lies well below and was a while ago. */
  lemma GrowthIsFar(resizes: seq<Resize>, cap: nat)
    requires ResizesSound(resizes, cap)
    ensures var grown := if cap == 0 then MIN_CAPACITY else 2 * cap;
            ResizesSound(resizes + [Resize(true, cap, grown)], grown)
  {
    var longer := resizes + [Resize(true, cap, if cap == 0 then MIN_CAPACITY else 2 * cap)];
    forall i | 0 < i < |longer| ensures Follows(longer, i) {
      if i < |resizes| {
        assert Follows(resizes, i);
      }
    }
  }

  /** A shrink happens to a heap a quarter full, so a growth lies well above. */
  lemma ShrinkIsFar(resizes: seq<Resize>, cap: nat, size: nat)
    requires ResizesSound(resizes, cap) && cap > MIN_CAPACITY && 4 * size <= cap
    ensures ResizesSound(resizes + [Resize(false, size, cap / 2)], cap / 2)
  {
    var longer := resizes + [Resize(false, size, cap / 2)];
    forall i | 0 < i < |longer| ensures Follows(longer, i) {
      if i < |resizes| {
        assert Follows(resizes, i);
      }
    }
  }

  /** ntt_realloc_or_die: the first `n` places survive. */
  method Reallocate<T(0)>(a: array<T>, n: nat, cap: nat) returns (b: array<T>)
    requires n <= a.Length && n <= cap
    ensures fresh(b) && b.Length == cap && b[..n] == a[..n]
  {
    b := new T[cap];
    forall i | 0 <= i < n {
      b[i] := a[i];
    }
  }

  class TimerHeap {
    var heap: array<Elem>
    var slots: array<Slot>
    var size: nat
    var tombstones: nat
    var slotCnt: nat
    var freeHead: nat
    var seqNext: nat

    ghost var model: Model
    ghost var cancels: nat  // timers cancelled so far
    ghost var scanned: nat  // entries looked at by compactions so far
    ghost var resizes: seq<Resize>

    ghost predicate Shaped()
      reads this
    {
      size < LIMIT && size <= heap.Length <= 2 * LIMIT && slotCnt <= slots.Length && ResizesSound(resizes, heap.Length)
    }

    ghost function Rep(): Rep
      requires Shaped()
      reads this, heap, slots
    {
      TimerHeapModel.Rep(heap[..size], slots[..slotCnt], freeHead, tombstones, seqNext)
    }

    ghost predicate Valid()
      reads this, heap, slots
    {
      && Shaped() && Sound(Rep(), model)
      && scanned + 2 * tombstones <= 2 * cancels && (scanned > 0 ==> scanned + 2 * tombstones < 2 * cancels)
    }

    ghost function View(): Timers
      reads this
    {
      Timers(model.armed, model.issued, seqNext)
    }

    /** Entries, and everything the armed tasks may still add to them. */
    ghost function Work(): nat
      requires Shaped()
      reads this, heap, slots
    {
      size + Sum(slots[..slotCnt], SlotWork)
    }

    constructor ()
      ensures Valid() && fresh(heap) && fresh(slots)
      ensures View() == Timers(map[], {}, 0) && Work() == 0 && cancels == 0
    {
      heap := new Elem[0];
      slots := new Slot[0];
      size, tombstones, slotCnt, freeHead, seqNext := 0, 0, 0, NONE, 0;
      model := Model(map[], {}, [], {}, 0);
      cancels, scanned, resizes := 0, 0, [];
    }

    /** Number of armed timers. */
    method Count() returns (n: nat)
      requires Valid()
      ensures n == |model.armed|
    {
      n := size - tombstones;
    }

    method Empty() returns (empty: bool)
      requires Valid()
      ensures empty <==> model.armed == map[]
    {
      EmptyIsUnarmed(Rep(), model);
      empty := size == tombstones;
    }

    /** All compactions together have looked at fewer than two entries a cancel. */
    lemma CompactionIsPaidFor()
      requires Valid() && cancels > 0
      ensures scanned < 2 * cancels
    {
    }

    /** The slab watermark is the largest number of timers that were ever armed at once. */
    lemma SlotsArePeak()
      requires Valid()
      ensures slotCnt == model.peak && |model.armed| <= model.peak <= LIMIT
    {
    }

    /**
     Over any run, a growth and the next shrink, or a shrink and the next
     growth, are a quarter of the new capacity in entries apart.
     */
    lemma ResizesAreFarApart(i: nat)
      requires Valid() && 0 < i < |resizes| && resizes[i - 1].grew != resizes[i].grew
      ensures 4 * Distance(resizes[i - 1].size, resizes[i].size) >= resizes[i].cap
    {
      assert Follows(resizes, i);
    }

    // -------------------------------------------------------------------------
    // Capacity
    // -------------------------------------------------------------------------

    /** Growth for the entry at the end, which finds the heap full. */
    method ReserveElem()
      requires Shaped()
      modifies this`heap, this`resizes
      ensures Shaped() && size < heap.Length && Rep() == old(Rep())
      ensures (heap == old(heap) || fresh(heap)) && old(resizes) <= resizes
      ensures if size < old(heap.Length) then heap == old(heap) && resizes == old(resizes)
              else resizes == old(resizes) + [Resize(true, size, heap.Length)]
    {
      if size < heap.Length {
        return;
      }
      var newCap := GrowCapacity(heap.Length, size + 1);
      DoublingIsNext(heap.Length);
      GrowthIsFar(resizes, heap.Length);
      resizes := resizes + [Resize(true, size, newCap)];
      heap := Reallocate(heap, size, newCap);
    }

    method ReserveSlot(index: nat)
      requires Shaped() && index < 2 * LIMIT
      modifies this`slots
      ensures Shaped() && index < slots.Length && Rep() == old(Rep())
      ensures slots == old(slots) || fresh(slots)
      ensures index < old(slots.Length) ==> slots == old(slots)
      ensures slots.Length == old(slots.Length) || slots.Length == MIN_CAPACITY || slots.Length <= 2 * index + 1
    {
      if index < slots.Length {
        return;
      }
      var newCap := GrowCapacity(slots.Length, index + 1);
      DoublingIsLeast(if slots.Length == 0 then MIN_CAPACITY else slots.Length, index + 1);
      slots := Reallocate(slots, slotCnt, newCap);
    }

    /** ntt_timer_heap_shrink, after entries were removed. */
    method Shrink()
      requires Shaped() && size < heap.Length
      modifies this`heap, this`resizes
      ensures Shaped() && Rep() == old(Rep()) && heap.Length == ShrunkCapacity(size, old(heap.Length))
      ensures heap.Length == if old(heap.Length) > 8 && 4 * size <= old(heap.Length) then old(heap.Length) / 2
                                else old(heap.Length)
      ensures (heap == old(heap) || fresh(heap)) && old(resizes) <= resizes
      ensures resizes == if heap.Length == old(heap.Length) then old(resizes)
              else old(resizes) + [Resize(false, size, heap.Length)]
    {
      assert size * 4 % WORD == size * 4;
      if heap.Length <= MIN_CAPACITY {
        return;
      }
      if size * 4 % WORD > heap.Length {
        return;
      }
      ShrinkIsFar(resizes, heap.Length, size);
      resizes := resizes + [Resize(false, size, heap.Length / 2)];
      heap := Reallocate(heap, size, heap.Length / 2);
    }

    // -------------------------------------------------------------------------
    // Slots
    // -------------------------------------------------------------------------

    /** ntt_timer_heap_alloc_slot, with the task stored. */
    method AllocSlot(task: Task) returns (index: nat)
      requires Shaped() && HeadSound(Rep()) && slotCnt <= LIMIT
      modifies this`slots, this`slotCnt, this`freeHead, slots
      ensures Shaped() && Rep() == Allocated(old(Rep()), task)
      ensures index == NextIndex(old(Rep())) && index < slotCnt && slots[index].version == NextVersion(old(Rep()))
      ensures slots == old(slots) || fresh(slots)
    {
      if freeHead != NONE {
        index := freeHead;
        freeHead := slots[index].next;
        slots[index] := Slot(Held(task), slots[index].version + 1, slots[index].next);
        assert slots[..slotCnt] == old(slots[..slotCnt])[index := slots[index]];
        return;
      }
      index := slotCnt;
      ReserveSlot(index);
      slots[index] := Slot(Held(task), 1, 0);
      slotCnt := slotCnt + 1;
      assert slots[..slotCnt] == old(slots[..slotCnt]) + [Slot(Held(task), 1, 0)];
    }

    method FreeSlot(index: nat)
      requires Shaped() && index < slotCnt
      modifies this`freeHead, slots
      ensures Shaped() && Rep() == Freed(old(Rep()), index)
    {
      slots[index] := Slot(Null, slots[index].version + 1, freeHead);
      freeHead := index;
      assert slots[..slotCnt] == old(slots[..slotCnt])[index := slots[index]];
    }

    // -------------------------------------------------------------------------
    // Entries
    // -------------------------------------------------------------------------

    /** ntt_timer_heap_pop_root. */
    method PopEntry()
      requires Shaped() && 0 < size
      modifies this`heap, this`resizes, this`size, heap
      ensures Shaped() && Rep() == RootDropped(old(Rep())) && size == old(size) - 1
      ensures heap.Length == if old(heap.Length) > 8 && 4 * size <= old(heap.Length) then old(heap.Length) / 2
                                else old(heap.Length)
      ensures (heap == old(heap) || fresh(heap)) && old(resizes) <= resizes
    {
      hide ShrunkCapacity;
      var last := size - 1;
      if last == 0 {
        size := 0;
        Shrink();
        return;
      }
      var elem := heap[last];
      assert heap[..size][..last] == heap[..last];
      size := last;
      SiftDownInPlace(heap, size, 0, elem, Less);
      Shrink();
    }

    /** The root refers to a slot that was handed out. */
    lemma RootInRange()
      requires Valid()
      ensures size > 0 ==> heap[0].index < slotCnt
    {
      if size > 0 {
        RootIsEntry(Rep(), model);
        assert EntrySound(Rep(), heap[0]);
      }
    }

    method PopTombstone()
      requires Shaped() && 0 < size && tombstones > 0
      modifies this`heap, this`resizes, this`size, this`tombstones, heap
      ensures Shaped() && Rep() == TombstoneDropped(old(Rep())) && size == old(size) - 1
              && tombstones == old(tombstones) - 1
      ensures (heap == old(heap) || fresh(heap)) && old(resizes) <= resizes
    {
      PopEntry();
      tombstones := tombstones - 1;
    }

    /** A tombstone comes off the top, and the count of them never runs short. */
    method DropTombstone()
      requires Valid() && 0 < size && !Live(slots[..slotCnt], heap[0])
      modifies this`heap, this`resizes, this`size, this`tombstones, this`model, heap
      ensures Valid() && View() == old(View()) && size == old(size) - 1
      ensures (heap == old(heap) || fresh(heap)) && old(resizes) <= resizes
    {
      hide Sound, ResizesSound;
      ghost var m := Without(model, heap[0]);
      DropTombstoneSound(Rep(), model);
      PopTombstone();
      model := m;
    }

    /** ntt_timer_heap_drop_dead_root: afterwards the root, if any, is live. */
    method DropDeadRoot()
      requires Valid()
      modifies this`heap, this`resizes, this`size, this`tombstones, this`model, heap
      ensures Valid() && View() == old(View())
      ensures size > 0 ==> Live(slots[..slotCnt], heap[0])
      ensures size <= old(size)
      ensures (heap == old(heap) || fresh(heap)) && old(resizes) <= resizes
    {
      hide Sound, ResizesSound;
      RootInRange();
      while size > 0 && slots[heap[0].index].version != heap[0].version
        invariant Valid() && View() == old(View())
        invariant size <= old(size)
        invariant (heap == old(heap) || fresh(heap)) && old(resizes) <= resizes
        invariant size > 0 ==> heap[0].index < slotCnt
        decreases size
      {
        DropTombstone();
        RootInRange();
      }
    }

    /** ntt_timer_heap_compact: reclaim tombstones once they are more than half of the heap. */
    method FilterEntries()
      requires Shaped() && tombstones * 2 > size && |Filter(heap[..size], Keeper(slots[..slotCnt]))| < size
      modifies this`heap, this`resizes, this`size, this`tombstones, heap
      ensures Shaped() && Rep() == Compacted(old(Rep())) && tombstones == 0 && size <= old(size)
      ensures heap.Length == if old(heap.Length) > 8 && 4 * size <= old(heap.Length) then old(heap.Length) / 2
                                else old(heap.Length)
      ensures (heap == old(heap) || fresh(heap)) && old(resizes) <= resizes
    {
      hide ResizesSound, Filter, ShrunkCapacity;
      ghost var live := slots[..slotCnt];
      size := FilterInPlace(heap, size, Keeper(slots[..slotCnt]));
      tombstones := 0;
      RebuildInPlace(heap, size, Less);
      assert slots[..slotCnt] == live;
      Shrink();
    }

    /** Entries looked at by compactions number at most twice the cancels that made them dead. */
    method Compact()
      requires Valid()
      modifies this`heap, this`resizes, this`size, this`tombstones, this`model, this`scanned, heap
      ensures Valid() && View() == old(View()) && size <= old(size) && cancels == old(cancels)
      ensures old(tombstones * 2 > size) ==> tombstones == 0 && scanned == old(scanned + size)
      ensures old(tombstones * 2 <= size) ==> Rep() == old(Rep()) && scanned == old(scanned)
      ensures (heap == old(heap) || fresh(heap)) && old(resizes) <= resizes
    {
      hide Sound, ResizesSound;
      if tombstones * 2 <= size {
        return;
      }
      ghost var m := Swept(Rep(), model);
      CompactSound(Rep(), model);
      CompactionRemoves(Rep(), model);
      scanned := scanned + size;
      FilterEntries();
      model := m;
    }

    /** ntt_timer_heap_peek: the deadline of the timer that fires first. */
    method Peek() returns (found: bool, deadline: nat)
      requires Valid()
      modifies this`heap, this`resizes, this`size, this`tombstones, this`model, heap
      ensures Valid() && View() == old(View()) && size <= old(size)
      ensures (heap == old(heap) || fresh(heap)) && old(resizes) <= resizes
      ensures found <==> View().armed != map[]
      ensures found ==> exists tag :: First(View(), tag) && View().armed[tag].deadline == deadline
      ensures found ==> forall t | t in View().armed :: deadline <= View().armed[t].deadline
    {
      DropDeadRoot();
      if size == 0 {
        EmptyIsUnarmed(Rep(), model);
        return false, 0;
      }
      LiveRootIsFirst();
      return true, heap[0].deadline;
    }

    /** A live root is the entry of the timer that fires first. */
    lemma LiveRootIsFirst()
      requires Valid() && size > 0 && Live(slots[..slotCnt], heap[0])
      ensures Odd(heap[0].version) && heap[0].index < slotCnt
      ensures var tag: Tag := RawTag(heap[0].index, heap[0].version);
              && First(View(), tag) && heap[0] == EntryOf(tag, model.armed[tag])
              && slots[heap[0].index].cell == Held(model.armed[tag].task)
    {
      RootIsEntry(Rep(), model);
      LiveIsArmed(Rep(), model, heap[0]);
      forall t | t in model.armed ensures !Less(EntryOf(t, model.armed[t]), heap[0]) {
        RootIsFirst(Rep(), model, t);
      }
    }

    method InsertEntry(elem: Elem)
      requires Shaped() && size + 1 < LIMIT
      modifies this`heap, this`resizes, this`size, heap
      ensures Shaped() && Rep() == old(Rep()).(elems := BinaryHeap.Push(old(Rep()).elems, elem, Less))
              && size == old(size) + 1
      ensures (heap == old(heap) || fresh(heap)) && old(resizes) <= resizes
    {
      ghost var r := Rep();
      var pos := size;
      ReserveElem();
      heap[pos] := elem;
      size := pos + 1;
      assert heap[..size] == r.elems + [elem];
      SiftUpInPlace(heap, size, pos, elem, Less);
    }

    method PushEntry(deadline: nat, task: Task) returns (tag: RawTag)
      requires Shaped() && HeadSound(Rep()) && size + 1 < LIMIT && slotCnt <= LIMIT
      modifies this`heap, this`resizes, this`size, this`slots, this`slotCnt, this`freeHead, this`seqNext, heap, slots
      ensures Shaped() && Rep() == Pushed(old(Rep()), deadline, task) && tag == NextTag(old(Rep()))
      ensures size == old(size) + 1 && seqNext == old(seqNext) + 1
      ensures (heap == old(heap) || fresh(heap)) && old(resizes) <= resizes
      ensures slots == old(slots) || fresh(slots)
    {
      var index := AllocSlot(task);
      tag := RawTag(index, slots[index].version);
      InsertEntry(Elem(deadline, seqNext, index, tag.version));
      seqNext := seqNext + 1;
    }

    /** ntt_timer_heap_push: the timer is armed under a tag no push has returned before. */
    method Push(deadline: nat, task: Task) returns (tag: Tag)
      requires Valid() && size + 1 < LIMIT
      modifies this, heap, slots
      ensures Valid() && View() == Add(old(View()), tag, deadline, task) && tag !in old(View()).issued
      ensures forall t | t in old(View()).armed :: old(View()).armed[t].order < View().armed[tag].order
      ensures size == old(size) + 1 && cancels == old(cancels) && scanned == old(scanned)
      ensures Work() <= old(Work()) + 1 + TaskWork(task)
      ensures (heap == old(heap) || fresh(heap)) && old(resizes) <= resizes
      ensures slots == old(slots) || fresh(slots)
    {
      hide Sound, Sum, ResizesSound;
      OrdersAreOwn();
      PushSound(Rep(), model, deadline, task);
      SlotsArePeak();
      PushWork(Rep(), deadline, task);
      ghost var m := ArmedWith(model, NextTag(Rep()), Timer(deadline, seqNext, task));
      tag := PushEntry(deadline, task);
      model := m;
    }

    method BuryEntry(tag: Tag)
      requires Shaped() && Current(Rep(), tag)
      modifies this`freeHead, this`tombstones, slots
      ensures Shaped() && Rep() == Buried(old(Rep()), tag) && tombstones == old(tombstones) + 1
    {
      FreeSlot(tag.index);
      tombstones := tombstones + 1;
    }

    /** ntt_timer_heap_cancel: the timer is gone and its task destroyed; one that is not armed is left alone. */
    method Cancel(tag: Tag) returns (destroyed: Cell)
      requires Valid()
      modifies this, heap, slots
      ensures Valid() && View() == Remove(old(View()), tag) && size <= old(size) && Work() <= old(Work())
      ensures cancels == old(cancels) + if tag in old(View()).armed then 1 else 0
      ensures destroyed == if tag in old(View()).armed then Held(old(View()).armed[tag].task) else Null
      ensures tag in old(View()).armed ==> tombstones * 2 <= size
      ensures (heap == old(heap) || fresh(heap)) && old(resizes) <= resizes
      ensures slots == old(slots)
    {
      hide Sound, Sum, ResizesSound;
      CurrentIsArmed(Rep(), model, tag);
      destroyed := Null;
      if tag.index >= slotCnt {
        return;
      }
      if slots[tag.index].version != tag.version {
        return;
      }
      destroyed := slots[tag.index].cell;
      BurySound(Rep(), model, tag);
      BuryWork(Rep(), tag);
      BuryEntry(tag);
      model := Removed(model, tag);
      cancels := cancels + 1;
      Compact();
    }

    // -------------------------------------------------------------------------
    // Service
    // -------------------------------------------------------------------------

    /**
     The root, which is live, goes and its slot is freed: as if it were buried
     first and dropped as a tombstone then.
     */
    method RetireRoot(ghost tag: Tag) returns (task: Cell)
      requires Shaped() && size > 0 && Current(Rep(), tag) && tag == RawTag(heap[0].index, heap[0].version)
      modifies this`heap, this`resizes, this`size, this`freeHead, heap, slots
      ensures Shaped() && Rep() == TombstoneDropped(Buried(old(Rep()), tag)) && size == old(size) - 1
      ensures task == old(slots[tag.index].cell)
      ensures (heap == old(heap) || fresh(heap)) && old(resizes) <= resizes
    {
      var index := heap[0].index;
      PopEntry();
      task := slots[index].cell;
      FreeSlot(index);
    }

    /** Take the root off: a tombstone is forgotten, a live timer is retired. */
    method TakeRoot() returns (live: bool, task: Cell)
      requires Valid() && size > 0
      modifies this, heap, slots
      ensures Valid() && cancels == old(cancels)
      ensures live == Live(old(slots[..slotCnt]), old(heap[0]))
      ensures !live ==> View() == old(View()) && Work() < old(Work())
      ensures live ==>
                && Odd(old(heap[0]).version)
                && var tag: Tag := RawTag(old(heap[0]).index, old(heap[0]).version);
                && First(old(View()), tag) && View() == Remove(old(View()), tag)
                && old(View()).armed[tag].deadline == old(heap[0]).deadline
                && task == Held(old(View()).armed[tag].task)
                && Work() + 1 + TaskWork(task.task) <= old(Work())
      ensures (heap == old(heap) || fresh(heap)) && old(resizes) <= resizes
      ensures slots == old(slots)
    {
      hide Sound, Sum, ResizesSound;
      RootInRange();
      var elem := heap[0];
      ghost var r := Rep();
      live := slots[elem.index].version == elem.version;
      if !live {
        DropTombstone();
        return false, Null;
      }
      LiveRootIsFirst();
      ghost var tag: Tag := RawTag(elem.index, elem.version);
      BurySound(r, model, tag);
      BuryWork(r, tag);
      DropTombstoneSound(Buried(r, tag), Removed(model, tag));
      task := RetireRoot(tag);
      model := Without(Removed(model, tag), elem);
    }

    /** The body of a task that runs in svc: pushes, cancels and peeks, in the order of its script. */
    method RunScript(script: Script) returns (ghost tags: seq<Tag>)
      requires Valid() && Work() + ScriptWork(script) < LIMIT
      modifies this, heap, slots
      ensures Valid() && View() == Exec(old(View()), script, tags) && TagsFit(old(View()), script, tags)
      ensures Work() <= old(Work()) + ScriptWork(script)
      ensures (heap == old(heap) || fresh(heap)) && old(resizes) <= resizes
      ensures slots == old(slots) || fresh(slots)
      decreases script
    {
      hide Sound, Sum;
      match script {
        case End =>
          tags := [];
        case Arm(deadline, task, rest) =>
          var tag := Push(deadline, task);
          ghost var more := RunScript(rest);
          tags := [tag] + more;
          assert tags[1..] == more;
        case Cancel(tag, rest) =>
          var _ := Cancel(tag);
          tags := RunScript(rest);
        case Peek(rest) =>
          var _, _ := Peek();
          tags := RunScript(rest);
      }
    }

    /** The timers of a heap have orders of their own, all below the next one, and tags that were issued. */
    lemma OrdersAreOwn()
      requires Valid()
      ensures OrdersSound(View()) && Issued(View())
    {
      forall t | t in model.armed ensures model.armed[t].order < seqNext {
        assert TimerSound(Rep(), model, t) && EntrySound(Rep(), EntryOf(t, model.armed[t]));
      }
      forall t, u | t in model.armed && u in model.armed && t != u
        ensures model.armed[t].order != model.armed[u].order
      {
        assert TimerSound(Rep(), model, t) && TimerSound(Rep(), model, u);
        assert Apart(EntryOf(t, model.armed[t]), EntryOf(u, model.armed[u]));
      }
    }

    /** With the root not due, nothing is. */
    lemma RootNotDue(now: nat)
      requires Valid() && (size == 0 || heap[0].deadline > now)
      ensures NoneDue(View(), now)
    {
      if size == 0 {
        EmptyIsUnarmed(Rep(), model);
      } else {
        forall t | t in model.armed ensures model.armed[t].deadline > now {
          RootIsFirst(Rep(), model, t);
        }
      }
    }

    /** ntt_timer_heap_svc, with tasks that may push, cancel and peek while it runs. */
    method Svc(now: nat) returns (cnt: nat, ran: seq<nat>, ghost log: seq<Firing>)
      requires Valid() && Work() < LIMIT
      modifies this, heap, slots
      ensures Valid() && Served(old(View()), now, log, View())
      ensures OrdersSound(old(View())) && Issued(old(View()))
      ensures cnt == |log| == |ran| && forall i | 0 <= i < |log| :: ran[i] == log[i].timer.task.id
      ensures (heap == old(heap) || fresh(heap)) && old(resizes) <= resizes
      ensures slots == old(slots) || fresh(slots)
    {
      hide Sound, Sum, Exec, TagsFit, ResizesSound, OrdersSound;
      OrdersAreOwn();
      cnt, ran, log := 0, [], [];
      while true
        invariant Valid() && Work() <= old(Work())
        invariant Legal(old(View()), now, log) && View() == Replay(old(View()), log)
        invariant cnt == |log| == |ran| && forall i | 0 <= i < |log| :: ran[i] == log[i].timer.task.id
        invariant (heap == old(heap) || fresh(heap)) && old(resizes) <= resizes
        invariant slots == old(slots) || fresh(slots)
        decreases Work()
      {
        if size == 0 || heap[0].deadline > now {
          RootNotDue(now);
          break;
        }
        ghost var before := View();
        ghost var elem := heap[0];
        var live, cell := TakeRoot();
        if live {
          ghost var tags := RunScript(cell.task.script);
          ghost var tag: Tag := RawTag(elem.index, elem.version);
          ghost var f := Firing(tag, before.armed[tag], tags);
          ReplayOneMore(old(View()), now, log, f);
          log := log + [f];
          ran := ran + [cell.task.id];
          cnt := cnt + 1;
        }
      }
    }

    /** The tasks of the live entries, in heap order. */
    method CollectTasks() returns (tasks: seq<Cell>)
      requires Valid()
      ensures var live := Filter(heap[..size], Keeper(slots[..slotCnt]));
              && |tasks| == |live|
              && forall i | 0 <= i < |live| :: live[i].index < slotCnt && tasks[i] == slots[live[i].index].cell
    {
      hide Sound;
      ghost var elems, keep := heap[..size], Keeper(slots[..slotCnt]);
      ghost var live: seq<Elem> := [];
      tasks := [];
      for pos := 0 to size
        invariant live == Filter(elems[..pos], keep) && |tasks| == |live|
        invariant forall i | 0 <= i < |live| :: live[i].index < slotCnt && tasks[i] == slots[live[i].index].cell
      {
        assert elems[..pos + 1][..pos] == elems[..pos];
        EntryInRange(pos);
        if slots[heap[pos].index].version == heap[pos].version {
          live := live + [heap[pos]];
          tasks := tasks + [slots[heap[pos].index].cell];
        }
      }
      assert elems[..size] == elems;
    }

    /** ntt_timer_heap_deinit: the tasks of exactly the armed timers are destroyed, each once. */
    method Deinit() returns (destroyed: seq<Cell>, ghost tags: seq<Tag>)
      requires Valid()
      modifies this
      ensures Valid() && View() == Timers(map[], {}, 0)
      ensures |destroyed| == |tags| && OneEach(old(View()).armed, tags)
      ensures forall i | 0 <= i < |tags| ::
                tags[i] in old(View()).armed && destroyed[i] == Held(old(View()).armed[tags[i]].task)
      ensures fresh(heap) && fresh(slots)
    {
      hide Sound, Filter;
      destroyed := CollectTasks();
      DestroyedOnce(Rep(), model);
      tags := TagsOfEntries(Filter(heap[..size], Keeper(slots[..slotCnt])));
      forall i | 0 <= i < |tags| ensures destroyed[i] == Held(model.armed[tags[i]].task) {
        assert HoldsTaskOf(Rep(), model, Filter(heap[..size], Keeper(slots[..slotCnt]))[i]);
      }
      Reset();
    }

    /** ntt_timer_heap_init. */
    method Reset()
      modifies this
      ensures Valid() && View() == Timers(map[], {}, 0) && fresh(heap) && fresh(slots)
    {
      hide Sound;
      EmptySound();
      heap := new Elem[0];
      slots := new Slot[0];
      size, tombstones, slotCnt, freeHead, seqNext := 0, 0, 0, NONE, 0;
      model := Model(map[], {}, [], {}, 0);
      cancels, scanned, resizes := 0, 0, [];
      assert heap[..size] == [] && slots[..slotCnt] == [];
    }

    lemma EntryInRange(pos: nat)
      requires Valid() && pos < size
      ensures heap[pos].index < slotCnt
    {
      assert heap[pos] in multiset(heap[..size]);
      assert EntrySound(Rep(), heap[pos]);
    }
  }

  lemma EmptySound()
    ensures Sound(Rep([], [], NONE, 0, 0), Model(map[], {}, [], {}, 0))
  {
    assert Dead([], {}) == {};
  }

  /** Every key of the map once. */
  ghost predicate OneEach(armed: map<Tag, Timer>, tags: seq<Tag>) {
    && |tags| == |armed|
    && (forall i | 0 <= i < |tags| :: tags[i] in armed)
    && (forall i, j | 0 <= i < j < |tags| :: tags[i] != tags[j])
  }

  ghost predicate OddVersions(elems: seq<Elem>) {
    forall i | 0 <= i < |elems| :: Odd(elems[i].version)
  }

  ghost function TagsOfEntries(elems: seq<Elem>): seq<Tag>
    requires OddVersions(elems)
  {
    seq(|elems|, i requires 0 <= i < |elems| => RawTag(elems[i].index, elems[i].version))
  }

  lemma TwiceCounts(elems: seq<Elem>, i: nat, j: nat)
    requires i < j < |elems| && elems[i] == elems[j]
    ensures multiset(elems)[elems[i]] >= 2
  {
    assert elems == elems[..j] + [elems[j]] + elems[j + 1..];
    assert elems[..j][i] in multiset(elems[..j]);
  }

  /** The slot of an entry holds the task of the armed timer with its tag. */
  ghost predicate HoldsTaskOf(r: Rep, m: Model, e: Elem) {
    && e.index < |r.slots| && Odd(e.version)
    && var tag: Tag := RawTag(e.index, e.version);
       tag in m.armed && r.slots[e.index].cell == Held(m.armed[tag].task)
  }

  lemma LiveHoldTasks(r: Rep, m: Model)
    requires Sound(r, m)
    ensures var live := Filter(r.elems, Keeper(r.slots)); forall i | 0 <= i < |live| :: HoldsTaskOf(r, m, live[i])
  {
    hide Filter;
    var live := Filter(r.elems, Keeper(r.slots));
    LiveContents(r, m);
    forall i | 0 <= i < |live| ensures HoldsTaskOf(r, m, live[i]) {
      assert live[i] in multiset(live);
      LiveIsArmed(r, m, live[i]);
    }
  }

  lemma LiveTagsDiffer(r: Rep, m: Model, i: nat, j: nat)
    requires HeapSound(r, m) && EntriesSound(r, m) && i < j < |Filter(r.elems, Keeper(r.slots))|
    ensures var live := Filter(r.elems, Keeper(r.slots));
            live[i].index != live[j].index || live[i].version != live[j].version
  {
    hide Filter;
    var live := Filter(r.elems, Keeper(r.slots));
    LiveContents(r, m);
    assert live[i] in multiset(live) && live[j] in multiset(live);
    if live[i] == live[j] {
      TwiceCounts(live, i, j);
    } else {
      assert Apart(live[i], live[j]);
    }
  }

  lemma LiveCount(r: Rep, m: Model)
    requires HeapSound(r, m) && CountsSound(r, m)
    ensures |Filter(r.elems, Keeper(r.slots))| == |m.armed|
  {
    hide Filter;
    var dead := Dead(r.slots, m.entries);
    LiveContents(r, m);
    assert |m.entries| == |multiset(m.entries)| == |r.elems|;
    assert |m.entries - dead| == |m.entries| - |dead|;
  }

  /** With tombstones in the majority at least one entry goes. */
  lemma CompactionRemoves(r: Rep, m: Model)
    requires Sound(r, m) && r.tombstones * 2 > |r.elems|
    ensures |Filter(r.elems, Keeper(r.slots))| < |r.elems|
  {
    LiveCount(r, m);
  }

  /** The live entries of the heap are one for each armed timer. */
  lemma DestroyedOnce(r: Rep, m: Model)
    requires Sound(r, m)
    ensures var live := Filter(r.elems, Keeper(r.slots));
            && OddVersions(live) && OneEach(m.armed, TagsOfEntries(live))
            && forall i | 0 <= i < |live| :: HoldsTaskOf(r, m, live[i])
  {
    hide Filter;
    var live := Filter(r.elems, Keeper(r.slots));
    LiveHoldTasks(r, m);
    LiveCount(r, m);
    forall i, j | 0 <= i < j < |live| ensures TagsOfEntries(live)[i] != TagsOfEntries(live)[j] {
      LiveTagsDiffer(r, m, i, j);
    }
  }

  lemma PushWork(r: Rep, deadline: nat, task: Task)
    requires HeadSound(r)
    ensures Sum(Pushed(r, deadline, task).slots, SlotWork) <= Sum(r.slots, SlotWork) + TaskWork(task)
  {
    if r.head != NONE {
      SumUpdate(r.slots, r.head, Pushed(r, deadline, task).slots[r.head], SlotWork);
    } else {
      SumAppend(r.slots, Slot(Held(task), 1, 0), SlotWork);
    }
  }

  lemma BuryWork(r: Rep, tag: Tag)
    requires Current(r, tag)
    ensures Sum(Buried(r, tag).slots, SlotWork) == Sum(r.slots, SlotWork) - SlotWork(r.slots[tag.index])
  {
    SumUpdate(r.slots, tag.index, Buried(r, tag).slots[tag.index], SlotWork);
  }
}
