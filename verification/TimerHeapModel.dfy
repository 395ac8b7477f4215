/**
 The timer heap of a queue (src/timer_heap.c) as a value: what its two arrays
 and counters hold, what each operation makes of them, and the invariant that
 ties them to a map from tags to armed timers. The class in TimerHeap works in
 place and is proved to do what these functions say.
 */
module TimerHeapModel {
  import opened Tally
  import opened BinaryHeap

  /** NTT_TIMER_SLOT_NONE. */
  const NONE: nat := 0xFFFF_FFFF

  /** Below this many entries the 32-bit products of the source do not wrap. */
  const LIMIT: nat := 0x4000_0000

  datatype RawTag = RawTag(index: nat, version: nat)

  /** What a push returns: occupied slots have odd versions. */
  type Tag = t: RawTag | t.version % 2 == 1 witness RawTag(0, 1)

  /** A task is an identity and what it does to the timers of its queue when it runs. */
  datatype Task = Task(id: nat, script: Script)

  datatype Script =
    | End
    | Arm(deadline: nat, task: Task, rest: Script)
    | Cancel(tag: Tag, rest: Script)
    | Peek(rest: Script)

  datatype Cell = Null | Held(task: Task)

  datatype Elem = Elem(deadline: nat, order: nat, index: nat, version: nat)

  datatype Slot = Slot(cell: Cell, version: nat, next: nat)

  /** ntt_timer_heap_less: by deadline, and by the order of arming where deadlines are equal. */
  predicate Less(a: Elem, b: Elem) {
    if a.deadline != b.deadline then a.deadline < b.deadline else a.order < b.order
  }

  lemma LessOrders()
    ensures Orders(Less)
  {
  }

  // ---------------------------------------------------------------------------
  // The representation and its operations
  // ---------------------------------------------------------------------------

  datatype Rep = Rep(elems: seq<Elem>, slots: seq<Slot>, head: nat, tombstones: int, next: nat)

  /** ntt_timer_heap_elem_live. */
  predicate Live(slots: seq<Slot>, e: Elem) {
    e.index < |slots| && slots[e.index].version == e.version
  }

  function Keeper(slots: seq<Slot>): Elem -> bool { (e: Elem) => Live(slots, e) }

  predicate HeadSound(r: Rep) { r.head == NONE || r.head < |r.slots| }

  /** The slot the next push will use. */
  function NextIndex(r: Rep): nat { if r.head != NONE then r.head else |r.slots| }

  /** ntt_timer_heap_alloc_slot, and the task put into the slot. */
  function Allocated(r: Rep, task: Task): Rep
    requires HeadSound(r)
  {
    if r.head != NONE then
      var slot := r.slots[r.head];
      r.(slots := r.slots[r.head := Slot(Held(task), slot.version + 1, slot.next)], head := slot.next)
    else r.(slots := r.slots + [Slot(Held(task), 1, 0)])
  }

  /** ntt_timer_heap_free_slot. */
  function Freed(r: Rep, index: nat): Rep
    requires index < |r.slots|
  {
    r.(slots := r.slots[index := Slot(Null, r.slots[index].version + 1, r.head)], head := index)
  }

  /** The version of the slot the next push will use, once it is used. */
  function NextVersion(r: Rep): nat
    requires HeadSound(r)
  {
    if r.head != NONE then r.slots[r.head].version + 1 else 1
  }

  function NextElem(r: Rep, deadline: nat): Elem
    requires HeadSound(r)
  {
    Elem(deadline, r.next, NextIndex(r), NextVersion(r))
  }

  function Pushed(r: Rep, deadline: nat, task: Task): Rep
    requires HeadSound(r)
  {
    Allocated(r, task).(elems := Push(r.elems, NextElem(r, deadline), Less), next := r.next + 1)
  }

  function RootDropped(r: Rep): Rep
    requires r.elems != []
  {
    r.(elems := PopRoot(r.elems, Less))
  }

  /** One tombstone comes off the top. */
  function TombstoneDropped(r: Rep): Rep
    requires r.elems != []
  {
    RootDropped(r).(tombstones := r.tombstones - 1)
  }

  /** ntt_timer_heap_compact. */
  function Compacted(r: Rep): Rep {
    if r.tombstones * 2 <= |r.elems| then r
    else
      var kept := Filter(r.elems, Keeper(r.slots));
      r.(elems := Rebuild(kept, |kept| / 2, Less), tombstones := 0)
  }

  predicate Current(r: Rep, tag: Tag) {
    tag.index < |r.slots| && r.slots[tag.index].version == tag.version
  }

  /** The slot of a current tag is given up and its entry becomes a tombstone. */
  function Buried(r: Rep, tag: Tag): Rep
    requires Current(r, tag)
  {
    Freed(r, tag.index).(tombstones := r.tombstones + 1)
  }

  // ---------------------------------------------------------------------------
  // What it stands for
  // ---------------------------------------------------------------------------

  datatype Timer = Timer(deadline: nat, order: nat, task: Task)

  /**
   The armed timers by tag, with what the proofs keep track of: the entries of
   the heap as a set, the free list, every tag ever issued, and the largest
   number of timers ever armed at once.
   */
  datatype Model = Model(armed: map<Tag, Timer>, entries: set<Elem>, free: seq<nat>, issued: set<Tag>, peak: nat)

  function EntryOf(tag: Tag, timer: Timer): Elem { Elem(timer.deadline, timer.order, tag.index, tag.version) }

  function Dead(slots: seq<Slot>, entries: set<Elem>): set<Elem> {
    set e | e in entries && !Live(slots, e)
  }

  predicate Odd(v: nat) { v % 2 == 1 }

  ghost predicate HeapSound(r: Rep, m: Model) {
    IsHeap(r.elems, Less) && multiset(r.elems) == multiset(m.entries)
  }

  predicate EntrySound(r: Rep, e: Elem) {
    e.index < |r.slots| && Odd(e.version) && e.version <= r.slots[e.index].version && e.order < r.next
  }

  predicate Apart(e: Elem, f: Elem) {
    e != f ==> e.order != f.order && (e.index != f.index || e.version != f.version)
  }

  ghost predicate EntriesSound(r: Rep, m: Model) {
    && (forall e | e in m.entries :: EntrySound(r, e))
    && (forall e, f | e in m.entries && f in m.entries :: Apart(e, f))
  }

  predicate TimerSound(r: Rep, m: Model, tag: Tag)
    requires tag in m.armed
  {
    && Current(r, tag)
    && r.slots[tag.index].cell == Held(m.armed[tag].task)
    && EntryOf(tag, m.armed[tag]) in m.entries
  }

  /** Occupied slots and armed timers correspond one to one. */
  ghost predicate TimersSound(r: Rep, m: Model) {
    && m.armed.Keys <= m.issued
    && (forall tag | tag in m.armed :: TimerSound(r, m, tag))
    && (forall i | 0 <= i < |r.slots| && Odd(r.slots[i].version) :: RawTag(i, r.slots[i].version) in m.armed)
    && (forall tag | tag in m.issued :: tag.index < |r.slots| && tag.version <= r.slots[tag.index].version)
  }

  /** The `k`th slot of the free list is vacant and links to the next one. */
  predicate LinkSound(slots: seq<Slot>, free: seq<nat>, k: nat)
    requires k < |free|
  {
    && free[k] < |slots| && !Odd(slots[free[k]].version)
    && slots[free[k]].next == (if k + 1 < |free| then free[k + 1] else NONE)
  }

  /** The free list visits every vacant slot once and ends. */
  ghost predicate FreeSound(r: Rep, m: Model) {
    && r.head == (if m.free == [] then NONE else m.free[0])
    && (forall k | 0 <= k < |m.free| :: LinkSound(r.slots, m.free, k))
    && (forall k, l | 0 <= k < l < |m.free| :: m.free[k] != m.free[l])
    && (forall i | 0 <= i < |r.slots| && !Odd(r.slots[i].version) :: i in m.free)
  }

  ghost predicate CountsSound(r: Rep, m: Model) {
    && r.tombstones == |Dead(r.slots, m.entries)|
    && |m.armed| + r.tombstones == |r.elems|
    && |m.armed| + |m.free| == |r.slots| == m.peak
    && |r.slots| <= LIMIT
  }

  ghost predicate Sound(r: Rep, m: Model) {
    HeapSound(r, m) && EntriesSound(r, m) && TimersSound(r, m) && FreeSound(r, m) && CountsSound(r, m)
  }

  // ---------------------------------------------------------------------------
  // What the operations mean
  // ---------------------------------------------------------------------------

  function ArmedWith(m: Model, tag: Tag, timer: Timer): Model {
    var armed := m.armed[tag := timer];
    Model(armed, m.entries + {EntryOf(tag, timer)}, if m.free == [] then [] else m.free[1..], m.issued + {tag},
          Max(m.peak, |armed|))
  }

  function Removed(m: Model, tag: Tag): Model {
    m.(armed := m.armed - {tag}, free := [tag.index] + m.free)
  }

  function Without(m: Model, e: Elem): Model {
    m.(entries := m.entries - {e})
  }

  function Swept(r: Rep, m: Model): Model {
    m.(entries := m.entries - Dead(r.slots, m.entries))
  }

  function NextTag(r: Rep): RawTag
    requires HeadSound(r)
  {
    RawTag(NextIndex(r), NextVersion(r))
  }
}
