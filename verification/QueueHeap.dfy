/**
 The heap of queue registrations inside the timer service (src/queue_heap.c).

 Which entries are live is decided by the generations of the queue slab, and
 queue contexts bump these while the heap is worked on. So the generations are
 given read by read: the `r`th read finds those of `world(r)`, and a method that
 has made the reads from `at` on returns the number of the next one. Nothing is
 assumed of the tombstone count, so everything below holds whatever the hint
 says.
 */
module QueueHeap {
  import opened BinaryHeap

  /** NTT_QUEUE_HEAP_MIN_CAPACITY. */
  const MIN_CAPACITY: nat := 8

  datatype Registration = Registration(deadline: nat, index: nat, generation: nat)

  /** ntt_queue_heap_less. */
  predicate Less(a: Registration, b: Registration) { a.deadline < b.deadline }

  lemma LessOrders()
    ensures Orders(Less)
  {
  }

  /** ntt_queue_heap_live. */
  predicate Live(gens: seq<nat>, e: Registration) {
    e.index < |gens| && gens[e.index] == e.generation
  }

  /** The generations each read finds. */
  type World = nat -> seq<nat>

  /** Some read found the entry dead. */
  ghost predicate DeadWhenRead(world: World, from: nat, to: nat, e: Registration) {
    exists r: nat :: from <= r < to && !Live(world(r), e)
  }

  ghost predicate LiveWhenRead(world: World, from: nat, to: nat, e: Registration) {
    exists r: nat :: from <= r < to && Live(world(r), e)
  }

  /** No read could have found it dead. */
  ghost predicate LiveThroughout(world: World, from: nat, to: nat, e: Registration) {
    forall r: nat | from <= r <= to :: Live(world(r), e)
  }

  /** Entries may have gone, but only such as were read dead. */
  ghost predicate Thinned(world: World, from: nat, to: nat, before: multiset<Registration>,
      after: multiset<Registration>) {
    from <= to && after <= before && forall x | x in before && after[x] < before[x] :: DeadWhenRead(world, from, to, x)
  }

  /** Generations only grow, and so does the slab. */
  ghost predicate Growing(world: World) {
    forall i: nat, j: nat | i <= j :: NoOlder(world(i), world(j))
  }

  ghost predicate NoOlder(a: seq<nat>, b: seq<nat>) {
    |a| <= |b| && forall q | 0 <= q < |a| :: a[q] <= b[q]
  }

  /** An entry was made under a generation its slot had already reached. */
  predicate Made(gens: seq<nat>, e: Registration) {
    e.index < |gens| && e.generation <= gens[e.index]
  }

  /** An entry live at the end of a call was live all along, and so it is still there as often as it was. */
  lemma LiveIsKept(world: World, from: nat, to: nat, before: multiset<Registration>, after: multiset<Registration>,
      e: Registration)
    requires Thinned(world, from, to, before, after) && Growing(world)
    requires Made(world(from), e) && Live(world(to), e)
    ensures LiveThroughout(world, from, to, e) && after[e] == before[e]
  {
    forall r: nat | from <= r <= to ensures Live(world(r), e) {
      assert NoOlder(world(from), world(r)) && NoOlder(world(r), world(to));
    }
    assert !DeadWhenRead(world, from, to, e);
  }

  /** What a compaction that reads the entries one by one keeps. */
  function Kept(elems: seq<Registration>, world: World, at: nat): seq<Registration> {
    if elems == [] then []
    else
      var n := |elems| - 1;
      Kept(elems[..n], world, at) + if Live(world(at + n), elems[n]) then [elems[n]] else []
  }

  lemma KeptNothing(world: World, at: nat)
    ensures Kept([], world, at) == []
  {
  }

  lemma KeptOneMore(elems: seq<Registration>, world: World, at: nat, pos: nat)
    requires pos < |elems|
    ensures Kept(elems[..pos + 1], world, at)
         == Kept(elems[..pos], world, at) + if Live(world(at + pos), elems[pos]) then [elems[pos]] else []
  {
    assert elems[..pos + 1][..pos] == elems[..pos];
  }

  lemma {:induction false} KeptWereRead(elems: seq<Registration>, world: World, at: nat)
    ensures Thinned(world, at, at + |elems|, multiset(elems), multiset(Kept(elems, world, at)))
    ensures forall x | x in multiset(Kept(elems, world, at)) :: LiveWhenRead(world, at, at + |elems|, x)
  {
    if elems != [] {
      var n := |elems| - 1;
      var first := elems[..n];
      KeptWereRead(first, world, at);
      assert elems == first + [elems[n]];
      forall x | x in multiset(elems) && multiset(Kept(elems, world, at))[x] < multiset(elems)[x]
        ensures DeadWhenRead(world, at, at + |elems|, x)
      {
        if multiset(Kept(first, world, at))[x] < multiset(first)[x] {
          assert DeadWhenRead(world, at, at + n, x);
        }
      }
    }
  }

  /** The hint after `n` tombstones went; it may have run short before. */
  function Lowered(hint: nat, n: nat): nat { if n < hint then hint - n else 0 }

  class QueueHeap {
    var elems: array<Registration>
    var size: nat
    var tombstones: nat

    ghost predicate Valid()
      reads this`elems, this`size, elems
    {
      size <= elems.Length && IsHeap(elems[..size], Less)
    }

    ghost function Contents(): multiset<Registration>
      requires size <= elems.Length
      reads this`elems, this`size, elems
    {
      multiset(elems[..size])
    }

    constructor ()
      ensures Valid() && Contents() == multiset{} && fresh(elems)
    {
      elems := new Registration[0];
      size, tombstones := 0, 0;
    }

    /** ntt_queue_heap_reserve. */
    method Reserve(cnt: nat)
      requires size <= elems.Length
      modifies this`elems
      ensures size <= elems.Length && cnt <= elems.Length && elems[..size] == old(elems[..size])
      ensures elems == old(elems) || fresh(elems)
      ensures if cnt <= old(elems.Length) then elems == old(elems)
              else elems.Length >= 2 * old(elems.Length) && (elems.Length == MIN_CAPACITY || elems.Length < 2 * cnt)
    {
      if cnt <= elems.Length {
        return;
      }
      var capacity := if elems.Length == 0 then MIN_CAPACITY else elems.Length;
      while capacity < cnt
        invariant capacity > 0 && capacity >= elems.Length
        invariant || capacity == (if elems.Length == 0 then MIN_CAPACITY else elems.Length)
                  || 2 * elems.Length <= capacity < 2 * cnt
        decreases cnt - capacity
      {
        capacity := capacity * 2;
      }
      var bigger := new Registration[capacity];
      forall i | 0 <= i < size {
        bigger[i] := elems[i];
      }
      elems := bigger;
    }

    /** The array work of ntt_queue_heap_push, on the entries as a sequence. */
    method PushEntry(elem: Registration)
      requires size <= elems.Length
      modifies this`elems, this`size, elems
      ensures size <= elems.Length && elems[..size] == BinaryHeap.Push(old(elems[..size]), elem, Less)
      ensures elems == old(elems) || fresh(elems)
    {
      Reserve(size + 1);
      ghost var before := elems[..size];
      var pos := size;
      elems[pos] := elem;
      size := pos + 1;
      assert elems[..size] == before + [elem];
      SiftUpInPlace(elems, size, pos, elem, Less);
    }

    /** ntt_queue_heap_push. */
    method Push(index: nat, generation: nat, deadline: nat)
      requires Valid()
      modifies this`elems, this`size, elems
      ensures Valid() && Contents() == old(Contents()) + multiset{Registration(deadline, index, generation)}
      ensures elems == old(elems) || fresh(elems)
    {
      LessOrders();
      PushIsHeap(elems[..size], Registration(deadline, index, generation), Less);
      PushEntry(Registration(deadline, index, generation));
    }

    /** ntt_queue_heap_top: no entry, dead or alive, is earlier. */
    method Top() returns (found: bool, deadline: nat)
      requires Valid()
      ensures found <==> Contents() != multiset{}
      ensures found ==> exists e :: e in Contents() && e.deadline == deadline
      ensures found ==> forall e | e in Contents() :: deadline <= e.deadline
    {
      if size == 0 {
        return false, 0;
      }
      RootIsEarliest();
      assert elems[0] in multiset(elems[..size]);
      return true, elems[0].deadline;
    }

    lemma RootIsEarliest()
      requires Valid() && size > 0
      ensures forall e | e in Contents() :: elems[0].deadline <= e.deadline
    {
      LessOrders();
      forall e | e in Contents() ensures elems[0].deadline <= e.deadline {
        var i :| 0 <= i < size && elems[..size][i] == e;
        RootIsLeast(elems[..size], i, Less);
      }
    }

    /** The array work of ntt_queue_heap_pop_root, on the entries as a sequence. */
    method PopEntry()
      requires 0 < size <= elems.Length
      modifies this`size, elems
      ensures size == old(size) - 1 && elems[..size] == PopRoot(old(elems[..size]), Less)
    {
      ghost var before := elems[..size];
      var last := size - 1;
      if last == 0 {
        size := 0;
        return;
      }
      var elem := elems[last];
      size := last;
      assert elems[..size] == before[..last];
      SiftDownInPlace(elems, size, 0, elem, Less);
    }

    /** ntt_queue_heap_pop_root. */
    method Pop()
      requires Valid() && size > 0
      modifies this`size, elems
      ensures Valid() && Contents() == old(Contents()) - multiset{old(elems[0])} && size == old(size) - 1
    {
      LessOrders();
      PopRootIsHeap(elems[..size], Less);
      PopEntry();
    }

    lemma RootIsThere()
      requires Valid() && size > 0
      ensures elems[0] in Contents()
    {
      assert elems[..size][0] == elems[0];
    }

    /** ntt_queue_heap_drop_dead_root: only entries read dead go, and one read live is left on top. */
    method DropDeadRoot(world: World, at: nat) returns (next: nat)
      requires Valid()
      modifies this`size, this`tombstones, elems
      ensures Valid() && Thinned(world, at, next, old(Contents()), Contents())
      ensures size > 0 ==> LiveWhenRead(world, at, next, elems[0])
      ensures size <= old(size) && tombstones == Lowered(old(tombstones), old(size) - size)
    {
      hide Thinned, LiveWhenRead, Live, IsHeap, Contents;
      ghost var first := Contents();
      NothingThinned(world, at, first);
      next := at;
      while size > 0
        invariant at <= next && Valid() && Thinned(world, at, next, first, Contents())
        invariant size <= old(size) && tombstones == Lowered(old(tombstones), old(size) - size)
        decreases size
      {
        RootIsThere();
        ghost var before, root := Contents(), elems[0];
        next := next + 1;
        if Live(world(next - 1), elems[0]) {
          RootReadLive(world, at, next, first, before, root);
          return;
        }
        Pop();
        RootReadDead(world, at, next, first, before, root);
        if tombstones > 0 {
          tombstones := tombstones - 1;
        }
      }
    }

    /**
     ntt_queue_heap_take_expired: an entry read live, due, and no later than
     any entry that was live throughout; or nothing, and then no entry that was
     live throughout is due.
     */
    method TakeExpired(world: World, at: nat, now: nat) returns (found: bool, elem: Registration, next: nat)
      requires Valid()
      modifies this`size, this`tombstones, elems
      ensures Valid()
      ensures found ==>
                && elem in old(Contents()) && LiveWhenRead(world, at, next, elem) && elem.deadline <= now
                && (forall e | e in old(Contents()) && LiveThroughout(world, at, next, e) ::
                    elem.deadline <= e.deadline)
                && Thinned(world, at, next, old(Contents()) - multiset{elem}, Contents())
                && size < old(size) && tombstones == Lowered(old(tombstones), old(size) - size - 1)
      ensures !found ==>
                && (forall e | e in old(Contents()) && LiveThroughout(world, at, next, e) :: e.deadline > now)
                && Thinned(world, at, next, old(Contents()), Contents())
                && size <= old(size) && tombstones == Lowered(old(tombstones), old(size) - size)
    {
      hide LiveWhenRead, Orders, IsHeap;
      next := DropDeadRoot(world, at);
      LiveOnesStay(world, at, next, old(Contents()), Contents());
      if size > 0 {
        RootIsEarliest();
      }
      if size == 0 || elems[0].deadline > now {
        return false, Registration(0, 0, 0), next;
      }
      elem := elems[0];
      assert elem in multiset(elems[..size]);
      ThinnedButOne(world, at, next, old(Contents()), Contents(), elem);
      Pop();
      found := true;
    }

    /** The array work of ntt_queue_heap_compact: entries read live move to the front, in order. */
    method KeepLive(world: World, at: nat) returns (next: nat)
      requires size <= elems.Length
      modifies this`size, elems
      ensures size <= old(size) && elems[..size] == Kept(old(elems[..size]), world, at) && next == at + old(size)
    {
      hide Kept, Live;
      ghost var before := elems[..size];
      assert before[..0] == [] && Kept([], world, at) == [] by { KeptNothing(world, at); }
      var n, out, pos := size, 0, 0;
      while pos < n
        invariant out <= pos <= n && size == n
        invariant elems[..out] == Kept(before[..pos], world, at)
        invariant forall k | pos <= k < n :: elems[k] == before[k]
      {
        KeptOneMore(before, world, at, pos);
        ghost var kept := elems[..out];
        if Live(world(at + pos), elems[pos]) {
          elems[out] := elems[pos];
          out := out + 1;
          assert elems[..out] == kept + [before[pos]];
        }
        pos := pos + 1;
      }
      assert before[..n] == before;
      next := at + n;
      size := out;
    }

    /** ntt_queue_heap_compact: if it runs, only entries read dead go and only entries read live are left. */
    method Compact(world: World, at: nat) returns (next: nat)
      requires Valid()
      modifies this`size, this`tombstones, elems
      ensures Valid() && Thinned(world, at, next, old(Contents()), Contents())
      ensures old(tombstones * 2 > size) ==>
                (forall x | x in Contents() :: LiveWhenRead(world, at, next, x)) && tombstones == 0
                    && next == at + old(size)
      ensures old(tombstones * 2 <= size) ==>
                Contents() == old(Contents()) && tombstones == old(tombstones) && next == at
    {
      hide Kept, LiveWhenRead, DeadWhenRead;
      if tombstones * 2 <= size {
        return at;
      }
      KeptWereRead(elems[..size], world, at);
      next := KeepLive(world, at);
      tombstones := 0;
      ghost var kept := elems[..size];
      RebuildInPlace(elems, size, Less);
      LessOrders();
      LowerHalfIsHeap(kept, Less);
      RebuildIsHeap(kept, size / 2, Less);
    }

    /** ntt_queue_heap_retire: the hint is raised and clipped, and the heap is rebuilt if it says so. */
    method Retire(world: World, at: nat, cnt: nat) returns (next: nat)
      requires Valid()
      modifies this`size, this`tombstones, elems
      ensures Valid() && Thinned(world, at, next, old(Contents()), Contents())
      ensures tombstones <= size
      ensures old(tombstones + cnt) * 2 <= old(size) ==>
                Contents() == old(Contents()) && tombstones == old(tombstones + cnt) && next == at
      ensures (if old(tombstones + cnt) <= old(size) then old(tombstones + cnt) else old(size)) * 2 > old(size) ==>
                && (forall x | x in Contents() :: LiveWhenRead(world, at, next, x))
                && tombstones == 0 && next == at + old(size)
    {
      hide Thinned, LiveWhenRead;
      tombstones := tombstones + cnt;
      if tombstones > size {
        tombstones := size;
      }
      next := Compact(world, at);
    }

    /** ntt_queue_heap_has_live. */
    method HasLive(gens: seq<nat>) returns (live: bool)
      requires Valid()
      ensures live <==> exists e :: e in Contents() && Live(gens, e)
    {
      for pos := 0 to size
        invariant forall i | 0 <= i < pos :: !Live(gens, elems[i])
      {
        if Live(gens, elems[pos]) {
          assert elems[pos] in multiset(elems[..size]);
          return true;
        }
      }
      forall e | e in Contents() ensures !Live(gens, e) {
        var i :| 0 <= i < size && elems[..size][i] == e;
      }
      return false;
    }
  }

  lemma NothingThinned(world: World, at: nat, entries: multiset<Registration>)
    ensures Thinned(world, at, at, entries, entries)
  {
  }

  /** The root was read dead and is gone. */
  lemma RootReadDead(world: World, from: nat, next: nat, first: multiset<Registration>, before: multiset<Registration>,
      root: Registration)
    requires next > from && Thinned(world, from, next - 1, first, before) && root in before
             && !Live(world(next - 1), root)
    ensures Thinned(world, from, next, first, before - multiset{root})
  {
    forall x | x in first && (before - multiset{root})[x] < first[x] ensures DeadWhenRead(world, from, next, x) {
      if x != root {
        assert DeadWhenRead(world, from, next - 1, x);
      }
    }
  }

  /** The root was read live and stays. */
  lemma RootReadLive(world: World, from: nat, next: nat, first: multiset<Registration>, before: multiset<Registration>,
      root: Registration)
    requires next > from && Thinned(world, from, next - 1, first, before) && Live(world(next - 1), root)
    ensures Thinned(world, from, next, first, before) && LiveWhenRead(world, from, next, root)
  {
    forall x | x in first && before[x] < first[x] ensures DeadWhenRead(world, from, next, x) {
      assert DeadWhenRead(world, from, next - 1, x);
    }
  }

  lemma LiveOnesStay(world: World, from: nat, to: nat, before: multiset<Registration>, after: multiset<Registration>)
    requires Thinned(world, from, to, before, after)
    ensures forall e | e in before && LiveThroughout(world, from, to, e) :: e in after
  {
    forall e | e in before && LiveThroughout(world, from, to, e) ensures e in after {
      assert !DeadWhenRead(world, from, to, e);
    }
  }

  lemma ThinnedButOne(world: World, from: nat, to: nat, before: multiset<Registration>, after: multiset<Registration>,
      e: Registration)
    requires Thinned(world, from, to, before, after) && e in after
    ensures e in before && Thinned(world, from, to, before - multiset{e}, after - multiset{e})
  {
  }
}
