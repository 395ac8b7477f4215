/** Every operation of the timer heap keeps its invariant and does to the armed timers what it says. */
module TimerHeapLemmas {
  import opened BinaryHeap
  import opened TimerHeapModel

  // ---------------------------------------------------------------------------
  // Pushing
  // ---------------------------------------------------------------------------

  lemma HeadIsVacant(r: Rep, m: Model)
    requires FreeSound(r, m)
    ensures HeadSound(r)
    ensures r.head != NONE ==> m.free != [] && r.head == m.free[0] && !Odd(r.slots[r.head].version)
    ensures r.head == NONE && |r.slots| <= LIMIT ==> m.free == []
  {
    if m.free != [] { assert LinkSound(r.slots, m.free, 0); }
  }

  /** The tag a push returns has never been issued before, and no entry has its slot and version. */
  lemma NextTagIsFresh(r: Rep, m: Model)
    requires TimersSound(r, m) && FreeSound(r, m)
    ensures HeadSound(r)
    ensures Odd(NextVersion(r)) && NextTag(r) !in m.issued
  {
    HeadIsVacant(r, m);
  }

  lemma NextEntryIsFresh(r: Rep, m: Model, e: Elem)
    requires EntriesSound(r, m) && HeadSound(r) && e in m.entries
    ensures e.order < r.next && (e.index != NextIndex(r) || e.version < NextVersion(r))
  {
    assert EntrySound(r, e);
  }

  /** The slots after a push: one slot became occupied under a version no entry and no tag has. */
  predicate Occupied(slots: seq<Slot>, slots': seq<Slot>, index: nat, version: nat, task: Task) {
    && index < |slots'| && |slots| <= |slots'| <= |slots| + 1 && index <= |slots|
    && slots'[index].version == version && slots'[index].cell == Held(task)
    && (forall i | 0 <= i < |slots| && i != index :: slots'[i] == slots[i])
    && (index < |slots| ==> |slots'| == |slots| && version == slots[index].version + 1 && !Odd(slots[index].version))
    && (index == |slots| ==> |slots'| == |slots| + 1)
  }

  lemma PushOccupies(r: Rep, m: Model, d: nat, task: Task)
    requires FreeSound(r, m)
    ensures HeadSound(r) && Occupied(r.slots, Pushed(r, d, task).slots, NextIndex(r), NextVersion(r), task)
  {
    HeadIsVacant(r, m);
  }

  lemma PushHeap(r: Rep, m: Model, d: nat, task: Task)
    requires HeapSound(r, m) && EntriesSound(r, m) && HeadSound(r)
    ensures var e := NextElem(r, d);
            && e !in m.entries && IsHeap(Pushed(r, d, task).elems, Less)
            && multiset(Pushed(r, d, task).elems) == multiset(m.entries + {e})
            && |Pushed(r, d, task).elems| == |r.elems| + 1
  {
    var e := NextElem(r, d);
    if e in m.entries { NextEntryIsFresh(r, m, e); }
    LessOrders();
    PushIsHeap(r.elems, e, Less);
    assert multiset(m.entries + {e}) == multiset(m.entries) + multiset{e};
  }

  lemma PushEntries(r: Rep, r': Rep, m: Model, added: Elem)
    requires EntriesSound(r, m) && HeadSound(r) && added == NextElem(r, added.deadline) && Odd(added.version)
    requires r'.next == r.next + 1 && exists task :: Occupied(r.slots, r'.slots, NextIndex(r), NextVersion(r), task)
    ensures forall e | e in m.entries + {added} :: EntrySound(r', e)
    ensures forall e, f | e in m.entries + {added} && f in m.entries + {added} :: Apart(e, f)
  {
    forall e | e in m.entries + {added} ensures EntrySound(r', e) && Apart(e, added) && Apart(added, e) {
      if e in m.entries {
        NextEntryIsFresh(r, m, e);
        assert EntrySound(r, e);
      }
    }
  }

  lemma PushTimers(r: Rep, r': Rep, m: Model, m': Model, tag: Tag, timer: Timer)
    requires TimersSound(r, m) && HeadSound(r) && tag == NextTag(r)
    requires Occupied(r.slots, r'.slots, NextIndex(r), NextVersion(r), timer.task)
    requires m' == ArmedWith(m, tag, timer)
    ensures TimersSound(r', m')
  {
    forall t | t in m'.armed ensures TimerSound(r', m', t) {
      if t != tag {
        assert TimerSound(r, m, t);
        assert t.index != tag.index;
      }
    }
    forall i | 0 <= i < |r'.slots| && Odd(r'.slots[i].version) ensures RawTag(i, r'.slots[i].version) in m'.armed {
      if i != tag.index { assert r'.slots[i] == r.slots[i]; }
    }
    forall t | t in m'.issued ensures t.index < |r'.slots| && t.version <= r'.slots[t.index].version {
      if t.index != tag.index { assert r'.slots[t.index] == r.slots[t.index]; }
    }
  }

  lemma PushFree(r: Rep, m: Model, m': Model, d: nat, task: Task)
    requires FreeSound(r, m) && HeadSound(r) && |r.slots| <= LIMIT && Odd(NextVersion(r))
    requires m'.free == if m.free == [] then [] else m.free[1..]
    ensures FreeSound(Pushed(r, d, task), m')
  {
    var r' := Pushed(r, d, task);
    PushOccupies(r, m, d, task);
    HeadIsVacant(r, m);
    if m.free != [] {
      assert LinkSound(r.slots, m.free, 0);
      forall k | 0 <= k < |m'.free| ensures LinkSound(r'.slots, m'.free, k) {
        assert LinkSound(r.slots, m.free, k + 1);
      }
    }
    forall i | 0 <= i < |r'.slots| && !Odd(r'.slots[i].version) ensures i in m'.free {
      assert i in m.free;
    }
  }

  lemma PushLeavesTombstones(r: Rep, m: Model, d: nat, task: Task)
    requires EntriesSound(r, m) && FreeSound(r, m) && HeadSound(r)
    ensures Dead(Pushed(r, d, task).slots, m.entries + {NextElem(r, d)}) == Dead(r.slots, m.entries)
  {
    var r' := Pushed(r, d, task);
    PushOccupies(r, m, d, task);
    assert Live(r'.slots, NextElem(r, d));
    forall f | f in m.entries ensures Live(r'.slots, f) <==> Live(r.slots, f) {
      NextEntryIsFresh(r, m, f);
      assert EntrySound(r, f);
    }
  }

  lemma PushCounts(r: Rep, m: Model, d: nat, task: Task)
    requires Sound(r, m) && |r.elems| < LIMIT && HeadSound(r) && Odd(NextVersion(r)) && NextTag(r) !in m.armed
    ensures CountsSound(Pushed(r, d, task), ArmedWith(m, NextTag(r), Timer(d, r.next, task)))
  {
    PushHeap(r, m, d, task);
    PushLeavesTombstones(r, m, d, task);
    HeadIsVacant(r, m);
  }

  /** A push arms one more timer, under a tag that was never issued, in an invariant that still holds. */
  lemma PushSound(r: Rep, m: Model, d: nat, task: Task)
    requires Sound(r, m) && |r.elems| < LIMIT
    ensures HeadSound(r) && Odd(NextVersion(r)) && NextTag(r) !in m.issued
    ensures Sound(Pushed(r, d, task), ArmedWith(m, NextTag(r), Timer(d, r.next, task)))
  {
    NextTagIsFresh(r, m);
    var r' := Pushed(r, d, task);
    var tag: Tag := NextTag(r);
    var m' := ArmedWith(m, tag, Timer(d, r.next, task));
    PushOccupies(r, m, d, task);
    PushHeap(r, m, d, task);
    PushEntries(r, r', m, NextElem(r, d));
    PushTimers(r, r', m, m', tag, Timer(d, r.next, task));
    PushFree(r, m, m', d, task);
    PushCounts(r, m, d, task);
  }

  // ---------------------------------------------------------------------------
  // Giving a slot up
  // ---------------------------------------------------------------------------

  /** Armed timers have slots of their own. */
  lemma ArmedApart(r: Rep, m: Model, t: Tag, u: Tag)
    requires TimersSound(r, m) && t in m.armed && u in m.armed && t != u
    ensures t.index != u.index
  {
    assert TimerSound(r, m, t) && TimerSound(r, m, u);
  }

  lemma BuryEntries(r: Rep, m: Model, tag: Tag)
    requires EntriesSound(r, m) && Current(r, tag)
    ensures EntriesSound(Buried(r, tag), Removed(m, tag))
  {
    forall e | e in m.entries ensures EntrySound(Buried(r, tag), e) {
      assert EntrySound(r, e);
    }
  }

  lemma BuryTimers(r: Rep, m: Model, tag: Tag)
    requires TimersSound(r, m) && tag in m.armed && Current(r, tag)
    ensures TimersSound(Buried(r, tag), Removed(m, tag))
  {
    var r', m' := Buried(r, tag), Removed(m, tag);
    forall t | t in m'.armed ensures TimerSound(r', m', t) {
      assert TimerSound(r, m, t);
      ArmedApart(r, m, t, tag);
    }
    forall i | 0 <= i < |r'.slots| && Odd(r'.slots[i].version) ensures RawTag(i, r'.slots[i].version) in m'.armed {
      assert i != tag.index;
    }
  }

  lemma BuryFree(r: Rep, m: Model, tag: Tag)
    requires FreeSound(r, m) && Current(r, tag)
    ensures FreeSound(Buried(r, tag), Removed(m, tag))
  {
    var r', m' := Buried(r, tag), Removed(m, tag);
    forall k | 0 <= k < |m.free| ensures m.free[k] != tag.index {
      assert LinkSound(r.slots, m.free, k);
    }
    forall k | 0 <= k < |m'.free| ensures LinkSound(r'.slots, m'.free, k) {
      if k > 0 {
        assert LinkSound(r.slots, m.free, k - 1);
        assert m'.free[k] == m.free[k - 1];
      }
    }
    forall i | 0 <= i < |r'.slots| && !Odd(r'.slots[i].version) ensures i in m'.free {
      if i != tag.index { assert i in m.free; }
    }
  }

  lemma BuryCounts(r: Rep, m: Model, tag: Tag)
    requires EntriesSound(r, m) && TimersSound(r, m) && CountsSound(r, m) && tag in m.armed && Current(r, tag)
    ensures CountsSound(Buried(r, tag), Removed(m, tag))
  {
    var r' := Buried(r, tag);
    var e := EntryOf(tag, m.armed[tag]);
    assert TimerSound(r, m, tag);
    assert Dead(r'.slots, m.entries) == Dead(r.slots, m.entries) + {e} by {
      forall f | f in m.entries ensures !Live(r'.slots, f) <==> !Live(r.slots, f) || f == e {
        assert EntrySound(r, f) && Apart(e, f);
      }
    }
  }

  /** Giving up the slot of an armed timer leaves exactly its entry behind as one more tombstone. */
  lemma BurySound(r: Rep, m: Model, tag: Tag)
    requires Sound(r, m) && tag in m.armed
    ensures Current(r, tag) && Sound(Buried(r, tag), Removed(m, tag))
  {
    assert TimerSound(r, m, tag);
    BuryEntries(r, m, tag);
    BuryTimers(r, m, tag);
    BuryFree(r, m, tag);
    BuryCounts(r, m, tag);
  }

  /** A dead entry never becomes live again, whatever its slot is used for next. */
  lemma DeadStaysDead(r: Rep, m: Model, e: Elem, d: nat, task: Task, tag: Tag)
    requires Sound(r, m) && e in m.entries && !Live(r.slots, e)
    ensures HeadSound(r) && !Live(Pushed(r, d, task).slots, e)
    ensures tag in m.armed ==> Current(r, tag) && !Live(Buried(r, tag).slots, e)
  {
    HeadIsVacant(r, m);
    PushOccupies(r, m, d, task);
    NextEntryIsFresh(r, m, e);
    assert EntrySound(r, e);
    CurrentIsArmed(r, m, tag);
  }

  /** A current tag is the tag of an armed timer. */
  lemma CurrentIsArmed(r: Rep, m: Model, tag: Tag)
    requires Sound(r, m)
    ensures Current(r, tag) <==> tag in m.armed
    ensures tag in m.armed ==> r.slots[tag.index].cell == Held(m.armed[tag].task)
  {
    if tag in m.armed { assert TimerSound(r, m, tag); }
  }

  // ---------------------------------------------------------------------------
  // Dropping tombstones
  // ---------------------------------------------------------------------------

  lemma RootIsEntry(r: Rep, m: Model)
    requires HeapSound(r, m) && r.elems != []
    ensures r.elems[0] in m.entries
  {
    assert r.elems[0] in multiset(r.elems);
  }

  lemma SetLessOne(s: set<Elem>, e: Elem)
    requires e in s
    ensures multiset(s - {e}) == multiset(s) - multiset{e}
  {
  }

  /** A dead entry at the root means there is a tombstone to count down. */
  lemma DropTombstoneSound(r: Rep, m: Model)
    requires Sound(r, m) && r.elems != [] && !Live(r.slots, r.elems[0])
    ensures r.tombstones > 0
    ensures Sound(TombstoneDropped(r), Without(m, r.elems[0]))
  {
    var e := r.elems[0];
    var r', m' := TombstoneDropped(r), Without(m, e);
    RootIsEntry(r, m);
    SetLessOne(m.entries, e);
    LessOrders();
    PopRootIsHeap(r.elems, Less);
    assert e in Dead(r.slots, m.entries);
    assert Dead(r.slots, m'.entries) == Dead(r.slots, m.entries) - {e};
    assert |r'.elems| == |r.elems| - 1;
    forall t | t in m'.armed ensures TimerSound(r', m', t) {
      assert TimerSound(r, m, t);
    }
    forall f | f in m'.entries ensures EntrySound(r', f) {
      assert EntrySound(r, f);
    }
  }

  /** Filtering leaves the live entries, each once. */
  lemma LiveContents(r: Rep, m: Model)
    requires HeapSound(r, m)
    ensures var kept, live := Filter(r.elems, Keeper(r.slots)), m.entries - Dead(r.slots, m.entries);
            multiset(kept) == multiset(live) && |kept| == |live|
  {
    var kept := Filter(r.elems, Keeper(r.slots));
    var live := m.entries - Dead(r.slots, m.entries);
    forall x ensures multiset(kept)[x] == multiset(live)[x] {
      FilterContents(r.elems, Keeper(r.slots), x);
    }
    assert multiset(kept) == multiset(live);
    assert |multiset(kept)| == |kept| && |multiset(live)| == |live|;
  }

  lemma CompactHeap(r: Rep, m: Model)
    requires HeapSound(r, m) && r.tombstones * 2 > |r.elems|
    ensures HeapSound(Compacted(r), Swept(r, m)) && |Compacted(r).elems| == |m.entries - Dead(r.slots, m.entries)|
  {
    var kept := Filter(r.elems, Keeper(r.slots));
    LiveContents(r, m);
    LessOrders();
    LowerHalfIsHeap(kept, Less);
    RebuildIsHeap(kept, |kept| / 2, Less);
  }

  /** Compaction keeps exactly the live entries. */
  lemma CompactSound(r: Rep, m: Model)
    requires Sound(r, m) && r.tombstones * 2 > |r.elems|
    ensures Sound(Compacted(r), Swept(r, m))
  {
    var r', m' := Compacted(r), Swept(r, m);
    CompactHeap(r, m);
    var dead := Dead(r.slots, m.entries);
    assert |m.entries| == |multiset(m.entries)| == |r.elems|;
    assert dead <= m.entries && |m.entries - dead| == |m.entries| - |dead|;
    assert Dead(r.slots, m'.entries) == {};
    forall t | t in m'.armed ensures TimerSound(r', m', t) {
      assert TimerSound(r, m, t);
    }
    forall f | f in m'.entries ensures EntrySound(r', f) {
      assert EntrySound(r, f);
    }
  }

  // ---------------------------------------------------------------------------
  // The root
  // ---------------------------------------------------------------------------

  /** A live entry is the entry of an armed timer. */
  lemma LiveIsArmed(r: Rep, m: Model, e: Elem)
    requires EntriesSound(r, m) && TimersSound(r, m) && e in m.entries && Live(r.slots, e)
    ensures Odd(e.version) && RawTag(e.index, e.version) in m.armed
    ensures e == EntryOf(RawTag(e.index, e.version), m.armed[RawTag(e.index, e.version)])
    ensures r.slots[e.index].cell == Held(m.armed[RawTag(e.index, e.version)].task)
  {
    assert EntrySound(r, e);
    var tag: Tag := RawTag(e.index, e.version);
    assert TimerSound(r, m, tag);
    assert Apart(e, EntryOf(tag, m.armed[tag]));
  }

  /** No armed timer comes before the root. */
  lemma RootIsFirst(r: Rep, m: Model, tag: Tag)
    requires Sound(r, m) && r.elems != [] && tag in m.armed
    ensures !Less(EntryOf(tag, m.armed[tag]), r.elems[0])
  {
    assert TimerSound(r, m, tag);
    var e := EntryOf(tag, m.armed[tag]);
    assert e in multiset(r.elems);
    var i :| 0 <= i < |r.elems| && r.elems[i] == e;
    LessOrders();
    RootIsLeast(r.elems, i, Less);
  }

  /** Without entries nothing is armed. */
  lemma EmptyIsUnarmed(r: Rep, m: Model)
    requires Sound(r, m)
    ensures r.elems == [] ==> m.armed == map[]
    ensures r.tombstones == |r.elems| <==> m.armed == map[]
  {
  }
}
