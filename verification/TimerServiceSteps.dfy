/** Steps of the timer service and of the kernel keep the timer invariant. */
module TimerServiceSteps {
  import opened Tally
  import opened TimerProtocol
  import opened TimerInvariant

  // ---------------------------------------------------------------------------
  // Counting
  // ---------------------------------------------------------------------------

  lemma WakesTurn(s: State, s': State, t: nat, w: Worker, q: nat)
    requires t < |s.workers| && WorkerTurns(s, s', t, w)
    ensures Sum(s'.workers, WakesOf(q)) == Sum(s.workers, WakesOf(q)) - WakesOf(q)(s.workers[t]) + WakesOf(q)(w)
  {
    SumUpdate(s.workers, t, w, WakesOf(q));
  }

  lemma DueTurns(s: State, s': State, t: nat, w: Worker)
    requires t < |s.workers| && WorkerTurns(s, s', t, w)
    ensures Sum(s'.workers, Due) == Sum(s.workers, Due) - Due(s.workers[t]) + Due(w)
    ensures Due(s.workers[t]) <= Sum(s.workers, Due)
  {
    SumUpdate(s.workers, t, w, Due);
    SumMember(s.workers, t, Due);
  }

  // ---------------------------------------------------------------------------
  // Workers outside the section
  // ---------------------------------------------------------------------------

  /** A worker that carries no batch disturbs no slot. */
  lemma IdleWorkerTurns(s: State, s': State, t: nat, w: Worker)
    requires SlotsSound(s) && t < |s.workers| && WorkerTurns(s, s', t, w)
    requires s'.slots == s.slots && s'.heap == s.heap && s'.section == s.section
    requires !s.workers[t].Waking? && !s.workers[t].Releasing? && !w.Waking? && !w.Releasing?
    ensures SlotsSound(s')
  {
    forall p | 0 <= p < |s'.slots| ensures SlotSound(s', p) {
      assert SlotSound(s, p);
      WakesTurn(s, s', t, w, p);
    }
  }

  lemma ReadKeeps(s: State, s': State, t: nat)
    requires Inv(s) && t < |s.workers| && ReadStep(s, s', t)
    ensures Inv(s')
  {
    assert Entries(s') == Entries(s);
    IdleWorkerTurns(s, s', t, Clocking);
    DueTurns(s, s', t, Clocking);
  }

  lemma ClockKeeps(s: State, s': State, t: nat)
    requires Inv(s) && t < |s.workers| && ClockStep(s, s', t)
    ensures Inv(s')
  {
    assert Entries(s') == Entries(s);
    IdleWorkerTurns(s, s', t, Waiting(s.clock));
    DueTurns(s, s', t, Waiting(s.clock));
  }

  lemma DeliverKeeps(s: State, s': State)
    requires Inv(s) && DeliverStep(s, s')
    ensures Inv(s')
  {
    assert Entries(s') == Entries(s);
    SumAppend(s.workers, Reading, Due);
    forall p | 0 <= p < |s'.slots| ensures SlotSound(s', p) {
      assert SlotSound(s, p);
      SumAppend(s.workers, Reading, WakesOf(p));
    }
  }

  lemma TickKeeps(s: State, s': State)
    requires Inv(s) && (TickStep(s, s') || ExpireStep(s, s'))
    ensures Inv(s')
  {
    assert Entries(s') == Entries(s);
    forall p | 0 <= p < |s'.slots| ensures SlotSound(s', p) {
      assert SlotSound(s, p);
      assert Wakes(s', p) == Wakes(s, p);
    }
  }

  lemma HeadCounts(batch: seq<nat>, q: nat)
    requires batch != []
    ensures multiset(batch)[q] == multiset(batch[1..])[q] + (if batch[0] == q then 1 else 0)
  {
    assert batch == [batch[0]] + batch[1..];
  }

  lemma TailCounts(batch: seq<nat>, q: nat, p: nat)
    ensures multiset(batch + [q])[p] == multiset(batch)[p] + (if q == p then 1 else 0)
  {
  }

  /** The wakeup moves from the batch into the queue. */
  lemma WakeSlot(s: State, s': State, t: nat, p: nat)
    requires Inv(s) && t < |s.workers| && WakeStep(s, s', t) && s.workers[t].batch != [] && p < |s.slots|
    ensures SlotSound(s', p)
  {
    var batch := s.workers[t].batch;
    assert SlotSound(s, p);
    WakesTurn(s, s', t, s'.workers[t], p);
    SumMember(s.workers, t, WakesOf(p));
    HeadCounts(batch, p);
    assert WorkerHolds(s.workers[t], batch[0]);
    if p != batch[0] {
      assert s'.slots[p] == s.slots[p];
    }
    if s.slots[p].life != Alive {
      assert Unheld(s, p);
      forall u | 0 <= u < |s'.workers| ensures !WorkerHolds(s'.workers[u], p) {
        assert !WorkerHolds(s.workers[u], p);
      }
    }
  }

  lemma WakeSlots(s: State, s': State, t: nat)
    requires Inv(s) && t < |s.workers| && WakeStep(s, s', t)
    ensures SlotsSound(s')
  {
    forall p | 0 <= p < |s'.slots| ensures SlotSound(s', p) {
      if s.workers[t].batch != [] {
        WakeSlot(s, s', t, p);
      } else {
        assert SlotSound(s, p);
        WakesTurn(s, s', t, s'.workers[t], p);
      }
    }
  }

  lemma WakeKeeps(s: State, s': State, t: nat)
    requires Inv(s) && t < |s.workers| && WakeStep(s, s', t)
    ensures Inv(s')
  {
    assert Entries(s') == Entries(s);
    WakeSlots(s, s', t);
    DueTurns(s, s', t, s'.workers[t]);
  }

  lemma ReleaseKeeps(s: State, s': State, t: nat)
    requires Inv(s) && t < |s.workers| && ReleaseStep(s, s', t)
    ensures Inv(s')
  {
    assert Entries(s') == Entries(s);
    DueTurns(s, s', t, s'.workers[t]);
    forall p | 0 <= p < |s'.slots| ensures SlotSound(s', p) {
      assert SlotSound(s, p);
      WakesTurn(s, s', t, s'.workers[t], p);
    }
  }

  // ---------------------------------------------------------------------------
  // The section
  // ---------------------------------------------------------------------------

  lemma LockKeeps(s: State, s': State, t: nat)
    requires Inv(s) && t < |s.workers| && LockStep(s, s', t)
    ensures Inv(s')
  {
    assert Entries(s') == Entries(s);
    forall p | 0 <= p < |s'.slots| ensures SlotSound(s', p) {
      assert SlotSound(s, p);
      WakesTurn(s, s', t, Inside, p);
    }
  }

  lemma ScanDropKeeps(s: State, s': State, e: Entry)
    requires Inv(s) && ScanDropStep(s, s', e)
    ensures Inv(s')
  {
    assert Entries(s') == Entries(s) - {e};
    forall p | 0 <= p < |s'.slots| ensures SlotSound(s', p) {
      assert SlotSound(s, p);
      assert Wakes(s', p) == Wakes(s, p);
    }
  }

  lemma ScanTakeKeeps(s: State, s': State, e: Entry)
    requires Inv(s) && ScanTakeStep(s, s', e)
    ensures Inv(s')
  {
    assert Entries(s') == Entries(s);
    forall p | 0 <= p < |s'.slots| ensures SlotSound(s', p) {
      assert SlotSound(s, p);
      assert Wakes(s', p) == Wakes(s, p);
    }
  }

  lemma LeaveKeeps(s: State, s': State)
    requires Inv(s) && LeaveStep(s, s')
    ensures Inv(s')
  {
    var t := s.section.worker;
    assert Entries(s') == Entries(s);
    forall p | 0 <= p < |s'.slots| ensures SlotSound(s', p) {
      assert SlotSound(s, p);
      WakesTurn(s, s', t, s'.workers[t], p);
    }
  }

  lemma UpgradeKeeps(s: State, s': State)
    requires Inv(s) && UpgradeStep(s, s')
    ensures Inv(s')
  {
    var e := s.section.hand.entry;
    assert Entries(s') <= Entries(s) && forall f | f in Entries(s) && f != e :: f in Entries(s');
    forall p | 0 <= p < |s'.slots| ensures SlotSound(s', p) {
      assert SlotSound(s, p);
      assert Wakes(s', p) == Wakes(s, p);
    }
  }

  lemma CheckKeeps(s: State, s': State)
    requires Inv(s) && CheckStep(s, s')
    ensures Inv(s')
  {
    var e := s.section.hand.entry;
    assert Entries(s') <= Entries(s) && forall f | f in Entries(s) && f != e :: f in Entries(s');
    forall p | 0 <= p < |s'.slots| ensures SlotSound(s', p) {
      assert SlotSound(s, p);
      assert Wakes(s', p) == Wakes(s, p);
    }
  }

  lemma UndoKeeps(s: State, s': State)
    requires Inv(s) && UndoStep(s, s')
    ensures Inv(s')
  {
    assert Entries(s') == Entries(s);
    forall p | 0 <= p < |s'.slots| ensures SlotSound(s', p) {
      assert SlotSound(s, p);
      assert Wakes(s', p) == Wakes(s, p);
    }
  }

  /** The bump ends the registration, and the batch now owes the wakeup. */
  lemma BumpedSlot(s: State, s': State)
    requires Inv(s) && BumpStep(s, s')
    ensures SlotSound(s', s.section.hand.entry.slot)
  {
    var q := s.section.hand.entry.slot;
    assert SlotSound(s, q);
    TailCounts(s.section.batch, q, q);
    assert s.slots[q].life == Alive by { assert HandHolds(s.section.hand, q); }
  }

  lemma BumpSparesOthers(s: State, s': State, p: nat)
    requires Inv(s) && BumpStep(s, s') && p < |s.slots| && p != s.section.hand.entry.slot
    ensures SlotSound(s', p)
  {
    var e := s.section.hand.entry;
    assert SlotSound(s, p);
    TailCounts(s.section.batch, e.slot, p);
    assert forall f | f in Entries(s) && f != e :: f in Entries(s');
    assert s'.slots[p] == s.slots[p];
    assert Wakes(s', p) == Wakes(s, p);
    assert Unheld(s, p) ==> Unheld(s', p);
  }

  lemma BumpKeeps(s: State, s': State)
    requires Inv(s) && BumpStep(s, s')
    ensures Inv(s')
  {
    assert Entries(s') <= Entries(s);
    forall p | 0 <= p < |s'.slots| ensures SlotSound(s', p) {
      if p == s.section.hand.entry.slot { BumpedSlot(s, s'); } else { BumpSparesOthers(s, s', p); }
    }
  }
}
