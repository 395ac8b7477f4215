/** Steps of queue contexts and of the life of a slot keep the timer invariant. */
module TimerContextSteps {
  import opened TimerProtocol
  import opened TimerInvariant

  /** What slot `q` has to satisfy on its own, next to an unchanged service. */
  ghost predicate SlotFits(s: State, q: nat, v: Slot)
    requires q < |s.slots|
  {
    && LocalSound(v) && DeadlineSound(v) && WakeSound(v, Wakes(s, q))
    && (v.life == Alive && Registered(v) && v.stage != Pushing ==> Registration(q, v) in Entries(s))
    && (v.life != Alive ==> Unheld(s, q))
    && (v.stage == Locked <==> s.section == ByContext(q))
    && (forall e | e in Entries(s) && e.slot == q :: EntrySound(v, e))
  }

  /** A slot may be replaced by one that fits. */
  lemma SlotReplaced(s: State, s': State, q: nat, v: Slot)
    requires Inv(s) && q < |s.slots| && SameService(s, s') && SlotBecomes(s, s', q, v) && SlotFits(s, q, v)
    ensures Inv(s')
  {
    assert Entries(s') == Entries(s);
    forall p | 0 <= p < |s'.slots| ensures SlotSound(s', p) {
      assert SlotSound(s, p);
      assert Wakes(s', p) == Wakes(s, p);
    }
  }

  lemma ArmKeeps(s: State, s': State, q: nat, d: nat)
    requires Inv(s) && q < |s.slots| && ArmStep(s, s', q, d)
    ensures Inv(s')
  {
    assert SlotSound(s, q);
    SlotReplaced(s, s', q, s'.slots[q]);
  }

  lemma CancelKeeps(s: State, s': State, q: nat, d: nat)
    requires Inv(s) && q < |s.slots| && CancelStep(s, s', q, d)
    ensures Inv(s')
  {
    assert SlotSound(s, q);
    SlotReplaced(s, s', q, s'.slots[q]);
  }

  lemma DrainKeeps(s: State, s': State, q: nat)
    requires Inv(s) && q < |s.slots| && (StartDrainStep(s, s', q) || (exists d :: FireStep(s, s', q, d))
             || EndDrainStep(s, s', q))
    ensures Inv(s')
  {
    assert SlotSound(s, q);
    SlotReplaced(s, s', q, s'.slots[q]);
  }

  lemma SyncKeeps(s: State, s': State, q: nat)
    requires Inv(s) && q < |s.slots| && (CompareStep(s, s', q) || DropStep(s, s', q) || StandStep(s, s', q))
    ensures Inv(s')
  {
    assert SlotSound(s, q);
    SlotReplaced(s, s', q, s'.slots[q]);
  }

  lemma LifeKeeps(s: State, s': State, q: nat)
    requires Inv(s) && q < |s.slots| && LifeStep(s, s', q)
    ensures Inv(s')
  {
    hide Inv, DieStep, GiveStep, CreateStep, OwnersStep;
    if owners :| OwnersStep(s, s', q, owners) {
      OwnersKeeps(s, s', q, owners);
    } else if CreateStep(s, s', q) {
      CreateKeeps(s, s', q);
    } else {
      EndKeeps(s, s', q);
    }
  }

  lemma OwnersKeeps(s: State, s': State, q: nat, owners: nat)
    requires Inv(s) && q < |s.slots| && OwnersStep(s, s', q, owners)
    ensures Inv(s')
  {
    assert SlotSound(s, q);
    SlotReplaced(s, s', q, s'.slots[q]);
  }

  lemma CreateKeeps(s: State, s': State, q: nat)
    requires Inv(s) && q < |s.slots| && CreateStep(s, s', q)
    ensures Inv(s')
  {
    assert SlotSound(s, q);
    SlotReplaced(s, s', q, s'.slots[q]);
  }

  lemma EndKeeps(s: State, s': State, q: nat)
    requires Inv(s) && q < |s.slots| && (DieStep(s, s', q) || GiveStep(s, s', q))
    ensures Inv(s')
  {
    assert SlotSound(s, q);
    SlotReplaced(s, s', q, s'.slots[q]);
  }

  lemma DeregisterKeeps(s: State, s': State, q: nat)
    requires Inv(s) && q < |s.slots| && DeregisterStep(s, s', q)
    ensures Inv(s')
  {
    assert SlotSound(s, q);
    SlotReplaced(s, s', q, s'.slots[q]);
  }

  lemma ReplaceKeeps(s: State, s': State, q: nat, d: nat)
    requires Inv(s) && q < |s.slots| && ReplaceStep(s, s', q, d)
    ensures Inv(s')
  {
    assert SlotSound(s, q);
    SlotReplaced(s, s', q, s'.slots[q]);
  }

  lemma GrowKeeps(s: State, s': State)
    requires Inv(s) && GrowStep(s, s')
    ensures Inv(s')
  {
    assert Entries(s') == Entries(s);
    var n := |s.slots|;
    forall p | 0 <= p < |s'.slots| ensures SlotSound(s', p) {
      if p < n {
        assert SlotSound(s, p);
        assert Wakes(s', p) == Wakes(s, p);
      } else {
        assert Unheld(s', n);
      }
    }
  }

  lemma PushKeeps(s: State, s': State, q: nat)
    requires Inv(s) && q < |s.slots| && PushStep(s, s', q)
    ensures Inv(s')
  {
    assert SlotSound(s, q);
    assert Entries(s') == Entries(s) + {Registration(q, s.slots[q])};
    forall p | 0 <= p < |s'.slots| ensures SlotSound(s', p) {
      assert SlotSound(s, p);
      assert Wakes(s', p) == Wakes(s, p);
    }
  }

  lemma CompactKeeps(s: State, s': State, q: nat, e: Entry)
    requires Inv(s) && q < |s.slots| && CompactStep(s, s', q, e)
    ensures Inv(s')
  {
    assert Entries(s') == Entries(s) - {e};
    forall p | 0 <= p < |s'.slots| ensures SlotSound(s', p) {
      assert SlotSound(s, p);
      assert Wakes(s', p) == Wakes(s, p);
    }
  }

  lemma UnlockKeeps(s: State, s': State, q: nat)
    requires Inv(s) && q < |s.slots| && UnlockStep(s, s', q)
    ensures Inv(s')
  {
    assert SlotSound(s, q);
    assert Entries(s') == Entries(s);
    forall p | 0 <= p < |s'.slots| ensures SlotSound(s', p) {
      assert SlotSound(s, p);
      assert Wakes(s', p) == Wakes(s, p);
    }
  }
}
