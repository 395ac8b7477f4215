/**
 How the service goes through its heap, along every execution: what it consumes
 was live when it looked, what it consumed is woken once, and it looks again
 exactly after a full batch.
 */
module TimerBatches {
  import opened Tally
  import opened TimerProtocol
  import opened TimerInvariant
  import opened TimerTheorems
  import opened TimerProgress

  // ---------------------------------------------------------------------------
  // Who moves what
  // ---------------------------------------------------------------------------

  /** While the service has the lock only its own hand moves the section. */
  lemma OnlyHandsMove(s: State, s': State)
    requires Next(s, s') && s.section.ByService? && s'.section != s.section
    ensures HandStep(s, s')
  {
    hide HandStep, ContextStep, LifeStep;
    if q: nat :| q < |s.slots| && ContextStep(s, s', q) {
      ContextFrame(s, s', q);
    } else if q: nat :| q < |s.slots| && LifeStep(s, s', q) {
      LifeFrame(s, s', q);
    }
  }

  lemma LifeFrame(s: State, s': State, q: nat)
    requires q < |s.slots| && LifeStep(s, s', q)
    ensures s'.section == s.section && s'.workers == s.workers && s'.clock == s.clock
  {
  }

  /** A worker that is waking queues is moved by its own steps alone. */
  lemma OnlyWorkersMove(s: State, s': State, t: nat)
    requires WorkersSound(s) && Next(s, s') && t < |s.workers| <= |s'.workers|
    requires s.workers[t].Waking? && s'.workers[t] != s.workers[t]
    ensures WakeStep(s, s', t)
  {
    hide ContextStep, LifeStep;
    if q: nat :| q < |s.slots| && ContextStep(s, s', q) {
      ContextFrame(s, s', q);
    } else if q: nat :| q < |s.slots| && LifeStep(s, s', q) {
      LifeFrame(s, s', q);
    }
  }

  // ---------------------------------------------------------------------------
  // What it does
  // ---------------------------------------------------------------------------

  /** An entry whose queue was upgraded is consumed exactly if it is live at that moment. */
  lemma ConsumedWasLive(run: seq<State>, i: nat)
    requires Execution(run) && 0 < i < |run|
    requires var section := run[i - 1].section; section.ByService? && section.hand.Checking?
    requires run[i].section != run[i - 1].section
    ensures var section, e := run[i - 1].section, run[i - 1].section.hand.entry;
            run[i].section
            == ByService(section.worker, section.now, section.batch, if LiveEntry(run[i - 1], e) then Bumping(e)
                                                                     else Undoing(e))
  {
    assert Linked(run, i);
    OnlyHandsMove(run[i - 1], run[i]);
  }

  /** What is consumed joins the batch, and its queue has one generation more. */
  lemma ConsumedIsBatched(run: seq<State>, i: nat)
    requires Execution(run) && 0 < i < |run|
    requires var section := run[i - 1].section; section.ByService? && section.hand.Bumping?
    requires run[i].section != run[i - 1].section
    ensures var section, q := run[i - 1].section, run[i - 1].section.hand.entry.slot;
            && run[i].section == ByService(section.worker, section.now, section.batch + [q], Scanning)
            && q < |run[i - 1].slots| == |run[i].slots|
            && run[i].slots[q] == run[i - 1].slots[q].(gen := run[i - 1].slots[q].gen + 1)
  {
    assert Linked(run, i);
    OnlyHandsMove(run[i - 1], run[i]);
  }

  /**
   The service lets go of the lock with its batch, to wake it and then to look
   again exactly if the batch is full; if it is not full, no entry is left, or
   the earliest one is live and not due.
   */
  lemma BatchIsTaken(run: seq<State>, i: nat)
    requires Execution(run) && 0 < i < |run| && run[i - 1].section.ByService? && !run[i].section.ByService?
    ensures var s, s', section := run[i - 1], run[i], run[i - 1].section;
            && section.worker < |s'.workers|
            && s'.workers[section.worker] == Waking(section.batch, |section.batch| == 16)
            && (|section.batch| < 16 && s.heap != {} ==>
                  exists e :: e in s.heap && LiveEntry(s, e) && e.deadline > section.now
                      && forall f | f in s.heap :: e.deadline <= f.deadline)
  {
    var s := run[i - 1];
    Reachable(run, i - 1);
    assert Linked(run, i);
    OnlyHandsMove(s, run[i]);
    if |s.section.batch| < 16 && s.heap != {} {
      var e :| NothingDue(s, e);
      assert e in s.heap && LiveEntry(s, e);
    }
  }

  /** A batch is woken queue by queue, each with one drain task; then the worker looks again or is done. */
  lemma BatchIsWoken(run: seq<State>, i: nat, t: nat)
    requires Execution(run) && 0 < i < |run| && t < |run[i - 1].workers| <= |run[i].workers|
    requires run[i - 1].workers[t].Waking? && run[i].workers[t] != run[i - 1].workers[t]
    ensures var s, s', batch, again := run[i - 1], run[i], run[i - 1].workers[t].batch, run[i - 1].workers[t].again;
            if batch == [] then s'.workers[t] == (if again then Clocking else Done) && s'.slots == s.slots
            else
              && s'.workers[t] == Releasing(batch[0], batch[1..], again)
              && batch[0] < |s.slots| == |s'.slots|
              && s'.slots[batch[0]] == s.slots[batch[0]].(drains := s.slots[batch[0]].drains + 1)
  {
    Reachable(run, i - 1);
    assert Linked(run, i);
    OnlyWorkersMove(run[i - 1], run[i], t);
  }

  // ---------------------------------------------------------------------------
  // Generations
  // ---------------------------------------------------------------------------

  /** A later moment of the slot: the generation has moved if the tenant has gone. */
  predicate Older(v: Slot, w: Slot) {
    && v.tenant <= w.tenant && v.gen <= w.gen
    && (v.tenant < w.tenant || w.life == Free ==> v.gen < w.gen)
  }

  /** What one step does to the tenancy of a slot. */
  predicate Ages(v: Slot, w: Slot) {
    || (w.tenant == v.tenant && v.gen <= w.gen && (w.life == Free && v.life != Free ==> v.gen < w.gen)
        && (v.life == Free ==> w.life == Free))
    || (w.tenant == v.tenant + 1 && w.gen == v.gen && v.life == Free && w.life != Free)
  }

  lemma ContextAges(s: State, s': State, p: nat, q: nat)
    requires p < |s.slots| && q < |s.slots| && ContextStep(s, s', p)
    ensures q < |s'.slots| && Ages(s.slots[q], s'.slots[q])
  {
    hide Ages, StartDrainStep, FireStep, EndDrainStep, CompareStep, DeregisterStep, DropStep, StandStep, ReplaceStep;
    hide ArmStep, CancelStep, PushStep, CompactStep, UnlockStep;
    if (exists d :: ArmStep(s, s', p, d)) || (exists d :: CancelStep(s, s', p, d)) { ArmingAges(s, s', p, q); }
    else if RegisterGoesOn(s, s', p) { RegisterAges(s, s', p, q); }
    else if StartDrainStep(s, s', p) || EndDrainStep(s, s', p) || (exists d :: FireStep(s, s', p, d)) {
      DrainAges(s, s', p, q);
    }
    else { SyncAges(s, s', p, q); }
  }

  lemma ArmingAges(s: State, s': State, p: nat, q: nat)
    requires p < |s.slots| && q < |s.slots|
    requires (exists d :: ArmStep(s, s', p, d)) || exists d :: CancelStep(s, s', p, d)
    ensures q < |s'.slots| && Ages(s.slots[q], s'.slots[q])
  {
  }

  lemma RegisterAges(s: State, s': State, p: nat, q: nat)
    requires p < |s.slots| && q < |s.slots| && RegisterGoesOn(s, s', p)
    ensures q < |s'.slots| && Ages(s.slots[q], s'.slots[q])
  {
  }

  lemma DrainAges(s: State, s': State, p: nat, q: nat)
    requires p < |s.slots| && q < |s.slots|
    requires StartDrainStep(s, s', p) || EndDrainStep(s, s', p) || exists d :: FireStep(s, s', p, d)
    ensures q < |s'.slots| && Ages(s.slots[q], s'.slots[q])
  {
  }

  lemma SyncAges(s: State, s': State, p: nat, q: nat)
    requires p < |s.slots| && q < |s.slots|
    requires CompareStep(s, s', p) || DeregisterStep(s, s', p) || DropStep(s, s', p) || StandStep(s, s', p)
             || exists d :: ReplaceStep(s, s', p, d)
    ensures q < |s'.slots| && Ages(s.slots[q], s'.slots[q])
  {
  }

  lemma LifeAges(s: State, s': State, p: nat, q: nat)
    requires p < |s.slots| && q < |s.slots| && LifeStep(s, s', p)
    ensures q < |s'.slots| && Ages(s.slots[q], s'.slots[q])
  {
  }

  lemma StepAges(s: State, s': State, q: nat)
    requires Next(s, s') && q < |s.slots|
    ensures q < |s'.slots| && Ages(s.slots[q], s'.slots[q])
  {
    hide ContextStep, LifeStep;
    if p: nat :| p < |s.slots| && ContextStep(s, s', p) { ContextAges(s, s', p, q); }
    else if p: nat :| p < |s.slots| && LifeStep(s, s', p) { LifeAges(s, s', p, q); }
  }

  /** A slot is never given to a new tenant under a generation the old one had. */
  lemma {:induction false} NewTenantNewGeneration(run: seq<State>, i: nat, j: nat, q: nat)
    requires Execution(run) && i <= j < |run| && q < |run[i].slots| && run[i].slots[q].life != Free
    ensures q < |run[j].slots| && Older(run[i].slots[q], run[j].slots[q])
  {
    hide Next;
    if i < j {
      NewTenantNewGeneration(run, i, j - 1, q);
      assert Linked(run, j);
      StepAges(run[j - 1], run[j], q);
    }
  }
}
