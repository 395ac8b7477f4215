/** What the timer registration protocol promises, for every execution and every interleaving. */
module TimerTheorems {
  import opened Tally
  import opened TimerProtocol
  import opened TimerInvariant
  import opened TimerContextSteps
  import opened TimerServiceSteps

  lemma ContextKeeps(s: State, s': State, q: nat)
    requires Inv(s) && q < |s.slots| && ContextStep(s, s', q)
    ensures Inv(s')
  {
    if d :| ArmStep(s, s', q, d) { ArmKeeps(s, s', q, d); }
    else if d :| CancelStep(s, s', q, d) { CancelKeeps(s, s', q, d); }
    else if d :| FireStep(s, s', q, d) { DrainKeeps(s, s', q); }
    else if StartDrainStep(s, s', q) || EndDrainStep(s, s', q) { DrainKeeps(s, s', q); }
    else if CompareStep(s, s', q) || DropStep(s, s', q) || StandStep(s, s', q) { SyncKeeps(s, s', q); }
    else if DeregisterStep(s, s', q) { DeregisterKeeps(s, s', q); }
    else if d :| ReplaceStep(s, s', q, d) { ReplaceKeeps(s, s', q, d); }
    else if PushStep(s, s', q) { PushKeeps(s, s', q); }
    else if e :| CompactStep(s, s', q, e) { CompactKeeps(s, s', q, e); }
    else { UnlockKeeps(s, s', q); }
  }

  lemma HandKeeps(s: State, s': State)
    requires Inv(s) && HandStep(s, s')
    ensures Inv(s')
  {
    if e :| ScanDropStep(s, s', e) { ScanDropKeeps(s, s', e); }
    else if e :| ScanTakeStep(s, s', e) { ScanTakeKeeps(s, s', e); }
    else if LeaveStep(s, s') { LeaveKeeps(s, s'); }
    else if UpgradeStep(s, s') { UpgradeKeeps(s, s'); }
    else if CheckStep(s, s') { CheckKeeps(s, s'); }
    else if UndoStep(s, s') { UndoKeeps(s, s'); }
    else { BumpKeeps(s, s'); }
  }

  lemma WorkerKeeps(s: State, s': State, t: nat)
    requires Inv(s) && t < |s.workers| && WorkerStep(s, s', t)
    ensures Inv(s')
  {
    if ReadStep(s, s', t) { ReadKeeps(s, s', t); }
    else if ClockStep(s, s', t) { ClockKeeps(s, s', t); }
    else if LockStep(s, s', t) { LockKeeps(s, s', t); }
    else if WakeStep(s, s', t) { WakeKeeps(s, s', t); }
    else { ReleaseKeeps(s, s', t); }
  }

  lemma NextKeeps(s: State, s': State)
    requires Inv(s) && Next(s, s')
    ensures Inv(s')
  {
    if q: nat :| q < |s.slots| && ContextStep(s, s', q) { ContextKeeps(s, s', q); }
    else if q: nat :| q < |s.slots| && LifeStep(s, s', q) { LifeKeeps(s, s', q); }
    else if GrowStep(s, s') { GrowKeeps(s, s'); }
    else if HandStep(s, s') { HandKeeps(s, s'); }
    else if t: nat :| t < |s.workers| && WorkerStep(s, s', t) { WorkerKeeps(s, s', t); }
    else if DeliverStep(s, s') { DeliverKeeps(s, s'); }
    else { TickKeeps(s, s'); }
  }

  lemma InitKeeps(s: State)
    requires Init(s)
    ensures Inv(s)
  {
  }

  lemma {:induction false} Reachable(run: seq<State>, i: nat)
    requires Execution(run) && i < |run|
    ensures Inv(run[i])
  {
    hide Inv, Next;
    InitKeeps(run[0]);
    if i > 0 {
      Reachable(run, i - 1);
      assert Linked(run, i);
      NextKeeps(run[i - 1], run[i]);
    }
  }

  // ---------------------------------------------------------------------------
  // Coverage
  // ---------------------------------------------------------------------------

  /** A worker will push the drain task of the queue. */
  ghost predicate WakeupInHand(s: State, q: nat) {
    || (s.section.ByService? && q in s.section.batch)
    || exists t :: 0 <= t < |s.workers| && (s.workers[t].Waking? || s.workers[t].Releasing?) && q in s.workers[t].batch
  }

  /** A standing registration of the queue, no later than `x`, in the heap or in the hand of the service. */
  predicate RegisteredBy(s: State, q: nat, x: nat, e: Entry)
    requires q < |s.slots|
  {
    e in Entries(s) && e.slot == q && e.gen == s.slots[q].gen && e.tenant == s.slots[q].tenant && e.deadline <= x
  }

  /**
   Timer coverage: whenever the context of a queue is outside arming,
   cancelling, draining and sync, every timer it has armed is covered by a
   standing registration no later than the timer, by a wakeup some worker has
   taken upon itself, or by a drain task that is already queued. The service
   bumping the generation between the bump and the push of the queue is one of
   the interleavings.
   */
  lemma TimerCovered(run: seq<State>, i: nat, q: nat, x: nat)
    requires Execution(run) && i < |run| && q < |run[i].slots|
    requires var v := run[i].slots[q]; v.life == Alive && v.stage == Outside && !v.draining && x in v.armed
    ensures var s := run[i];
            || (exists e :: RegisteredBy(s, q, x, e))
            || WakeupInHand(s, q)
            || s.slots[q].drains > 0
  {
    Reachable(run, i);
    var s := run[i];
    var v := s.slots[q];
    assert SlotSound(s, q);
    if Registered(v) {
      assert RegisteredBy(s, q, x, Registration(q, v));
    } else if v.drains == 0 && SectionWakes(s.section, q) == 0 {
      var t := SumWitness(s.workers, WakesOf(q));
    }
  }

  /** At most one entry of a slot is live. */
  lemma OneLiveEntry(run: seq<State>, i: nat, e: Entry, f: Entry)
    requires Execution(run) && i < |run| && e in Entries(run[i]) && f in Entries(run[i]) && e.slot == f.slot
    requires e.slot < |run[i].slots| && LiveEntry(run[i], e) && LiveEntry(run[i], f)
    ensures e == f
  {
    Reachable(run, i);
  }

  /** A live entry belongs to the present tenant of its slot, whose registration it is. */
  lemma LiveEntryBelongs(run: seq<State>, i: nat, e: Entry)
    requires Execution(run) && i < |run| && e in Entries(run[i])
    ensures e.slot < |run[i].slots|
    ensures var v := run[i].slots[e.slot]; LiveEntry(run[i], e) ==> v.life == Alive && e == Registration(e.slot, v)
  {
    Reachable(run, i);
    assert SlotSound(run[i], e.slot);
  }

  /**
   The service works on a live queue from the upgrade to the release, whatever
   becomes of its slot before and after.
   */
  lemma HeldQueueIsAlive(run: seq<State>, i: nat, q: nat)
    requires Execution(run) && i < |run| && q < |run[i].slots| && !Unheld(run[i], q)
    ensures run[i].slots[q].life == Alive
  {
    Reachable(run, i);
    assert SlotSound(run[i], q);
  }

  /** The last reference finds no armed timer and leaves no registration behind it. */
  lemma DyingQueueHasNoTimer(s: State, s': State, q: nat)
    requires Inv(s) && q < |s.slots| && DieStep(s, s', q)
    ensures s.slots[q].armed == multiset{} && !Registered(s.slots[q])
  {
    assert SlotSound(s, q);
  }

  /** With every queue gone no entry is live, which is what ntt_timer_service_deinit asserts. */
  lemma NoLiveEntryWithoutQueues(run: seq<State>, i: nat, e: Entry)
    requires Execution(run) && i < |run| && e in run[i].heap
    requires forall q | 0 <= q < |run[i].slots| :: run[i].slots[q].life != Alive
    ensures e.slot < |run[i].slots| && !LiveEntry(run[i], e)
  {
    LiveEntryBelongs(run, i, e);
  }

  // ---------------------------------------------------------------------------
  // The timerfd
  // ---------------------------------------------------------------------------

  /**
   After every section of the service lock, `armed` is no later than the top of
   the heap; and in every interleaving the kernel timer is pending no later
   than `armed`, or it has expired and a worker is still due to take the lock.
   */
  lemma TimerfdArmed(run: seq<State>, i: nat, e: Entry)
    requires Execution(run) && i < |run| && run[i].section == Unlocked && e in run[i].heap && e.deadline < NEVER
    ensures run[i].armedAt <= e.deadline && Awaited(run[i], e.deadline)
  {
    Reachable(run, i);
    ArmedIsAwaited(run[i], e);
  }

  /** The kernel timer is pending no later than the deadline, or has expired and a worker is due to take the lock. */
  ghost predicate Awaited(s: State, deadline: nat) {
    || (s.timer.At? && s.timer.time <= Max(deadline, 1))
    || s.edge
    || exists t :: 0 <= t < |s.workers| && (s.workers[t].Reading? || s.workers[t].Clocking? || s.workers[t].Waiting?)
  }

  lemma ArmedIsAwaited(s: State, e: Entry)
    requires Inv(s) && s.section == Unlocked && e in s.heap && e.deadline < NEVER
    ensures s.armedAt <= e.deadline && Awaited(s, e.deadline)
  {
    if Sum(s.workers, Due) > 0 {
      var t := SumWitness(s.workers, Due);
    }
  }

  /** Nothing of the service is in flight, no drain is queued, every context is outside, the kernel timer is not due. */
  ghost predicate Quiescent(s: State) {
    && s.section == Unlocked && !s.edge
    && (forall t | 0 <= t < |s.workers| :: s.workers[t] == Done)
    && (forall q | 0 <= q < |s.slots| :: s.slots[q].stage == Outside && !s.slots[q].draining && s.slots[q].drains == 0)
    && (s.timer.At? ==> s.timer.time > s.clock)
  }

  /**
   No timer is forgotten: when nothing is left to do, no armed timer of any
   queue is due. A deadline of UINT64_MAX is never due.
   */
  lemma NoTimerForgotten(run: seq<State>, i: nat, q: nat, x: nat)
    requires Execution(run) && i < |run| && Quiescent(run[i]) && q < |run[i].slots| && x in run[i].slots[q].armed
    requires run[i].clock > 0
    ensures x > run[i].clock || x == NEVER
  {
    Reachable(run, i);
    QuietIsOnTime(run[i], q, x);
  }

  lemma QuietIsOnTime(s: State, q: nat, x: nat)
    requires Inv(s) && Quiescent(s) && q < |s.slots| && x in s.slots[q].armed && s.clock > 0
    ensures x > s.clock || x == NEVER
  {
    assert SlotSound(s, q);
    SumZero(s.workers, WakesOf(q));
    SumZero(s.workers, Due);
    var e := Registration(q, s.slots[q]);
    assert e in s.heap;
    if x < NEVER {
      ArmedIsAwaited(s, e);
    }
  }
}
