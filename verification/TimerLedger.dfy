/**
 No timer fires early, out of turn, twice or not at all: the account of every
 timer a tenant has armed, along every execution of the registration protocol.
 */
module TimerLedger {
  import opened Tally
  import opened TimerProtocol
  import opened TimerInvariant
  import opened TimerTheorems
  import opened TimerProgress

  // ---------------------------------------------------------------------------
  // What one step does to the timers of a slot
  // ---------------------------------------------------------------------------

  predicate Unmoved(v: Slot, v': Slot) {
    && v'.tenant == v.tenant && v'.armed == v.armed
    && v'.asked == v.asked && v'.dropped == v.dropped && v'.fired == v.fired
  }

  /** One more timer is armed, for `d`. */
  predicate Asks(v: Slot, v': Slot, d: nat) {
    && v'.tenant == v.tenant && v'.armed == v.armed + multiset{d}
    && v'.asked == v.asked + multiset{d} && v'.dropped == v.dropped && v'.fired == v.fired
  }

  /** An armed timer is cancelled. */
  predicate Drops(v: Slot, v': Slot, d: nat) {
    && v'.tenant == v.tenant && d in v.armed && v'.armed == v.armed - multiset{d}
    && v'.asked == v.asked && v'.dropped == v.dropped + multiset{d} && v'.fired == v.fired
  }

  /** An armed timer that has come due by `time`, and before which none is armed, is run. */
  predicate Fires(v: Slot, v': Slot, time: nat, d: nat) {
    && v'.tenant == v.tenant && d in v.armed && v'.armed == v.armed - multiset{d}
    && v'.asked == v.asked && v'.dropped == v.dropped && v'.fired == v.fired + multiset{d}
    && d <= time && forall x | x in v.armed :: d <= x
  }

  /** A vacant slot gets a tenant, who has no timers. */
  predicate Starts(v: Slot, v': Slot) {
    && v.life == Free && v'.tenant == v.tenant + 1
    && v'.armed == v'.asked == v'.dropped == v'.fired == multiset{}
  }

  ghost predicate Accounted(v: Slot, v': Slot, time: nat) {
    || Unmoved(v, v')
    || (exists d :: Asks(v, v', d))
    || (exists d :: Drops(v, v', d))
    || (exists d :: Fires(v, v', time, d))
    || Starts(v, v')
  }

  /** A drain goes by a time that has come. */
  predicate OnTime(v: Slot, time: nat) { v.draining ==> v.now <= time }

  lemma DrainAccounts(s: State, s': State, p: nat, q: nat)
    requires p < |s.slots| && q < |s.slots| && OnTime(s.slots[q], s.clock)
    requires StartDrainStep(s, s', p) || EndDrainStep(s, s', p)
    ensures |s'.slots| == |s.slots| && Unmoved(s.slots[q], s'.slots[q]) && OnTime(s'.slots[q], s.clock)
  {
  }

  lemma SyncAccounts(s: State, s': State, p: nat, q: nat)
    requires p < |s.slots| && q < |s.slots| && OnTime(s.slots[q], s.clock)
    requires CompareStep(s, s', p) || DeregisterStep(s, s', p) || DropStep(s, s', p) || StandStep(s, s', p)
             || exists d :: ReplaceStep(s, s', p, d)
    ensures |s'.slots| == |s.slots| && Unmoved(s.slots[q], s'.slots[q]) && OnTime(s'.slots[q], s.clock)
  {
  }

  lemma RegisterAccounts(s: State, s': State, p: nat, q: nat)
    requires p < |s.slots| && q < |s.slots| && RegisterGoesOn(s, s', p) && OnTime(s.slots[q], s.clock)
    ensures |s'.slots| == |s.slots| && Unmoved(s.slots[q], s'.slots[q]) && OnTime(s'.slots[q], s.clock)
  {
  }

  /** A context that goes on with a drain or a sync moves no timer but the one it fires. */
  lemma GoingOnAccounts(s: State, s': State, p: nat, q: nat)
    requires p < |s.slots| && q < |s.slots| && ContextGoesOn(s, s', p) && OnTime(s.slots[q], s.clock)
    ensures |s'.slots| == |s.slots| && OnTime(s'.slots[q], s.clock)
    ensures Unmoved(s.slots[q], s'.slots[q]) || exists d :: Fires(s.slots[q], s'.slots[q], s.clock, d)
  {
    if d :| FireStep(s, s', p, d) {
      assert p == q ==> Fires(s.slots[q], s'.slots[q], s.clock, d);
    } else {
      hide Fires, StartDrainStep, EndDrainStep, CompareStep, DeregisterStep, DropStep, StandStep, ReplaceStep;
      if StartDrainStep(s, s', p) || EndDrainStep(s, s', p) {
        DrainAccounts(s, s', p, q);
      } else {
        SyncAccounts(s, s', p, q);
      }
    }
  }

  lemma ArmAccounts(s: State, s': State, p: nat, q: nat, d: nat)
    requires p < |s.slots| && q < |s.slots| && ArmStep(s, s', p, d) && OnTime(s.slots[q], s.clock)
    ensures |s'.slots| == |s.slots| && OnTime(s'.slots[q], s.clock)
    ensures if p == q then Asks(s.slots[q], s'.slots[q], d) else Unmoved(s.slots[q], s'.slots[q])
  {
  }

  lemma CancelAccounts(s: State, s': State, p: nat, q: nat, d: nat)
    requires p < |s.slots| && q < |s.slots| && CancelStep(s, s', p, d) && OnTime(s.slots[q], s.clock)
    ensures |s'.slots| == |s.slots| && OnTime(s'.slots[q], s.clock)
    ensures if p == q then Drops(s.slots[q], s'.slots[q], d) else Unmoved(s.slots[q], s'.slots[q])
  {
  }

  lemma ContextAccounts(s: State, s': State, p: nat, q: nat)
    requires p < |s.slots| && q < |s.slots| && ContextStep(s, s', p) && OnTime(s.slots[q], s.clock)
    ensures |s'.slots| == |s.slots| && OnTime(s'.slots[q], s.clock)
    ensures Accounted(s.slots[q], s'.slots[q], s.clock)
  {
    hide ArmStep, CancelStep, StartDrainStep, FireStep, EndDrainStep, CompareStep, DeregisterStep, DropStep;
    hide StandStep, ReplaceStep, PushStep, CompactStep, UnlockStep, OnTime;
    if d :| ArmStep(s, s', p, d) { ArmAccounts(s, s', p, q, d); }
    else if d :| CancelStep(s, s', p, d) { CancelAccounts(s, s', p, q, d); }
    else if ContextGoesOn(s, s', p) { GoingOnAccounts(s, s', p, q); }
    else { RegisterAccounts(s, s', p, q); }
  }

  lemma LifeAccounts(s: State, s': State, p: nat, q: nat)
    requires p < |s.slots| && q < |s.slots| && LifeStep(s, s', p) && OnTime(s.slots[q], s.clock)
    ensures |s'.slots| == |s.slots| && Accounted(s.slots[q], s'.slots[q], s.clock) && OnTime(s'.slots[q], s.clock)
  {
  }

  /** The service, the kernel and the slab leave the timers of every queue alone. */
  lemma ServiceAccounts(s: State, s': State, q: nat)
    requires q < |s.slots| && OnTime(s.slots[q], s.clock)
    requires HandStep(s, s') || (exists t: nat :: t < |s.workers| && WorkerStep(s, s', t))
             || DeliverStep(s, s') || TickStep(s, s') || ExpireStep(s, s')
    ensures |s'.slots| == |s.slots| && Unmoved(s.slots[q], s'.slots[q]) && OnTime(s'.slots[q], s.clock)
  {
  }

  lemma StepAccounts(s: State, s': State, q: nat)
    requires Next(s, s') && q < |s.slots| && OnTime(s.slots[q], s.clock)
    ensures |s'.slots| == |s.slots| || GrowStep(s, s')
    ensures q < |s'.slots| && Accounted(s.slots[q], s'.slots[q], s.clock) && OnTime(s'.slots[q], s.clock)
  {
    hide ContextStep, LifeStep, HandStep, WorkerStep;
    if p: nat :| p < |s.slots| && ContextStep(s, s', p) { ContextAccounts(s, s', p, q); }
    else if p: nat :| p < |s.slots| && LifeStep(s, s', p) { LifeAccounts(s, s', p, q); }
    else if !GrowStep(s, s') { ServiceAccounts(s, s', q); }
  }

  lemma ClockGrows(s: State, s': State)
    requires Next(s, s')
    ensures s.clock <= s'.clock
  {
    hide WorkerStep;
    if q: nat :| q < |s.slots| && ContextStep(s, s', q) { ContextFrame(s, s', q); }
    else if t: nat :| t < |s.workers| && WorkerStep(s, s', t) { WorkerClock(s, s', t); }
  }

  lemma WorkerClock(s: State, s': State, t: nat)
    requires t < |s.workers| && WorkerStep(s, s', t)
    ensures s'.clock == s.clock
  {
  }

  // ---------------------------------------------------------------------------
  // The account
  // ---------------------------------------------------------------------------

  /** Every timer armed by the tenant is still armed, was cancelled, or was run. */
  predicate Balances(v: Slot) { v.asked == v.armed + v.dropped + v.fired }

  ghost predicate LedgerSound(s: State) {
    forall q | 0 <= q < |s.slots| :: Balances(s.slots[q]) && OnTime(s.slots[q], s.clock)
  }

  lemma AccountKeeps(v: Slot, v': Slot, time: nat)
    requires Balances(v) && Accounted(v, v', time)
    ensures Balances(v')
  {
  }

  lemma NextKeepsLedger(s: State, s': State)
    requires LedgerSound(s) && Next(s, s')
    ensures LedgerSound(s')
  {
    hide Accounted;
    ClockGrows(s, s');
    forall q | 0 <= q < |s'.slots| ensures Balances(s'.slots[q]) && OnTime(s'.slots[q], s'.clock) {
      if q < |s.slots| {
        StepAccounts(s, s', q);
        AccountKeeps(s.slots[q], s'.slots[q], s.clock);
      } else {
        NewSlot(s, s');
      }
    }
  }

  /** Only the slab adds slots, and the first one is added by it. */
  lemma NewSlot(s: State, s': State)
    requires LedgerSound(s) && Next(s, s') && |s.slots| < |s'.slots|
    ensures GrowStep(s, s')
  {
    if |s.slots| > 0 {
      StepAccounts(s, s', 0);
    } else {
      FirstSlot(s, s');
    }
  }

  lemma FirstSlot(s: State, s': State)
    requires s.slots == [] && Next(s, s') && s'.slots != []
    ensures GrowStep(s, s')
  {
  }

  lemma {:induction false} LedgerHolds(run: seq<State>, i: nat)
    requires Execution(run) && i < |run|
    ensures LedgerSound(run[i])
  {
    hide Next;
    if i > 0 {
      hide LedgerSound;
      LedgerHolds(run, i - 1);
      assert Linked(run, i);
      NextKeepsLedger(run[i - 1], run[i]);
    }
  }

  /**
   Conservation: in every state of every execution, what the tenant of a slot
   has armed is what is armed now, what was cancelled and what has fired; and
   a tenant that is gone has nothing armed left.
   */
  lemma TimersConserved(run: seq<State>, i: nat, q: nat)
    requires Execution(run) && i < |run| && q < |run[i].slots|
    ensures var v := run[i].slots[q];
            && v.asked == v.armed + v.dropped + v.fired
            && (v.life != Alive ==> v.asked == v.dropped + v.fired)
  {
    LedgerHolds(run, i);
    Reachable(run, i);
    assert SlotSound(run[i], q);
  }

  /**
   No timer fires early or out of turn: whenever a deadline leaves the armed
   ones by a step that is no cancel, its time had come by the clock, none
   earlier was armed, and that one timer is what has fired.
   */
  lemma NoTimerFiresEarly(run: seq<State>, i: nat, q: nat, d: nat)
    requires Execution(run) && 0 < i < |run| && q < |run[i - 1].slots|
    ensures q < |run[i].slots|
    ensures var v, v', time := run[i - 1].slots[q], run[i].slots[q], run[i - 1].clock;
            v'.armed[d] < v.armed[d] && v'.dropped == v.dropped ==>
              && d <= time && (forall x | x in v.armed :: d <= x)
              && v'.armed == v.armed - multiset{d} && v'.fired == v.fired + multiset{d} && v'.asked == v.asked
  {
    var v := run[i - 1].slots[q];
    LedgerHolds(run, i - 1);
    Reachable(run, i - 1);
    assert SlotSound(run[i - 1], q);
    assert Linked(run, i);
    hide Next;
    StepAccounts(run[i - 1], run[i], q);
  }

  /** A timer enters the armed ones as one that was asked for, and leaves them as cancelled or fired. */
  lemma EveryStepAccounts(run: seq<State>, i: nat, q: nat)
    requires Execution(run) && 0 < i < |run| && q < |run[i - 1].slots|
    ensures q < |run[i].slots| && Accounted(run[i - 1].slots[q], run[i].slots[q], run[i - 1].clock)
  {
    LedgerHolds(run, i - 1);
    assert Linked(run, i);
    hide Next;
    StepAccounts(run[i - 1], run[i], q);
  }

  /** The account of a tenant only grows. */
  predicate Extends(v: Slot, v': Slot) {
    && v.tenant <= v'.tenant
    && (v.tenant == v'.tenant ==> v.asked <= v'.asked && v.dropped <= v'.dropped && v.fired <= v'.fired)
  }

  lemma AccountExtends(v: Slot, v': Slot, time: nat)
    requires Accounted(v, v', time)
    ensures Extends(v, v')
  {
  }

  lemma {:induction false} AccountsGrow(run: seq<State>, i: nat, j: nat, q: nat)
    requires Execution(run) && i <= j < |run| && q < |run[i].slots|
    ensures q < |run[j].slots| && Extends(run[i].slots[q], run[j].slots[q])
  {
    hide Accounted;
    if i < j {
      AccountsGrow(run, i, j - 1, q);
      EveryStepAccounts(run, j, q);
      AccountExtends(run[j - 1].slots[q], run[j].slots[q], run[j - 1].clock);
    }
  }

  /**
   The balance between two moments of a tenancy: what is armed at the end, what
   was cancelled and what has fired in between make up what was armed at the
   start and what was asked for in between.
   */
  lemma TimersBetween(run: seq<State>, i: nat, j: nat, q: nat)
    requires Execution(run) && i <= j < |run| && q < |run[i].slots|
    ensures q < |run[j].slots|
    ensures var v, v' := run[i].slots[q], run[j].slots[q];
            v.tenant == v'.tenant ==>
              && v.asked <= v'.asked && v.dropped <= v'.dropped && v.fired <= v'.fired
              && v'.armed + (v'.dropped - v.dropped) + (v'.fired - v.fired) == v.armed + (v'.asked - v.asked)
  {
    AccountsGrow(run, i, j, q);
    TimersConserved(run, i, q);
    TimersConserved(run, j, q);
    if run[i].slots[q].tenant == run[j].slots[q].tenant {
      BalanceBetween(run[i].slots[q], run[j].slots[q]);
    }
  }

  lemma BalanceBetween(v: Slot, v': Slot)
    requires Balances(v) && Balances(v') && v.asked <= v'.asked && v.dropped <= v'.dropped && v.fired <= v'.fired
    ensures v'.armed + (v'.dropped - v.dropped) + (v'.fired - v.fired) == v.armed + (v'.asked - v.asked)
  {
    var lhs, rhs := v'.armed + (v'.dropped - v.dropped) + (v'.fired - v.fired), v.armed + (v'.asked - v.asked);
    forall x: nat ensures lhs[x] == rhs[x] {
      assert v.asked[x] == v.armed[x] + v.dropped[x] + v.fired[x];
      assert v'.asked[x] == v'.armed[x] + v'.dropped[x] + v'.fired[x];
    }
  }

  // ---------------------------------------------------------------------------
  // A drain
  // ---------------------------------------------------------------------------

  /** Without arming, cancelling and new tenants, timers only fire. */
  lemma WorkOnlyFires(s: State, s': State, q: nat)
    requires Works(s, s') && q < |s.slots| && OnTime(s.slots[q], s.clock)
    ensures q < |s'.slots|
    ensures Unmoved(s.slots[q], s'.slots[q]) || exists d :: Fires(s.slots[q], s'.slots[q], s.clock, d)
    ensures OnTime(s'.slots[q], s.clock) && s'.clock == s.clock
  {
    WorksIsNext(s, s');
    hide ContextGoesOn, RegisterGoesOn, HandStep, WorkerStep, Next;
    if p: nat :| p < |s.slots| && ContextGoesOn(s, s', p) { GoingOnAccounts(s, s', p, q); }
    else if p: nat :| p < |s.slots| && RegisterGoesOn(s, s', p) { RegisterAccounts(s, s', p, q); }
    else { ServiceAccounts(s, s', q); }
  }

  /** From `v` to `v'` some timers due by `time` have fired, each as often as it was armed, and nothing else. */
  ghost predicate OnlyFired(v: Slot, v': Slot, time: nat) {
    && v'.tenant == v.tenant && v'.asked == v.asked && v'.dropped == v.dropped
    && v'.armed + v'.fired == v.armed + v.fired
    && forall x | x > time :: v'.armed[x] == v.armed[x]
  }

  lemma {:induction false} DrainOnlyFires(run: seq<State>, i: nat, q: nat)
    requires Drain(run) && i < |run| && q < |run[0].slots| && OnTime(run[0].slots[q], run[0].clock)
    ensures q < |run[i].slots| && run[i].clock == run[0].clock && OnTime(run[i].slots[q], run[0].clock)
    ensures OnlyFired(run[0].slots[q], run[i].slots[q], run[0].clock)
  {
    if i > 0 {
      DrainOnlyFires(run, i - 1, q);
      assert Worked(run, i);
      WorkOnlyFires(run[i - 1], run[i], q);
    }
  }

  /**
   Every timer that is due fires, once, and no other does: from any reachable
   state, with the clock standing and no arming, cancelling or dying, whatever
   was armed for a time that has come has fired by the time everything rests,
   as often as it was armed, and whatever was armed for later is armed still.
   */
  lemma DueTimersFireOnce(past: seq<State>, run: seq<State>, q: nat, x: nat)
    requires Execution(past) && Drain(run) && run[0] == past[|past| - 1] && run[0].clock > 0
    requires q < |run[0].slots| && !CanWork(run[|run| - 1]) && x != NEVER
    ensures q < |run[|run| - 1].slots|
    ensures var v, v' := run[0].slots[q], run[|run| - 1].slots[q];
            if x <= run[0].clock then v'.armed[x] == 0 && v'.fired[x] == v.fired[x] + v.armed[x]
            else v'.armed[x] == v.armed[x] && v'.fired[x] == v.fired[x]
  {
    hide CanWork, Work;
    LedgerHolds(past, |past| - 1);
    DrainOnlyFires(run, |run| - 1, q);
    EveryDueTimerFires(past, run, q, x);
    var v, v' := run[0].slots[q], run[|run| - 1].slots[q];
    assert (v'.armed + v'.fired)[x] == (v.armed + v.fired)[x];
  }
}
