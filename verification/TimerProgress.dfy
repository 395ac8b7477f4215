/**
 Every timer that is due fires: once arming stops and the clock stands, the
 steps in flight and those they lead to are bounded in number, and where they
 end no armed timer of any queue is due.

 The bound adds up what is left to do: a due entry is worth the wakeup, the
 drain, the sync and the new registration that follow from it, and a kernel
 timer that is due the handler it will start. Since a drain leaves nothing due
 at its time, the registration that ends it is not due again.
 */
module TimerProgress {
  import opened Tally
  import opened TimerProtocol
  import opened TimerInvariant
  import opened TimerTheorems

  // ---------------------------------------------------------------------------
  // Steps in flight
  // ---------------------------------------------------------------------------

  /** A queue context goes on with a drain or a sync. */
  ghost predicate ContextGoesOn(s: State, s': State, q: nat) {
    && q < |s.slots|
    && (|| StartDrainStep(s, s', q)
      || (exists d :: FireStep(s, s', q, d))
      || EndDrainStep(s, s', q)
      || CompareStep(s, s', q)
      || DeregisterStep(s, s', q)
      || DropStep(s, s', q)
      || StandStep(s, s', q)
      || (exists d :: ReplaceStep(s, s', q, d)))
  }

  ghost predicate RegisterGoesOn(s: State, s': State, q: nat) {
    && q < |s.slots|
    && (PushStep(s, s', q) || (exists e :: CompactStep(s, s', q, e)) || UnlockStep(s, s', q))
  }

  /** The kernel timer expires, or its edge reaches a worker. */
  predicate KernelGoesOn(s: State, s': State) {
    ExpireStep(s, s') || (s.edge && DeliverStep(s, s'))
  }

  ghost predicate Works(s: State, s': State) {
    || (exists q: nat :: q < |s.slots| && ContextGoesOn(s, s', q))
    || (exists q: nat :: q < |s.slots| && RegisterGoesOn(s, s', q))
    || HandStep(s, s')
    || (exists t: nat :: t < |s.workers| && WorkerStep(s, s', t))
    || KernelGoesOn(s, s')
  }

  // ---------------------------------------------------------------------------
  // Times and the lock
  // ---------------------------------------------------------------------------

  predicate WorkerTimely(s: State, t: nat) {
    && t < |s.workers|
    && (s.workers[t].Waiting? ==> s.workers[t].now <= s.clock)
    && (s.workers[t] == Inside ==> s.section.ByService? && s.section.worker == t)
  }

  /** Nobody goes by a time that has not come, and only the holder of the lock is inside. */
  ghost predicate Timely(s: State) {
    && (forall t: nat | t < |s.workers| :: WorkerTimely(s, t))
    && (s.section.ByService? ==> s.section.now <= s.clock && s.section.worker < |s.workers|)
  }

  lemma WorkerStaysTimely(s: State, s': State, t: nat)
    requires Timely(s) && t < |s.workers| && WorkerStep(s, s', t)
    ensures Timely(s') && s'.clock == s.clock
  {
    assert WorkerTimely(s, t);
    forall u: nat | u < |s'.workers| ensures WorkerTimely(s', u) {
      assert WorkerTimely(s, u);
    }
  }

  lemma HandStaysTimely(s: State, s': State)
    requires Timely(s) && HandStep(s, s')
    ensures Timely(s') && s'.clock == s.clock
  {
    forall u: nat | u < |s'.workers| ensures WorkerTimely(s', u) {
      assert WorkerTimely(s, u);
    }
  }

  /** Steps that leave workers, clock and the service's hold on the lock alone. */
  lemma OthersStayTimely(s: State, s': State)
    requires Timely(s) && s'.workers == s.workers && s'.clock >= s.clock
    requires s'.section == s.section || (!s.section.ByService? && !s'.section.ByService?)
    ensures Timely(s')
  {
    forall u: nat | u < |s'.workers| ensures WorkerTimely(s', u) {
      assert WorkerTimely(s, u);
    }
  }

  lemma DeliverStaysTimely(s: State, s': State)
    requires Timely(s) && DeliverStep(s, s')
    ensures Timely(s')
  {
    forall u: nat | u < |s'.workers| ensures WorkerTimely(s', u) {
      if u < |s.workers| {
        assert WorkerTimely(s, u);
      }
    }
  }

  lemma ContextFrame(s: State, s': State, q: nat)
    requires q < |s.slots| && ContextStep(s, s', q)
    ensures s'.workers == s.workers && s'.clock == s.clock
    ensures s'.section == s.section || (!s.section.ByService? && !s'.section.ByService?)
  {
  }

  lemma NextStaysTimely(s: State, s': State)
    requires Timely(s) && Next(s, s')
    ensures Timely(s')
  {
    hide Timely, ContextStep, HandStep, WorkerStep;
    if q: nat :| q < |s.slots| && ContextStep(s, s', q) {
      ContextFrame(s, s', q);
      OthersStayTimely(s, s');
    } else if HandStep(s, s') {
      HandStaysTimely(s, s');
    } else if t: nat :| t < |s.workers| && WorkerStep(s, s', t) {
      WorkerStaysTimely(s, s', t);
    } else if DeliverStep(s, s') {
      DeliverStaysTimely(s, s');
    } else {
      OthersStayTimely(s, s');
    }
  }

  lemma {:induction false} ReachableTimely(run: seq<State>, i: nat)
    requires Execution(run) && i < |run|
    ensures Timely(run[i])
  {
    hide Next;
    if i > 0 {
      ReachableTimely(run, i - 1);
      assert Linked(run, i);
      NextStaysTimely(run[i - 1], run[i]);
    }
  }

  lemma WorksIsNext(s: State, s': State)
    requires Works(s, s')
    ensures Next(s, s') && s'.clock == s.clock
  {
    if q: nat :| q < |s.slots| && ContextGoesOn(s, s', q) {
      assert ContextStep(s, s', q);
    } else if q: nat :| q < |s.slots| && RegisterGoesOn(s, s', q) {
      assert ContextStep(s, s', q);
    }
  }

  // ---------------------------------------------------------------------------
  // What is left to do
  // ---------------------------------------------------------------------------

  /** A kernel timer that is due becomes an edge, the edge a worker that reads the timerfd. */
  const TIMER: nat := 8
  const EDGE: nat := 7
  const READING: nat := 6
  const CLOCKING: nat := 5

  /** Unlocking may set the timer. */
  const LOCKED: nat := 9

  /** A drain and the sync that ends it. */
  const DRAIN: nat := 15

  /** A queue in a batch outside and inside the section, and a due entry. */
  const WAKEUP: nat := 17
  const BATCHED: nat := 32
  const TAKEN: nat := 35

  predicate HasDue(armed: multiset<nat>, clock: nat) { exists x :: x in armed && x <= clock }

  /** Extra work for a registration that is due. */
  function Extra(due: bool): nat { if due then TAKEN else 0 }

  function StageWork(v: Slot, clock: nat): nat {
    match v.stage
    case Outside => 0
    case Entered => LOCKED + 4 + Extra(HasDue(v.armed, clock))
    case Decided(_) => LOCKED + 3 + Extra(HasDue(v.armed, clock))
    case Dropping => 1
    case Pushing => LOCKED + 2 + Extra(v.regDeadline <= clock)
    case Locked => LOCKED
  }

  /** A drain that goes by an earlier time may end with a timer due. */
  function DrainWork(v: Slot, clock: nat): nat {
    if v.draining && !v.last then LOCKED + 5 + Extra(v.now < clock) else 0
  }

  function SlotWork(clock: nat): Slot -> nat {
    (v: Slot) => DRAIN * v.drains + |v.armed| + StageWork(v, clock) + DrainWork(v, clock)
  }

  function WakingWork(batch: seq<nat>, again: bool): nat {
    (if again then CLOCKING + 1 else 1) + WAKEUP * |batch|
  }

  /** A worker that goes by an earlier time may leave a due entry behind and set the timer for it. */
  function SectionBase(now: nat, clock: nat): nat { 3 + if now < clock then TIMER else 0 }

  function WorkerWork(clock: nat): Worker -> nat {
    (w: Worker) =>
      match w
      case Done => 0
      case Reading => READING
      case Clocking => CLOCKING
      case Waiting(now) => SectionBase(now, clock) + 1
      case Inside => 0
      case Waking(batch, again) => WakingWork(batch, again)
      case Releasing(_, batch, again) => WakingWork(batch, again) + 1
  }

  function HandWork(hand: Hand): nat {
    match hand
    case Scanning => 0
    case Undoing(_) => 1
    case Bumping(_) => BATCHED + 1
    case Checking(_) => BATCHED + 2
    case Upgrading(_) => BATCHED + 3
  }

  function SectionWork(section: Section, clock: nat): nat {
    if !section.ByService? then 0
    else SectionBase(section.now, clock) + BATCHED * |section.batch| + HandWork(section.hand)
  }

  function TimerWork(timer: Kernel, clock: nat): nat { if timer.At? && timer.time <= clock then TIMER else 0 }

  function EdgeWork(edge: bool): nat { if edge then EDGE else 0 }

  function DueIn(heap: set<Entry>, clock: nat): set<Entry> { set e | e in heap && e.deadline <= clock }

  function HeapWork(heap: set<Entry>, clock: nat): nat { |heap| + TAKEN * |DueIn(heap, clock)| }

  function Work(s: State): nat {
    Sum(s.slots, SlotWork(s.clock)) + Sum(s.workers, WorkerWork(s.clock)) + SectionWork(s.section, s.clock)
    + HeapWork(s.heap, s.clock) + TimerWork(s.timer, s.clock) + EdgeWork(s.edge)
  }

  lemma EntryGoes(heap: set<Entry>, e: Entry, clock: nat)
    requires e in heap
    ensures HeapWork(heap - {e}, clock) == HeapWork(heap, clock) - 1 - Extra(e.deadline <= clock)
  {
    if e.deadline <= clock {
      assert DueIn(heap - {e}, clock) == DueIn(heap, clock) - {e};
    } else {
      assert DueIn(heap - {e}, clock) == DueIn(heap, clock);
    }
  }

  lemma EntryComes(heap: set<Entry>, e: Entry, clock: nat)
    ensures HeapWork(heap + {e}, clock) <= HeapWork(heap, clock) + 1 + Extra(e.deadline <= clock)
  {
    if e in heap {
      assert heap + {e} == heap;
    } else {
      assert heap + {e} - {e} == heap;
      EntryGoes(heap + {e}, e, clock);
    }
  }

  /** Setting the timer costs what a due timer is worth, and nothing if the top is not due. */
  lemma RearmCosts(s: State, s': State, heap: set<Entry>, armed: nat)
    requires Rearmed(s, s', heap, armed)
    ensures s'.clock == s.clock && EdgeWork(s'.edge) <= EdgeWork(s.edge)
    ensures TimerWork(s'.timer, s.clock) <= TimerWork(s.timer, s.clock) + TIMER
    ensures (forall e | e in heap :: e.deadline > s.clock) ==>
              TimerWork(s'.timer, s.clock) <= TimerWork(s.timer, s.clock)
  {
  }

  // ---------------------------------------------------------------------------
  // Every step uses some of it up
  // ---------------------------------------------------------------------------

  /** A step of one slot that leaves the rest of the state alone. */
  lemma SlotShrinks(s: State, s': State, q: nat, v: Slot)
    requires q < |s.slots| && SameService(s, s') && SlotBecomes(s, s', q, v)
    requires SlotWork(s.clock)(v) < SlotWork(s.clock)(s.slots[q])
    ensures Work(s') < Work(s)
  {
    SumUpdate(s.slots, q, v, SlotWork(s.clock));
  }

  lemma DrainingShrinks(s: State, s': State, q: nat)
    requires q < |s.slots| && SlotSound(s, q)
    requires StartDrainStep(s, s', q) || (exists d :: FireStep(s, s', q, d)) || EndDrainStep(s, s', q)
    ensures Work(s') < Work(s)
  {
    hide Work;
    SlotShrinks(s, s', q, s'.slots[q]);
  }

  lemma SyncShrinks(s: State, s': State, q: nat)
    requires q < |s.slots| && SlotSound(s, q)
    requires CompareStep(s, s', q) || DeregisterStep(s, s', q) || DropStep(s, s', q) || StandStep(s, s', q)
             || (exists d :: ReplaceStep(s, s', q, d))
    ensures Work(s') < Work(s)
  {
    hide Work;
    SlotShrinks(s, s', q, s'.slots[q]);
  }

  lemma ContextShrinks(s: State, s': State, q: nat)
    requires Inv(s) && q < |s.slots| && ContextGoesOn(s, s', q)
    ensures Work(s') < Work(s)
  {
    hide Work;
    assert SlotSound(s, q);
    if StartDrainStep(s, s', q) || (exists d :: FireStep(s, s', q, d)) || EndDrainStep(s, s', q) {
      DrainingShrinks(s, s', q);
    } else {
      SyncShrinks(s, s', q);
    }
  }

  lemma PushShrinks(s: State, s': State, q: nat)
    requires q < |s.slots| && PushStep(s, s', q)
    ensures Work(s') < Work(s)
  {
    SumUpdate(s.slots, q, s'.slots[q], SlotWork(s.clock));
    EntryComes(s.heap, Registration(q, s.slots[q]), s.clock);
  }

  lemma CompactShrinks(s: State, s': State, q: nat, e: Entry)
    requires q < |s.slots| && CompactStep(s, s', q, e)
    ensures Work(s') < Work(s)
  {
    EntryGoes(s.heap, e, s.clock);
  }

  lemma UnlockShrinks(s: State, s': State, q: nat)
    requires q < |s.slots| && UnlockStep(s, s', q)
    ensures Work(s') < Work(s)
  {
    SumUpdate(s.slots, q, s'.slots[q], SlotWork(s.clock));
    RearmCosts(s, s', s.heap, s.armedAt);
  }

  lemma ScanShrinks(s: State, s': State, e: Entry)
    requires Timely(s) && (ScanDropStep(s, s', e) || ScanTakeStep(s, s', e))
    ensures Work(s') < Work(s)
  {
    EntryGoes(s.heap, e, s.clock);
  }

  lemma HandShrinks(s: State, s': State)
    requires UpgradeStep(s, s') || CheckStep(s, s') || UndoStep(s, s')
    ensures Work(s') < Work(s)
  {
  }

  lemma BumpShrinks(s: State, s': State)
    requires BumpStep(s, s')
    ensures Work(s') < Work(s)
  {
    var q := s.section.hand.entry.slot;
    SlotWorkIgnoresGeneration(s.slots[q], s.slots[q].gen + 1, s.clock);
    hide StageWork, DrainWork;
    SumUpdate(s.slots, q, s'.slots[q], SlotWork(s.clock));
  }

  lemma SlotWorkIgnoresGeneration(v: Slot, gen: nat, clock: nat)
    ensures SlotWork(clock)(v.(gen := gen)) == SlotWork(clock)(v)
  {
  }

  /** What is left after the section when its worker goes by the time it is now. */
  lemma NothingDueLeft(s: State, e: Entry)
    requires s.section.ByService? && NothingDue(s, e) && s.section.now >= s.clock
    ensures forall f | f in s.heap :: f.deadline > s.clock
  {
  }

  lemma LeaveShrinks(s: State, s': State)
    requires LeaveStep(s, s') && |s.section.batch| <= BATCH
    ensures Work(s') < Work(s)
  {
    var t := s.section.worker;
    SumUpdate(s.workers, t, s'.workers[t], WorkerWork(s.clock));
    SumMember(s.workers, t, WorkerWork(s.clock));
    RearmCosts(s, s', s.heap, NEVER);
    if |s.section.batch| < BATCH && s.section.now >= s.clock && s.heap != {} {
      var e :| NothingDue(s, e);
      NothingDueLeft(s, e);
    }
  }

  lemma HandStepShrinks(s: State, s': State)
    requires Inv(s) && Timely(s) && HandStep(s, s')
    ensures Work(s') < Work(s)
  {
    hide Work, Timely;
    if e :| ScanDropStep(s, s', e) { ScanShrinks(s, s', e); }
    else if e :| ScanTakeStep(s, s', e) { ScanShrinks(s, s', e); }
    else if LeaveStep(s, s') { LeaveShrinks(s, s'); }
    else if BumpStep(s, s') { BumpShrinks(s, s'); }
    else { HandShrinks(s, s'); }
  }

  lemma WakeShrinks(s: State, s': State, t: nat)
    requires t < |s.workers| && WakeStep(s, s', t)
    ensures Work(s') < Work(s)
  {
    hide SlotWork, WorkerWork, SectionWork, HeapWork;
    WakeupGoes(s.workers[t], s.clock);
    SumUpdate(s.workers, t, s'.workers[t], WorkerWork(s.clock));
    if s.workers[t].batch != [] {
      var q := s.workers[t].batch[0];
      DrainIsWorth(s.slots[q], s.clock);
      SumUpdate(s.slots, q, s'.slots[q], SlotWork(s.clock));
    }
  }

  lemma WakeupGoes(w: Worker, clock: nat)
    requires w.Waking?
    ensures w.batch == [] ==> WorkerWork(clock)(if w.again then Clocking else Done) < WorkerWork(clock)(w)
    ensures w.batch != [] ==>
              WorkerWork(clock)(Releasing(w.batch[0], w.batch[1..], w.again)) == WorkerWork(clock)(w) - WAKEUP + 1
  {
  }

  lemma DrainIsWorth(v: Slot, clock: nat)
    ensures SlotWork(clock)(v.(drains := v.drains + 1)) == SlotWork(clock)(v) + DRAIN
  {
  }

  lemma LockShrinks(s: State, s': State, t: nat)
    requires t < |s.workers| && LockStep(s, s', t)
    ensures Work(s') < Work(s)
  {
    hide SlotWork, HeapWork;
    SumUpdate(s.workers, t, s'.workers[t], WorkerWork(s.clock));
  }

  lemma WorkerShrinks(s: State, s': State, t: nat)
    requires t < |s.workers| && WorkerStep(s, s', t)
    ensures Work(s') < Work(s)
  {
    hide SlotWork, SectionWork, HeapWork;
    if WakeStep(s, s', t) {
      WakeShrinks(s, s', t);
    } else if LockStep(s, s', t) {
      LockShrinks(s, s', t);
    } else {
      SumUpdate(s.workers, t, s'.workers[t], WorkerWork(s.clock));
    }
  }

  lemma KernelShrinks(s: State, s': State)
    requires KernelGoesOn(s, s')
    ensures Work(s') < Work(s)
  {
    if !ExpireStep(s, s') {
      SumAppend(s.workers, Reading, WorkerWork(s.clock));
    }
  }

  lemma WorkShrinks(s: State, s': State)
    requires Inv(s) && Timely(s) && Works(s, s')
    ensures Work(s') < Work(s)
  {
    hide Work, Inv, Timely, HandStep, WorkerStep, KernelGoesOn, ContextGoesOn;
    if q: nat :| q < |s.slots| && ContextGoesOn(s, s', q) {
      ContextShrinks(s, s', q);
    } else if q: nat :| q < |s.slots| && RegisterGoesOn(s, s', q) {
      if PushStep(s, s', q) { PushShrinks(s, s', q); }
      else if e :| CompactStep(s, s', q, e) { CompactShrinks(s, s', q, e); }
      else { UnlockShrinks(s, s', q); }
    } else if HandStep(s, s') {
      HandStepShrinks(s, s');
    } else if t: nat :| t < |s.workers| && WorkerStep(s, s', t) {
      WorkerShrinks(s, s', t);
    } else {
      KernelShrinks(s, s');
    }
  }

  // ---------------------------------------------------------------------------
  // Nothing waits for nothing
  // ---------------------------------------------------------------------------

  ghost predicate CanWork(s: State) { exists s' :: Works(s, s') }

  lemma {:induction false} SomeEarliest(armed: multiset<nat>) returns (d: nat)
    requires armed != multiset{}
    ensures IsEarliest(d, armed)
    decreases |armed|
  {
    d :| d in armed;
    var rest := armed - multiset{d};
    assert forall x | x in armed :: x == d || x in rest;
    if rest != multiset{} {
      var e := SomeEarliest(rest);
      if e < d {
        d := e;
      }
    }
  }

  lemma {:induction false} SomeTop(heap: set<Entry>) returns (e: Entry)
    requires heap != {}
    ensures IsTop(e, heap)
    decreases |heap|
  {
    e :| e in heap;
    var rest := heap - {e};
    assert forall f | f in heap :: f == e || f in rest;
    if rest != {} {
      var f := SomeTop(rest);
      if f.deadline < e.deadline {
        e := f;
      }
    }
  }

  /** What arming the kernel timer makes of the state. */
  lemma SomeRearmed(s: State, heap: set<Entry>, armed: nat) returns (armedAt: nat, timer: Kernel)
    ensures Rearmed(s, s.(armedAt := armedAt, timer := timer), heap, armed)
  {
    if forall e | e in heap :: armed <= e.deadline {
      armedAt, timer := armed, s.timer;
    } else {
      var e := SomeTop(heap);
      armedAt, timer := e.deadline, At(Max(e.deadline, 1));
    }
  }

  lemma DrainCanGoOn(s: State, q: nat)
    requires q < |s.slots| && s.slots[q].life == Alive && s.slots[q].stage == Outside
             && (s.slots[q].draining || s.slots[q].drains > 0)
    ensures CanWork(s)
  {
    var v := s.slots[q];
    var s';
    if !v.draining {
      s' := s.(slots := s.slots[q := v.(drains := v.drains - 1, draining := true, now := s.clock)]);
      assert StartDrainStep(s, s', q);
    } else if x :| x in v.armed && x <= v.now {
      var d := SomeEarliest(v.armed);
      s' := s.(slots := s.slots[q := v.(armed := v.armed - multiset{d}, fired := v.fired + multiset{d})]);
      assert FireStep(s, s', q, d);
    } else {
      s' := s.(slots := s.slots[q := v.(stage := Entered, last := true)]);
      assert EndDrainStep(s, s', q);
    }
    assert ContextGoesOn(s, s', q);
    assert Works(s, s');
  }

  lemma DecidedCanGoOn(s: State, q: nat)
    requires q < |s.slots| && s.slots[q].stage.Decided?
    ensures CanWork(s)
  {
    var v := s.slots[q];
    var s';
    if v.armed == multiset{} {
      s' := s.(slots := s.slots[q := v.(gen := if v.stage.registered then v.gen + 1 else v.gen, stage := Dropping)]);
      assert DeregisterStep(s, s', q);
    } else {
      var d := SomeEarliest(v.armed);
      if v.stage.registered && v.regDeadline <= d {
        s' := s.(slots := s.slots[q := Finished(v.(selfRef := true))]);
        assert StandStep(s, s', q);
      } else {
        s' := s.(slots := s.slots[q := v.(selfRef := true, gen := v.gen + 1, regGen := v.gen + 1, regDeadline := d,
            stage := Pushing)]);
        assert ReplaceStep(s, s', q, d);
      }
    }
    assert ContextGoesOn(s, s', q);
    assert Works(s, s');
  }

  lemma SyncCanGoOn(s: State, q: nat)
    requires q < |s.slots| && (s.slots[q].stage == Entered || s.slots[q].stage == Dropping)
    ensures CanWork(s)
  {
    var v := s.slots[q];
    var s' := s.(slots := s.slots[q := if v.stage == Entered then v.(stage := Decided(v.gen == v.regGen))
        else Finished(v.(selfRef := false))]);
    assert ContextGoesOn(s, s', q);
    assert Works(s, s');
  }

  lemma RegisterCanGoOn(s: State, q: nat)
    requires q < |s.slots|
    requires (s.slots[q].stage == Pushing && s.section == Unlocked)
             || (s.slots[q].stage == Locked && s.section == ByContext(q))
    ensures CanWork(s)
  {
    var v := s.slots[q];
    var s';
    if v.stage == Pushing {
      s' := s.(slots := s.slots[q := v.(stage := Locked)], heap := s.heap + {Registration(q, v)},
          section := ByContext(q));
    } else {
      var armedAt, timer := SomeRearmed(s, s.heap, s.armedAt);
      s' := s.(slots := s.slots[q := Finished(v)], section := Unlocked, armedAt := armedAt, timer := timer);
      assert UnlockStep(s, s', q);
    }
    assert RegisterGoesOn(s, s', q);
    assert Works(s, s');
  }

  lemma ScanCanGoOn(s: State)
    requires s.section.ByService? && s.section.hand == Scanning && s.section.worker < |s.workers|
             && |s.section.batch| <= BATCH
    requires forall e | e in s.heap :: e.slot < |s.slots|
    ensures CanWork(s)
  {
    var ByService(t, now, batch, _) := s.section;
    var s';
    if |batch| < BATCH && s.heap != {} {
      var e := SomeTop(s.heap);
      if !LiveEntry(s, e) || e.deadline <= now {
        s' := s.(heap := s.heap - {e}, section := ByService(t, now, batch, if LiveEntry(s, e) then Upgrading(e)
            else Scanning));
        assert ScanDropStep(s, s', e) || ScanTakeStep(s, s', e);
        assert Works(s, s');
        return;
      }
      assert NothingDue(s, e);
    }
    var armedAt, timer := SomeRearmed(s, s.heap, NEVER);
    s' := s.(section := Unlocked, workers := s.workers[t := Waking(batch, |batch| == BATCH)], armedAt := armedAt,
        timer := timer);
    assert LeaveStep(s, s');
    assert Works(s, s');
  }

  lemma HandCanGoOn(s: State)
    requires s.section.ByService? && s.section.hand != Scanning && s.section.hand.entry.slot < |s.slots|
    ensures CanWork(s)
  {
    var ByService(t, now, batch, hand) := s.section;
    var e := hand.entry;
    var v := s.slots[e.slot];
    var s' :=
      if hand.Upgrading? then s.(section := ByService(t, now, batch, if v.life == Alive then Checking(e) else Scanning))
      else if hand.Checking? then s.(section := ByService(t, now, batch, if LiveEntry(s, e) then Bumping(e)
          else Undoing(e)))
      else if hand.Undoing? then s.(section := ByService(t, now, batch, Scanning))
      else s.(section := ByService(t, now, batch + [e.slot], Scanning),
          slots := s.slots[e.slot := v.(gen := v.gen + 1)]);
    assert UpgradeStep(s, s') || CheckStep(s, s') || UndoStep(s, s') || BumpStep(s, s');
    assert Works(s, s');
  }

  lemma WorkerCanGoOn(s: State, t: nat)
    requires t < |s.workers| && WorkerSound(s, s.workers[t]) && s.section == Unlocked
    requires s.workers[t] != Done && s.workers[t] != Inside
    ensures CanWork(s)
  {
    var w := s.workers[t];
    var s' :=
      match w
      case Reading => s.(workers := s.workers[t := Clocking])
      case Clocking => s.(workers := s.workers[t := Waiting(s.clock)])
      case Waiting(now) => s.(workers := s.workers[t := Inside], section := ByService(t, now, [], Scanning))
      case Waking(batch, again) =>
        if batch == [] then s.(workers := s.workers[t := if again then Clocking else Done])
        else
          s.(workers := s.workers[t := Releasing(batch[0], batch[1..], again)],
             slots := s.slots[batch[0] := s.slots[batch[0]].(drains := s.slots[batch[0]].drains + 1)])
      case Releasing(_, batch, again) => s.(workers := s.workers[t := Waking(batch, again)]);
    assert WorkerStep(s, s', t);
    assert Works(s, s');
  }

  lemma KernelCanGoOn(s: State)
    requires s.edge || (s.timer.At? && s.timer.time <= s.clock)
    ensures CanWork(s)
  {
    var s' := if s.edge then s.(workers := s.workers + [Reading], edge := false)
        else s.(timer := Disarmed, edge := true);
    assert KernelGoesOn(s, s');
    assert Works(s, s');
  }

  /** Whoever holds the lock can go on. */
  lemma LockIsReleased(s: State)
    requires Inv(s) && Timely(s) && !CanWork(s)
    ensures s.section == Unlocked
  {
    if s.section.ByContext? {
      assert SlotSound(s, s.section.q);
      RegisterCanGoOn(s, s.section.q);
    } else if s.section.ByService? {
      if s.section.hand == Scanning {
        ScanCanGoOn(s);
      } else {
        HandCanGoOn(s);
      }
    }
  }

  lemma SlotRests(s: State, q: nat)
    requires Inv(s) && !CanWork(s) && s.section == Unlocked && q < |s.slots|
    ensures var v := s.slots[q]; v.stage == Outside && !v.draining && v.drains == 0
  {
    hide CanWork;
    assert SlotSound(s, q);
    var v := s.slots[q];
    match v.stage
    case Outside =>
      if v.draining || v.drains > 0 {
        DrainCanGoOn(s, q);
      }
    case Entered => SyncCanGoOn(s, q);
    case Dropping => SyncCanGoOn(s, q);
    case Decided(_) => DecidedCanGoOn(s, q);
    case Pushing => RegisterCanGoOn(s, q);
    case Locked =>
  }

  /** A state in which nothing can happen has nothing in flight. */
  lemma StuckIsQuiescent(s: State)
    requires Inv(s) && Timely(s) && !CanWork(s)
    ensures Quiescent(s)
  {
    hide CanWork;
    LockIsReleased(s);
    forall t: nat | t < |s.workers| ensures s.workers[t] == Done {
      assert WorkerTimely(s, t);
      if s.workers[t] != Done {
        WorkerCanGoOn(s, t);
      }
    }
    forall q | 0 <= q < |s.slots| ensures s.slots[q].stage == Outside && !s.slots[q].draining
        && s.slots[q].drains == 0 {
      SlotRests(s, q);
    }
    if s.edge || (s.timer.At? && s.timer.time <= s.clock) {
      KernelCanGoOn(s);
    }
  }

  // ---------------------------------------------------------------------------
  // The drain
  // ---------------------------------------------------------------------------

  ghost predicate Worked(run: seq<State>, i: nat)
    requires 0 < i < |run|
  {
    Works(run[i - 1], run[i])
  }

  /** From some state on, only steps in flight and what they lead to; the clock stands. */
  ghost predicate Drain(run: seq<State>) {
    |run| > 0 && forall i | 0 < i < |run| :: Worked(run, i)
  }

  lemma {:induction false} DrainIsBounded(run: seq<State>, i: nat)
    requires Drain(run) && Inv(run[0]) && Timely(run[0]) && i < |run|
    ensures Inv(run[i]) && Timely(run[i]) && run[i].clock == run[0].clock && Work(run[i]) + i <= Work(run[0])
  {
    hide Inv, Timely, Works, Next, Work;
    if i > 0 {
      DrainIsBounded(run, i - 1);
      assert Worked(run, i);
      WorksIsNext(run[i - 1], run[i]);
      NextKeeps(run[i - 1], run[i]);
      NextStaysTimely(run[i - 1], run[i]);
      WorkShrinks(run[i - 1], run[i]);
    }
  }

  /**
   Every timer that is due fires: from any reachable state, with the clock
   standing and no arming, cancelling or dying, the service, the contexts and
   the kernel come to rest within a bound known at the start, and at rest no
   armed timer of any queue is due.
   */
  lemma EveryDueTimerFires(past: seq<State>, run: seq<State>, q: nat, x: nat)
    requires Execution(past) && Drain(run) && run[0] == past[|past| - 1] && run[0].clock > 0
    ensures |run| <= Work(run[0]) + 1
    ensures var s := run[|run| - 1];
            !CanWork(s) && q < |s.slots| && x in s.slots[q].armed ==> x > run[0].clock || x == NEVER
  {
    hide Inv, Timely, Works, Work, CanWork;
    Reachable(past, |past| - 1);
    ReachableTimely(past, |past| - 1);
    DrainIsBounded(run, |run| - 1);
    var s := run[|run| - 1];
    if !CanWork(s) && q < |s.slots| && x in s.slots[q].armed {
      StuckIsQuiescent(s);
      QuietIsOnTime(s, q, x);
    }
  }
}
