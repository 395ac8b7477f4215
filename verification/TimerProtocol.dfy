/**
 How the queues of a loop register their earliest deadline with the timer
 service, and how the service wakes them (src/queue.c:214-271,
 src/timer_service.c, src/timer.c), as interleaved steps.

 A section under the service lock is atomic except that every read and every
 bump of a generation is a step of its own, because queue contexts bump
 without the lock. The heap of the service is a set of entries; what its
 binary heap adds to that is proved of the class in QueueHeap. The timerfd is
 what the kernel makes of it: a time it is armed at and an edge that has not
 been delivered. Generations are unbounded.
 */
module TimerProtocol {
  import opened Tally

  /** UINT64_MAX: the deadline that is never armed. */
  const NEVER: nat := 0xFFFF_FFFF_FFFF_FFFF

  /** NTT_TIMER_SERVICE_BATCH. */
  const BATCH: nat := 16

  /** A registration, with the tenancy of the slot that made it. */
  datatype Entry = Entry(slot: nat, gen: nat, deadline: nat, tenant: nat)

  /** Where the context of a queue is in ntt_queue_sync_timers. */
  datatype Stage =
    | Outside
    | Entered                    // the timer heap has changed, the generation is not read yet
    | Decided(registered: bool)  // the generation has been compared
    | Dropping                   // no timer left, the self reference still to be dropped
    | Pushing                    // generation bumped, about to take the service lock
    | Locked                     // entry pushed, service lock held

  datatype Life = Free | Alive | Dying

  datatype Slot = Slot(
    life: Life, tenant: nat, born: nat,       // `born`: the generation the tenant found
    gen: nat, regGen: nat, regDeadline: nat,
    armed: multiset<nat>, selfRef: bool,
    stage: Stage, draining: bool, last: bool, // `last`: the sync that ends the drain has begun
    now: nat,                                 // the time the drain goes by
    drains: nat, owners: nat,                 // drain tasks queued, handles held elsewhere
    asked: multiset<nat>, dropped: multiset<nat>, fired: multiset<nat>) // the tenant's timers: armed, cancelled, run

  /** The service holds the lock between popping an entry and being done with it. */
  datatype Hand =
    | Scanning
    | Upgrading(entry: Entry)
    | Checking(entry: Entry)
    | Undoing(entry: Entry)
    | Bumping(entry: Entry)

  datatype Section =
    | Unlocked
    | ByContext(q: nat)
    | ByService(worker: nat, now: nat, batch: seq<nat>, hand: Hand)

  /** A worker inside ntt_timer_service_ready. */
  datatype Worker =
    | Done
    | Reading
    | Clocking
    | Waiting(now: nat)
    | Inside
    | Waking(batch: seq<nat>, again: bool)
    | Releasing(q: nat, batch: seq<nat>, again: bool)

  datatype Kernel = Disarmed | At(time: nat)

  datatype State = State(
    slots: seq<Slot>, heap: set<Entry>, section: Section, workers: seq<Worker>,
    armedAt: nat, timer: Kernel, edge: bool, clock: nat)

  // ---------------------------------------------------------------------------
  // Frames
  // ---------------------------------------------------------------------------

  predicate SameKernel(s: State, s': State) {
    s'.armedAt == s.armedAt && s'.timer == s.timer && s'.edge == s.edge && s'.clock == s.clock
  }

  predicate SameService(s: State, s': State) {
    s'.heap == s.heap && s'.section == s.section && s'.workers == s.workers && SameKernel(s, s')
  }

  /** Only the slot `q` changes. */
  predicate SlotBecomes(s: State, s': State, q: nat, v: Slot) {
    && q < |s.slots|
    && s'.slots == s.slots[q := v]
  }

  predicate IsEarliest(d: nat, armed: multiset<nat>) {
    d in armed && forall x | x in armed :: d <= x
  }

  predicate IsTop(e: Entry, heap: set<Entry>) {
    e in heap && forall f | f in heap :: e.deadline <= f.deadline
  }

  predicate LiveEntry(s: State, e: Entry) {
    && e.slot < |s.slots|
    && s.slots[e.slot].gen == e.gen
  }

  /**
   ntt_timer_service_arm_locked, with `armed` the deadline on record. Setting
   the timer may take back an edge the kernel has not delivered yet.
   */
  predicate Rearmed(s: State, s': State, heap: set<Entry>, armed: nat) {
    && s'.clock == s.clock
    && if forall e | e in heap :: armed <= e.deadline then
         s'.armedAt == armed && s'.timer == s.timer && s'.edge == s.edge
       else
         && IsTopDeadline(s'.armedAt, heap)
         && s'.timer == At(Max(s'.armedAt, 1))
         && (s'.edge ==> s.edge)
  }

  predicate IsTopDeadline(d: nat, heap: set<Entry>) {
    (exists e :: e in heap && e.deadline == d) && forall f | f in heap :: d <= f.deadline
  }

  // ---------------------------------------------------------------------------
  // Queue contexts
  // ---------------------------------------------------------------------------

  /** ntt_self_wakeup_at: a timer is armed, and a sync follows. */
  predicate ArmStep(s: State, s': State, q: nat, d: nat) {
    && q < |s.slots|
    && var v := s.slots[q];
    && v.life == Alive && v.stage == Outside && d <= NEVER
    && SameService(s, s')
    && SlotBecomes(s, s', q, v.(armed := v.armed + multiset{d}, asked := v.asked + multiset{d},
        stage := Entered))
  }

  /** ntt_self_cancel_timer. */
  predicate CancelStep(s: State, s': State, q: nat, d: nat) {
    && q < |s.slots|
    && var v := s.slots[q];
    && v.life == Alive && v.stage == Outside && d in v.armed
    && SameService(s, s')
    && SlotBecomes(s, s', q, v.(armed := v.armed - multiset{d}, dropped := v.dropped + multiset{d},
        stage := Entered))
  }

  /** The context takes up a queued ntt_queue_timers_task_svc and reads the clock. */
  predicate StartDrainStep(s: State, s': State, q: nat) {
    && q < |s.slots|
    && var v := s.slots[q];
    && v.life == Alive && v.stage == Outside && !v.draining && v.drains > 0
    && SameService(s, s')
    && SlotBecomes(s, s', q, v.(drains := v.drains - 1, draining := true, now := s.clock))
  }

  /** The drain retires the earliest timer, which is due; its task may arm and cancel others. */
  predicate FireStep(s: State, s': State, q: nat, d: nat) {
    && q < |s.slots|
    && var v := s.slots[q];
    && v.life == Alive && v.stage == Outside && v.draining && IsEarliest(d, v.armed) && d <= v.now
    && SameService(s, s')
    && SlotBecomes(s, s', q, v.(armed := v.armed - multiset{d}, fired := v.fired + multiset{d}))
  }

  /** The drain has left no timer due at its time and syncs for the last time. */
  predicate EndDrainStep(s: State, s': State, q: nat) {
    && q < |s.slots|
    && var v := s.slots[q];
    && v.life == Alive && v.stage == Outside && v.draining && (forall x | x in v.armed :: x > v.now)
    && SameService(s, s')
    && SlotBecomes(s, s', q, v.(stage := Entered, last := true))
  }

  /** The context reads its own generation. */
  predicate CompareStep(s: State, s': State, q: nat) {
    && q < |s.slots|
    && var v := s.slots[q];
    && v.stage == Entered
    && SameService(s, s')
    && SlotBecomes(s, s', q, v.(stage := Decided(v.gen == v.regGen)))
  }

  /** Nothing is armed: the registration, if it stood, is dropped by one bump. */
  predicate DeregisterStep(s: State, s': State, q: nat) {
    && q < |s.slots|
    && var v := s.slots[q];
    && v.stage.Decided? && v.armed == multiset{}
    && SameService(s, s')
    && SlotBecomes(s, s', q, v.(gen := if v.stage.registered then v.gen + 1 else v.gen, stage := Dropping))
  }

  /** The sync is over, and with the last one the drain is. */
  function Finished(v: Slot): Slot {
    v.(stage := Outside, draining := v.draining && !v.last, last := false)
  }

  predicate DropStep(s: State, s': State, q: nat) {
    && q < |s.slots|
    && var v := s.slots[q];
    && v.stage == Dropping
    && SameService(s, s')
    && SlotBecomes(s, s', q, Finished(v.(selfRef := false)))
  }

  /** The registration that stands is early enough. */
  predicate StandStep(s: State, s': State, q: nat) {
    && q < |s.slots|
    && var v := s.slots[q];
    && v.stage == Decided(true) && v.armed != multiset{}
    && (forall x | x in v.armed :: v.regDeadline <= x)
    && SameService(s, s')
    && SlotBecomes(s, s', q, Finished(v.(selfRef := true)))
  }

  /** A new registration: the generation is bumped before the entry exists. */
  predicate ReplaceStep(s: State, s': State, q: nat, d: nat) {
    && q < |s.slots|
    && var v := s.slots[q];
    && v.stage.Decided? && IsEarliest(d, v.armed)
    && !(v.stage.registered && v.regDeadline <= d)
    && SameService(s, s')
    && SlotBecomes(s, s', q, v.(selfRef := true, gen := v.gen + 1, regGen := v.gen + 1, regDeadline := d,
        stage := Pushing))
  }

  function Registration(q: nat, v: Slot): Entry { Entry(q, v.regGen, v.regDeadline, v.tenant) }

  /** ntt_timer_service_register takes the lock and pushes the entry, which may be dead by now. */
  predicate PushStep(s: State, s': State, q: nat) {
    && q < |s.slots|
    && var v := s.slots[q];
    && v.stage == Pushing && s.section == Unlocked
    && s'.heap == s.heap + {Registration(q, v)} && s'.section == ByContext(q)
    && s'.workers == s.workers && SameKernel(s, s')
    && SlotBecomes(s, s', q, v.(stage := Locked))
  }

  /** Compaction removes an entry it has seen dead. */
  predicate CompactStep(s: State, s': State, q: nat, e: Entry) {
    && q < |s.slots|
    && s.section == ByContext(q)
    && e in s.heap && e.slot < |s.slots| && !LiveEntry(s, e)
    && s'.heap == s.heap - {e}
    && s'.slots == s.slots && s'.section == s.section && s'.workers == s.workers && SameKernel(s, s')
  }

  predicate UnlockStep(s: State, s': State, q: nat) {
    && q < |s.slots|
    && s.section == ByContext(q) && s.slots[q].stage == Locked
    && s'.section == Unlocked && s'.heap == s.heap && s'.workers == s.workers
    && Rearmed(s, s', s.heap, s.armedAt)
    && SlotBecomes(s, s', q, Finished(s.slots[q]))
  }

  // ---------------------------------------------------------------------------
  // The life of a slot
  // ---------------------------------------------------------------------------

  /** Handles of a live queue come and go. */
  predicate OwnersStep(s: State, s': State, q: nat, owners: nat) {
    && q < |s.slots|
    && s.slots[q].life == Alive
    && SameService(s, s')
    && SlotBecomes(s, s', q, s.slots[q].(owners := owners))
  }

  /** The last reference goes: no handle, no queued or running task, no self reference, no upgrade. */
  predicate DieStep(s: State, s': State, q: nat) {
    && q < |s.slots|
    && var v := s.slots[q];
    && v.life == Alive && v.owners == 0 && v.drains == 0 && v.stage == Outside && !v.draining && !v.selfRef
    && Unheld(s, q)
    && SameService(s, s')
    && SlotBecomes(s, s', q, v.(life := Dying))
  }

  predicate HandHolds(hand: Hand, q: nat) {
    (hand.Checking? || hand.Undoing? || hand.Bumping?) && hand.entry.slot == q
  }

  predicate WorkerHolds(w: Worker, q: nat) {
    || (w.Waking? && q in w.batch)
    || (w.Releasing? && (w.q == q || q in w.batch))
  }

  /** No service worker has upgraded the slot to a reference. */
  predicate Unheld(s: State, q: nat) {
    && (s.section.ByService? ==> !HandHolds(s.section.hand, q) && q !in s.section.batch)
    && (forall t | 0 <= t < |s.workers| :: !WorkerHolds(s.workers[t], q))
  }

  /** ntt_slab_give. */
  predicate GiveStep(s: State, s': State, q: nat) {
    && q < |s.slots|
    && var v := s.slots[q];
    && v.life == Dying
    && SameService(s, s')
    && SlotBecomes(s, s', q, v.(life := Free, gen := v.gen + 1))
  }

  /** ntt_queue_init in a slot taken from the slab. */
  predicate CreateStep(s: State, s': State, q: nat) {
    && q < |s.slots|
    && var v := s.slots[q];
    && v.life == Free
    && SameService(s, s')
    && SlotBecomes(s, s', q, Slot(Alive, v.tenant + 1, v.gen, v.gen, 0, NEVER, multiset{}, false, Outside, false,
        false, 0, 0, 1, multiset{}, multiset{}, multiset{}))
  }

  /** The slab grows by a slot of generation one. */
  predicate GrowStep(s: State, s': State) {
    && SameService(s, s')
    && s'.slots == s.slots + [Slot(Free, 0, 1, 1, 0, NEVER, multiset{}, false, Outside, false, false, 0, 0, 0,
        multiset{}, multiset{}, multiset{})]
  }

  // ---------------------------------------------------------------------------
  // The service
  // ---------------------------------------------------------------------------

  predicate WorkerTurns(s: State, s': State, t: nat, w: Worker) {
    && t < |s.workers|
    && s'.workers == s.workers[t := w]
  }

  /** A worker takes the notification out of epoll; a spurious one does no harm. */
  predicate DeliverStep(s: State, s': State) {
    && s'.slots == s.slots && s'.heap == s.heap && s'.section == s.section
    && s'.workers == s.workers + [Reading]
    && s'.armedAt == s.armedAt && s'.timer == s.timer && s'.clock == s.clock && !s'.edge
  }

  /** Reading the timerfd may also consume an expiration whose edge is not delivered yet. */
  predicate ReadStep(s: State, s': State, t: nat) {
    && t < |s.workers|
    && s.workers[t] == Reading
    && s'.slots == s.slots && s'.heap == s.heap && s'.section == s.section
    && WorkerTurns(s, s', t, Clocking)
    && s'.armedAt == s.armedAt && s'.timer == s.timer && s'.clock == s.clock && (s'.edge ==> s.edge)
  }

  predicate ClockStep(s: State, s': State, t: nat) {
    && t < |s.workers|
    && s.workers[t] == Clocking
    && s'.slots == s.slots && s'.heap == s.heap && s'.section == s.section && SameKernel(s, s')
    && WorkerTurns(s, s', t, Waiting(s.clock))
  }

  predicate LockStep(s: State, s': State, t: nat) {
    && t < |s.workers|
    && s.workers[t].Waiting? && s.section == Unlocked
    && s'.slots == s.slots && s'.heap == s.heap && SameKernel(s, s')
    && s'.section == ByService(t, s.workers[t].now, [], Scanning)
    && WorkerTurns(s, s', t, Inside)
  }

  /** The service, inside its section, moves from one hand to the next. */
  predicate HandTurns(s: State, s': State, batch: seq<nat>, hand: Hand)
    requires s.section.ByService?
  {
    && s'.section == ByService(s.section.worker, s.section.now, batch, hand)
    && s'.workers == s.workers && SameKernel(s, s')
  }

  /** The top of the heap is a tombstone. */
  predicate ScanDropStep(s: State, s': State, e: Entry) {
    && s.section.ByService? && s.section.hand == Scanning && |s.section.batch| < BATCH
    && IsTop(e, s.heap) && e.slot < |s.slots| && !LiveEntry(s, e)
    && s'.slots == s.slots && s'.heap == s.heap - {e}
    && HandTurns(s, s', s.section.batch, Scanning)
  }

  /** The top of the heap is live and due. */
  predicate ScanTakeStep(s: State, s': State, e: Entry) {
    && s.section.ByService? && s.section.hand == Scanning && |s.section.batch| < BATCH
    && IsTop(e, s.heap) && e.slot < |s.slots| && LiveEntry(s, e) && e.deadline <= s.section.now
    && s'.slots == s.slots && s'.heap == s.heap - {e}
    && HandTurns(s, s', s.section.batch, Upgrading(e))
  }

  /** The batch is full, the heap is empty or its top is live and not due: rearm and unlock. */
  ghost predicate LeaveStep(s: State, s': State) {
    && s.section.ByService? && s.section.hand == Scanning && s.section.worker < |s.workers|
    && (|s.section.batch| == BATCH || s.heap == {} || exists e :: NothingDue(s, e))
    && s'.slots == s.slots && s'.heap == s.heap && s'.section == Unlocked
    && Rearmed(s, s', s.heap, NEVER)
    && WorkerTurns(s, s', s.section.worker, Waking(s.section.batch, |s.section.batch| == BATCH))
  }

  predicate NothingDue(s: State, e: Entry)
    requires s.section.ByService?
  {
    IsTop(e, s.heap) && e.slot < |s.slots| && LiveEntry(s, e) && e.deadline > s.section.now
  }

  /** ntt_queue_acquire_if_live. */
  predicate UpgradeStep(s: State, s': State) {
    && s.section.ByService? && s.section.hand.Upgrading? && s.section.hand.entry.slot < |s.slots|
    && s'.slots == s.slots && s'.heap == s.heap
    && var e := s.section.hand.entry;
       HandTurns(s, s', s.section.batch, if s.slots[e.slot].life == Alive then Checking(e) else Scanning)
  }

  predicate CheckStep(s: State, s': State) {
    && s.section.ByService? && s.section.hand.Checking? && s.section.hand.entry.slot < |s.slots|
    && s'.slots == s.slots && s'.heap == s.heap
    && var e := s.section.hand.entry;
       HandTurns(s, s', s.section.batch, if LiveEntry(s, e) then Bumping(e) else Undoing(e))
  }

  predicate UndoStep(s: State, s': State) {
    && s.section.ByService? && s.section.hand.Undoing?
    && s'.slots == s.slots && s'.heap == s.heap
    && HandTurns(s, s', s.section.batch, Scanning)
  }

  /** The bump lands whatever the queue context has done since the check. */
  predicate BumpStep(s: State, s': State) {
    && s.section.ByService? && s.section.hand.Bumping? && s.section.hand.entry.slot < |s.slots|
    && s'.heap == s.heap
    && var q := s.section.hand.entry.slot;
       && SlotBecomes(s, s', q, s.slots[q].(gen := s.slots[q].gen + 1))
       && HandTurns(s, s', s.section.batch + [q], Scanning)
  }

  /** ntt_queue_wakeup_timers for the next queue of the batch, or the end of the batch. */
  predicate WakeStep(s: State, s': State, t: nat) {
    && t < |s.workers|
    && s.workers[t].Waking?
    && s'.heap == s.heap && s'.section == s.section && SameKernel(s, s')
    && var Waking(batch, again) := s.workers[t];
       if batch == [] then
         s'.slots == s.slots && WorkerTurns(s, s', t, if again then Clocking else Done)
       else
         && batch[0] < |s.slots|
         && SlotBecomes(s, s', batch[0], s.slots[batch[0]].(drains := s.slots[batch[0]].drains + 1))
         && WorkerTurns(s, s', t, Releasing(batch[0], batch[1..], again))
  }

  predicate ReleaseStep(s: State, s': State, t: nat) {
    && t < |s.workers|
    && s.workers[t].Releasing?
    && s'.slots == s.slots && s'.heap == s.heap && s'.section == s.section && SameKernel(s, s')
    && WorkerTurns(s, s', t, Waking(s.workers[t].batch, s.workers[t].again))
  }

  // ---------------------------------------------------------------------------
  // The kernel
  // ---------------------------------------------------------------------------

  predicate SameButKernel(s: State, s': State) {
    s'.slots == s.slots && s'.heap == s.heap && s'.section == s.section && s'.workers == s.workers
        && s'.armedAt == s.armedAt
  }

  predicate TickStep(s: State, s': State) {
    SameButKernel(s, s') && s'.timer == s.timer && s'.edge == s.edge && s'.clock >= s.clock
  }

  predicate ExpireStep(s: State, s': State) {
    && SameButKernel(s, s') && s'.clock == s.clock
    && s.timer.At? && s.timer.time <= s.clock
    && s'.timer == Disarmed && s'.edge
  }

  // ---------------------------------------------------------------------------
  // Runs
  // ---------------------------------------------------------------------------

  ghost predicate ContextStep(s: State, s': State, q: nat) {
    && q < |s.slots|
    && (|| (exists d :: ArmStep(s, s', q, d))
      || (exists d :: CancelStep(s, s', q, d))
      || StartDrainStep(s, s', q)
      || (exists d :: FireStep(s, s', q, d))
      || EndDrainStep(s, s', q)
      || CompareStep(s, s', q)
      || DeregisterStep(s, s', q)
      || DropStep(s, s', q)
      || StandStep(s, s', q)
      || (exists d :: ReplaceStep(s, s', q, d))
      || PushStep(s, s', q)
      || (exists e :: CompactStep(s, s', q, e))
      || UnlockStep(s, s', q))
  }

  ghost predicate LifeStep(s: State, s': State, q: nat) {
    && q < |s.slots|
    && (|| (exists owners :: OwnersStep(s, s', q, owners))
      || DieStep(s, s', q)
      || GiveStep(s, s', q)
      || CreateStep(s, s', q))
  }

  ghost predicate HandStep(s: State, s': State) {
    || (exists e :: ScanDropStep(s, s', e))
    || (exists e :: ScanTakeStep(s, s', e))
    || LeaveStep(s, s')
    || UpgradeStep(s, s')
    || CheckStep(s, s')
    || UndoStep(s, s')
    || BumpStep(s, s')
  }

  predicate WorkerStep(s: State, s': State, t: nat) {
    && t < |s.workers|
    && (|| ReadStep(s, s', t)
      || ClockStep(s, s', t)
      || LockStep(s, s', t)
      || WakeStep(s, s', t)
      || ReleaseStep(s, s', t))
  }

  ghost predicate Next(s: State, s': State) {
    || (exists q: nat :: q < |s.slots| && ContextStep(s, s', q))
    || (exists q: nat :: q < |s.slots| && LifeStep(s, s', q))
    || GrowStep(s, s')
    || HandStep(s, s')
    || (exists t: nat :: t < |s.workers| && WorkerStep(s, s', t))
    || DeliverStep(s, s')
    || TickStep(s, s')
    || ExpireStep(s, s')
  }

  predicate Init(s: State) {
    && s.slots == [] && s.heap == {} && s.section == Unlocked && s.workers == []
    && s.armedAt == NEVER && s.timer == Disarmed && !s.edge
  }

  ghost predicate Linked(run: seq<State>, i: nat)
    requires 0 < i < |run|
  {
    Next(run[i - 1], run[i])
  }

  ghost predicate Execution(run: seq<State>) {
    && |run| > 0
    && Init(run[0])
    && forall i | 0 < i < |run| :: Linked(run, i)
  }
}
