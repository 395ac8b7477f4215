/** What every step of the timer registration protocol keeps. */
module TimerInvariant {
  import opened Tally
  import opened TimerProtocol

  // ---------------------------------------------------------------------------
  // What the service has in hand
  // ---------------------------------------------------------------------------

  /** Wakeups of slot `q` that a worker has taken upon itself and not delivered. */
  function WakesOf(q: nat): Worker -> nat {
    (w: Worker) => if w.Waking? || w.Releasing? then multiset(w.batch)[q] else 0
  }

  function SectionWakes(section: Section, q: nat): nat {
    if section.ByService? then multiset(section.batch)[q] else 0
  }

  function Wakes(s: State, q: nat): nat {
    Sum(s.workers, WakesOf(q)) + SectionWakes(s.section, q)
  }

  /** Workers on their way to the lock. */
  function Due(w: Worker): nat {
    if w.Reading? || w.Clocking? || w.Waiting? then 1 else 0
  }

  /** The entry the service has popped and not yet disposed of. */
  function Popped(section: Section): set<Entry> {
    if section.ByService? && !section.hand.Scanning? && !section.hand.Undoing? then {section.hand.entry} else {}
  }

  function Entries(s: State): set<Entry> { s.heap + Popped(s.section) }

  // ---------------------------------------------------------------------------
  // Entries
  // ---------------------------------------------------------------------------

  predicate EntrySound(v: Slot, e: Entry) {
    && e.gen <= v.gen && e.tenant <= v.tenant && e.deadline <= NEVER
    && (v.life == Free ==> e.gen < v.gen)
    && (e.tenant < v.tenant ==> e.gen <= v.born && e.gen < v.gen)
    && (e.tenant == v.tenant ==>
          && v.born < e.gen <= v.regGen
          && (v.stage == Pushing ==> e.gen < v.regGen)
          && (e.gen == v.regGen ==> e.deadline == v.regDeadline))
  }

  ghost predicate EntriesSound(s: State) {
    forall e | e in Entries(s) :: e.slot < |s.slots| && EntrySound(s.slots[e.slot], e)
  }

  ghost predicate EntriesDistinct(s: State) {
    forall e, f | e in Entries(s) && f in Entries(s) && e.slot == f.slot && e.gen == f.gen :: e == f
  }

  // ---------------------------------------------------------------------------
  // Slots
  // ---------------------------------------------------------------------------

  /** The context is bound to compare generations before it is through. */
  predicate Looking(v: Slot) {
    v.stage == Entered || v.stage == Decided(false) || (v.draining && !v.last)
  }

  predicate Registered(v: Slot) { v.gen == v.regGen }

  predicate LocalSound(v: Slot) {
    && v.born <= v.gen && v.regGen <= v.gen && 1 <= v.gen
    && (v.regGen == 0 || v.born < v.regGen) && (v.stage == Pushing ==> v.born < v.regGen)
    && v.regDeadline <= NEVER
    && (forall x | x in v.armed :: x <= NEVER)
    && (v.last ==> v.draining && v.stage != Outside)
    && (v.life != Alive ==> v.armed == multiset{} && v.stage == Outside && !v.draining && v.drains == 0 && !v.selfRef)
    && (v.stage == Decided(false) || v.stage == Dropping ==> !Registered(v))
    && (v.stage == Outside && !v.draining && v.armed == multiset{} ==> !Registered(v))
    && (v.stage == Dropping ==> v.armed == multiset{})
    && (v.stage == Pushing || v.stage == Locked ==> v.armed != multiset{})
    && (v.stage == Outside && !v.draining ==> (v.selfRef <==> v.armed != multiset{}))
    && ((v.stage == Pushing || v.stage == Locked || (v.stage == Outside && v.armed != multiset{})) ==> v.selfRef)
  }

  /** The registration on record is no later than any armed timer, unless a sync is about to see to it. */
  predicate DeadlineSound(v: Slot) {
    Registered(v) && v.stage != Entered && !v.stage.Decided? ==> forall x | x in v.armed :: v.regDeadline <= x
  }

  /** A standing registration is in the heap or in the hand of the service. */
  predicate PresenceSound(s: State, q: nat)
    requires q < |s.slots|
  {
    var v := s.slots[q];
    v.life == Alive && Registered(v) && v.stage != Pushing ==> Registration(q, v) in Entries(s)
  }

  /** A queue whose registration was consumed is about to look again or about to be woken. */
  predicate WakeSound(v: Slot, wakes: nat) {
    v.life == Alive && !Registered(v) && v.armed != multiset{} && !Looking(v) ==> wakes + v.drains > 0
  }

  ghost predicate SlotSound(s: State, q: nat)
    requires q < |s.slots|
  {
    && LocalSound(s.slots[q])
    && DeadlineSound(s.slots[q])
    && PresenceSound(s, q)
    && WakeSound(s.slots[q], Wakes(s, q))
    && (s.slots[q].life != Alive ==> Unheld(s, q))
    && (s.slots[q].stage == Locked <==> s.section == ByContext(q))
  }

  ghost predicate SlotsSound(s: State) {
    forall q | 0 <= q < |s.slots| :: SlotSound(s, q)
  }

  // ---------------------------------------------------------------------------
  // The lock and the kernel
  // ---------------------------------------------------------------------------

  predicate BatchSound(s: State, batch: seq<nat>) {
    |batch| <= BATCH && forall i | 0 <= i < |batch| :: batch[i] < |s.slots|
  }

  predicate WorkerSound(s: State, w: Worker) {
    && (w.Waking? || w.Releasing? ==> BatchSound(s, w.batch))
    && (w.Releasing? ==> w.q < |s.slots|)
  }

  ghost predicate WorkersSound(s: State) {
    && (forall t | 0 <= t < |s.workers| :: WorkerSound(s, s.workers[t]))
    && (s.section.ByContext? ==> s.section.q < |s.slots|)
    && (s.section.ByService? ==>
          && s.section.worker < |s.workers| && s.workers[s.section.worker] == Inside
          && BatchSound(s, s.section.batch)
          && (s.section.hand != Scanning ==> s.section.hand.entry.slot < |s.slots| && |s.section.batch| < BATCH))
  }

  /** The kernel will make some worker take the lock, no later than `armedAt`. */
  predicate Watched(s: State) {
    || (s.timer.At? && s.timer.time <= Max(s.armedAt, 1))
    || s.edge
    || Sum(s.workers, Due) > 0
  }

  ghost predicate KernelSound(s: State) {
    && s.armedAt <= NEVER
    && (s.section == Unlocked ==> forall e | e in s.heap :: s.armedAt <= e.deadline)
    && (s.armedAt < NEVER && !s.section.ByService? ==> Watched(s))
  }

  ghost predicate Inv(s: State) {
    EntriesSound(s) && EntriesDistinct(s) && SlotsSound(s) && WorkersSound(s) && KernelSound(s)
  }
}
