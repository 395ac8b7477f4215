/**
 Serial queues over a pool of workers (src/queue.c, src/combine.c and the
 worker loop of src/loop.c), as interleaved steps.

 The head of a queue stays linked while its body runs, so a push into a
 non-empty list wakes nobody: whoever made the list non-empty owns the only
 right to run the queue, passes it through the combine to a worker, and the
 worker keeps it until the list is empty again. A section under a spinlock is
 one step, and so is every atomic operation on `external_refs`.
 */
module QueueProtocol {
  import opened Tally
  import opened Tasks

  datatype Life = Free | Alive | Dying

  /**
   A slot of the queue slab. `handles` are the references held by owners and
   events, `upgrades` those taken by the timer service, `pushed` and `began`
   the tasks pushed and the bodies started in this tenancy, in that order.
   */
  datatype Slot = Slot(
    life: Life, tenant: nat, refs: int, handles: nat, upgrades: nat, selfRef: bool, armed: nat,
    tasks: seq<Task>, pushed: seq<Task>, began: seq<Task>)

  /** The reference that keeps a queue alive while it is pushed to. */
  datatype Via = Handle | Upgrade | Self

  /** ntt_queue_push_task, nested in whatever its thread is doing. */
  datatype Call =
    | NoCall
    | Pushing(q: nat, via: Via, task: Task)
    | Acquiring(q: nat, via: Via)   // the list was empty, no reference taken yet
    | Linking(q: nat, via: Via)     // reference taken, about to enter the combine
    | Signalling(q: nat, via: Via)  // the combine was empty and the thread is no worker

  /** Where a worker is in ntt_loop_worker_svc; other threads stay at Idle. */
  datatype Stage =
    | Idle
    | Asleep                        // in epoll_pwait, having seen the combine empty
    | Scanning                      // awake, about to look into the combine
    | Starting(q: nat)              // the queue taken, its head not started
    // in a body; `dirty`: timers changed since the last sync; `left`: pushes it will make
    | Running(q: nat, dirty: bool, left: seq<Push>)
    | Dropping(q: nat, more: bool)  // head unlinked, its task being destroyed
    | Relinking(q: nat)             // limit reached, about to put the queue back

  datatype Thread = Thread(worker: bool, stage: Stage, call: Call)

  /**
   `work`: what the queues have added to the count of the loop; `leavers`:
   threads that gave a slot back and have yet to take it off again.
   */
  datatype State = State(
    slots: seq<Slot>, threads: seq<Thread>, combine: seq<nat>, eventfd: nat, work: int, leavers: nat)

  // ---------------------------------------------------------------------------
  // Frames
  // ---------------------------------------------------------------------------

  predicate SlotBecomes(s: State, s': State, q: nat, v: Slot) {
    && q < |s.slots|
    && s'.slots == s.slots[q := v]
  }

  predicate ThreadBecomes(s: State, s': State, t: nat, x: Thread) {
    && t < |s.threads|
    && s'.threads == s.threads[t := x]
  }

  predicate SameWork(s: State, s': State) {
    s'.work == s.work && s'.leavers == s.leavers
  }

  predicate SameLoop(s: State, s': State) {
    s'.combine == s.combine && s'.eventfd == s.eventfd && SameWork(s, s')
  }

  /** ntt_queue_release: the last reference starts the end of the queue. */
  function Released(v: Slot): Slot {
    v.(refs := v.refs - 1, life := if v.refs == 1 then Dying else v.life)
  }

  function Acquired(v: Slot): Slot { v.(refs := v.refs + 1) }

  /** The reference a call went through goes back to its holder. */
  function Returned(v: Slot, via: Via): Slot {
    match via
    case Handle => v.(handles := v.handles + 1)
    case Upgrade => v.(upgrades := v.upgrades + 1)
    case Self => v
  }

  /** The worker holds the reference of the run of `q`. */
  predicate Holds(stage: Stage, q: nat) {
    (stage.Starting? || stage.Running? || stage.Dropping? || stage.Relinking?) && stage.q == q
  }

  // ---------------------------------------------------------------------------
  // References
  // ---------------------------------------------------------------------------

  /** ntt_queue_create_in: a slot of the slab gets a new tenant with one handle. */
  predicate CreateStep(s: State, s': State, q: nat) {
    && q < |s.slots|
    && var v := s.slots[q];
    && v.life == Free
    && SlotBecomes(s, s', q, Slot(Alive, v.tenant + 1, 1, 1, 0, false, 0, [], [], []))
    && s'.threads == s.threads && s'.combine == s.combine && s'.eventfd == s.eventfd
    && s'.work == s.work + 1 && s'.leavers == s.leavers
  }

  /** ntt_queue_acquire through a handle. */
  predicate CopyStep(s: State, s': State, q: nat) {
    && q < |s.slots|
    && var v := s.slots[q];
    && v.handles > 0
    && SlotBecomes(s, s', q, Acquired(v).(handles := v.handles + 1))
    && s'.threads == s.threads && SameLoop(s, s')
  }

  /** ntt_queue_release of a handle. */
  predicate CloseStep(s: State, s': State, q: nat) {
    && q < |s.slots|
    && var v := s.slots[q];
    && v.handles > 0
    && SlotBecomes(s, s', q, Released(v).(handles := v.handles - 1))
    && s'.threads == s.threads && SameLoop(s, s')
  }

  /** ntt_queue_acquire_if_live, on a slot whose tenant may be long gone. */
  predicate UpgradeStep(s: State, s': State, q: nat) {
    && q < |s.slots|
    && var v := s.slots[q];
    && SlotBecomes(s, s', q, if v.refs == 0 then v else Acquired(v).(upgrades := v.upgrades + 1))
    && s'.threads == s.threads && SameLoop(s, s')
  }

  /** The timer service releases what it upgraded. */
  predicate DowngradeStep(s: State, s': State, q: nat) {
    && q < |s.slots|
    && var v := s.slots[q];
    && v.upgrades > 0
    && SlotBecomes(s, s', q, Released(v).(upgrades := v.upgrades - 1))
    && s'.threads == s.threads && SameLoop(s, s')
  }

  /** ntt_queue_deinit and ntt_slab_give. */
  predicate GiveStep(s: State, s': State, q: nat) {
    && q < |s.slots|
    && s.slots[q].life == Dying
    && SlotBecomes(s, s', q, s.slots[q].(life := Free))
    && s'.threads == s.threads && s'.combine == s.combine && s'.eventfd == s.eventfd
    && s'.work == s.work && s'.leavers == s.leavers + 1
  }

  /** ntt_loop_work_leave, last of all: the slot may have a new tenant by now. */
  predicate LeaveStep(s: State, s': State) {
    && s.leavers > 0
    && s'.slots == s.slots && s'.threads == s.threads && s'.combine == s.combine && s'.eventfd == s.eventfd
    && s'.work == s.work - 1 && s'.leavers == s.leavers - 1
  }

  // ---------------------------------------------------------------------------
  // ntt_queue_push_task
  // ---------------------------------------------------------------------------

  predicate Awake(x: Thread) { x.stage != Asleep }

  /** A push through a handle or an upgrade, which the call keeps until it returns. */
  predicate EnterStep(s: State, s': State, t: nat, q: nat, via: Via, task: Task) {
    && t < |s.threads| && q < |s.slots|
    && var x, v := s.threads[t], s.slots[q];
    && x.call == NoCall && Awake(x)
    && (via == Handle ==> v.handles > 0) && (via == Upgrade ==> v.upgrades > 0) && (via == Self ==> Holds(x.stage, q))
    && ThreadBecomes(s, s', t, x.(call := Pushing(q, via, task)))
    && SlotBecomes(s, s', q,
                   match via
                   case Handle => v.(handles := v.handles - 1)
                   case Upgrade => v.(upgrades := v.upgrades - 1)
                   case Self => v)
    && SameLoop(s, s')
  }

  /** The task is linked; the call is over unless the list was empty. */
  predicate PushStep(s: State, s': State, t: nat, q: nat) {
    && t < |s.threads| && q < |s.slots|
    && var x, v := s.threads[t], s.slots[q];
    && x.call.Pushing? && x.call.q == q
    && var w := v.(tasks := v.tasks + [x.call.task], pushed := v.pushed + [x.call.task]);
    && (if v.tasks == [] then
          ThreadBecomes(s, s', t, x.(call := Acquiring(q, x.call.via))) && SlotBecomes(s, s', q, w)
        else
          ThreadBecomes(s, s', t, x.(call := NoCall)) && SlotBecomes(s, s', q, Returned(w, x.call.via)))
    && SameLoop(s, s')
  }

  predicate AcquireStep(s: State, s': State, t: nat, q: nat) {
    && t < |s.threads| && q < |s.slots|
    && var x := s.threads[t];
    && x.call.Acquiring? && x.call.q == q
    && ThreadBecomes(s, s', t, x.(call := Linking(q, x.call.via)))
    && SlotBecomes(s, s', q, Acquired(s.slots[q]))
    && SameLoop(s, s')
  }

  /** ntt_combine_push; only the first link is signalled, and only by a thread that is no worker. */
  predicate LinkStep(s: State, s': State, t: nat, q: nat) {
    && t < |s.threads| && q < |s.slots|
    && var x, v := s.threads[t], s.slots[q];
    && x.call.Linking? && x.call.q == q
    && (if s.combine == [] && !x.worker then
          ThreadBecomes(s, s', t, x.(call := Signalling(q, x.call.via))) && SlotBecomes(s, s', q, v)
        else
          ThreadBecomes(s, s', t, x.(call := NoCall)) && SlotBecomes(s, s', q, Returned(v, x.call.via)))
    && s'.combine == s.combine + [q] && s'.eventfd == s.eventfd && SameWork(s, s')
  }

  /** ntt_loop_combine_wakeup writes the eventfd. */
  predicate SignalStep(s: State, s': State, t: nat, q: nat) {
    && t < |s.threads| && q < |s.slots|
    && var x := s.threads[t];
    && x.call.Signalling? && x.call.q == q
    && ThreadBecomes(s, s', t, x.(call := NoCall))
    && SlotBecomes(s, s', q, Returned(s.slots[q], x.call.via))
    && s'.combine == s.combine && s'.eventfd == s.eventfd + 1 && SameWork(s, s')
  }

  // ---------------------------------------------------------------------------
  // Workers
  // ---------------------------------------------------------------------------

  /** epoll_pwait returns, for whatever reason. */
  predicate WakeStep(s: State, s': State, t: nat) {
    && t < |s.threads|
    && s.threads[t].stage == Asleep
    && ThreadBecomes(s, s', t, s.threads[t].(stage := Scanning))
    && s'.slots == s.slots && SameLoop(s, s')
  }

  /** ntt_combine_eventfd_ready takes one notification, if there is one. */
  predicate ReadStep(s: State, s': State, t: nat) {
    && t < |s.threads|
    && s.threads[t].stage == Scanning && s.threads[t].call == NoCall
    && s'.slots == s.slots && s'.threads == s.threads && s'.combine == s.combine
    && SameWork(s, s')
    && s'.eventfd == if s.eventfd == 0 then 0 else s.eventfd - 1
  }

  /** ntt_combine_try_take finds nothing. */
  predicate SleepStep(s: State, s': State, t: nat) {
    && t < |s.threads|
    && var x := s.threads[t];
    && x.stage == Scanning && x.call == NoCall && s.combine == []
    && ThreadBecomes(s, s', t, x.(stage := Asleep))
    && s'.slots == s.slots && SameLoop(s, s')
  }

  /** ntt_combine_try_take finds a queue. */
  predicate TakeStep(s: State, s': State, t: nat) {
    && t < |s.threads|
    && var x := s.threads[t];
    && x.stage == Scanning && x.call == NoCall && s.combine != []
    && ThreadBecomes(s, s', t, x.(stage := Starting(s.combine[0])))
    && s'.combine == s.combine[1..] && s'.slots == s.slots && s'.eventfd == s.eventfd && SameWork(s, s')
  }

  /** The body of the head starts; what would be the head of an empty list is not looked at. */
  predicate BeginStep(s: State, s': State, t: nat, q: nat) {
    && t < |s.threads| && q < |s.slots|
    && var x, v := s.threads[t], s.slots[q];
    && x.stage == Starting(q) && x.call == NoCall
    && ThreadBecomes(s, s', t, x.(stage := Running(q, false, if v.tasks == [] then [] else v.tasks[0].pushes)))
    && SlotBecomes(s, s', q, v.(began := v.began + v.tasks[..Min(|v.tasks|, 1)]))
    && SameLoop(s, s')
  }

  /** A body acquires its own queue and keeps the handle. */
  predicate KeepStep(s: State, s': State, t: nat, q: nat) {
    && t < |s.threads| && q < |s.slots|
    && var x, v := s.threads[t], s.slots[q];
    && x.stage.Running? && x.stage.q == q && x.call == NoCall
    && s'.threads == s.threads
    && SlotBecomes(s, s', q, Acquired(v).(handles := v.handles + 1))
    && SameLoop(s, s')
  }

  /** The body arms, cancels or retires timers of its queue. */
  predicate TimersStep(s: State, s': State, t: nat, q: nat, armed: nat) {
    && t < |s.threads| && q < |s.slots|
    && var x, v := s.threads[t], s.slots[q];
    && x.stage.Running? && x.stage.q == q && x.call == NoCall
    && ThreadBecomes(s, s', t, x.(stage := Running(q, true, x.stage.left)))
    && SlotBecomes(s, s', q, v.(armed := armed))
    && SameLoop(s, s')
  }

  /** What ntt_queue_sync_timers does to the self reference. */
  function Synced(v: Slot): Slot {
    if v.armed == 0 && v.selfRef then Released(v).(selfRef := false)
    else if v.armed > 0 && !v.selfRef then Acquired(v).(selfRef := true)
    else v
  }

  predicate SyncStep(s: State, s': State, t: nat, q: nat) {
    && t < |s.threads| && q < |s.slots|
    && var x := s.threads[t];
    && x.stage.Running? && x.stage.q == q && x.call == NoCall
    && ThreadBecomes(s, s', t, x.(stage := Running(q, false, x.stage.left)))
    && SlotBecomes(s, s', q, Synced(s.slots[q]))
    && SameLoop(s, s')
  }

  /** The next push of the body has been dealt with. */
  function Advanced(s: State, t: nat): State
    requires t < |s.threads| && s.threads[t].stage.Running? && s.threads[t].stage.left != []
  {
    var x := s.threads[t];
    s.(threads := s.threads[t := x.(stage := Running(x.stage.q, x.stage.dirty, x.stage.left[1..]))])
  }

  /** A body pushes to its own queue, and to another one if a handle of it is held. */
  predicate MayPush(s: State, q: nat, queue: nat) {
    queue < |s.slots| && (queue == q || s.slots[queue].handles > 0)
  }

  /** The body makes the next push of its script. */
  predicate ScriptStep(s: State, s': State, t: nat, q: nat) {
    && t < |s.threads| && q < |s.slots|
    && var x := s.threads[t];
    && x.stage.Running? && x.stage.q == q && x.stage.left != [] && x.call == NoCall
    && var push := x.stage.left[0];
       if MayPush(s, q, push.queue) then
         EnterStep(Advanced(s, t), s', t, push.queue, if push.queue == q then Self else Handle, push.task)
       else s' == Advanced(s, t)
  }

  /** The body is over and ntt_queue_next unlinks the head. */
  predicate NextTaskStep(s: State, s': State, t: nat, q: nat) {
    && t < |s.threads| && q < |s.slots|
    && var x, v := s.threads[t], s.slots[q];
    && x.stage == Running(q, false, []) && x.call == NoCall
    && ThreadBecomes(s, s', t, x.(stage := Dropping(q, |v.tasks| > 1)))
    && SlotBecomes(s, s', q, v.(tasks := v.tasks[Min(|v.tasks|, 1)..]))
    && SameLoop(s, s')
  }

  /** More tasks: the worker goes on, or has reached its limit. */
  predicate GoOnStep(s: State, s': State, t: nat, q: nat, limit: bool) {
    && t < |s.threads| && q < |s.slots|
    && var x := s.threads[t];
    && x.stage == Dropping(q, true) && x.call == NoCall
    && ThreadBecomes(s, s', t, x.(stage := if limit then Relinking(q) else Starting(q)))
    && s'.slots == s.slots && SameLoop(s, s')
  }

  /** ntt_combine_svc_with_limits puts the queue back; a worker never signals. */
  predicate RelinkStep(s: State, s': State, t: nat, q: nat) {
    && t < |s.threads| && q < |s.slots|
    && var x := s.threads[t];
    && x.stage == Relinking(q) && x.call == NoCall
    && ThreadBecomes(s, s', t, x.(stage := Scanning))
    && s'.combine == s.combine + [q] && s'.eventfd == s.eventfd && s'.slots == s.slots && SameWork(s, s')
  }

  /** No more tasks: the reference of the run goes. */
  predicate DoneStep(s: State, s': State, t: nat, q: nat) {
    && t < |s.threads| && q < |s.slots|
    && var x := s.threads[t];
    && x.stage == Dropping(q, false) && x.call == NoCall
    && ThreadBecomes(s, s', t, x.(stage := Scanning))
    && SlotBecomes(s, s', q, Released(s.slots[q]))
    && SameLoop(s, s')
  }

  // ---------------------------------------------------------------------------
  // Executions
  // ---------------------------------------------------------------------------

  predicate ReferenceStep(s: State, s': State, q: nat) {
    && q < |s.slots|
    && (|| CreateStep(s, s', q) || CopyStep(s, s', q) || CloseStep(s, s', q)
      || UpgradeStep(s, s', q) || DowngradeStep(s, s', q) || GiveStep(s, s', q))
  }

  ghost predicate CallStep(s: State, s': State, t: nat, q: nat) {
    && t < |s.threads| && q < |s.slots|
    && (|| (exists via, task :: EnterStep(s, s', t, q, via, task))
      || PushStep(s, s', t, q) || AcquireStep(s, s', t, q) || LinkStep(s, s', t, q) || SignalStep(s, s', t, q))
  }

  predicate IdleStep(s: State, s': State, t: nat) {
    && t < |s.threads|
    && (WakeStep(s, s', t) || ReadStep(s, s', t) || SleepStep(s, s', t) || TakeStep(s, s', t))
  }

  ghost predicate RunStep(s: State, s': State, t: nat, q: nat) {
    && t < |s.threads| && q < |s.slots|
    && (|| BeginStep(s, s', t, q) || KeepStep(s, s', t, q) || SyncStep(s, s', t, q)
      || (exists armed :: TimersStep(s, s', t, q, armed))
      || NextTaskStep(s, s', t, q) || DoneStep(s, s', t, q) || RelinkStep(s, s', t, q)
      || (exists limit :: GoOnStep(s, s', t, q, limit)))
  }

  predicate GrowStep(s: State, s': State) {
    && s'.slots == s.slots + [Slot(Free, 0, 0, 0, 0, false, 0, [], [], [])]
    && s'.threads == s.threads && SameLoop(s, s')
  }

  /** A thread outside the loop. */
  predicate SpawnStep(s: State, s': State) {
    && s'.threads == s.threads + [Thread(false, Idle, NoCall)]
    && s'.slots == s.slots && SameLoop(s, s')
  }

  ghost predicate Next(s: State, s': State) {
    || (exists q: nat :: q < |s.slots| && ReferenceStep(s, s', q))
    || (exists t: nat, q: nat :: t < |s.threads| && q < |s.slots| && CallStep(s, s', t, q))
    || (exists t: nat :: t < |s.threads| && IdleStep(s, s', t))
    || (exists t: nat, q: nat :: t < |s.threads| && q < |s.slots| && RunStep(s, s', t, q))
    || (exists t: nat, q: nat :: t < |s.threads| && q < |s.slots| && ScriptStep(s, s', t, q))
    || LeaveStep(s, s') || GrowStep(s, s') || SpawnStep(s, s')
  }

  /** The workers of a loop, none of which has looked into the combine. */
  predicate Init(s: State) {
    && s.slots == [] && s.combine == [] && s.eventfd == 0 && s.work == 0 && s.leavers == 0
    && forall t | 0 <= t < |s.threads| :: s.threads[t] == Thread(true, Scanning, NoCall)
  }

  ghost predicate Linked(run: seq<State>, i: nat)
    requires 0 < i < |run|
  {
    Next(run[i - 1], run[i])
  }

  ghost predicate Execution(run: seq<State>) {
    && |run| > 0 && Init(run[0])
    && forall i | 0 < i < |run| :: Linked(run, i)
  }
}
