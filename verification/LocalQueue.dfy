/**
 The local queue of a worker (src/worker.c), which is woken by a signal.

 A push into the empty list sends the signal. The signal is blocked except
 while the worker waits in epoll_pwait, its handler only sets a flag, and the
 flag is cleared after the queue has been served, when new pushes may already
 have come. The queue has no loop and no combine: its signal stands for both.
 */
module LocalQueue {
  import opened Tally

  datatype Pusher = Pushing(task: nat) | Waking | Gone

  /** Where the worker is in ntt_worker_svc_with_mask and the callbacks under it. */
  datatype Stage =
    | Working    // in the service callback, signals blocked
    | Polling    // in epoll_pwait, signals let through
    | Checking   // the callback has returned, the flag is tested next
    | Serving    // in ntt_queue_svc, at the head of the list
    | Clearing   // the list was served out, the flag is cleared next

  datatype State = State(
    tasks: seq<nat>, pushed: seq<nat>, ran: seq<nat>,
    pushers: seq<Pusher>, signals: nat, flag: bool, stage: Stage)

  // ---------------------------------------------------------------------------
  // Steps
  // ---------------------------------------------------------------------------

  predicate SameList(s: State, s': State) {
    s'.tasks == s.tasks && s'.pushed == s.pushed && s'.ran == s.ran
  }

  predicate SameWorker(s: State, s': State) {
    s'.stage == s.stage && s'.flag == s.flag
  }

  /** ntt_worker_push_task is called, by any thread, this worker included. */
  predicate ArriveStep(s: State, s': State, task: nat) {
    && s'.pushers == s.pushers + [Pushing(task)]
    && SameList(s, s') && SameWorker(s, s') && s'.signals == s.signals
  }

  predicate PushStep(s: State, s': State, t: nat) {
    && t < |s.pushers|
    && s.pushers[t].Pushing?
    && s'.tasks == s.tasks + [s.pushers[t].task] && s'.pushed == s.pushed + [s.pushers[t].task] && s'.ran == s.ran
    && s'.pushers == s.pushers[t := if s.tasks == [] then Waking else Gone]
    && SameWorker(s, s') && s'.signals == s.signals
  }

  /** ntt_worker_local_queue_wakeup. */
  predicate WakeStep(s: State, s': State, t: nat) {
    && t < |s.pushers|
    && s.pushers[t] == Waking
    && s'.pushers == s.pushers[t := Gone] && s'.signals == s.signals + 1
    && SameList(s, s') && SameWorker(s, s')
  }

  predicate SameOutside(s: State, s': State) {
    s'.pushers == s.pushers
  }

  predicate PollStep(s: State, s': State) {
    && s.stage == Working && s'.stage == Polling && s'.flag == s.flag
    && s'.signals == s.signals && SameList(s, s') && SameOutside(s, s')
  }

  /** An event is reported and dispatched, or another signal ends the wait. */
  predicate ReturnStep(s: State, s': State) {
    && s.stage == Polling && (s'.stage == Working || s'.stage == Checking) && s'.flag == s.flag
    && s'.signals == s.signals && SameList(s, s') && SameOutside(s, s')
  }

  /** The handler runs for the signals that were pending, and the wait ends. */
  predicate SignalStep(s: State, s': State) {
    && s.stage == Polling && s.signals > 0
    && s'.stage == Checking && s'.flag && s'.signals < s.signals
    && SameList(s, s') && SameOutside(s, s')
  }

  predicate CheckStep(s: State, s': State) {
    && s.stage == Checking && s'.stage == (if s.flag then Serving else Working) && s'.flag == s.flag
    && s'.signals == s.signals && SameList(s, s') && SameOutside(s, s')
  }

  /** The body of the head is over and the head is unlinked. */
  predicate ServeStep(s: State, s': State) {
    && s.stage == Serving && s.tasks != []
    && s'.tasks == s.tasks[1..] && s'.ran == s.ran + [s.tasks[0]] && s'.pushed == s.pushed
    && s'.stage == (if |s.tasks| == 1 then Clearing else Serving) && s'.flag == s.flag
    && s'.signals == s.signals && SameOutside(s, s')
  }

  predicate ClearStep(s: State, s': State) {
    && s.stage == Clearing && s'.stage == Working && !s'.flag
    && s'.signals == s.signals && SameList(s, s') && SameOutside(s, s')
  }

  predicate WorkerStep(s: State, s': State) {
    PollStep(s, s') || ReturnStep(s, s') || SignalStep(s, s') || CheckStep(s, s') || ServeStep(s, s')
        || ClearStep(s, s')
  }

  ghost predicate Next(s: State, s': State) {
    || (exists task :: ArriveStep(s, s', task))
    || (exists t: nat :: t < |s.pushers| && (PushStep(s, s', t) || WakeStep(s, s', t)))
    || WorkerStep(s, s')
  }

  predicate Init(s: State) {
    s == State([], [], [], [], 0, false, Working)
  }

  ghost predicate Linked(run: seq<State>, i: nat)
    requires 0 < i < |run|
  {
    Next(run[i - 1], run[i])
  }

  ghost predicate Execution(run: seq<State>) {
    |run| > 0 && Init(run[0]) && forall i | 0 < i < |run| :: Linked(run, i)
  }

  // ---------------------------------------------------------------------------
  // The invariant
  // ---------------------------------------------------------------------------

  function WakingOf(): Pusher -> nat { (p: Pusher) => One(p == Waking) }

  /** The worker knows of the tasks. */
  predicate Knows(s: State) { s.stage == Serving || (s.stage == Checking && s.flag) }

  ghost predicate Inv(s: State) {
    && One(s.tasks != []) == Sum(s.pushers, WakingOf()) + s.signals + One(Knows(s))
    && (s.stage == Serving || s.stage == Clearing ==> s.flag)
    && (s.stage == Working || s.stage == Polling ==> !s.flag)
    && s.pushed == s.ran + s.tasks
  }

  lemma NextKeeps(s: State, s': State)
    requires Inv(s) && Next(s, s')
    ensures Inv(s')
  {
    if task :| ArriveStep(s, s', task) {
      SumAppend(s.pushers, Pushing(task), WakingOf());
    } else if t: nat :| t < |s.pushers| && (PushStep(s, s', t) || WakeStep(s, s', t)) {
      SumUpdate(s.pushers, t, s'.pushers[t], WakingOf());
    }
  }

  lemma {:induction false} Reachable(run: seq<State>, i: nat)
    requires Execution(run) && i < |run|
    ensures Inv(run[i])
  {
    if i > 0 {
      Reachable(run, i - 1);
      assert Linked(run, i);
      NextKeeps(run[i - 1], run[i]);
    }
  }

  // ---------------------------------------------------------------------------
  // What every run keeps to
  // ---------------------------------------------------------------------------

  /**
   Tasks are in the local queue exactly while one wakeup for them exists: with
   a pusher, as a pending signal, or with the worker. Clearing the flag after
   the service loses none, because the signal is blocked until then.
   */
  lemma OneWakeup(run: seq<State>, i: nat)
    requires Execution(run) && i < |run|
    ensures var s := run[i]; One(s.tasks != []) == Sum(s.pushers, WakingOf()) + s.signals + One(Knows(s))
  {
    Reachable(run, i);
  }

  /** ntt_queue_svc is entered, and goes on, only with a task to run, as it asserts. */
  lemma ServiceFindsTask(run: seq<State>, i: nat)
    requires Execution(run) && i < |run| && (run[i].stage == Serving || (run[i].stage == Checking && run[i].flag))
    ensures run[i].tasks != []
  {
    Reachable(run, i);
  }

  /** Local tasks, the stop task among them, are run once each in the order of the pushes. */
  lemma LocalTasksInOrder(run: seq<State>, i: nat)
    requires Execution(run) && i < |run|
    ensures run[i].pushed == run[i].ran + run[i].tasks
  {
    Reachable(run, i);
  }

  /** A worker that waits with no signal pending and no push under way has nothing left to do. */
  lemma NoLocalTaskForgotten(run: seq<State>, i: nat)
    requires Execution(run) && i < |run| && run[i].stage == Polling && run[i].signals == 0
    requires forall t | 0 <= t < |run[i].pushers| :: run[i].pushers[t] == Gone
    ensures run[i].tasks == [] && run[i].ran == run[i].pushed
  {
    Reachable(run, i);
    SumZero(run[i].pushers, WakingOf());
  }
}
