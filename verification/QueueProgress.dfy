/**
 Left to itself, the loop runs every task that was pushed, and every task those
 push.

 The steps of the system are those it takes without being asked: pushes under
 way go on, signals are written and delivered, workers take queues and run
 them, and a body makes the pushes of its script, to its own queue and to
 others, before it ends.
 */
module QueueProgress {
  import opened Tally
  import opened Tasks
  import opened QueueProtocol
  import opened QueueInvariant

  /** The eventfd is readable, so a sleeping worker wakes and takes one notification. */
  predicate DeliverStep(s: State, s': State, t: nat) {
    && t < |s.threads|
    && s.threads[t].stage == Asleep && s.eventfd > 0
    && ThreadBecomes(s, s', t, s.threads[t].(stage := Scanning))
    && s'.slots == s.slots && s'.combine == s.combine && s'.eventfd == s.eventfd - 1 && SameWork(s, s')
  }

  /** A body goes on: a sync if timers have changed, then its pushes, then its end. */
  predicate BodyStep(s: State, s': State, t: nat, q: nat) {
    && t < |s.threads| && q < |s.slots|
    && var stage := s.threads[t].stage;
    if stage.Running? && stage.dirty then SyncStep(s, s', t, q)
    else if stage.Running? && stage.left != [] then ScriptStep(s, s', t, q)
    else NextTaskStep(s, s', t, q)
  }

  predicate CallGoesOn(s: State, s': State, t: nat, q: nat) {
    && t < |s.threads| && q < |s.slots|
    && (PushStep(s, s', t, q) || AcquireStep(s, s', t, q) || LinkStep(s, s', t, q) || SignalStep(s, s', t, q))
  }

  predicate WorkerLooks(s: State, s': State, t: nat) {
    && t < |s.threads|
    && (DeliverStep(s, s', t) || SleepStep(s, s', t) || TakeStep(s, s', t))
  }

  ghost predicate QueueRuns(s: State, s': State, t: nat, q: nat) {
    && t < |s.threads| && q < |s.slots|
    && (|| BeginStep(s, s', t, q) || BodyStep(s, s', t, q) || DoneStep(s, s', t, q) || RelinkStep(s, s', t, q)
      || (exists limit :: GoOnStep(s, s', t, q, limit)))
  }

  ghost predicate Works(s: State, s': State) {
    || (exists t: nat, q: nat :: t < |s.threads| && q < |s.slots| && CallGoesOn(s, s', t, q))
    || (exists t: nat :: t < |s.threads| && WorkerLooks(s, s', t))
    || (exists t: nat, q: nat :: t < |s.threads| && q < |s.slots| && QueueRuns(s, s', t, q))
  }

  ghost predicate Worked(run: seq<State>, i: nat)
    requires 0 < i < |run|
  {
    Works(run[i - 1], run[i])
  }

  /** From some state on, only steps of the system. */
  ghost predicate Drain(run: seq<State>) {
    |run| > 0 && forall i | 0 < i < |run| :: Worked(run, i)
  }

  lemma DeliverKeeps(s: State, s': State, t: nat)
    requires Inv(s) && t < |s.threads| && DeliverStep(s, s', t)
    ensures Inv(s')
  {
    var woken := s.(threads := s'.threads);
    WakeKeeps(s, woken, t);
    assert ThreadSound(s.threads[t], |s.slots|);
    ReadKeeps(woken, s', t);
  }

  lemma WorksKeeps(s: State, s': State)
    requires Inv(s) && Works(s, s')
    ensures Inv(s')
  {
    if t: nat, q: nat :| t < |s.threads| && q < |s.slots| && CallGoesOn(s, s', t, q) { CallKeeps(s, s', t, q); }
    else if t: nat, q: nat :| t < |s.threads| && q < |s.slots| && QueueRuns(s, s', t, q) {
      if ScriptStep(s, s', t, q) {
        ScriptKeeps(s, s', t, q);
      } else {
        RunKeeps(s, s', t, q);
      }
    } else {
      var t: nat :| t < |s.threads| && WorkerLooks(s, s', t);
      if DeliverStep(s, s', t) {
        DeliverKeeps(s, s', t);
      } else {
        IdleKeeps(s, s', t);
      }
    }
  }

  // ---------------------------------------------------------------------------
  // What is left to do
  // ---------------------------------------------------------------------------

  /** A task weighs its bodies: twenty-two steps at most for each. */
  function PushOf(): Push -> nat { (push: Push) => Weight(push.task) }

  function ChildrenOf(): Task -> nat { (task: Task) => Weight(task) - 1 }

  function CallWork(call: Call): nat {
    match call
    case NoCall => 0
    case Pushing(_, _, task) => 20 + 22 * ChildrenOf()(task)
    case Acquiring(_, _) => 9
    case Linking(_, _) => 8
    case Signalling(_, _) => 3
  }

  function StageWork(stage: Stage): nat {
    match stage
    case Idle => 0
    case Asleep => 0
    case Scanning => 1
    case Starting(_) => 4
    case Running(_, dirty, left) => (if dirty then 3 else 2) + 22 * Sum(left, PushOf())
    case Dropping(_, _) => 8
    case Relinking(_) => 6
  }

  function ThreadWork(): Thread -> nat {
    (x: Thread) => StageWork(x.stage) + CallWork(x.call)
  }

  /** Tasks whose bodies have not begun. */
  function Waiting(v: Slot): seq<Task> {
    if |v.began| <= |v.pushed| then v.pushed[|v.began|..] else []
  }

  function SlotWork(): Slot -> nat {
    (v: Slot) => 10 * |v.tasks| + 22 * Sum(Waiting(v), ChildrenOf())
  }

  ghost function Work(s: State): nat {
    Sum(s.slots, SlotWork()) + Sum(s.threads, ThreadWork()) + 4 * |s.combine| + 2 * s.eventfd
  }

  /** The pushes of a body weigh what the task weighs beyond itself. */
  lemma {:induction false} ChildrenArePushes(task: Task, k: nat)
    requires k <= |task.pushes|
    ensures Sum(task.pushes[..k], PushOf()) == PushesWeight(task, k)
  {
    if k > 0 {
      ChildrenArePushes(task, k - 1);
      assert task.pushes[..k][..k - 1] == task.pushes[..k - 1];
    }
  }

  lemma PushesWeigh(task: Task)
    ensures Sum(task.pushes, PushOf()) == ChildrenOf()(task)
  {
    ChildrenArePushes(task, |task.pushes|);
    assert task.pushes[..|task.pushes|] == task.pushes;
  }

  /** The work after thread `t` and slot `q` have changed. */
  lemma WorkAfter(s: State, s': State, t: nat, q: nat)
    requires t < |s.threads| == |s'.threads| && q < |s.slots| == |s'.slots|
    requires s'.threads == s.threads[t := s'.threads[t]] && s'.slots == s.slots[q := s'.slots[q]]
    ensures Work(s') - Work(s)
         == SlotWork()(s'.slots[q]) - SlotWork()(s.slots[q])
            + ThreadWork()(s'.threads[t]) - ThreadWork()(s.threads[t])
            + 4 * (|s'.combine| - |s.combine|) + 2 * (s'.eventfd - s.eventfd)
  {
    SumUpdate(s.threads, t, s'.threads[t], ThreadWork());
    SumUpdate(s.slots, q, s'.slots[q], SlotWork());
  }

  /** A task that is pushed waits to begin. */
  lemma PushWaits(v: Slot, w: Slot, task: Task, bodies: nat)
    requires OrderSound(v.tasks, v.pushed, v.began, bodies)
    requires w.tasks == v.tasks + [task] && w.pushed == v.pushed + [task] && w.began == v.began
    ensures SlotWork()(w) == SlotWork()(v) + 10 + 22 * ChildrenOf()(task)
  {
    assert Waiting(w) == Waiting(v) + [task];
    SumAppend(Waiting(v), task, ChildrenOf());
  }

  /** A task that begins waits no more. */
  lemma BeginWaitsNoMore(v: Slot, w: Slot)
    requires OrderSound(v.tasks, v.pushed, v.began, 0) && v.tasks != []
    requires w.tasks == v.tasks && w.pushed == v.pushed && w.began == v.began + [v.tasks[0]]
    ensures SlotWork()(w) == SlotWork()(v) - 22 * ChildrenOf()(v.tasks[0])
  {
    assert Waiting(w) == Waiting(v)[1..] && Waiting(v)[0] == v.tasks[0];
    SumFirst(Waiting(v), ChildrenOf());
  }

  lemma CallShrinks(s: State, s': State, t: nat, q: nat)
    requires Inv(s) && t < |s.threads| && q < |s.slots| && CallGoesOn(s, s', t, q)
    ensures Work(s') < Work(s)
  {
    hide Work, Sum, Weight;
    WorkAfter(s, s', t, q);
    if PushStep(s, s', t, q) {
      assert SlotSound(s, q);
      PushWaits(s.slots[q], s'.slots[q], s.threads[t].call.task, CountsOf(s.threads, q).bodies);
    }
  }

  lemma LookShrinks(s: State, s': State, t: nat)
    requires t < |s.threads| && WorkerLooks(s, s', t)
    ensures Work(s') < Work(s)
  {
    SumUpdate(s.threads, t, s'.threads[t], ThreadWork());
  }

  lemma BeginShrinks(s: State, s': State, t: nat, q: nat)
    requires Inv(s) && t < |s.threads| && q < |s.slots| && BeginStep(s, s', t, q)
    ensures Work(s') < Work(s)
  {
    hide Work, Sum, Weight;
    WorkAfter(s, s', t, q);
    RunnerFindsTask(s, t, q);
    NoBodyElsewhere(s, t, q);
    assert SlotSound(s, q);
    BeginWaitsNoMore(s.slots[q], s'.slots[q]);
    PushesWeigh(s.slots[q].tasks[0]);
  }

  lemma ScriptShrinks(s: State, s': State, t: nat, q: nat)
    requires t < |s.threads| && q < |s.slots| && ScriptStep(s, s', t, q)
    ensures Work(s') < Work(s)
  {
    hide Work, Sum;
    var mid := Advanced(s, t);
    var left := s.threads[t].stage.left;
    assert mid.slots == mid.slots[q := mid.slots[q]];
    WorkAfter(s, mid, t, q);
    SumFirst(left, PushOf());
    if MayPush(s, q, left[0].queue) {
      WorkAfter(mid, s', t, left[0].queue);
    }
  }

  lemma RunShrinks(s: State, s': State, t: nat, q: nat)
    requires Inv(s) && t < |s.threads| && q < |s.slots| && QueueRuns(s, s', t, q)
    requires !BeginStep(s, s', t, q) && !ScriptStep(s, s', t, q)
    ensures Work(s') < Work(s)
  {
    hide Work, Sum;
    assert s.slots == s.slots[q := s.slots[q]];
    WorkAfter(s, s', t, q);
    if StageHasToken(s.threads[t].stage, q) {
      RunnerFindsTask(s, t, q);
    }
  }

  lemma WorkShrinks(s: State, s': State)
    requires Inv(s) && Works(s, s')
    ensures Work(s') < Work(s)
  {
    if t: nat, q: nat :| t < |s.threads| && q < |s.slots| && CallGoesOn(s, s', t, q) { CallShrinks(s, s', t, q); }
    else if t: nat, q: nat :| t < |s.threads| && q < |s.slots| && QueueRuns(s, s', t, q) {
      if BeginStep(s, s', t, q) { BeginShrinks(s, s', t, q); }
      else if ScriptStep(s, s', t, q) { ScriptShrinks(s, s', t, q); }
      else { RunShrinks(s, s', t, q); }
    }
    else { var t: nat :| t < |s.threads| && WorkerLooks(s, s', t); LookShrinks(s, s', t); }
  }

  // ---------------------------------------------------------------------------
  // Nothing waits for nothing
  // ---------------------------------------------------------------------------

  ghost predicate Stuck(s: State) { forall s' :: !Works(s, s') }

  ghost predicate CanWork(s: State) { exists s' :: Works(s, s') }

  lemma CallCanGoOn(s: State, t: nat)
    requires t < |s.threads| && ThreadSound(s.threads[t], |s.slots|) && s.threads[t].call != NoCall
    ensures CanWork(s)
  {
    var x := s.threads[t];
    var q := x.call.q;
    var v := s.slots[q];
    var s' :=
      match x.call
      case Pushing(_, via, task) =>
        var w := v.(tasks := v.tasks + [task], pushed := v.pushed + [task]);
        if v.tasks == [] then s.(threads := s.threads[t := x.(call := Acquiring(q, via))], slots := s.slots[q := w])
        else s.(threads := s.threads[t := x.(call := NoCall)], slots := s.slots[q := Returned(w, via)])
      case Acquiring(_, via) =>
        s.(threads := s.threads[t := x.(call := Linking(q, via))], slots := s.slots[q := Acquired(v)])
      case Linking(_, via) =>
        if s.combine == [] && !x.worker then
          s.(threads := s.threads[t := x.(call := Signalling(q, via))], slots := s.slots[q := v],
              combine := s.combine + [q])
        else
          s.(threads := s.threads[t := x.(call := NoCall)], slots := s.slots[q := Returned(v, via)],
              combine := s.combine + [q])
      case Signalling(_, via) =>
        s.(threads := s.threads[t := x.(call := NoCall)], slots := s.slots[q := Returned(v, via)],
            eventfd := s.eventfd + 1);
    assert CallGoesOn(s, s', t, q);
    assert Works(s, s');
  }

  lemma ScanCanGoOn(s: State, t: nat)
    requires t < |s.threads| && s.threads[t].call == NoCall
    requires s.threads[t].stage == Scanning || (s.threads[t].stage == Asleep && s.eventfd > 0)
    ensures CanWork(s)
  {
    var x := s.threads[t];
    var s' :=
      if x.stage == Asleep then s.(threads := s.threads[t := x.(stage := Scanning)], eventfd := s.eventfd - 1)
      else if s.combine == [] then s.(threads := s.threads[t := x.(stage := Asleep)])
      else s.(threads := s.threads[t := x.(stage := Starting(s.combine[0]))], combine := s.combine[1..]);
    assert WorkerLooks(s, s', t);
    assert Works(s, s');
  }

  /** What the next push of a body leads to. */
  function ScriptAfter(s: State, t: nat, q: nat): State
    requires t < |s.threads| && q < |s.slots| && s.threads[t].stage.Running? && s.threads[t].stage.q == q
    requires s.threads[t].stage.left != []
  {
    var push := s.threads[t].stage.left[0];
    var mid := Advanced(s, t);
    if !MayPush(s, q, push.queue) then mid
    else
      var v := s.slots[push.queue];
      var via := if push.queue == q then Self else Handle;
      mid.(threads := mid.threads[t := mid.threads[t].(call := Pushing(push.queue, via, push.task))],
           slots := s.slots[push.queue := if via == Self then v else v.(handles := v.handles - 1)])
  }

  lemma RunCanGoOn(s: State, t: nat, q: nat)
    requires t < |s.threads| && q < |s.slots| && s.threads[t].call == NoCall && Holds(s.threads[t].stage, q)
    ensures CanWork(s)
  {
    var x := s.threads[t];
    var v := s.slots[q];
    var s' :=
      if x.stage.Starting? then
        s.(threads := s.threads[t := x.(stage := Running(q, false, if v.tasks == [] then [] else v.tasks[0].pushes))],
           slots := s.slots[q := v.(began := v.began + v.tasks[..Min(|v.tasks|, 1)])])
      else if x.stage.Running? && x.stage.dirty then
        s.(threads := s.threads[t := x.(stage := Running(q, false, x.stage.left))], slots := s.slots[q := Synced(v)])
      else if x.stage.Running? && x.stage.left != [] then
        ScriptAfter(s, t, q)
      else if x.stage.Running? then
        s.(threads := s.threads[t := x.(stage := Dropping(q, |v.tasks| > 1))],
            slots := s.slots[q := v.(tasks := v.tasks[Min(|v.tasks|, 1)..])])
      else if x.stage == Dropping(q, true) then
        s.(threads := s.threads[t := x.(stage := Starting(q))])
      else if x.stage.Dropping? then
        s.(threads := s.threads[t := x.(stage := Scanning)], slots := s.slots[q := Released(v)])
      else
        s.(threads := s.threads[t := x.(stage := Scanning)], combine := s.combine + [q]);
    if x.stage.Dropping? && x.stage.more {
      assert GoOnStep(s, s', t, q, false);
    }
    assert QueueRuns(s, s', t, q);
    assert Works(s, s');
  }

  /** A thread that is not at rest can go on. */
  lemma ThreadRests(s: State, t: nat)
    requires Inv(s) && Stuck(s) && t < |s.threads|
    ensures s.threads[t].call == NoCall && (s.threads[t].stage == Idle
            || (s.threads[t].stage == Asleep && s.eventfd == 0))
  {
    var x := s.threads[t];
    assert ThreadSound(x, |s.slots|);
    if x.call != NoCall {
      CallCanGoOn(s, t);
    } else if x.stage == Scanning || (x.stage == Asleep && s.eventfd > 0) {
      ScanCanGoOn(s, t);
    } else if x.stage != Idle && x.stage != Asleep {
      RunCanGoOn(s, t, x.stage.q);
    }
  }

  /**
   With a worker to run them, a state in which nothing can happen has no task
   left in any queue, and every task pushed has run.
   */
  lemma StuckIsDone(s: State, worker: nat, q: nat)
    requires Inv(s) && Stuck(s) && worker < |s.threads| && s.threads[worker].worker && q < |s.slots|
    ensures s.combine == [] && s.slots[q].tasks == [] && s.slots[q].began == s.slots[q].pushed
  {
    forall t: nat | t < |s.threads|
      ensures Share(s.threads[t], q) == Counts(0, 0, 0, 0) && AwakeOf()(s.threads[t]) == 0
              && SignalOf()(s.threads[t]) == 0
    {
      ThreadRests(s, t);
      assert ThreadSound(s.threads[t], |s.slots|);
    }
    SumZero(s.threads, AwakeOf());
    SumZero(s.threads, SignalOf());
    SumZero(s.threads, TokenOf(q));
    SumZero(s.threads, BodyOf(q));
    ThreadRests(s, worker);
    assert ThreadSound(s.threads[worker], |s.slots|);
    assert SlotSound(s, q);
  }

  lemma {:induction false} DrainKeeps(run: seq<State>, i: nat)
    requires Drain(run) && Inv(run[0]) && i < |run|
    ensures Inv(run[i]) && Work(run[i]) + i <= Work(run[0])
  {
    if i > 0 {
      DrainKeeps(run, i - 1);
      assert Worked(run, i);
      WorksKeeps(run[i - 1], run[i]);
      WorkShrinks(run[i - 1], run[i]);
    }
  }

  /**
   Every task is run: from any reachable state, the system left to itself
   stops within a bound known at the start, and where it stops every task that
   was pushed has been started, in every queue and whatever limits the workers
   keep to.
   */
  lemma EveryTaskRuns(past: seq<State>, run: seq<State>, worker: nat, q: nat)
    requires Execution(past) && Drain(run) && run[0] == past[|past| - 1]
    ensures |run| <= Work(run[0]) + 1
    ensures var s := run[|run| - 1];
            Stuck(s) && worker < |s.threads| && s.threads[worker].worker && q < |s.slots| ==>
              s.slots[q].tasks == [] && s.slots[q].began == s.slots[q].pushed
  {
    hide Inv, Works, Work;
    Reachable(past, |past| - 1);
    DrainKeeps(run, |run| - 1);
    var s := run[|run| - 1];
    if Stuck(s) && worker < |s.threads| && s.threads[worker].worker && q < |s.slots| {
      StuckIsDone(s, worker, q);
    }
  }
}
