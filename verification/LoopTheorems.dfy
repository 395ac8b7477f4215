/** What a loop promises, for every execution of its workers, queues and events together. */
module LoopTheorems {
  import opened Tally
  import opened LoopProtocol
  import opened LoopWork
  import opened LoopInvariant
  import Q = QueueProtocol
  import QI = QueueInvariant
  import QT = QueueTheorems
  import E = EventProtocol
  import EI = EventInvariant
  import L = LoopStop

  // ---------------------------------------------------------------------------
  // The count of work
  // ---------------------------------------------------------------------------

  /**
   The count of work is the hold of ntt_loop_run, plus the queues alive or
   dying, plus the events that count as work, plus what queues and events
   already given back have yet to take off it.
   */
  lemma WorkIsLife(run: seq<State>, i: nat)
    requires Execution(run) && i < |run|
    ensures var s := run[i];
            s.work == One(s.hold) + Sum(s.queues.slots, TenantOf()) + s.queues.leavers + Sum(s.events, EventWork())
  {
    hide QI.Inv, EventsSound, StartSound, HandlesSound, CrewSound;
    Reachable(run, i);
  }

  /** While a queue has a reference the count is positive, which is what entering and leaving assert. */
  lemma LifeIsWork(run: seq<State>, i: nat, q: nat)
    requires Execution(run) && i < |run| && q < |run[i].queues.slots| && run[i].queues.slots[q].refs > 0
    ensures run[i].work > 0
  {
    hide QueuesFit, EventsSound, StartSound, HandlesSound, CrewSound;
    Reachable(run, i);
    LifeCounts(run[i], q);
  }

  /** Nothing is created, and no event opened that counts, but while the count is positive. */
  lemma EnteringHasWork(run: seq<State>, i: nat)
    requires Execution(run) && 0 < i < |run| && run[i].work > run[i - 1].work
    ensures run[i - 1].work > 0
  {
    hide Inv, Next;
    Reachable(run, i - 1);
    Reachable(run, i);
    assert Linked(run, i);
    if run[i - 1].work == 0 {
      ZeroStays(run[i - 1], run[i]);
    }
    CountIsNatural(run[i - 1]);
  }

  lemma CountIsNatural(s: State)
    requires Inv(s)
    ensures s.work >= 0
  {
    WorkIsPositive(s);
  }

  /** At zero nothing is alive: no queue, no event that counts, nobody on the way out of either. */
  lemma ZeroMeansNothingLives(run: seq<State>, i: nat)
    requires Execution(run) && i < |run| && run[i].work == 0
    ensures var s := run[i];
            && !s.hold && s.queues.leavers == 0
            && (forall q: nat | q < |s.queues.slots| :: s.queues.slots[q].life == Q.Free && s.queues.slots[q].refs == 0)
            && (forall e | 0 <= e < |s.events| :: s.events[e].phase == E.Vacant || !s.events[e].cfg.work)
  {
    hide QI.Inv, EventsSound, StartSound, HandlesSound, CrewSound;
    var s := run[i];
    Reachable(run, i);
    forall q: nat | q < |s.queues.slots| ensures s.queues.slots[q].life == Q.Free && s.queues.slots[q].refs == 0 {
      SumMember(s.queues.slots, q, TenantOf());
      FreeIsUnreferenced(s.queues, q);
    }
    forall e | 0 <= e < |s.events| ensures s.events[e].phase == E.Vacant || !s.events[e].cfg.work {
      SumMember(s.events, e, EventWork());
    }
  }

  /** At zero every thread is through with the queues: it is in no push, and a worker has no queue in hand. */
  lemma ZeroMeansNobodyWorks(run: seq<State>, i: nat, t: nat)
    requires Execution(run) && i < |run| && run[i].work == 0 && t < |run[i].queues.threads|
    ensures var x := run[i].queues.threads[t];
            x.call == Q.NoCall && (x.stage == Q.Idle || x.stage == Q.Asleep || x.stage == Q.Scanning)
  {
    hide EventsSound, StartSound, HandlesSound, CrewSound, CountSound;
    var s := run[i].queues;
    Reachable(run, i);
    ZeroMeansNothingLives(run, i);
    var x := s.threads[t];
    assert QI.ThreadSound(x, |s.slots|);
    if !x.call.NoCall? {
      QT.NobodyWorksOnTheDead(s, t, x.call.q);
    }
    if x.stage.Starting? || x.stage.Running? || x.stage.Dropping? || x.stage.Relinking? {
      QT.NobodyWorksOnTheDead(s, t, x.stage.q);
    }
  }

  // ---------------------------------------------------------------------------
  // Zero
  // ---------------------------------------------------------------------------

  /** A count that is gone stays gone: there is nobody left to enter. */
  lemma ZeroStays(s: State, s': State)
    requires Inv(s) && Next(s, s') && Inv(s') && s.work == 0
    ensures s'.work == 0 && s'.crew.zeros == s.crew.zeros
  {
    hide QueuesFit, EventsSound, StartSound, HandlesSound, L.Sound, QueuesAct, EventActs;
    WorkIsPositive(s');
    WorkIsPositive(s);
    if QueueStep(s, s') {
      QueuesKeepGoing(s, s'.queues);
      if s'.work > s.work {
        CreatorsHaveWork(s);
      }
    } else if e: nat :| EventStep(s, s', e) {
      EventStaysAtZero(s, s', e);
    } else if WorkerStep(s, s') {
      ZerosStay(s.crew, s'.crew);
    }
  }

  lemma EventStaysAtZero(s: State, s': State, e: nat)
    requires Inv(s) && EventStep(s, s', e) && s.work == 0
    ensures s'.work <= 0
  {
    hide Inv, OpenStep, AgentStep, ArriveStep;
    if cfg :| OpenStep(s, s', e, cfg) {
      OpenGoesOn(s, s', e, cfg);
    } else if t: nat :| AgentStep(s, s', e, t) {
      AgentGoesOn(s, s', e, t);
    } else {
      var agent :| ArriveStep(s, s', e, agent);
      ArrivalGoesOn(s, s', e, agent);
    }
  }

  lemma ZerosStay(c: L.Crew, c': L.Crew)
    requires L.CrewStep(c, c')
    ensures c'.zeros == c.zeros
  {
  }

  /** Zero is reached once and never left. */
  lemma {:induction false} ZeroOnce(run: seq<State>, i: nat, j: nat)
    requires Execution(run) && i <= j < |run|
    ensures run[j].crew.zeros <= 1
    ensures run[i].work == 0 ==> run[j].work == 0 && run[j].crew.zeros == run[i].crew.zeros
  {
    hide Inv, Next;
    Reachable(run, j);
    ZerosAtMostOne(run[j]);
    if i < j {
      ZeroOnce(run, i, j - 1);
      Reachable(run, j - 1);
      assert Linked(run, j);
      if run[j - 1].work == 0 {
        ZeroStays(run[j - 1], run[j]);
      }
    }
  }

  lemma ZerosAtMostOne(s: State)
    requires Inv(s)
    ensures s.crew.zeros <= 1
  {
  }

  /** The work goes only after the rendezvous: at zero every slot of the loop is filled, and no worker is NULL. */
  lemma SlotsFilledAtZero(run: seq<State>, i: nat, t: nat)
    requires Execution(run) && i < |run| && run[i].work == 0 && t < |run[i].crew.workers|
    ensures run[i].crew.workers[t].slot && L.Counted(run[i].crew.workers[t].stage)
  {
    hide QueuesFit, EventsSound, StartSound, HandlesSound, CountSound;
    Reachable(run, i);
    L.SlotsFilled(run[i].crew, t);
  }

  /** Until all workers have come, nothing has run, and the first task is still there to be run. */
  lemma NothingRunsEarly(run: seq<State>, i: nat)
    requires Execution(run) && i < |run| && run[i].crew.entered < |run[i].crew.workers|
    ensures Untouched(run[i].queues) && (run[i].hold || HasTasks(run[i].queues)) && run[i].work > 0
  {
    hide QueuesFit, EventsSound, HandlesSound, CountSound;
    Reachable(run, i);
    WorkIsPositive(run[i]);
  }

  // ---------------------------------------------------------------------------
  // The workers
  // ---------------------------------------------------------------------------

  /**
   A worker is sent one stop task, by whichever of the two releases came
   second, and none before both have happened and the work is gone.
   */
  lemma OneStopTask(run: seq<State>, i: nat, t: nat)
    requires Execution(run) && i < |run| && t < |run[i].crew.workers|
    ensures var s, c := run[i], run[i].crew; var w := c.workers[t];
            && w.stops <= 1
            && (w.stops == 1 ==> s.work == 0 && L.OwnReleased(w.stage) && L.LoopReleased(c.stopper, t) && w.refs == 0)
            && (w.refs == 0 && w.slot && w.stage != L.Sending && c.stopper != L.Pushing(t) ==> w.stops == 1)
  {
    hide QueuesFit, EventsSound, StartSound, HandlesSound, CountSound;
    Reachable(run, i);
    var c := run[i].crew;
    assert L.WorkerSound(c.workers[t], L.LoopReleased(c.stopper, t), c.stopper == L.Pushing(t));
  }

  /** A worker that has its stop task, or has left, leaves no queue behind in the middle of its work. */
  lemma StoppedWorkerIsIdle(run: seq<State>, i: nat, t: nat)
    requires Execution(run) && i < |run| && t < |run[i].crew.workers| && t < |run[i].queues.threads|
    requires run[i].crew.workers[t].stops > 0
    ensures var x := run[i].queues.threads[t];
            x.call == Q.NoCall && (x.stage == Q.Idle || x.stage == Q.Asleep || x.stage == Q.Scanning)
  {
    OneStopTask(run, i, t);
    ZeroMeansNobodyWorks(run, i, t);
  }

  /** The stopper reads the slots while no stop task exists, and a worker it has yet to release is still there. */
  lemma StopperFindsWorkers(run: seq<State>, i: nat, t: nat)
    requires Execution(run) && i < |run| && t < |run[i].crew.workers|
    ensures var c := run[i].crew;
            && (c.stopper == L.Snapshot ==> c.workers[t].stops == 0)
            && (!L.LoopReleased(c.stopper, t) || c.stopper == L.Pushing(t) ==> c.workers[t].stage != L.Left)
  {
    hide QueuesFit, EventsSound, StartSound, HandlesSound, CountSound;
    Reachable(run, i);
    var c := run[i].crew;
    assert L.WorkerSound(c.workers[t], L.LoopReleased(c.stopper, t), c.stopper == L.Pushing(t));
  }

  /** When all workers have left, and the loop is freed, the stopper is through with them and nothing is alive. */
  lemma LoopOutlivesStopper(run: seq<State>, i: nat)
    requires Execution(run) && i < |run|
    requires forall t | 0 <= t < |run[i].crew.workers| :: run[i].crew.workers[t].stage == L.Left
    ensures run[i].crew.stopper == L.Releasing(|run[i].crew.workers|) && run[i].work == 0
  {
    hide QueuesFit, EventsSound, StartSound, HandlesSound, CountSound;
    Reachable(run, i);
    var c := run[i].crew;
    var last := |c.workers| - 1;
    assert L.WorkerSound(c.workers[last], L.LoopReleased(c.stopper, last), c.stopper == L.Pushing(last));
  }

  /** Every worker is stopped in the end: once the stopper is through, a worker that serves has its stop task. */
  lemma EveryWorkerIsStopped(run: seq<State>, i: nat, t: nat)
    requires Execution(run) && i < |run| && t < |run[i].crew.workers|
    requires run[i].crew.stopper == L.Releasing(|run[i].crew.workers|) && run[i].crew.workers[t].stage == L.Serving
    ensures run[i].crew.workers[t].stops == 1
  {
    hide QueuesFit, EventsSound, StartSound, HandlesSound, CountSound;
    Reachable(run, i);
    var c := run[i].crew;
    assert L.WorkerSound(c.workers[t], L.LoopReleased(c.stopper, t), c.stopper == L.Pushing(t));
  }

  /** A step of the workers and of nobody else. */
  ghost predicate CrewActs(run: seq<State>, i: nat)
    requires 0 < i < |run|
  {
    WorkerStep(run[i - 1], run[i])
  }

  lemma {:induction false} CrewRunIsBounded(run: seq<State>, i: nat)
    requires |run| > 0 && Inv(run[0]) && (forall k | 0 < k < |run| :: CrewActs(run, k)) && i < |run|
    ensures Inv(run[i]) && run[i].work == run[0].work
    ensures 0 <= L.CrewWork(run[i].crew) + i <= L.CrewWork(run[0].crew) || i == 0
  {
    hide Inv, L.CrewWork, L.CrewStep;
    if i > 0 {
      CrewRunIsBounded(run, i - 1);
      assert CrewActs(run, i);
      WorkerKeeps(run[i - 1], run[i]);
      CrewIsSound(run[i - 1]);
      L.CrewWorkShrinks(run[i - 1].crew, run[i].crew);
    }
  }

  lemma CrewIsSound(s: State)
    requires Inv(s)
    ensures L.Sound(s.crew) && (s.work == 0 <==> s.crew.stopper != L.NoStopper)
  {
  }

  /**
   The loop ends: from any reachable state in which the work is gone, the
   workers and the thread that stops them take at most as many steps as are
   left to them, and where they stop every worker has left.
   */
  lemma EveryWorkerLeaves(past: seq<State>, run: seq<State>)
    requires Execution(past) && |run| > 0 && run[0] == past[|past| - 1] && run[0].work == 0
    requires forall i | 0 < i < |run| :: CrewActs(run, i)
    ensures |run| == 1 || |run| - 1 <= L.CrewWork(run[0].crew)
    ensures var c := run[|run| - 1].crew;
            !L.CanStep(c) ==>
              && c.stopper == L.Releasing(|c.workers|)
              && forall t | 0 <= t < |c.workers| :: c.workers[t].stage == L.Left
  {
    hide Inv, L.CrewWork, L.CanStep;
    Reachable(past, |past| - 1);
    CrewRunIsBounded(run, |run| - 1);
    CrewIsSound(run[|run| - 1]);
    L.CrewWorkIsNatural(run[|run| - 1].crew);
    if !L.CanStep(run[|run| - 1].crew) {
      L.StuckCrewHasLeft(run[|run| - 1].crew);
    }
  }

  // ---------------------------------------------------------------------------
  // The queues of events
  // ---------------------------------------------------------------------------

  /** A queue is alive while an event holds it, from before the event is opened until after its slot was given back. */
  lemma HeldQueueIsAlive(run: seq<State>, i: nat, q: nat)
    requires Execution(run) && i < |run| && EventHandles(run[i], q) > 0
    ensures q < |run[i].queues.slots| && run[i].queues.slots[q].life == Q.Alive
  {
    hide Inv;
    Reachable(run, i);
    HeldIsAlive(run[i], q);
  }

  /** An event that has not been given back holds the queue of each side that has one. */
  lemma TenantHoldsQueue(run: seq<State>, i: nat, e: nat, side: E.Side)
    requires Execution(run) && i < |run| && e < |run[i].events|
    requires run[i].events[e].phase != E.Vacant && run[i].events[e].cfg.HasQueue(side)
    ensures var q := QueueOf(run[i].events[e].cfg, side);
            q < |run[i].queues.slots| && run[i].queues.slots[q].life == Q.Alive
  {
    hide Inv;
    Reachable(run, i);
    TenantIsAlive(run[i], e, side);
  }

  /**
   The queue a side task is posted to, the queue it runs in, and the queue a
   cancellation is reported to are alive at that moment.
   */
  lemma PostedQueueIsAlive(run: seq<State>, i: nat, e: nat, t: nat)
    requires Execution(run) && i < |run| && e < |run[i].events| && t < |run[i].events[e].agents|
    requires var a := run[i].events[e].agents[t]; a.PostReference? || a.PostPush? || Starts(a) || Calls(a)
    ensures var v := run[i].events[e]; var side := v.agents[t].side;
            v.cfg.HasQueue(side) ==>
              var q := QueueOf(v.cfg, side);
              q < |run[i].queues.slots| && run[i].queues.slots[q].life == Q.Alive
    ensures var v := run[i].events[e];
            !v.agents[t].ReportNext? && !v.agents[t].ReportCall? ==> v.cfg.HasQueue(v.agents[t].side)
  {
    hide QueuesFit, StartSound, HandlesSound, CrewSound, CountSound, EI.Inv;
    var v := run[i].events[e];
    Reachable(run, i);
    PosterHasTenant(v, t);
    if v.cfg.HasQueue(v.agents[t].side) {
      TenantIsAlive(run[i], e, v.agents[t].side);
    }
  }
}
