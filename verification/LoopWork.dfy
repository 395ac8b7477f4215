/**
 Why a loop ends when it should: the count of work is the number of things
 alive, it cannot go before the workers have met, and it never comes back.
 */
module LoopWork {
  import opened Tally
  import opened LoopProtocol
  import Q = QueueProtocol
  import QI = QueueInvariant
  import E = EventProtocol
  import EI = EventInvariant
  import ES = EventSafety

  // ---------------------------------------------------------------------------
  // The share of the queues
  // ---------------------------------------------------------------------------

  /** The slot has a tenant that has not been given back. */
  function TenantOf(): Q.Slot -> nat { (v: Q.Slot) => One(v.life != Q.Free) }

  ghost predicate QueuesSound(s: Q.State) {
    s.work == Sum(s.slots, TenantOf()) + s.leavers
  }

  /** What a step may do to a slot and to the work: one slot keeps its tenant, gets one, or loses one to a leaver. */
  ghost predicate SlotTurns(s: Q.State, s': Q.State, q: nat) {
    && q < |s.slots| == |s'.slots| && s'.slots == s.slots[q := s'.slots[q]]
    && s'.work - s'.leavers - (s.work - s.leavers) == TenantOf()(s'.slots[q]) - TenantOf()(s.slots[q])
  }

  lemma TurnKeepsWork(s: Q.State, s': Q.State, q: nat)
    requires QueuesSound(s) && SlotTurns(s, s', q)
    ensures QueuesSound(s')
  {
    SumUpdate(s.slots, q, s'.slots[q], TenantOf());
  }

  /** A slot without a tenant has no reference that could go. */
  lemma FreeIsUnreferenced(s: Q.State, q: nat)
    requires QI.Inv(s) && q < |s.slots| && s.slots[q].life == Q.Free
    ensures s.slots[q].refs == 0 && s.slots[q].handles == 0 && s.slots[q].upgrades == 0
  {
    assert QI.SlotSound(s, q);
  }

  lemma ReferenceTurns(s: Q.State, s': Q.State, q: nat)
    requires QI.Inv(s) && q < |s.slots| && Q.ReferenceStep(s, s', q)
    ensures SlotTurns(s, s', q)
  {
    hide QI.Inv;
    if s.slots[q].life == Q.Free {
      FreeIsUnreferenced(s, q);
    }
  }

  lemma CallTurns(s: Q.State, s': Q.State, t: nat, q: nat)
    requires t < |s.threads| && q < |s.slots| && Q.CallStep(s, s', t, q)
    ensures SlotTurns(s, s', q)
  {
  }

  lemma RunTurns(s: Q.State, s': Q.State, t: nat, q: nat)
    requires QI.Inv(s) && t < |s.threads| && q < |s.slots| && Q.RunStep(s, s', t, q)
    ensures SlotTurns(s, s', q)
  {
    hide QI.Inv;
    assert s.slots == s.slots[q := s.slots[q]];
    if s.slots[q].life == Q.Free {
      FreeIsUnreferenced(s, q);
    }
  }

  lemma ScriptTurns(s: Q.State, s': Q.State, t: nat, q: nat) returns (p: nat)
    requires t < |s.threads| && q < |s.slots| && Q.ScriptStep(s, s', t, q)
    ensures SlotTurns(s, s', p)
  {
    p := s.threads[t].stage.left[0].queue;
    if !Q.MayPush(s, q, p) {
      p := q;
    }
    assert s.slots == s.slots[p := s.slots[p]];
  }

  lemma QueuesKeep(s: Q.State, s': Q.State)
    requires QI.Inv(s) && QueuesSound(s) && Q.Next(s, s')
    ensures QueuesSound(s')
  {
    hide QI.Inv, Q.ReferenceStep, Q.CallStep, Q.RunStep, Q.ScriptStep;
    if q: nat :| q < |s.slots| && Q.ReferenceStep(s, s', q) {
      ReferenceTurns(s, s', q);
      TurnKeepsWork(s, s', q);
    } else if t: nat, q: nat :| t < |s.threads| && q < |s.slots| && Q.CallStep(s, s', t, q) {
      CallTurns(s, s', t, q);
      TurnKeepsWork(s, s', q);
    } else if t: nat, q: nat :| t < |s.threads| && q < |s.slots| && Q.RunStep(s, s', t, q) {
      RunTurns(s, s', t, q);
      TurnKeepsWork(s, s', q);
    } else if t: nat, q: nat :| t < |s.threads| && q < |s.slots| && Q.ScriptStep(s, s', t, q) {
      var p := ScriptTurns(s, s', t, q);
      TurnKeepsWork(s, s', p);
    } else if Q.GrowStep(s, s') {
      SumAppend(s.slots, s'.slots[|s.slots|], TenantOf());
    }
  }

  lemma ActsIsNext(s: State, q': Q.State)
    requires QueuesAct(s, q')
    ensures Q.Next(s.queues, q')
  {
    hide Q.CallStep, Q.RunStep, Q.IdleStep, Q.ScriptStep;
    if q: nat :| MayCreate(s) && Q.CreateStep(s.queues, q', q) {
      assert Q.ReferenceStep(s.queues, q', q);
    } else if q: nat :| HandleStep(s, q', q) {
      assert Q.ReferenceStep(s.queues, q', q);
    }
  }

  // ---------------------------------------------------------------------------
  // Tasks and handles
  // ---------------------------------------------------------------------------

  /** No task leaves the list of the slot. */
  predicate TasksStay(v: Q.Slot, w: Q.Slot) {
    (v.tasks == v.pushed ==> w.tasks == w.pushed) && (v.tasks != [] ==> w.tasks != [])
  }

  ghost predicate HandlesStay(s: Q.State, s': Q.State, q: nat) {
    q < |s.slots| <= |s'.slots| && Handles(s', q) >= Handles(s, q)
  }

  /** Nothing is unlinked, no handle goes, and the work stays what it is. */
  ghost predicate Calm(s: Q.State, s': Q.State) {
    && |s.slots| <= |s'.slots| && s'.work == s.work
    && (forall q: nat | q < |s.slots| :: TasksStay(s.slots[q], s'.slots[q]))
    && (forall q: nat | q < |s.slots| :: HandlesStay(s, s', q))
    && (forall q: nat | |s.slots| <= q < |s'.slots| :: s'.slots[q].tasks == s'.slots[q].pushed)
  }

  /** A thread that is in no other call than before has lent what it had lent. */
  lemma SameCallsLend(s: Q.State, s': Q.State, t: nat, q: nat)
    requires t < |s.threads| == |s'.threads| && s'.threads == s.threads[t := s'.threads[t]]
    requires s'.threads[t].call == s.threads[t].call
    ensures Sum(s'.threads, LentOf(q)) == Sum(s.threads, LentOf(q))
  {
    SumUpdate(s.threads, t, s'.threads[t], LentOf(q));
  }

  lemma IdleIsCalm(s: Q.State, s': Q.State, t: nat)
    requires Q.IdleStep(s, s', t)
    ensures Calm(s, s')
  {
    assert s.threads == s.threads[t := s.threads[t]];
    forall q: nat | q < |s.slots| ensures HandlesStay(s, s', q) {
      SameCallsLend(s, s', t, q);
    }
  }

  lemma CallIsCalm(s: Q.State, s': Q.State, t: nat, q: nat)
    requires t < |s.threads| && q < |s.slots| && Q.CallStep(s, s', t, q)
    ensures Calm(s, s')
  {
    hide Sum;
    forall p: nat | p < |s.slots| ensures HandlesStay(s, s', p) {
      SumUpdate(s.threads, t, s'.threads[t], LentOf(p));
    }
  }

  lemma ScriptIsCalm(s: Q.State, s': Q.State, t: nat, q: nat)
    requires t < |s.threads| && q < |s.slots| && Q.ScriptStep(s, s', t, q)
    ensures Calm(s, s')
  {
    assert s'.threads == s.threads[t := s'.threads[t]];
    forall p: nat | p < |s.slots| ensures HandlesStay(s, s', p) {
      SumUpdate(s.threads, t, s'.threads[t], LentOf(p));
    }
  }

  /** Of the steps of a run only the end of a body unlinks a task. */
  lemma RunIsCalm(s: Q.State, s': Q.State, t: nat, q: nat)
    requires t < |s.threads| && q < |s.slots| && Q.RunStep(s, s', t, q) && !Q.NextTaskStep(s, s', t, q)
    ensures Calm(s, s')
  {
    assert s.threads == s.threads[t := s.threads[t]];
    forall p: nat | p < |s.slots| ensures HandlesStay(s, s', p) {
      SameCallsLend(s, s', t, p);
    }
  }

  /** What a step of the queues does, apart from what it does to the work. */
  ghost predicate Quiet(s: Q.State, s': Q.State) {
    Calm(s, s'.(work := s.work))
  }

  /** A slot without a tenant has no task and no handle, lent or not. */
  lemma FreeIsEmpty(s: Q.State, q: nat)
    requires QI.Inv(s) && q < |s.slots| && s.slots[q].refs == 0
    ensures s.slots[q].tasks == [] && Handles(s, q) == 0
  {
    assert QI.SlotSound(s, q);
    QI.NothingWithoutReference(s, q);
    LentIsReferenced(s, q);
  }

  lemma LentIsReferenced(s: Q.State, q: nat)
    ensures Sum(s.threads, LentOf(q)) <= Sum(s.threads, QI.RefOf(q))
  {
    SumAtMost(s.threads, LentOf(q), QI.RefOf(q));
  }

  lemma CreateIsQuiet(s: Q.State, s': Q.State, q: nat)
    requires QI.Inv(s) && Q.CreateStep(s, s', q)
    ensures Quiet(s, s') && s'.work == s.work + 1
  {
    hide QI.Inv;
    FreeIsUnreferenced(s, q);
    FreeIsEmpty(s, q);
    forall p: nat | p < |s.slots| ensures HandlesStay(s, s'.(work := s.work), p) {
    }
  }

  /** References that come and go, but for a handle that is closed. */
  lemma HandleIsCalm(s: Q.State, s': Q.State, q: nat)
    requires Q.CopyStep(s, s', q) || Q.UpgradeStep(s, s', q) || Q.DowngradeStep(s, s', q) || Q.GiveStep(s, s', q)
    ensures Calm(s, s')
  {
    forall p: nat | p < |s.slots| ensures HandlesStay(s, s', p) {
    }
  }

  lemma CloseTakesOne(s: Q.State, s': Q.State, q: nat)
    requires Q.CloseStep(s, s', q)
    ensures |s'.slots| == |s.slots| && s'.work == s.work && Handles(s', q) == Handles(s, q) - 1
    ensures forall p: nat | p < |s.slots| :: TasksStay(s.slots[p], s'.slots[p])
    ensures forall p: nat | p < |s.slots| && p != q :: Handles(s', p) == Handles(s, p)
  {
  }

  lemma RestIsQuiet(s: Q.State, s': Q.State)
    requires Q.LeaveStep(s, s') || Q.GrowStep(s, s') || Q.SpawnStep(s, s')
    ensures Quiet(s, s') && s.work - 1 <= s'.work <= s.work
  {
    forall p: nat | p < |s.slots| ensures HandlesStay(s, s'.(work := s.work), p) {
      if Q.SpawnStep(s, s') {
        SumAppend(s.threads, s'.threads[|s.threads|], LentOf(p));
      }
    }
  }

  // ---------------------------------------------------------------------------
  // The share of the events
  // ---------------------------------------------------------------------------

  /**
   The work an event slot stands for: its tenant's, and that of tenants gone
   which a finishing agent has yet to take off.
   */
  function EventWork(): E.State -> nat {
    (e: E.State) => One(e.phase != E.Vacant && e.cfg.work) + Sum(e.agents, EI.OwesWork)
  }

  /** What an event holds is what it stands for. */
  lemma EventWorkIsHeld(e: E.State)
    requires EI.Inv(e)
    ensures e.heldWork == EventWork()(e)
  {
  }

  predicate Finishes(a: E.Agent) { a.FreeRead? || a.FreeWrite? }

  /** An agent comes to the release of queues only from giving the slot back. */
  lemma NoFinisherArises(e: E.State, e': E.State, t: nat)
    requires t < |e.agents| && E.AgentStep(e, e', t) && !e.agents[t].GiveFree? && !Finishes(e.agents[t])
    ensures t < |e'.agents| && !Finishes(e'.agents[t])
    ensures forall u | |e.agents| <= u < |e'.agents| :: !Finishes(e'.agents[u])
    ensures e'.heldWork == e.heldWork || (e.agents[t].LeaveWork? && e.heldWork - 1 <= e'.heldWork <= e.heldWork)
  {
  }

  lemma FinisherSteps(e: E.State, e': E.State, t: nat)
    requires t < |e.agents| && E.AgentStep(e, e', t) && (e.agents[t].GiveFree? || Finishes(e.agents[t]))
    ensures |e'.agents| == |e.agents| && e'.heldWork == e.heldWork && e'.cfg == e.cfg
    ensures e.agents[t].GiveFree? ==> e'.phase == E.Vacant && e'.agents[t] == E.FreeRead(e.agents[t].cfg)
    ensures e.agents[t].FreeRead? ==> e'.phase == e.phase && e'.agents[t] == E.FreeWrite(e.agents[t].cfg)
    ensures e.agents[t].FreeWrite? ==> e'.phase == e.phase && e'.agents[t] == E.LeaveWork(e.agents[t].cfg)
  {
  }

  /** What agent `t` adds to the handles owed, before and after. */
  lemma OwedFollows(e: E.State, e': E.State, t: nat, q: nat)
    requires t < |e.agents| && E.AgentStep(e, e', t)
    ensures |e.agents| <= |e'.agents|
    ensures Sum(e'.agents, OwesOn(q))
         == Sum(e.agents, OwesOn(q)) - OwesOn(q)(e.agents[t]) + OwesOn(q)(e'.agents[t])
            + (if |e'.agents| > |e.agents| then OwesOn(q)(e'.agents[|e.agents|]) else 0)
  {
    ES.StepShape(e, e', t);
    hide E.AgentStep;
    var turned := e.agents[t := e'.agents[t]];
    SumUpdate(e.agents, t, e'.agents[t], OwesOn(q));
    if |e'.agents| > |e.agents| {
      SumAppend(turned, e'.agents[|e.agents|], OwesOn(q));
      assert e'.agents == turned + [e'.agents[|e.agents|]];
    } else {
      assert e'.agents == turned;
    }
  }

  /** An event slot gives up a handle exactly when an agent of it releases a queue. */
  lemma HoldsFollow(e: E.State, e': E.State, t: nat, q: nat)
    requires EI.Inv(e) && t < |e.agents| && E.AgentStep(e, e', t)
    ensures var a := e.agents[t];
            HoldsOn(q)(e') == HoldsOn(q)(e) - One(ReleasesQueue(a) && ReleasedQueue(a) == q)
  {
    hide E.AgentStep, Sum;
    OwedFollows(e, e', t, q);
    if e.agents[t].GiveFree? || Finishes(e.agents[t]) {
      FinisherSteps(e, e', t);
      assert EI.AgentSound(e, e.agents[t]);
    } else {
      NoFinisherArises(e, e', t);
      TenantStays(e, e', t);
    }
  }

  /** Until its slot is free, a tenant keeps its queues. */
  lemma TenantStays(e: E.State, e': E.State, t: nat)
    requires EI.Inv(e) && t < |e.agents| && E.AgentStep(e, e', t) && !e.agents[t].GiveFree?
    ensures e'.cfg == e.cfg && (e'.phase == E.Vacant <==> e.phase == E.Vacant)
  {
    assert EI.AgentSound(e, e.agents[t]);
    if !e.agents[t].GiveRetire? {
      ES.TenancyFrame(e, e', t);
    }
  }
}
