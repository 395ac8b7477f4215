/**
 What a cancellation still lets through.

 The header of the library says that no handler runs once cancel has returned.
 The code checks CLOSED when a side is claimed and when a handler returns, and
 not between the claim and the call, so a call that is on its way when CLOSED
 is set is still made. This is the whole difference: the number of calls a
 serialized side makes from any moment after CLOSED is the number on their way
 at that moment.
 */
module EventCancel {
  import opened Tally
  import opened EventProtocol
  import opened EventInvariant
  import opened EventBalance
  import opened EventSafety
  import opened EventTheorems

  /** Calls made after CLOSED, and calls on their way. */
  function LateOrComing(s: State, side: Side): int {
    s.At(side).late + CensusOf(s.agents).Calls(side)
  }

  /** A serialized tenant of the generation has been cancelled and not been given back. */
  predicate Cancelled(s: State, gen: nat) {
    s.gen == gen && s.closed && s.cfg.serial && (s.phase == Open || s.phase == Reporting)
  }

  lemma ArrivingLate(s: State, s': State, t: nat, side: Side, c: Census, m: Census, c': Census)
    requires t < |s.agents| && Arriving(s.agents[t]) && AgentStep(s, s', t)
    requires s.closed && s.cfg.serial && AgentSound(s, s.agents[t]) && Followed(s, s', t, c, m, c')
    ensures s'.closed && s'.At(side).late + c'.Calls(side) == s.At(side).late + c.Calls(side)
  {
  }

  lemma DeliveringLate(s: State, s': State, t: nat, side: Side, c: Census, m: Census, c': Census)
    requires t < |s.agents| && Delivering(s.agents[t]) && AgentStep(s, s', t)
    requires s.closed && s.cfg.serial && AgentSound(s, s.agents[t]) && Followed(s, s', t, c, m, c')
    ensures s'.closed && s'.At(side).late + c'.Calls(side) == s.At(side).late + c.Calls(side)
  {
  }

  lemma CancellingLate(s: State, s': State, t: nat, side: Side, c: Census, m: Census, c': Census)
    requires t < |s.agents| && Cancelling(s.agents[t]) && AgentStep(s, s', t)
    requires s.closed && s.cfg.serial && AgentSound(s, s.agents[t]) && Followed(s, s', t, c, m, c')
    ensures s'.closed && s'.At(side).late + c'.Calls(side) == s.At(side).late + c.Calls(side)
  {
  }

  lemma ReportingLate(s: State, s': State, t: nat, side: Side, c: Census, m: Census, c': Census)
    requires t < |s.agents| && !Arriving(s.agents[t]) && !Delivering(s.agents[t]) && !Cancelling(s.agents[t])
             && AgentStep(s, s', t)
    requires s.closed && s.cfg.serial && AgentSound(s, s.agents[t]) && Followed(s, s', t, c, m, c')
    ensures s'.closed && s'.At(side).late + c'.Calls(side) == s.At(side).late + c.Calls(side)
  {
  }

  lemma LateIsConstant(s: State, s': State, t: nat, side: Side)
    requires Inv(s) && t < |s.agents| && AgentStep(s, s', t) && s.closed && s.cfg.serial
    ensures s'.closed && LateOrComing(s', side) == LateOrComing(s, side)
  {
    hide AgentStep, Followed, CensusOf;
    var c, c' := CensusOf(s.agents), CensusOf(s'.agents);
    var m := CensusFollows(s, s', t);
    assert AgentSound(s, s.agents[t]);
    if Arriving(s.agents[t]) {
      ArrivingLate(s, s', t, side, c, m, c');
    } else if Delivering(s.agents[t]) {
      DeliveringLate(s, s', t, side, c, m, c');
    } else if Cancelling(s.agents[t]) {
      CancellingLate(s, s', t, side, c, m, c');
    } else {
      ReportingLate(s, s', t, side, c, m, c');
    }
  }

  /** Giving back is for a tenant whose reports are over. */
  lemma GivingIsLater(s: State, s': State, t: nat)
    requires Inv(s) && t < |s.agents| && AgentStep(s, s', t)
    ensures s.agents[t].GiveFree? ==> s.phase == Retired
    ensures s.agents[t].GiveRetire? ==> s'.gen == s.gen + 1
  {
    assert AgentSound(s, s.agents[t]);
  }

  lemma CancelledGoesOn(s: State, s': State, gen: nat, side: Side)
    requires Inv(s) && Next(s, s') && Cancelled(s, gen) && s'.gen == gen
    ensures Cancelled(s', gen) && LateOrComing(s', side) == LateOrComing(s, side)
  {
    hide Inv, AgentStep, LateOrComing;
    if t: nat :| t < |s.agents| && AgentStep(s, s', t) {
      LateIsConstant(s, s', t, side);
      GivingIsLater(s, s', t);
      if !s.agents[t].GiveRetire? && !s.agents[t].GiveFree? {
        TenancyFrame(s, s', t);
      }
    } else if agent :| ArriveStep(s, s', agent) {
      ArrivalIsNoCall(s, s', agent, side);
    }
  }

  lemma ArrivalIsNoCall(s: State, s': State, agent: Agent, side: Side)
    requires ArriveStep(s, s', agent)
    ensures LateOrComing(s', side) == LateOrComing(s, side)
  {
    CensusSpawns(s.agents, agent);
  }

  /** From any moment after CLOSED to any later one of the tenancy, calls are made exactly as they were on their way. */
  lemma {:induction false} LateCallsWereComing(run: seq<State>, i: nat, j: nat, side: Side)
    requires Execution(run) && i <= j < |run| && Cancelled(run[i], run[i].gen) && run[j].gen == run[i].gen
    ensures Cancelled(run[j], run[i].gen)
    ensures LateOrComing(run[j], side) == LateOrComing(run[i], side)
  {
    hide Inv, Next, LateOrComing;
    if i < j {
      GenerationsGrow(run, i, j - 1);
      GenerationsGrow(run, j - 1, j);
      LateCallsWereComing(run, i, j - 1, side);
      Reachable(run, j - 1);
      assert Linked(run, j);
      CancelledGoesOn(run[j - 1], run[j], run[i].gen, side);
    }
  }

  /** Only a canceller sets CLOSED. */
  lemma CloserCancels(s: State, s': State, t: nat)
    requires t < |s.agents| && AgentStep(s, s', t) && !s.closed && s'.closed
    ensures s.agents[t].CancelClose? && CancelStep(s, s', t) && s'.agents[t].CancelDelete?
  {
  }

  /** Setting CLOSED neither makes a call nor sets one on its way. */
  lemma ClosingCalls(s: State, s': State, side: Side)
    requires Inv(s) && Next(s, s') && !s.closed && s'.closed
    ensures s'.At(side).late == 0 && CensusOf(s'.agents).Calls(side) == CensusOf(s.agents).Calls(side)
    ensures s'.gen == s.gen && s'.phase == Open && s'.cfg == s.cfg
  {
    hide AgentStep, History, AgentsSound;
    var t: nat :| t < |s.agents| && AgentStep(s, s', t);
    CloserCancels(s, s', t);
    CensusTurns(s.agents, t, s'.agents[t]);
  }

  /** An agent that has taken the side is on its way to a call. */
  ghost predicate Coming(s: State, side: Side) {
    exists t :: 0 <= t < |s.agents| && Calls(s.agents[t], side)
  }

  /**
   The exact condition for a call after CLOSED: with step `i` the one that set
   it, a serialized side has made its late call, or has it coming, if and only
   if an agent that had taken the side was on its way to a call at that moment.
   A side that nobody had taken makes none.
   */
  lemma LateCallExactly(run: seq<State>, i: nat, j: nat, side: Side)
    requires Execution(run) && 0 < i <= j < |run| && !run[i - 1].closed && run[i].closed
    requires run[i].cfg.serial && run[j].gen == run[i].gen
    ensures var late := run[j].At(side).late; var coming := CensusOf(run[j].agents).Calls(side);
            && late + coming <= 1
            && (late + coming == 1 <==> Coming(run[i - 1], side))
            && (run[j].phase == Reporting ==> coming == 0)
    ensures !run[i - 1].At(side).busy ==> run[j].At(side).late == 0
  {
    Reachable(run, i - 1);
    Reachable(run, j);
    assert Linked(run, i);
    ClosingCalls(run[i - 1], run[i], side);
    LateCallsWereComing(run, i, j, side);
    CallsAreCounted(run[i - 1], side);
    AtMostOneLateCall(run, j, side);
    if run[j].phase == Reporting {
      NothingInFlight(run[j]);
    }
  }

  lemma CallsAreCounted(s: State, side: Side)
    requires Inv(s)
    ensures 0 <= CensusOf(s.agents).Calls(side) <= One(s.At(side).busy)
    ensures CensusOf(s.agents).Calls(side) > 0 <==> Coming(s, side)
  {
    var weight := if side == Readable then CallsRead else CallsWrite;
    if Sum(s.agents, weight) > 0 {
      var t := SumWitness(s.agents, weight);
      assert Calls(s.agents[t], side);
    }
    if t :| 0 <= t < |s.agents| && Calls(s.agents[t], side) {
      SumMember(s.agents, t, weight);
    }
  }

  /**
   The promise of the header, with the moment `k` at which cancel has returned:
   if the side is not BUSY then, no handler of it runs at any later moment. If
   it is BUSY, a handler runs at that very moment or one more call is made
   before the tenancy ends.
   */
  lemma SilentExactlyIfNotBusy(run: seq<State>, k: nat, j: nat, side: Side)
    requires Execution(run) && k <= j < |run| && Cancelled(run[k], run[k].gen) && run[j].gen == run[k].gen
    ensures !run[k].At(side).busy ==>
              && run[j].At(side).late == run[k].At(side).late
              && forall t | 0 <= t < |run[j].agents| :: !InHandler(run[j].agents[t], side)
    ensures run[k].At(side).busy && run[j].phase == Reporting ==>
              || (exists t :: 0 <= t < |run[k].agents| && InHandler(run[k].agents[t], side))
              || run[j].At(side).late == run[k].At(side).late + 1
  {
    Reachable(run, k);
    Reachable(run, j);
    LateCallsWereComing(run, k, j, side);
    CallsAreCounted(run[k], side);
    CallsAreCounted(run[j], side);
    if !run[k].At(side).busy {
      IdleStaysIdle(run, k, j, side);
      forall t | 0 <= t < |run[j].agents| ensures !InHandler(run[j].agents[t], side) {
        assert AgentSound(run[j], run[j].agents[t]);
        SumMember(run[j].agents, t, if side == Readable then RunsRead else RunsWrite);
      }
    } else if run[j].phase == Reporting {
      NothingInFlight(run[j]);
      var weight := if side == Readable then RunsRead else RunsWrite;
      if Sum(run[k].agents, weight) > 0 {
        var t := SumWitness(run[k].agents, weight);
        assert InHandler(run[k].agents[t], side);
      }
    }
  }

  lemma {:induction false} IdleStaysIdle(run: seq<State>, k: nat, j: nat, side: Side)
    requires Execution(run) && k <= j < |run| && Cancelled(run[k], run[k].gen) && run[j].gen == run[k].gen
    requires !run[k].At(side).busy
    ensures !run[j].At(side).busy
  {
    hide Inv;
    if k < j {
      GenerationsGrow(run, k, j - 1);
      GenerationsGrow(run, j - 1, j);
      IdleStaysIdle(run, k, j - 1, side);
      LateCallsWereComing(run, k, j - 1, side);
      var s, s' := run[j - 1], run[j];
      assert Linked(run, j);
      if t: nat :| t < |s.agents| && AgentStep(s, s', t) {
        ClosedIsNotClaimed(s, s', t, side);
      }
    }
  }

  // ---------------------------------------------------------------------------
  // A call after cancel has returned
  // ---------------------------------------------------------------------------

  const READER := Config(true, false, true, false, true, true, 0, 0)

  /** An open event of a reader with the given word, references, deletions and agents. */
  function Reading(
    refs: int, read: SideState, asked: bool, closed: bool, deletions: nat, agents: seq<Agent>): State
  {
    State(1, refs, Open, READER, read, QUIET, closed, agents, [], deletions, [], 1, 0, 1, asked)
  }

  const MASK := Mask(true, false, false)
  const REPORTED := SideState(false, false, true, 0)
  const PUBLISHED := SideState(true, false, true, 0)
  const CLAIMED := SideState(false, true, true, 0)
  const TASK := TaskNext(1, Readable)

  /**
   A notification is published, claimed and posted; while its task waits in the
   queue a cancel comes and returns; then the task is run.
   */
  const LATE_RUN: seq<State> := [
    State(1, 0, Vacant, READER, QUIET, QUIET, false, [], [], 0, [], 0, 0, 0, false),
    Reading(1, QUIET, false, false, 0, []),
    Reading(1, QUIET, false, false, 0, [DispatchAcquire(1, MASK)]),
    Reading(2, QUIET, false, false, 0, [DispatchCheck(1, MASK)]),
    Reading(2, REPORTED, false, false, 0, [Publish(1, true, false)]),
    Reading(2, PUBLISHED, false, false, 0, [Claim(1, Readable, false)]),
    Reading(2, CLAIMED, false, false, 0, [PostReference(1, Readable, false)]),
    Reading(3, CLAIMED, false, false, 0, [PostPush(1, Readable, false)]),
    Reading(3, CLAIMED, false, false, 0, [Leaving(1), TASK]),
    Reading(2, CLAIMED, false, false, 0, [Done, TASK]),
    Reading(2, CLAIMED, false, false, 0, [Done, TASK, CancelAcquire(1)]),
    Reading(3, CLAIMED, false, false, 0, [Done, TASK, CancelCheck(1)]),
    Reading(3, CLAIMED, true, false, 0, [Done, TASK, CancelClose(1)]),
    Reading(3, CLAIMED, true, true, 0, [Done, TASK, CancelDelete(1)]),
    Reading(3, CLAIMED, true, true, 1, [Done, TASK, CancelDrop(1)]),
    Reading(2, CLAIMED, true, true, 1, [Done, TASK, Leaving(1)]),
    Reading(1, CLAIMED, true, true, 1, [Done, TASK, Done]),
    Reading(1, SideState(false, true, false, 1), true, true, 1, [Done, TaskCall(1, Readable), Done])]

  /** Up to the publication. */
  lemma NotifiedSteps(i: nat)
    requires 0 < i <= 4
    ensures Linked(LATE_RUN, i)
  {
    var s, s' := LATE_RUN[i - 1], LATE_RUN[i];
    if i == 1 {
      assert OpenStep(s, s', READER);
    } else if i == 2 {
      assert ArriveStep(s, s', DispatchAcquire(1, MASK));
    } else {
      assert AgentStep(s, s', 0);
    }
  }

  /** Up to the claim and its reference. */
  lemma ClaimedSteps(i: nat)
    requires 4 < i <= 6
    ensures Linked(LATE_RUN, i)
  {
    assert AgentStep(LATE_RUN[i - 1], LATE_RUN[i], 0);
  }

  /** Up to the post of the task and the canceller. */
  lemma PostedSteps(i: nat)
    requires 6 < i <= 10
    ensures Linked(LATE_RUN, i)
  {
    var s, s' := LATE_RUN[i - 1], LATE_RUN[i];
    if i < 10 {
      assert AgentStep(s, s', 0);
    } else {
      assert ArriveStep(s, s', CancelAcquire(1));
    }
  }

  /** Up to CLOSED. */
  lemma ClosedSteps(i: nat)
    requires 10 < i <= 13
    ensures Linked(LATE_RUN, i)
  {
    assert AgentStep(LATE_RUN[i - 1], LATE_RUN[i], 2);
  }

  /** Up to the return of cancel, and the call after it. */
  lemma ReturnedSteps(i: nat)
    requires 13 < i <= 17
    ensures Linked(LATE_RUN, i)
  {
    assert AgentStep(LATE_RUN[i - 1], LATE_RUN[i], if i < 17 then 2 else 1);
  }

  /**
   The promise of the header fails: an execution in which the one canceller has
   come and returned, no handler has run, and a handler starts after that.
   */
  lemma HandlerAfterCancel()
    ensures Execution(LATE_RUN) && LATE_RUN[10].agents == [Done, TASK, CancelAcquire(1)]
    ensures var s := LATE_RUN[16]; s.agents == [Done, TASK, Done] && s.closed && s.read.late == 0
    ensures var s := LATE_RUN[17]; s.gen == 1 && s.agents == [Done, TaskCall(1, Readable), Done] && s.read.late == 1
  {
    forall i: nat | 0 < i < |LATE_RUN| ensures Linked(LATE_RUN, i) {
      if i <= 4 { NotifiedSteps(i); }
      else if i <= 6 { ClaimedSteps(i); }
      else if i <= 10 { PostedSteps(i); }
      else if i <= 13 { ClosedSteps(i); }
      else { ReturnedSteps(i); }
    }
  }
}
