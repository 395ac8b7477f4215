/**
 What becomes of what the kernel reports and of what a caller asks for: every
 report of a side the event is interested in is published or served, and is
 followed by a handler call that starts after it; every cancel with a current
 handle closes the event.
 */
module EventNotice {
  import opened Tally
  import opened EventProtocol
  import opened EventInvariant
  import opened EventBalance
  import opened EventSafety
  import opened EventTheorems

  // ---------------------------------------------------------------------------
  // Which sides a report concerns
  // ---------------------------------------------------------------------------

  /**
   A dispatcher of a serialized event whose handle is current publishes the
   readable side if and only if reading is of interest and the kernel reported
   input, an error or a hangup, and likewise the writable side with output; it
   leaves without publishing only if neither holds.
   */
  lemma ReportIsPublished(s: State, s': State, t: nat)
    requires t < |s.agents| && s.agents[t].DispatchCheck? && AgentStep(s, s', t)
    requires s.agents[t].gen == s.gen && s.cfg.serial
    ensures var mask, a := s.agents[t].mask, s'.agents[t];
            var read := s.cfg.wantRead && (mask.input || mask.failure);
            var write := s.cfg.wantWrite && (mask.output || mask.failure);
            && (read || write ==> a.Publish? && a.gen == s.gen && a.read == read && a.write == write)
            && (!read && !write ==> a == Leaving(s.gen))
  {
  }

  /** The same of an event that is not serialized: exactly these sides are called. */
  lemma ReportIsCalled(s: State, s': State, t: nat)
    requires t < |s.agents| && s.agents[t].DispatchCheck? && AgentStep(s, s', t)
    requires s.agents[t].gen == s.gen && !s.cfg.serial
    ensures var mask, a := s.agents[t].mask, s'.agents[t];
            && a.DirectNext? && a.gen == s.gen
            && (a.read <==> s.cfg.wantRead && (mask.input || mask.failure))
            && (a.write <==> s.cfg.wantWrite && (mask.output || mask.failure))
  {
  }

  /**
   All sides of a report are published in one step, before any of them is
   claimed, and the writable one is claimed before the readable one.
   */
  lemma PublishedBeforeClaimed(s: State, s': State, t: nat)
    requires t < |s.agents| && s.agents[t].Publish? && AgentStep(s, s', t)
    ensures var a, b := s.agents[t], s'.agents[t];
            && s'.read == s.read.(ready := s.read.ready || a.read)
            && s'.write == s.write.(ready := s.write.ready || a.write)
            && b.Claim? && b.gen == a.gen
            && (a.write ==> b.side == Writable && b.read == a.read)
            && (!a.write ==> b.side == Readable && !b.read)
  {
  }

  /** An event that is not serialized is called on the readable side first. */
  lemma ReadableCalledFirst(s: State, s': State, t: nat)
    requires t < |s.agents| && s.agents[t].DirectNext? && AgentStep(s, s', t)
    ensures var a, b := s.agents[t], s'.agents[t];
            && (a.read ==> InHandler(b, Readable) && Announces(b, Writable) == a.write && !s'.read.owed)
            && (!a.read && a.write ==> InHandler(b, Writable) && !Announces(b, Readable) && !s'.write.owed)
            && (!a.read && !a.write ==> b == Leaving(a.gen))
  {
  }

  // ---------------------------------------------------------------------------
  // What is owed
  // ---------------------------------------------------------------------------

  /** The agent has yet to publish the side, or to call it directly. */
  predicate Announces(a: Agent, side: Side) {
    || ((a.Publish? || a.DirectNext?) && if side == Readable then a.read else a.write)
    || (a.DirectCall? && side == Writable && a.write)
  }

  /** On its way to a call of the side. */
  predicate Heads(a: Agent, side: Side) { Announces(a, side) || Calls(a, side) }

  ghost predicate Headed(s: State, side: Side) {
    exists t :: 0 <= t < |s.agents| && Heads(s.agents[t], side)
  }

  ghost predicate OwedSound(s: State, side: Side) {
    s.At(side).owed ==> s.closed || s.At(side).ready || Headed(s, side)
  }

  ghost predicate Closing(s: State) {
    exists t :: 0 <= t < |s.agents| && s.agents[t].CancelClose?
  }

  /** A cancel that was asked for is done or about to be. */
  ghost predicate AskedSound(s: State) { s.asked ==> s.closed || Closing(s) }

  ghost predicate NoticeSound(s: State) {
    OwedSound(s, Readable) && OwedSound(s, Writable) && AskedSound(s)
  }

  /** What agent `t` does to the claims on a side. */
  ghost predicate SidePasses(s: State, s': State, t: nat, side: Side)
    requires t < |s.agents| <= |s'.agents|
  {
    || !s'.At(side).owed
    || s'.closed
    || s'.At(side).ready
    || Heads(s'.agents[t], side)
    || (|s'.agents| > |s.agents| && Heads(s'.agents[|s.agents|], side))
    || (s.At(side).owed && !s.At(side).ready && !Heads(s.agents[t], side))
  }

  ghost predicate AskPasses(s: State, s': State, t: nat)
    requires t < |s.agents| <= |s'.agents|
  {
    !s'.asked || s'.closed || s'.agents[t].CancelClose? || (s.asked && !s.closed && !s.agents[t].CancelClose?)
  }

  lemma ArrivingPasses(s: State, s': State, t: nat, side: Side)
    requires t < |s.agents| && Arriving(s.agents[t]) && AgentStep(s, s', t)
    ensures |s'.agents| == |s.agents| && SidePasses(s, s', t, side) && AskPasses(s, s', t)
  {
  }

  lemma DeliveringPasses(s: State, s': State, t: nat, side: Side)
    requires t < |s.agents| && Delivering(s.agents[t]) && AgentStep(s, s', t)
    ensures |s'.agents| >= |s.agents| && SidePasses(s, s', t, side) && AskPasses(s, s', t)
  {
  }

  lemma CancellingPasses(s: State, s': State, t: nat, side: Side)
    requires t < |s.agents| && Cancelling(s.agents[t]) && AgentStep(s, s', t)
    ensures |s'.agents| >= |s.agents| && SidePasses(s, s', t, side) && AskPasses(s, s', t)
  {
  }

  lemma ReportingPasses(s: State, s': State, t: nat, side: Side)
    requires t < |s.agents| && AgentStep(s, s', t)
    requires !Arriving(s.agents[t]) && !Delivering(s.agents[t]) && !Cancelling(s.agents[t])
    ensures |s'.agents| >= |s.agents| && SidePasses(s, s', t, side) && AskPasses(s, s', t)
  {
  }

  lemma StepPasses(s: State, s': State, t: nat, side: Side)
    requires t < |s.agents| && AgentStep(s, s', t)
    ensures |s'.agents| >= |s.agents| && SidePasses(s, s', t, side) && AskPasses(s, s', t)
  {
    hide AgentStep, SidePasses, AskPasses;
    if Arriving(s.agents[t]) {
      ArrivingPasses(s, s', t, side);
    } else if Delivering(s.agents[t]) {
      DeliveringPasses(s, s', t, side);
    } else if Cancelling(s.agents[t]) {
      CancellingPasses(s, s', t, side);
    } else {
      ReportingPasses(s, s', t, side);
    }
  }

  lemma ClosedStays(s: State, s': State, t: nat)
    requires t < |s.agents| && AgentStep(s, s', t) && s.closed
    ensures s'.closed
  {
  }

  lemma SideKeepsNotice(s: State, s': State, t: nat, side: Side)
    requires t < |s.agents| && AgentStep(s, s', t) && OwedSound(s, side)
    ensures OwedSound(s', side)
  {
    StepPasses(s, s', t, side);
    StepShape(s, s', t);
    if s.closed { ClosedStays(s, s', t); }
    hide AgentStep;
    if s'.At(side).owed && !s'.closed && !s'.At(side).ready {
      if Heads(s'.agents[t], side) {
        assert Headed(s', side);
      } else if |s'.agents| > |s.agents| && Heads(s'.agents[|s.agents|], side) {
        assert Headed(s', side);
      } else {
        var u :| 0 <= u < |s.agents| && Heads(s.agents[u], side);
        assert s'.agents[u] == s.agents[u];
      }
    }
  }

  lemma AskKeepsNotice(s: State, s': State, t: nat)
    requires t < |s.agents| && AgentStep(s, s', t) && AskedSound(s)
    ensures AskedSound(s')
  {
    StepPasses(s, s', t, Readable);
    StepShape(s, s', t);
    if s.closed { ClosedStays(s, s', t); }
    hide AgentStep, SidePasses;
    if s'.asked && !s'.closed && !s'.agents[t].CancelClose? {
      var u :| 0 <= u < |s.agents| && s.agents[u].CancelClose?;
      assert s'.agents[u] == s.agents[u];
    }
  }

  lemma StepKeepsNotice(s: State, s': State, t: nat)
    requires t < |s.agents| && AgentStep(s, s', t) && NoticeSound(s)
    ensures NoticeSound(s')
  {
    hide AgentStep, OwedSound, AskedSound;
    SideKeepsNotice(s, s', t, Readable);
    SideKeepsNotice(s, s', t, Writable);
    AskKeepsNotice(s, s', t);
  }

  lemma ArriveKeepsNotice(s: State, s': State, agent: Agent, side: Side)
    requires ArriveStep(s, s', agent) && OwedSound(s, side) && AskedSound(s)
    ensures OwedSound(s', side) && AskedSound(s')
  {
    if Headed(s, side) {
      var u :| 0 <= u < |s.agents| && Heads(s.agents[u], side);
      assert s'.agents[u] == s.agents[u];
    }
    if Closing(s) {
      var u :| 0 <= u < |s.agents| && s.agents[u].CancelClose?;
      assert s'.agents[u] == s.agents[u];
    }
  }

  lemma NextKeepsNotice(s: State, s': State)
    requires NoticeSound(s) && Next(s, s')
    ensures NoticeSound(s')
  {
    hide AgentStep;
    if t: nat :| t < |s.agents| && AgentStep(s, s', t) {
      StepKeepsNotice(s, s', t);
    } else if agent :| ArriveStep(s, s', agent) {
      ArriveKeepsNotice(s, s', agent, Readable);
      ArriveKeepsNotice(s, s', agent, Writable);
    }
  }

  lemma {:induction false} NoticeHolds(run: seq<State>, i: nat)
    requires Execution(run) && i < |run|
    ensures NoticeSound(run[i])
  {
    hide Next;
    if i > 0 {
      hide NoticeSound;
      NoticeHolds(run, i - 1);
      assert Linked(run, i);
      NextKeepsNotice(run[i - 1], run[i]);
    }
  }

  // ---------------------------------------------------------------------------
  // What comes of it
  // ---------------------------------------------------------------------------

  /** Somebody is in a handler of the side, and will look again, or is about to claim it. */
  ghost predicate LookedAfter(s: State, side: Side) {
    exists t :: 0 <= t < |s.agents| && (Runs(s.agents[t], side) || WillClaim(s.agents[t], side))
  }

  /**
   A side the kernel has reported and that no handler call has been started
   for since: unless the event is closed, an agent is on its way to the call,
   or the readiness is published and somebody is about to find it.
   */
  lemma NotificationIsKept(run: seq<State>, i: nat, side: Side)
    requires Execution(run) && i < |run| && run[i].At(side).owed && !run[i].closed
    ensures Headed(run[i], side) || (run[i].At(side).ready && LookedAfter(run[i], side))
  {
    var s := run[i];
    NoticeHolds(run, i);
    Reachable(run, i);
    if !Headed(s, side) {
      if s.At(side).busy {
        var t := BusyServer(s, side);
        assert Runs(s.agents[t], side);
      } else {
        var t := SumWitness(s.agents, if side == Readable then ClaimsRead else ClaimsWrite);
        assert WillClaim(s.agents[t], side);
      }
    }
  }

  /** A side that is BUSY is so for an agent. */
  lemma BusyServer(s: State, side: Side) returns (t: nat)
    requires SideSound(s, CensusOf(s.agents), side) && s.At(side).busy
    ensures t < |s.agents| && (Runs(s.agents[t], side) || Calls(s.agents[t], side))
  {
    if CensusOf(s.agents).Runs(side) > 0 {
      t := SumWitness(s.agents, if side == Readable then RunsRead else RunsWrite);
    } else {
      t := SumWitness(s.agents, if side == Readable then CallsRead else CallsWrite);
    }
  }

  /** A report that a handle still current brought is owed a call from that step on. */
  lemma ReportIsOwed(s: State, s': State, t: nat, side: Side)
    requires t < |s.agents| && s.agents[t].DispatchCheck? && AgentStep(s, s', t) && s.agents[t].gen == s.gen
    requires if side == Readable then s.cfg.wantRead && (s.agents[t].mask.input || s.agents[t].mask.failure)
             else s.cfg.wantWrite && (s.agents[t].mask.output || s.agents[t].mask.failure)
    ensures s'.At(side).owed && Heads(s'.agents[t], side)
  {
  }

  /** What is owed stays owed to the tenant until a handler call of that side begins. */
  lemma OwedUntilCalled(s: State, s': State, t: nat, side: Side)
    requires t < |s.agents| && AgentStep(s, s', t) && s.At(side).owed && !s'.At(side).owed
    ensures InHandler(s'.agents[t], side) && !InHandler(s.agents[t], side)
  {
  }

  /** A cancel whose handle was current when it was checked closes the event. */
  lemma AskedIsClosed(run: seq<State>, i: nat)
    requires Execution(run) && i < |run| && run[i].asked
    ensures run[i].closed || Closing(run[i])
  {
    NoticeHolds(run, i);
  }

  /** The handle is current when it is checked: the cancel goes on to set CLOSED, and has been asked for. */
  lemma CancelIsAsked(s: State, s': State, t: nat)
    requires t < |s.agents| && s.agents[t].CancelCheck? && AgentStep(s, s', t)
    ensures s'.asked <==> s.asked || s.agents[t].gen == s.gen
    ensures s.agents[t].gen == s.gen ==> s'.agents[t] == CancelClose(s.gen)
    ensures s.agents[t].gen != s.gen ==> s'.agents[t] == Leaving(s.agents[t].gen)
  {
  }
}
