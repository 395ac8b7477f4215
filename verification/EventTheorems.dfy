/** What the event protocol promises, for every execution and every interleaving. */
module EventTheorems {
  import opened Tally
  import opened EventProtocol
  import opened EventInvariant
  import opened EventSafety

  /**
   The reference count is the start reference, until the canceller that set
   CLOSED has dropped it, plus what dispatchers, cancellers, stale handles,
   posted and running side tasks hold; and it is positive exactly while the
   slot has a tenant that has not begun to report.
   */
  lemma ReferencesConserved(run: seq<State>, i: nat)
    requires Execution(run) && i < |run|
    ensures var s := run[i];
            && s.refs == One(s.phase == Open && !s.closed) + Sum(s.agents, References)
            && (s.refs > 0 <==> s.phase == Open)
  {
    Reachable(run, i);
  }

  lemma ZeroStays(s: State, s': State, t: nat)
    requires Inv(s) && t < |s.agents| && AgentStep(s, s', t) && s.refs == 0
    ensures s'.refs == 0
  {
    StepKeeps(s, s', t);
    if !s.agents[t].GiveRetire? && !s.agents[t].GiveFree? {
      TenancyFrame(s, s', t);
    }
  }

  /** Zero is left by nothing but a new tenancy of the slot. */
  lemma ZeroIsLeftByOpening(run: seq<State>, i: nat)
    requires Execution(run) && 0 < i < |run| && run[i - 1].refs == 0 && run[i].refs != 0
    ensures OpenStep(run[i - 1], run[i], run[i].cfg)
  {
    var s, s' := run[i - 1], run[i];
    Reachable(run, i - 1);
    assert Linked(run, i);
    if t: nat :| t < |s.agents| && AgentStep(s, s', t) {
      ZeroStays(s, s', t);
    }
  }

  /** A complete tenancy of the generation is on record. */
  ghost predicate Recorded(s: State, gen: nat) {
    exists k :: 0 <= k < |s.past| && s.past[k].gen == gen && Complete(s.past[k])
  }

  /** The tenancy of generation `gen` is over, is being retired, or is on its way there. */
  ghost predicate Ending(s: State, gen: nat) {
    || (s.gen == gen && s.phase == Reporting)
    || (s.gen == gen + 1 && s.phase == Retired)
    || (s.gen > gen && Recorded(s, gen))
  }

  lemma RecordsStay(s: State, s': State, gen: nat)
    requires Recorded(s, gen) && s.past <= s'.past
    ensures Recorded(s', gen)
  {
    var k :| 0 <= k < |s.past| && s.past[k].gen == gen && Complete(s.past[k]);
    assert s'.past[k] == s.past[k];
  }

  lemma GivingEnds(s: State, s': State, t: nat, gen: nat)
    requires Inv(s) && t < |s.agents| && Ending(s, gen)
    requires (s.agents[t].GiveRetire? || s.agents[t].GiveFree?) && AgentStep(s, s', t)
    ensures Ending(s', gen)
  {
    assert AgentSound(s, s.agents[t]);
    GiveHistory(s, s', t);
    if Recorded(s, gen) {
      RecordsStay(s, s', gen);
    } else if s.agents[t].GiveFree? {
      assert s'.past[|s.past|].gen + 1 == s.gen;
    }
  }

  lemma EndingGoesOn(s: State, s': State, gen: nat)
    requires Inv(s) && Next(s, s') && Ending(s, gen)
    ensures Ending(s', gen)
  {
    hide AgentStep, AgentsSound, History;
    if t: nat :| t < |s.agents| && AgentStep(s, s', t) {
      if s.agents[t].GiveRetire? || s.agents[t].GiveFree? {
        GivingEnds(s, s', t, gen);
      } else {
        TenancyFrame(s, s', t);
      }
    }
  }

  lemma {:induction false} EndingLasts(run: seq<State>, i: nat, j: nat)
    requires Execution(run) && i <= j < |run| && run[i].phase == Reporting
    ensures Ending(run[j], run[i].gen)
  {
    hide Inv, Next;
    if i < j {
      EndingLasts(run, i, j - 1);
      Reachable(run, j - 1);
      assert Linked(run, j);
      EndingGoesOn(run[j - 1], run[j], run[i].gen);
    }
  }

  /**
   The count reaches zero once in a tenancy: whenever the slot is open again
   after it did, the generation has moved on and the old tenancy is on record,
   every side it had reported exactly once, writable before readable, the
   descriptor deleted once, and at most one late call a side.
   */
  lemma TenancyEndsOnce(run: seq<State>, i: nat, j: nat)
    requires Execution(run) && i <= j < |run| && run[i].phase == Reporting && run[j].refs > 0
    ensures run[j].gen > run[i].gen && Recorded(run[j], run[i].gen)
  {
    EndingLasts(run, i, j);
    ReferencesConserved(run, j);
  }

  /** No two tenancies on record share a generation, and each of them is complete. */
  lemma TenanciesOnRecord(run: seq<State>, i: nat)
    requires Execution(run) && i < |run|
    ensures forall k | 0 <= k < |run[i].past| :: Complete(run[i].past[k])
    ensures forall k, l | 0 <= k < l < |run[i].past| :: run[i].past[k].gen != run[i].past[l].gen
  {
    Reachable(run, i);
  }

  /**
   What a finished tenancy has reported: with two queues the writable side and
   then the readable one, with one queue its side alone, and with none the
   readable side if only reading was of interest and the writable side otherwise.
   */
  lemma ReportedAsConfigured(run: seq<State>, i: nat, k: nat)
    requires Execution(run) && i < |run| && k < |run[i].past|
    ensures var tenancy := run[i].past[k];
            var cfg := tenancy.cfg;
            && (cfg.writeQueue && cfg.readQueue ==> tenancy.reports == [Writable, Readable])
            && (cfg.writeQueue && !cfg.readQueue ==> tenancy.reports == [Writable])
            && (!cfg.writeQueue && cfg.readQueue ==> tenancy.reports == [Readable])
            && (!cfg.writeQueue && !cfg.readQueue ==>
                  tenancy.reports == (if cfg.wantRead && !cfg.wantWrite then [Readable] else [Writable]))
  {
    TenanciesOnRecord(run, i);
    assert Complete(run[i].past[k]);
  }

  /**
   What a tenancy took is given back exactly once: the queue references and the
   loop work outstanding are those of the present tenant plus what finishing
   agents have yet to hand back.
   */
  lemma HoldingsConserved(run: seq<State>, i: nat)
    requires Execution(run) && i < |run|
    ensures var s := run[i];
            var tenanted := s.phase != Vacant;
            && s.heldRead == One(tenanted && s.cfg.readQueue) + Sum(s.agents, OwesRead)
            && s.heldWrite == One(tenanted && s.cfg.writeQueue) + Sum(s.agents, OwesWrite)
            && s.heldWork == One(tenanted && s.cfg.work) + Sum(s.agents, OwesWork)
  {
    Reachable(run, i);
  }

  /** A handler of the side is running, whichever way it was called. */
  predicate InHandler(agent: Agent, side: Side) {
    Runs(agent, side) || (agent.DirectCall? && agent.side == side)
  }

  /** The handlers of one side of a serialized event never overlap. */
  lemma HandlersExclude(run: seq<State>, i: nat, t: nat, u: nat, side: Side)
    requires Execution(run) && i < |run| && run[i].cfg.serial && t < |run[i].agents| && u < |run[i].agents|
    requires InHandler(run[i].agents[t], side) && InHandler(run[i].agents[u], side)
    ensures t == u
  {
    Reachable(run, i);
    var agents := run[i].agents;
    assert AgentSound(run[i], agents[t]) && AgentSound(run[i], agents[u]);
    var weight := if side == Readable then RunsRead else RunsWrite;
    if t < u { SumPair(agents, t, u, weight); } else if u < t { SumPair(agents, u, t, weight); }
  }

  /** BUSY is set exactly while one agent has the side taken. */
  lemma BusyCountsServers(run: seq<State>, i: nat, side: Side)
    requires Execution(run) && i < |run|
    ensures var c := CensusOf(run[i].agents); c.Runs(side) + c.Calls(side) == One(run[i].At(side).busy)
  {
    Reachable(run, i);
  }

  /** Readiness nobody has taken is about to be claimed by a dispatcher that published. */
  lemma ReadinessIsClaimed(run: seq<State>, i: nat, side: Side) returns (t: nat)
    requires Execution(run) && i < |run| && CanClaim(run[i], side)
    ensures t < |run[i].agents| && WillClaim(run[i].agents[t], side)
  {
    Reachable(run, i);
    t := SumWitness(run[i].agents, if side == Readable then ClaimsRead else ClaimsWrite);
  }

  /** Once CLOSED is set a side of a serialized event makes at most one more call, and only if it was taken before. */
  lemma AtMostOneLateCall(run: seq<State>, i: nat, side: Side)
    requires Execution(run) && i < |run| && run[i].closed && run[i].cfg.serial
    ensures run[i].At(side).late + CensusOf(run[i].agents).Calls(side) <= 1
  {
    Reachable(run, i);
  }

  /** No agent takes a side after CLOSED. */
  lemma ClosedIsNotClaimed(s: State, s': State, t: nat, side: Side)
    requires t < |s.agents| && AgentStep(s, s', t) && s.closed && !s.At(side).busy
    ensures s'.closed && !s'.At(side).busy
  {
  }

  /** From the first cancelled callback on, no handler of the event runs and none is on its way. */
  lemma NoHandlerOnceReported(run: seq<State>, i: nat, t: nat)
    requires Execution(run) && i < |run| && t < |run[i].agents|
    requires run[i].phase != Vacant && run[i].reports != []
    ensures !run[i].agents[t].DirectCall? && !run[i].agents[t].ServeCall? && !run[i].agents[t].TaskCall?
    ensures References(run[i].agents[t]) == 0
    ensures run[i].deletions == 1
  {
    Reachable(run, i);
    Unreferenced(run[i]);
    NothingInFlight(run[i]);
  }

  /**
   A user of a handle from an earlier generation takes and drops a reference
   and does nothing else: no bit moves, nobody is called, the start reference
   stays, and if its reference is the last one the reports start as they would
   have without it.
   */
  lemma StaleHandleIsHarmless(s: State, s': State, t: nat)
    requires Inv(s) && t < |s.agents| && AgentStep(s, s', t)
    requires s.agents[t].DispatchAcquire? || s.agents[t].DispatchCheck? || s.agents[t].CancelAcquire?
             || s.agents[t].CancelCheck? || s.agents[t].Leaving?
    requires s.agents[t].gen < s.gen
    ensures SameWord(s, s') && SameRecord(s, s') && SameHoldings(s, s') && s'.gen == s.gen && s'.cfg == s.cfg
    ensures StartReference(s') == StartReference(s)
    ensures s'.agents[t] == Done || s'.agents[t].ReportNext?
            || (!Admitted(s'.agents[t]) && References(s'.agents[t]) > 0 && s'.agents[t].gen == s.agents[t].gen)
    ensures s'.phase != s.phase ==>
              && s.phase == Open && s.closed && s.refs == 1 && s'.phase == Reporting
              && Sum(s'.agents, Reports) == 1
  {
    StepKeeps(s, s', t);
    if s.agents[t].Leaving? && s.refs == 1 && !s.closed {
      SumMember(s.agents, t, References);
    }
  }

  /** A handle that was stale once stays stale: generations only grow. */
  lemma {:induction false} GenerationsGrow(run: seq<State>, i: nat, j: nat)
    requires Execution(run) && i <= j < |run|
    ensures run[i].gen <= run[j].gen
  {
    if i < j {
      GenerationsGrow(run, i, j - 1);
      var s, s' := run[j - 1], run[j];
      assert Linked(run, j);
      if t: nat :| t < |s.agents| && AgentStep(s, s', t) && !s.agents[t].GiveRetire? && !s.agents[t].GiveFree? {
        TenancyFrame(s, s', t);
      }
    }
  }
}
