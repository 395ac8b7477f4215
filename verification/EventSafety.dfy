/** The invariant of the event protocol holds in every state of every execution. */
module EventSafety {
  import opened Tally
  import opened EventProtocol
  import opened EventInvariant
  import opened EventBalance

  // ---------------------------------------------------------------------------
  // Who can be where
  // ---------------------------------------------------------------------------

  /** With no reference left, no agent is past a check. */
  lemma Unreferenced(s: State)
    requires Counted(s, CensusOf(s.agents)) && s.refs == 0
    ensures forall u | 0 <= u < |s.agents| :: References(s.agents[u]) == 0
  {
    forall u | 0 <= u < |s.agents| ensures References(s.agents[u]) == 0 {
      SumMember(s.agents, u, References);
    }
  }

  lemma NothingInFlight(s: State)
    requires Counted(s, CensusOf(s.agents)) && s.refs == 0
    ensures var c := CensusOf(s.agents);
            c.deletes == c.callsRead == c.callsWrite == c.runsRead == c.runsWrite == c.claimsRead == c.claimsWrite == 0
  {
    Unreferenced(s);
    SumZero(s.agents, Deletes);
    SumZero(s.agents, CallsRead);
    SumZero(s.agents, CallsWrite);
    SumZero(s.agents, RunsRead);
    SumZero(s.agents, RunsWrite);
    SumZero(s.agents, ClaimsRead);
    SumZero(s.agents, ClaimsWrite);
  }

  /** Nobody reports while the slot is open or vacant. */
  lemma NoReporter(s: State)
    requires Counted(s, CensusOf(s.agents)) && (s.phase == Open || s.phase == Vacant)
    ensures forall u | 0 <= u < |s.agents| :: !IsReporter(s.agents[u])
  {
    forall u | 0 <= u < |s.agents| ensures !IsReporter(s.agents[u]) {
      SumMember(s.agents, u, Reports);
    }
  }

  /** At most one agent reports. */
  lemma SoleReporter(s: State, t: nat)
    requires Counted(s, CensusOf(s.agents)) && t < |s.agents| && IsReporter(s.agents[t])
    ensures forall u | 0 <= u < |s.agents| && u != t :: !IsReporter(s.agents[u])
  {
    forall u | 0 <= u < |s.agents| && u != t ensures !IsReporter(s.agents[u]) {
      if u < t { SumPair(s.agents, u, t, Reports); } else { SumPair(s.agents, t, u, Reports); }
    }
  }

  // ---------------------------------------------------------------------------
  // What agents rely on
  // ---------------------------------------------------------------------------

  /** Every other agent is where it was, and `t` and whoever it spawned are sound. */
  ghost predicate MoverSound(s: State, s': State, t: nat)
    requires t < |s.agents|
  {
    && |s'.agents| >= |s.agents|
    && (forall u | 0 <= u < |s.agents| && u != t :: s'.agents[u] == s.agents[u])
    && AgentSound(s', s'.agents[t])
    && (forall u | |s.agents| <= u < |s'.agents| :: AgentSound(s', s'.agents[u]))
  }

  /** A step that leaves the tenancy as it is disturbs no other agent. */
  lemma OthersStaySound(s: State, s': State, t: nat)
    requires t < |s.agents| && AgentsSound(s) && MoverSound(s, s', t)
    requires SameSlot(s, s') && s'.reports == s.reports
    ensures AgentsSound(s')
  {
    forall u | 0 <= u < |s'.agents| ensures AgentSound(s', s'.agents[u]) {
      if u < |s.agents| && u != t {
        assert AgentSound(s, s.agents[u]);
      }
    }
  }

  /** Neither does one that only touches what reporters rely on, when no other agent reports. */
  lemma OthersDoNotReport(s: State, s': State, t: nat)
    requires t < |s.agents| && AgentsSound(s) && MoverSound(s, s', t)
    requires s'.gen == s.gen && s'.cfg == s.cfg
    requires forall u | 0 <= u < |s.agents| && u != t :: !IsReporter(s.agents[u])
    ensures AgentsSound(s')
  {
    forall u | 0 <= u < |s'.agents| ensures AgentSound(s', s'.agents[u]) {
      if u < |s.agents| && u != t {
        assert AgentSound(s, s.agents[u]);
      }
    }
  }

  lemma ArrivingAgents(s: State, s': State, t: nat)
    requires t < |s.agents| && AgentsSound(s) && AgentStep(s, s', t) && Arriving(s.agents[t])
    ensures AgentsSound(s')
  {
    assert AgentSound(s, s.agents[t]);
    assert MoverSound(s, s', t);
    OthersStaySound(s, s', t);
  }

  lemma DeliveringAgents(s: State, s': State, t: nat)
    requires t < |s.agents| && AgentsSound(s) && AgentStep(s, s', t) && Delivering(s.agents[t])
    ensures AgentsSound(s')
  {
    assert AgentSound(s, s.agents[t]);
    assert MoverSound(s, s', t);
    OthersStaySound(s, s', t);
  }

  lemma CancellingAgents(s: State, s': State, t: nat)
    requires t < |s.agents| && AgentsSound(s) && AgentStep(s, s', t) && Cancelling(s.agents[t]) && !s.agents[t].Leaving?
    ensures AgentsSound(s')
  {
    assert AgentSound(s, s.agents[t]);
    assert MoverSound(s, s', t);
    OthersStaySound(s, s', t);
  }

  lemma ReleaseAgents(s: State, s': State, t: nat)
    requires t < |s.agents| && Inv(s) && s.agents[t].Leaving? && ReleaseStep(s, s', t)
    ensures AgentsSound(s')
  {
    if s.refs != 1 {
      assert MoverSound(s, s', t);
      OthersStaySound(s, s', t);
    } else {
      NoReporter(s);
      assert MoverSound(s, s', t);
      OthersDoNotReport(s, s', t);
    }
  }

  lemma ReportNextAgents(s: State, s': State, t: nat)
    requires t < |s.agents| && Inv(s) && s.agents[t].ReportNext? && ReportStep(s, s', t)
    ensures AgentsSound(s')
  {
    assert AgentSound(s, s.agents[t]);
    SoleReporter(s, t);
    assert MoverSound(s, s', t);
    OthersDoNotReport(s, s', t);
  }

  lemma ReportCallAgents(s: State, s': State, t: nat)
    requires t < |s.agents| && Inv(s) && s.agents[t].ReportCall? && ReportStep(s, s', t)
    ensures AgentsSound(s')
  {
    assert AgentSound(s, s.agents[t]);
    SoleReporter(s, t);
    assert MoverSound(s, s', t);
    OthersDoNotReport(s, s', t);
  }

  lemma GiveAgents(s: State, s': State, t: nat)
    requires t < |s.agents| && Inv(s) && (s.agents[t].GiveRetire? || s.agents[t].GiveFree?) && GiveStep(s, s', t)
    ensures AgentsSound(s')
  {
    assert AgentSound(s, s.agents[t]);
    SoleReporter(s, t);
    Unreferenced(s);
    forall u | 0 <= u < |s'.agents| ensures AgentSound(s', s'.agents[u]) {
      if u != t {
        assert s'.agents[u] == s.agents[u] && References(s.agents[u]) == 0 && !IsReporter(s.agents[u]);
      }
    }
  }

  lemma FinishAgents(s: State, s': State, t: nat)
    requires t < |s.agents| && AgentsSound(s)
    requires (s.agents[t].FreeRead? || s.agents[t].FreeWrite? || s.agents[t].LeaveWork?) && FinishStep(s, s', t)
    ensures AgentsSound(s')
  {
    assert MoverSound(s, s', t);
    OthersStaySound(s, s', t);
  }

  // ---------------------------------------------------------------------------
  // Finished tenancies
  // ---------------------------------------------------------------------------

  lemma GiveHistory(s: State, s': State, t: nat)
    requires t < |s.agents| && Inv(s) && (s.agents[t].GiveRetire? || s.agents[t].GiveFree?) && GiveStep(s, s', t)
    ensures History(s')
  {
    assert AgentSound(s, s.agents[t]);
    if s.agents[t].GiveFree? {
      NothingInFlight(s);
      assert Complete(s'.past[|s.past|]);
    }
  }

  // ---------------------------------------------------------------------------
  // Every step, every state
  // ---------------------------------------------------------------------------

  /** A step turns one agent and spawns at most one. */
  predicate Shaped(s: State, s': State, t: nat)
    requires t < |s.agents|
  {
    && |s.agents| <= |s'.agents|
    && s'.agents == s.agents[t := s'.agents[t]] + s'.agents[|s.agents|..]
    && |s'.agents| <= |s.agents| + 1
  }

  lemma StepShape(s: State, s': State, t: nat)
    requires t < |s.agents| && AgentStep(s, s', t)
    ensures Shaped(s, s', t)
  {
  }

  /** The census along a step of agent `t`. */
  lemma CensusFollows(s: State, s': State, t: nat) returns (m: Census)
    requires t < |s.agents| && AgentStep(s, s', t)
    ensures Followed(s, s', t, CensusOf(s.agents), m, CensusOf(s'.agents))
  {
    StepShape(s, s', t);
    hide AgentStep, CensusOf, Moved, Grown;
    var turned := s.agents[t := s'.agents[t]];
    CensusTurns(s.agents, t, s'.agents[t]);
    m := CensusOf(turned);
    if |s'.agents| > |s.agents| {
      CensusSpawns(turned, s'.agents[|s.agents|]);
      assert s'.agents == turned + [s'.agents[|s.agents|]];
    } else {
      assert s'.agents == turned;
    }
  }

  lemma StepBalanced(s: State, s': State, t: nat)
    requires t < |s.agents| && Inv(s) && AgentStep(s, s', t)
    ensures Balanced(s', CensusOf(s'.agents))
  {
    var m := CensusFollows(s, s', t);
    AgentStepBalances(s, s', t, CensusOf(s.agents), m, CensusOf(s'.agents));
  }

  lemma WayOutAgents(s: State, s': State, t: nat)
    requires t < |s.agents| && Inv(s) && AgentStep(s, s', t)
    requires !Arriving(s.agents[t]) && !Delivering(s.agents[t]) && (Cancelling(s.agents[t]) ==> s.agents[t].Leaving?)
    ensures AgentsSound(s')
  {
    match s.agents[t]
    case Leaving(_) => ReleaseAgents(s, s', t);
    case ReportNext(_) => ReportNextAgents(s, s', t);
    case ReportCall(_) => ReportCallAgents(s, s', t);
    case GiveRetire => GiveAgents(s, s', t);
    case GiveFree(_, _) => GiveAgents(s, s', t);
    case _ => FinishAgents(s, s', t);
  }

  lemma StepAgents(s: State, s': State, t: nat)
    requires t < |s.agents| && Inv(s) && AgentStep(s, s', t)
    ensures AgentsSound(s')
  {
    hide AgentStep;
    if Arriving(s.agents[t]) {
      ArrivingAgents(s, s', t);
    } else if Delivering(s.agents[t]) {
      DeliveringAgents(s, s', t);
    } else if Cancelling(s.agents[t]) && !s.agents[t].Leaving? {
      CancellingAgents(s, s', t);
    } else {
      WayOutAgents(s, s', t);
    }
  }

  /** Only giving the slot back moves the generation, ends a tenancy or leaves the reporting phase. */
  lemma TenancyFrame(s: State, s': State, t: nat)
    requires t < |s.agents| && AgentStep(s, s', t) && !s.agents[t].GiveRetire? && !s.agents[t].GiveFree?
    ensures s'.gen == s.gen && s'.past == s.past && s'.cfg == s.cfg
    ensures s'.phase == s.phase || (s.agents[t].Leaving? && s.refs == 1 && s'.phase == Reporting)
  {
  }

  lemma StepKeeps(s: State, s': State, t: nat)
    requires t < |s.agents| && Inv(s) && AgentStep(s, s', t)
    ensures Inv(s')
  {
    StepBalanced(s, s', t);
    StepAgents(s, s', t);
    if s.agents[t].GiveRetire? || s.agents[t].GiveFree? {
      GiveHistory(s, s', t);
    } else {
      TenancyFrame(s, s', t);
    }
  }

  lemma OpenKeeps(s: State, s': State, cfg: Config)
    requires Inv(s) && OpenStep(s, s', cfg)
    ensures Inv(s')
  {
    Unreferenced(s);
    NoReporter(s);
    NothingInFlight(s);
    forall u | 0 <= u < |s.agents| ensures AgentSound(s', s'.agents[u]) {
      assert AgentSound(s, s.agents[u]);
    }
  }

  lemma ArriveKeeps(s: State, s': State, agent: Agent)
    requires Inv(s) && ArriveStep(s, s', agent)
    ensures Inv(s')
  {
    CensusSpawns(s.agents, agent);
    GrownBalances(s, s', CensusOf(s.agents), CensusOf(s'.agents), agent);
    forall u | 0 <= u < |s'.agents| ensures AgentSound(s', s'.agents[u]) {
      if u < |s.agents| { assert AgentSound(s, s.agents[u]); }
    }
  }

  lemma GrownBalances(s: State, s': State, c: Census, c': Census, agent: Agent)
    requires Balanced(s, c) && ArriveStep(s, s', agent) && Grown(c, c', agent)
    ensures Balanced(s', c')
  {
  }

  lemma NextKeeps(s: State, s': State)
    requires Inv(s) && Next(s, s')
    ensures Inv(s')
  {
    if t: nat :| t < |s.agents| && AgentStep(s, s', t) {
      StepKeeps(s, s', t);
    } else if cfg :| OpenStep(s, s', cfg) {
      OpenKeeps(s, s', cfg);
    } else {
      var agent :| ArriveStep(s, s', agent);
      ArriveKeeps(s, s', agent);
    }
  }

  lemma InitKeeps(s: State)
    requires Init(s)
    ensures Inv(s)
  {
  }

  lemma {:induction false} Reachable(run: seq<State>, i: nat)
    requires Execution(run) && i < |run|
    ensures Inv(run[i])
  {
    hide Inv, Next;
    InitKeeps(run[0]);
    if i > 0 {
      Reachable(run, i - 1);
      assert Linked(run, i);
      NextKeeps(run[i - 1], run[i]);
    }
  }
}
