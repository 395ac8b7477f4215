/**
 What every step of the event protocol keeps.

 References, servers of a side, pending claims, deletions, reporters and what
 is still owed to the queues and the loop are sums of weights over the agents;
 the invariant ties each sum to one field of the slot.
 */
module EventInvariant {
  import opened Tally
  import opened EventProtocol

  /** The side is taken and a handler is running in it. */
  predicate Runs(agent: Agent, side: Side) {
    (agent.ServeCall? || agent.TaskCall?) && agent.side == side
  }

  /** The side is taken and the agent is on its way to a handler call. */
  predicate Calls(agent: Agent, side: Side) {
    (agent.PostReference? || agent.PostPush? || agent.ServeNext? || agent.TaskNext?) && agent.side == side
  }

  /** Published, and not yet through with the claim of the side. */
  predicate WillClaim(agent: Agent, side: Side) {
    || (agent.Claim? && agent.side == side)
    || (side == Readable
        && (agent.Claim? || agent.PostReference? || agent.PostPush? || agent.ServeNext? || agent.ServeCall?)
        && agent.read)
  }

  /** Agents that found their generation current and still hold the reference they found it under. */
  predicate Admitted(agent: Agent) {
    agent.DirectNext? || agent.DirectCall? || agent.Publish? || agent.Claim? || agent.PostReference? || agent.PostPush?
    || agent.ServeNext? || agent.ServeCall? || agent.TaskNext? || agent.TaskCall?
    || agent.CancelClose? || agent.CancelDelete? || agent.CancelDrop?
  }

  /** Agents on the path of a serialized event. */
  predicate Serving(agent: Agent) {
    agent.Publish? || agent.Claim? || agent.PostReference? || agent.PostPush?
    || agent.ServeNext? || agent.ServeCall? || agent.TaskNext? || agent.TaskCall?
  }

  predicate IsReporter(agent: Agent) {
    agent.ReportNext? || agent.ReportCall? || agent.GiveRetire? || agent.GiveFree?
  }

  // The weights.

  /** A poster also holds the reference of its task, a closer the one of the caller that started the event. */
  function References(agent: Agent): nat {
    if agent.PostPush? || agent.CancelDelete? || agent.CancelDrop? then 2
    else if Admitted(agent) || agent.DispatchCheck? || agent.CancelCheck? || agent.Leaving? then 1
    else 0
  }

  function RunsRead(agent: Agent): nat { One(Runs(agent, Readable)) }
  function RunsWrite(agent: Agent): nat { One(Runs(agent, Writable)) }
  function CallsRead(agent: Agent): nat { One(Calls(agent, Readable)) }
  function CallsWrite(agent: Agent): nat { One(Calls(agent, Writable)) }
  function ClaimsRead(agent: Agent): nat { One(WillClaim(agent, Readable)) }
  function ClaimsWrite(agent: Agent): nat { One(WillClaim(agent, Writable)) }
  function Deletes(agent: Agent): nat { One(agent.CancelDelete?) }
  function Reports(agent: Agent): nat { One(IsReporter(agent)) }
  function OwesRead(agent: Agent): nat { One(agent.FreeRead? && agent.cfg.readQueue) }
  function OwesWrite(agent: Agent): nat { One((agent.FreeRead? || agent.FreeWrite?) && agent.cfg.writeQueue) }
  function OwesWork(agent: Agent): nat {
    One((agent.FreeRead? || agent.FreeWrite? || agent.LeaveWork?) && agent.cfg.work)
  }

  datatype Census = Census(
    references: int, runsRead: int, runsWrite: int, callsRead: int, callsWrite: int, claimsRead: int,
    claimsWrite: int, deletes: int, reports: int, owesRead: int, owesWrite: int, owesWork: int)
  {
    function Runs(side: Side): int { if side == Readable then runsRead else runsWrite }
    function Calls(side: Side): int { if side == Readable then callsRead else callsWrite }
    function Claims(side: Side): int { if side == Readable then claimsRead else claimsWrite }
  }

  function CensusOf(agents: seq<Agent>): Census {
    Census(
      Sum(agents, References), Sum(agents, RunsRead), Sum(agents, RunsWrite), Sum(agents, CallsRead),
      Sum(agents, CallsWrite), Sum(agents, ClaimsRead), Sum(agents, ClaimsWrite), Sum(agents, Deletes),
      Sum(agents, Reports), Sum(agents, OwesRead), Sum(agents, OwesWrite), Sum(agents, OwesWork))
  }

  /** From `c` to `c'` one agent has turned from `a` into `b`, and `a` was counted in `c`. */
  predicate Moved(c: Census, c': Census, a: Agent, b: Agent) {
    && References(a) <= c.references && c'.references == c.references - References(a) + References(b)
    && RunsRead(a) <= c.runsRead && c'.runsRead == c.runsRead - RunsRead(a) + RunsRead(b)
    && RunsWrite(a) <= c.runsWrite && c'.runsWrite == c.runsWrite - RunsWrite(a) + RunsWrite(b)
    && CallsRead(a) <= c.callsRead && c'.callsRead == c.callsRead - CallsRead(a) + CallsRead(b)
    && CallsWrite(a) <= c.callsWrite && c'.callsWrite == c.callsWrite - CallsWrite(a) + CallsWrite(b)
    && ClaimsRead(a) <= c.claimsRead && c'.claimsRead == c.claimsRead - ClaimsRead(a) + ClaimsRead(b)
    && ClaimsWrite(a) <= c.claimsWrite && c'.claimsWrite == c.claimsWrite - ClaimsWrite(a) + ClaimsWrite(b)
    && Deletes(a) <= c.deletes && c'.deletes == c.deletes - Deletes(a) + Deletes(b)
    && Reports(a) <= c.reports && c'.reports == c.reports - Reports(a) + Reports(b)
    && OwesRead(a) <= c.owesRead && c'.owesRead == c.owesRead - OwesRead(a) + OwesRead(b)
    && OwesWrite(a) <= c.owesWrite && c'.owesWrite == c.owesWrite - OwesWrite(a) + OwesWrite(b)
    && OwesWork(a) <= c.owesWork && c'.owesWork == c.owesWork - OwesWork(a) + OwesWork(b)
  }

  /** From `c` to `c'` one more agent has come. */
  predicate Grown(c: Census, c': Census, b: Agent) {
    && 0 <= c.references && c'.references == c.references + References(b)
    && 0 <= c.runsRead && c'.runsRead == c.runsRead + RunsRead(b)
    && 0 <= c.runsWrite && c'.runsWrite == c.runsWrite + RunsWrite(b)
    && 0 <= c.callsRead && c'.callsRead == c.callsRead + CallsRead(b)
    && 0 <= c.callsWrite && c'.callsWrite == c.callsWrite + CallsWrite(b)
    && 0 <= c.claimsRead && c'.claimsRead == c.claimsRead + ClaimsRead(b)
    && 0 <= c.claimsWrite && c'.claimsWrite == c.claimsWrite + ClaimsWrite(b)
    && 0 <= c.deletes && c'.deletes == c.deletes + Deletes(b)
    && 0 <= c.reports && c'.reports == c.reports + Reports(b)
    && 0 <= c.owesRead && c'.owesRead == c.owesRead + OwesRead(b)
    && 0 <= c.owesWrite && c'.owesWrite == c.owesWrite + OwesWrite(b)
    && 0 <= c.owesWork && c'.owesWork == c.owesWork + OwesWork(b)
  }

  lemma CensusTurns(agents: seq<Agent>, t: nat, agent: Agent)
    requires t < |agents|
    ensures Moved(CensusOf(agents), CensusOf(agents[t := agent]), agents[t], agent)
  {
    SumUpdate(agents, t, agent, References);
    SumUpdate(agents, t, agent, RunsRead);
    SumUpdate(agents, t, agent, RunsWrite);
    SumUpdate(agents, t, agent, CallsRead);
    SumUpdate(agents, t, agent, CallsWrite);
    SumUpdate(agents, t, agent, ClaimsRead);
    SumUpdate(agents, t, agent, ClaimsWrite);
    SumUpdate(agents, t, agent, Deletes);
    SumUpdate(agents, t, agent, Reports);
    SumUpdate(agents, t, agent, OwesRead);
    SumUpdate(agents, t, agent, OwesWrite);
    SumUpdate(agents, t, agent, OwesWork);
    SumMember(agents, t, References);
    SumMember(agents, t, RunsRead);
    SumMember(agents, t, RunsWrite);
    SumMember(agents, t, CallsRead);
    SumMember(agents, t, CallsWrite);
    SumMember(agents, t, ClaimsRead);
    SumMember(agents, t, ClaimsWrite);
    SumMember(agents, t, Deletes);
    SumMember(agents, t, Reports);
    SumMember(agents, t, OwesRead);
    SumMember(agents, t, OwesWrite);
    SumMember(agents, t, OwesWork);
  }

  lemma CensusSpawns(agents: seq<Agent>, agent: Agent)
    ensures Grown(CensusOf(agents), CensusOf(agents + [agent]), agent)
  {
    SumAppend(agents, agent, References);
    SumAppend(agents, agent, RunsRead);
    SumAppend(agents, agent, RunsWrite);
    SumAppend(agents, agent, CallsRead);
    SumAppend(agents, agent, CallsWrite);
    SumAppend(agents, agent, ClaimsRead);
    SumAppend(agents, agent, ClaimsWrite);
    SumAppend(agents, agent, Deletes);
    SumAppend(agents, agent, Reports);
    SumAppend(agents, agent, OwesRead);
    SumAppend(agents, agent, OwesWrite);
    SumAppend(agents, agent, OwesWork);
  }

  // ---------------------------------------------------------------------------
  // The invariant
  // ---------------------------------------------------------------------------

  /** The reference of the caller that started the event; the canceller that sets CLOSED takes it over. */
  function StartReference(s: State): nat {
    One(s.phase == Open && !s.closed)
  }

  predicate Counted(s: State, c: Census) {
    && s.refs == StartReference(s) + c.references
    && (s.phase == Open <==> s.refs > 0)
    && c.reports == One(s.phase == Reporting || s.phase == Retired)
    && (s.phase == Reporting || s.phase == Retired ==> s.closed)
  }

  predicate SideSound(s: State, c: Census, side: Side) {
    var v := s.At(side);
    && c.Runs(side) + c.Calls(side) == One(v.busy)
    && (CanClaim(s, side) ==> c.Claims(side) > 0)
    && (s.closed && s.cfg.serial ==> v.late + c.Calls(side) <= 1)
    && (!s.closed ==> v.late == 0)
  }

  predicate Ledger(s: State, c: Census) {
    var open := s.phase != Vacant;
    && s.heldRead == One(open && s.cfg.readQueue) + c.owesRead
    && s.heldWrite == One(open && s.cfg.writeQueue) + c.owesWrite
    && s.heldWork == One(open && s.cfg.work) + c.owesWork
    && (open ==> s.deletions + c.deletes == One(s.closed))
    && (s.phase == Open ==> s.reports == [])
  }

  predicate Balanced(s: State, c: Census) {
    Counted(s, c) && SideSound(s, c, Readable) && SideSound(s, c, Writable) && Ledger(s, c)
  }

  /** What an agent past the generation check, or on the way out of the slot, may rely on. */
  predicate AgentSound(s: State, agent: Agent) {
    && (Admitted(agent) ==> agent.gen == s.gen)
    && (agent.DirectNext? || agent.DirectCall? ==> !s.cfg.serial)
    && (Serving(agent) ==> s.cfg.serial)
    && (agent.PostReference? || agent.PostPush? || agent.TaskNext? || agent.TaskCall? ==> s.cfg.HasQueue(agent.side))
    && (agent.ReportNext? ==>
          s.phase == Reporting && OwesReport(s.cfg, agent.side) && s.reports == ReportsBefore(s.cfg, agent.side))
    && (agent.ReportCall? ==>
          s.phase == Reporting && OwesReport(s.cfg, agent.side)
              && s.reports == ReportsBefore(s.cfg, agent.side) + [agent.side])
    && (agent.GiveRetire? ==> s.phase == Reporting && s.reports == s.cfg.Reports())
    && (agent.GiveFree? ==>
          && s.phase == Retired && s.reports == s.cfg.Reports()
          && agent.cfg == s.cfg && agent.gen + 1 == s.gen)
  }

  predicate OwesReport(cfg: Config, side: Side) {
    side == cfg.FirstReport() || (side == Readable && cfg.readQueue)
  }

  function ReportsBefore(cfg: Config, side: Side): seq<Side> {
    if side == Readable && cfg.writeQueue then [Writable] else []
  }

  ghost predicate AgentsSound(s: State) {
    forall t | 0 <= t < |s.agents| :: AgentSound(s, s.agents[t])
  }

  /**
   A finished tenancy: every report made once and in order, one deletion, and,
   serialized, nothing late but one call a side.
   */
  predicate Complete(tenancy: Tenancy) {
    && tenancy.reports == tenancy.cfg.Reports()
    && tenancy.deletions == 1
    && (tenancy.cfg.serial ==> tenancy.read.late <= 1 && tenancy.write.late <= 1)
  }

  ghost predicate History(s: State) {
    && (forall i | 0 <= i < |s.past| :: Complete(s.past[i]) && s.past[i].gen < s.gen)
    && (forall i, j | 0 <= i < j < |s.past| :: s.past[i].gen < s.past[j].gen)
    && (s.phase == Retired ==> forall i | 0 <= i < |s.past| :: s.past[i].gen < s.gen - 1)
  }

  ghost predicate Inv(s: State) {
    Balanced(s, CensusOf(s.agents)) && AgentsSound(s) && History(s)
  }
}
