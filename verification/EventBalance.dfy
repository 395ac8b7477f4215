/** Each step of the event protocol keeps its sums in balance. */
module EventBalance {
  import opened EventProtocol
  import opened EventInvariant

  /** Agent `t` has moved from `c` to `m`, and whoever it spawned makes `c'` of it. */
  predicate Followed(s: State, s': State, t: nat, c: Census, m: Census, c': Census)
    requires t < |s.agents|
  {
    && |s.agents| <= |s'.agents| <= |s.agents| + 1
    && Moved(c, m, s.agents[t], s'.agents[t])
    && if |s'.agents| == |s.agents| then c' == m else Grown(m, c', s'.agents[|s.agents|])
  }

  lemma DispatchAcquireBalances(s: State, s': State, t: nat, c: Census, c': Census)
    requires t < |s.agents| && s.agents[t].DispatchAcquire? && AcquireStep(s, s', t)
    requires Balanced(s, c) && Moved(c, c', s.agents[t], s'.agents[t])
    ensures Balanced(s', c')
  {
  }

  lemma CancelAcquireBalances(s: State, s': State, t: nat, c: Census, c': Census)
    requires t < |s.agents| && s.agents[t].CancelAcquire? && AcquireStep(s, s', t)
    requires Balanced(s, c) && Moved(c, c', s.agents[t], s'.agents[t])
    ensures Balanced(s', c')
  {
  }

  lemma CheckBalances(s: State, s': State, t: nat, c: Census, c': Census)
    requires t < |s.agents| && (s.agents[t].DispatchCheck? || s.agents[t].CancelCheck?) && CheckStep(s, s', t)
    requires Balanced(s, c) && Moved(c, c', s.agents[t], s'.agents[t])
    ensures Balanced(s', c')
  {
  }

  lemma DirectNextBalances(s: State, s': State, t: nat, c: Census, c': Census)
    requires t < |s.agents| && s.agents[t].DirectNext? && DirectStep(s, s', t)
    requires !s.cfg.serial && Balanced(s, c) && Moved(c, c', s.agents[t], s'.agents[t])
    ensures Balanced(s', c')
  {
  }

  lemma DirectCallBalances(s: State, s': State, t: nat, c: Census, c': Census)
    requires t < |s.agents| && s.agents[t].DirectCall? && DirectStep(s, s', t)
    requires Balanced(s, c) && Moved(c, c', s.agents[t], s'.agents[t])
    ensures Balanced(s', c')
  {
  }

  lemma PublishBalances(s: State, s': State, t: nat, c: Census, c': Census)
    requires t < |s.agents| && s.agents[t].Publish? && PublishStep(s, s', t)
    requires Balanced(s, c) && Moved(c, c', s.agents[t], s'.agents[t])
    ensures Balanced(s', c')
  {
  }

  lemma ClaimBalances(s: State, s': State, t: nat, c: Census, c': Census)
    requires t < |s.agents| && s.agents[t].Claim? && ClaimStep(s, s', t)
    requires Balanced(s, c) && Moved(c, c', s.agents[t], s'.agents[t])
    ensures Balanced(s', c')
  {
  }

  lemma PostReferenceBalances(s: State, s': State, t: nat, c: Census, m: Census, c': Census)
    requires t < |s.agents| && s.agents[t].PostReference? && PostStep(s, s', t)
    requires Balanced(s, c) && Followed(s, s', t, c, m, c')
    ensures Balanced(s', c')
  {
  }

  lemma PostPushBalances(s: State, s': State, t: nat, c: Census, m: Census, c': Census)
    requires t < |s.agents| && s.agents[t].PostPush? && PostStep(s, s', t)
    requires Balanced(s, c) && Followed(s, s', t, c, m, c')
    ensures Balanced(s', c')
  {
  }

  lemma CallBalances(s: State, s': State, t: nat, c: Census, c': Census)
    requires t < |s.agents| && (s.agents[t].ServeNext? || s.agents[t].TaskNext?) && CallStep(s, s', t)
    requires Balanced(s, c) && Moved(c, c', s.agents[t], s'.agents[t])
    ensures Balanced(s', c')
  {
  }

  lemma LeaveBalances(s: State, s': State, t: nat, c: Census, c': Census)
    requires t < |s.agents| && (s.agents[t].ServeCall? || s.agents[t].TaskCall?) && LeaveStep(s, s', t)
    requires Balanced(s, c) && Moved(c, c', s.agents[t], s'.agents[t])
    ensures Balanced(s', c')
  {
  }

  lemma CancelBalances(s: State, s': State, t: nat, c: Census, c': Census)
    requires t < |s.agents| && (s.agents[t].CancelClose? || s.agents[t].CancelDrop?) && CancelStep(s, s', t)
    requires Balanced(s, c) && Moved(c, c', s.agents[t], s'.agents[t])
    ensures Balanced(s', c')
  {
  }

  lemma DeleteBalances(s: State, s': State, t: nat, c: Census, c': Census)
    requires t < |s.agents| && s.agents[t].CancelDelete? && DeleteStep(s, s', t)
    requires Balanced(s, c) && Moved(c, c', s.agents[t], s'.agents[t])
    ensures Balanced(s', c')
  {
  }

  lemma ReleaseBalances(s: State, s': State, t: nat, c: Census, m: Census, c': Census)
    requires t < |s.agents| && s.agents[t].Leaving? && ReleaseStep(s, s', t)
    requires Balanced(s, c) && Followed(s, s', t, c, m, c')
    requires s.refs != 1
    ensures Balanced(s', c')
  {
  }

  lemma LastReleaseBalances(s: State, s': State, t: nat, c: Census, m: Census, c': Census)
    requires t < |s.agents| && s.agents[t].Leaving? && ReleaseStep(s, s', t)
    requires Balanced(s, c) && Followed(s, s', t, c, m, c')
    requires s.refs == 1 && (s.cfg.readQueue || s.cfg.writeQueue)
    ensures Balanced(s', c')
  {
  }

  lemma TeardownBalances(s: State, s': State, t: nat, c: Census, m: Census, c': Census)
    requires t < |s.agents| && s.agents[t].Leaving? && ReleaseStep(s, s', t)
    requires Balanced(s, c) && Followed(s, s', t, c, m, c')
    requires s.refs == 1 && !s.cfg.readQueue && !s.cfg.writeQueue
    ensures Balanced(s', c')
  {
  }

  lemma ReportNextBalances(s: State, s': State, t: nat, c: Census, m: Census, c': Census)
    requires t < |s.agents| && s.agents[t].ReportNext? && ReportStep(s, s', t)
    requires Balanced(s, c) && Followed(s, s', t, c, m, c')
    ensures Balanced(s', c')
  {
  }

  lemma ReportHandsOverBalances(s: State, s': State, t: nat, c: Census, m: Census, c': Census)
    requires t < |s.agents| && s.agents[t].ReportCall? && ReportStep(s, s', t)
    requires Balanced(s, c) && Followed(s, s', t, c, m, c')
    requires s.agents[t].side == Writable && s.cfg.readQueue
    ensures Balanced(s', c')
  {
  }

  lemma LastReportBalances(s: State, s': State, t: nat, c: Census, m: Census, c': Census)
    requires t < |s.agents| && s.agents[t].ReportCall? && ReportStep(s, s', t)
    requires Balanced(s, c) && Followed(s, s', t, c, m, c')
    requires !(s.agents[t].side == Writable && s.cfg.readQueue)
    ensures Balanced(s', c')
  {
  }

  lemma GiveBalances(s: State, s': State, t: nat, c: Census, c': Census)
    requires t < |s.agents| && (s.agents[t].GiveRetire? || s.agents[t].GiveFree?) && GiveStep(s, s', t)
    requires Balanced(s, c) && AgentSound(s, s.agents[t]) && Moved(c, c', s.agents[t], s'.agents[t])
    ensures Balanced(s', c')
  {
  }

  lemma FreeReadBalances(s: State, s': State, t: nat, c: Census, c': Census)
    requires t < |s.agents| && s.agents[t].FreeRead? && FinishStep(s, s', t)
    requires Balanced(s, c) && Moved(c, c', s.agents[t], s'.agents[t])
    ensures Balanced(s', c')
  {
  }

  lemma FreeWriteBalances(s: State, s': State, t: nat, c: Census, c': Census)
    requires t < |s.agents| && s.agents[t].FreeWrite? && FinishStep(s, s', t)
    requires Balanced(s, c) && Moved(c, c', s.agents[t], s'.agents[t])
    ensures Balanced(s', c')
  {
  }

  lemma LeaveWorkBalances(s: State, s': State, t: nat, c: Census, c': Census)
    requires t < |s.agents| && s.agents[t].LeaveWork? && FinishStep(s, s', t)
    requires Balanced(s, c) && Moved(c, c', s.agents[t], s'.agents[t])
    ensures Balanced(s', c')
  {
  }

  // ---------------------------------------------------------------------------
  // All of them
  // ---------------------------------------------------------------------------

  predicate Arriving(agent: Agent) {
    agent.DispatchAcquire? || agent.CancelAcquire? || agent.DispatchCheck? || agent.CancelCheck?
    || agent.DirectNext? || agent.DirectCall? || agent.Publish?
  }

  predicate Delivering(agent: Agent) {
    agent.Claim? || agent.PostReference? || agent.PostPush? || agent.ServeNext? || agent.TaskNext?
    || agent.ServeCall? || agent.TaskCall?
  }

  predicate Cancelling(agent: Agent) {
    agent.CancelClose? || agent.CancelDrop? || agent.CancelDelete? || agent.Leaving?
  }

  lemma ArrivingBalances(s: State, s': State, t: nat, c: Census, m: Census, c': Census)
    requires t < |s.agents| && Arriving(s.agents[t]) && AgentStep(s, s', t)
    requires Balanced(s, c) && AgentSound(s, s.agents[t]) && Followed(s, s', t, c, m, c')
    ensures Balanced(s', c')
  {
    match s.agents[t]
    case DispatchAcquire(_, _) => DispatchAcquireBalances(s, s', t, c, c');
    case CancelAcquire(_) => CancelAcquireBalances(s, s', t, c, c');
    case DispatchCheck(_, _) => CheckBalances(s, s', t, c, c');
    case CancelCheck(_) => CheckBalances(s, s', t, c, c');
    case DirectNext(_, _, _) => DirectNextBalances(s, s', t, c, c');
    case DirectCall(_, _, _) => DirectCallBalances(s, s', t, c, c');
    case Publish(_, _, _) => PublishBalances(s, s', t, c, c');
  }

  lemma DeliveringBalances(s: State, s': State, t: nat, c: Census, m: Census, c': Census)
    requires t < |s.agents| && Delivering(s.agents[t]) && AgentStep(s, s', t)
    requires Balanced(s, c) && Followed(s, s', t, c, m, c')
    ensures Balanced(s', c')
  {
    match s.agents[t]
    case Claim(_, _, _) => ClaimBalances(s, s', t, c, c');
    case PostReference(_, _, _) => PostReferenceBalances(s, s', t, c, m, c');
    case PostPush(_, _, _) => PostPushBalances(s, s', t, c, m, c');
    case ServeNext(_, _, _) => CallBalances(s, s', t, c, c');
    case TaskNext(_, _) => CallBalances(s, s', t, c, c');
    case ServeCall(_, _, _) => LeaveBalances(s, s', t, c, c');
    case TaskCall(_, _) => LeaveBalances(s, s', t, c, c');
  }

  lemma CancellingBalances(s: State, s': State, t: nat, c: Census, m: Census, c': Census)
    requires t < |s.agents| && Cancelling(s.agents[t]) && AgentStep(s, s', t)
    requires Balanced(s, c) && Followed(s, s', t, c, m, c')
    ensures Balanced(s', c')
  {
    match s.agents[t]
    case CancelClose(_) => CancelBalances(s, s', t, c, c');
    case CancelDrop(_) => CancelBalances(s, s', t, c, c');
    case CancelDelete(_) => DeleteBalances(s, s', t, c, c');
    case Leaving(_) =>
      if s.refs != 1 {
        ReleaseBalances(s, s', t, c, m, c');
      } else if s.cfg.readQueue || s.cfg.writeQueue {
        LastReleaseBalances(s, s', t, c, m, c');
      } else {
        TeardownBalances(s, s', t, c, m, c');
      }
  }

  lemma ReportingBalances(s: State, s': State, t: nat, c: Census, m: Census, c': Census)
    requires t < |s.agents| && AgentStep(s, s', t)
    requires !Arriving(s.agents[t]) && !Delivering(s.agents[t]) && !Cancelling(s.agents[t])
    requires Balanced(s, c) && AgentSound(s, s.agents[t]) && Followed(s, s', t, c, m, c')
    ensures Balanced(s', c')
  {
    match s.agents[t]
    case ReportNext(_) => ReportNextBalances(s, s', t, c, m, c');
    case ReportCall(side) =>
      if side == Writable && s.cfg.readQueue {
        ReportHandsOverBalances(s, s', t, c, m, c');
      } else {
        LastReportBalances(s, s', t, c, m, c');
      }
    case GiveRetire => GiveBalances(s, s', t, c, c');
    case GiveFree(_, _) => GiveBalances(s, s', t, c, c');
    case FreeRead(_) => FreeReadBalances(s, s', t, c, c');
    case FreeWrite(_) => FreeWriteBalances(s, s', t, c, c');
    case LeaveWork(_) => LeaveWorkBalances(s, s', t, c, c');
  }

  lemma AgentStepBalances(s: State, s': State, t: nat, c: Census, m: Census, c': Census)
    requires t < |s.agents| && AgentStep(s, s', t)
    requires Balanced(s, c) && AgentSound(s, s.agents[t]) && Followed(s, s', t, c, m, c')
    ensures Balanced(s', c')
  {
    if Arriving(s.agents[t]) {
      ArrivingBalances(s, s', t, c, m, c');
    } else if Delivering(s.agents[t]) {
      DeliveringBalances(s, s', t, c, m, c');
    } else if Cancelling(s.agents[t]) {
      CancellingBalances(s, s', t, c, m, c');
    } else {
      ReportingBalances(s, s', t, c, m, c');
    }
  }
}
