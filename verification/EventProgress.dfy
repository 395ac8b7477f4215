/**
 No notification is lost: once arrivals cease, every run of the agents in
 flight ends after a bounded number of steps, and where it ends every
 notification has been followed by a handler call or by a full cancellation.
 */
module EventProgress {
  import opened Tally
  import opened EventProtocol
  import opened EventInvariant
  import opened EventBalance
  import opened EventSafety
  import opened EventNotice

  ghost predicate Works(s: State, s': State) {
    exists t: nat :: t < |s.agents| && AgentStep(s, s', t)
  }

  /** Steps an agent may still take on its own account. */
  function Remaining(agent: Agent): nat {
    match agent
    case Done => 0
    case LeaveWork(_) => 1
    case FreeWrite(_) => 2
    case FreeRead(_) => 3
    case GiveFree(_, _) => 4
    case GiveRetire => 5
    case ReportCall(side) => if side == Readable then 6 else 8
    case ReportNext(side) => if side == Readable then 7 else 9
    case Leaving(_) => 1
    case TaskCall(_, _) => 2
    case TaskNext(_, _) => 3
    case Claim(_, _, read) => 2 + One(read)
    case PostReference(_, _, read) => 6 + One(read)
    case PostPush(_, _, read) => 5 + One(read)
    case ServeCall(_, _, read) => 2 + One(read)
    case ServeNext(_, _, read) => 3 + One(read)
    case Publish(_, _, _) => 14
    case DirectNext(_, read, write) => 2 + 2 * One(read) + 2 * One(write)
    case DirectCall(_, _, write) => 3 + 2 * One(write)
    case DispatchCheck(_, _) => 15
    case DispatchAcquire(_, _) => 16
    case CancelDrop(_) => 2
    case CancelDelete(_) => 3
    case CancelClose(_) => 4
    case CancelCheck(_) => 5
    case CancelAcquire(_) => 6
  }

  /** A READY bit is worth one more claim or call, an open slot one round of reports. */
  function Credit(s: State): nat {
    5 * One(s.read.ready) + 5 * One(s.write.ready) + 10 * One(s.phase == Open)
  }

  function Work(s: State): nat { Sum(s.agents, Remaining) + Credit(s) }

  /** What a step of agent `t` does to the work. */
  function Spent(s: State, s': State, t: nat): int
    requires t < |s.agents| <= |s'.agents|
  {
    Remaining(s.agents[t]) - Remaining(s'.agents[t])
    - (if |s'.agents| > |s.agents| then Remaining(s'.agents[|s.agents|]) else 0)
    + Credit(s) - Credit(s')
  }

  lemma ArrivingSpends(s: State, s': State, t: nat)
    requires t < |s.agents| && AgentStep(s, s', t) && Arriving(s.agents[t])
    ensures |s'.agents| == |s.agents| && Spent(s, s', t) > 0
  {
  }

  lemma DeliveringSpends(s: State, s': State, t: nat)
    requires t < |s.agents| && AgentStep(s, s', t) && Delivering(s.agents[t])
    ensures |s'.agents| >= |s.agents| && Spent(s, s', t) > 0
  {
  }

  lemma CancellingSpends(s: State, s': State, t: nat)
    requires t < |s.agents| && AgentStep(s, s', t) && Cancelling(s.agents[t]) && (s.phase == Open <==> s.refs > 0)
    ensures |s'.agents| >= |s.agents| && Spent(s, s', t) > 0
  {
  }

  lemma ReportingSpends(s: State, s': State, t: nat)
    requires t < |s.agents| && AgentStep(s, s', t)
    requires !Arriving(s.agents[t]) && !Delivering(s.agents[t]) && !Cancelling(s.agents[t])
    ensures |s'.agents| >= |s.agents| && Spent(s, s', t) > 0
  {
  }

  lemma StepSpends(s: State, s': State, t: nat)
    requires Inv(s) && t < |s.agents| && AgentStep(s, s', t)
    ensures |s'.agents| >= |s.agents| && Spent(s, s', t) > 0
  {
    if Arriving(s.agents[t]) {
      ArrivingSpends(s, s', t);
    } else if Delivering(s.agents[t]) {
      DeliveringSpends(s, s', t);
    } else if Cancelling(s.agents[t]) {
      CancellingSpends(s, s', t);
    } else {
      ReportingSpends(s, s', t);
    }
  }

  lemma WorkAfter(s: State, s': State, t: nat)
    requires t < |s.agents| && Shaped(s, s', t)
    ensures Work(s') == Work(s) - Spent(s, s', t)
  {
    var turned := s.agents[t := s'.agents[t]];
    SumUpdate(s.agents, t, s'.agents[t], Remaining);
    if |s'.agents| > |s.agents| {
      SumAppend(turned, s'.agents[|s.agents|], Remaining);
      assert s'.agents == turned + [s'.agents[|s.agents|]];
    } else {
      assert s'.agents == turned;
    }
  }

  lemma WorkShrinks(s: State, s': State)
    requires Inv(s) && Works(s, s')
    ensures Inv(s') && Work(s') < Work(s)
  {
    var t: nat :| t < |s.agents| && AgentStep(s, s', t);
    StepKeeps(s, s', t);
    StepShape(s, s', t);
    StepSpends(s, s', t);
    WorkAfter(s, s', t);
  }

  // ---------------------------------------------------------------------------
  // An agent that is not done can always go on
  // ---------------------------------------------------------------------------

  ghost predicate CanAct(s: State, t: nat)
    requires t < |s.agents|
  {
    exists s' :: AgentStep(s, s', t)
  }

  lemma ArrivingCanStep(s: State, t: nat)
    requires t < |s.agents| && Arriving(s.agents[t])
    ensures CanAct(s, t)
  {
    var s';
    match s.agents[t] {
    case DispatchAcquire(gen, mask) =>
      s' := if s.refs == 0 then s.(agents := s.agents[t := Done])
            else s.(refs := s.refs + 1, agents := s.agents[t := DispatchCheck(gen, mask)]);
    case CancelAcquire(gen) =>
      s' := if s.refs == 0 then s.(agents := s.agents[t := Done])
            else s.(refs := s.refs + 1, agents := s.agents[t := CancelCheck(gen)]);
    case DispatchCheck(gen, mask) =>
      var current := s.gen == gen;
      s' := s.(read := Reported(s.read, current && s.cfg.wantRead && (mask.input || mask.failure)),
               write := Reported(s.write, current && s.cfg.wantWrite && (mask.output || mask.failure)),
               agents := s.agents[t := if current then AfterCheck(s.cfg, gen, mask) else Leaving(gen)]);
    case CancelCheck(gen) =>
      s' := s.(asked := s.asked || s.gen == gen,
               agents := s.agents[t := if s.gen == gen then CancelClose(gen) else Leaving(gen)]);
    case DirectNext(gen, read, write) =>
      s' := if read then s.(read := Called(s, Readable), agents := s.agents[t := DirectCall(gen, Readable, write)])
            else if write then s.(write := Called(s, Writable),
                agents := s.agents[t := DirectCall(gen, Writable, false)])
            else s.(agents := s.agents[t := Leaving(gen)]);
    case DirectCall(gen, side, write) => s' := s.(agents := s.agents[t := DirectNext(gen, false, write)]);
    case Publish(gen, read, write) =>
      s' := s.(read := Notified(s.read, read), write := Notified(s.write, write),
               agents := s.agents[t := if write then Claim(gen, Writable, read) else Claim(gen, Readable, false)]);
    }
    assert AgentStep(s, s', t);
  }

  function WithSide(s: State, side: Side, v: SideState): State {
    if side == Readable then s.(read := v) else s.(write := v)
  }

  lemma ClaimingCanStep(s: State, t: nat)
    requires t < |s.agents| && (s.agents[t].Claim? || s.agents[t].PostReference? || s.agents[t].PostPush?)
    ensures CanAct(s, t)
  {
    var s';
    match s.agents[t] {
    case Claim(gen, side, read) =>
      if CanClaim(s, side) {
        var next := if s.cfg.HasQueue(side) then PostReference(gen, side, read) else ServeNext(gen, side, read);
        s' := WithSide(s, side, s.At(side).(ready := false, busy := true)).(agents := s.agents[t := next]);
      } else {
        s' := s.(agents := s.agents[t := AfterSide(gen, read)]);
      }
    case PostReference(gen, side, read) => s' := s.(refs := s.refs + 1,
        agents := s.agents[t := PostPush(gen, side, read)]);
    case PostPush(gen, side, read) => s' := s.(agents := s.agents[t := AfterSide(gen, read)] + [TaskNext(gen, side)]);
    }
    assert AgentStep(s, s', t);
  }

  lemma CallingCanStep(s: State, t: nat)
    requires t < |s.agents| && (s.agents[t].ServeNext? || s.agents[t].TaskNext?)
    ensures CanAct(s, t)
  {
    var s';
    match s.agents[t] {
    case ServeNext(gen, side, read) =>
      s' := WithSide(s, side, Called(s, side)).(agents := s.agents[t := ServeCall(gen, side, read)]);
    case TaskNext(gen, side) =>
      s' := WithSide(s, side, Called(s, side)).(agents := s.agents[t := TaskCall(gen, side)]);
    }
    assert AgentStep(s, s', t);
  }

  lemma ServingCanStep(s: State, t: nat)
    requires t < |s.agents| && (s.agents[t].ServeCall? || s.agents[t].TaskCall?)
    ensures CanAct(s, t)
  {
    var s';
    match s.agents[t] {
    case ServeCall(gen, side, read) =>
      var again := MustServeAgain(s, side);
      s' := WithSide(s, side, s.At(side).(ready := false, busy := again))
            .(agents := s.agents[t := if again then ServeNext(gen, side, read) else AfterSide(gen, read)]);
    case TaskCall(gen, side) =>
      var again := MustServeAgain(s, side);
      s' := WithSide(s, side, s.At(side).(ready := false, busy := again))
            .(agents := s.agents[t := if again then TaskNext(gen, side) else Leaving(gen)]);
    }
    assert AgentStep(s, s', t);
  }

  lemma CancellingCanStep(s: State, t: nat)
    requires t < |s.agents| && Cancelling(s.agents[t])
    ensures CanAct(s, t)
  {
    var s';
    match s.agents[t] {
    case CancelClose(gen) =>
      s' := s.(closed := true, agents := s.agents[t := if s.closed then Leaving(gen) else CancelDelete(gen)]);
    case CancelDelete(gen) => s' := s.(deletions := s.deletions + 1, agents := s.agents[t := CancelDrop(gen)]);
    case CancelDrop(gen) => s' := s.(refs := s.refs - 1, agents := s.agents[t := Leaving(gen)]);
    case Leaving(_) =>
      var first := ReportNext(s.cfg.FirstReport());
      s' := s.(refs := s.refs - 1, phase := if s.refs == 1 then Reporting else s.phase,
               agents := if s.refs != 1 then s.agents[t := Done]
                         else if s.cfg.readQueue || s.cfg.writeQueue then s.agents[t := Done] + [first]
                         else s.agents[t := first]);
    }
    assert AgentStep(s, s', t);
  }

  lemma ReportingCanStep(s: State, t: nat)
    requires t < |s.agents| && s.agents[t] != Done
    requires !Arriving(s.agents[t]) && !Delivering(s.agents[t]) && !Cancelling(s.agents[t])
    ensures CanAct(s, t)
  {
    var s';
    match s.agents[t] {
    case ReportNext(side) => s' := s.(reports := s.reports + [side], agents := s.agents[t := ReportCall(side)]);
    case ReportCall(side) =>
      s' := s.(agents := if side == Writable && s.cfg.readQueue then s.agents[t := Done] + [ReportNext(Readable)]
                         else s.agents[t := GiveRetire]);
    case GiveRetire =>
      s' := s.(gen := s.gen + 1, phase := Retired, agents := s.agents[t := GiveFree(s.gen, s.cfg)]);
    case GiveFree(gen, cfg) =>
      s' := s.(phase := Vacant, agents := s.agents[t := FreeRead(cfg)],
               past := s.past + [Tenancy(gen, s.cfg, s.reports, s.deletions, s.read, s.write)]);
    case FreeRead(cfg) => s' := s.(heldRead := s.heldRead - One(cfg.readQueue),
        agents := s.agents[t := FreeWrite(cfg)]);
    case FreeWrite(cfg) => s' := s.(heldWrite := s.heldWrite - One(cfg.writeQueue),
        agents := s.agents[t := LeaveWork(cfg)]);
    case LeaveWork(cfg) => s' := s.(heldWork := s.heldWork - One(cfg.work), agents := s.agents[t := Done]);
    }
    assert AgentStep(s, s', t);
  }

  lemma CanStep(s: State, t: nat)
    requires t < |s.agents| && s.agents[t] != Done
    ensures CanAct(s, t)
  {
    if Arriving(s.agents[t]) {
      ArrivingCanStep(s, t);
    } else if Delivering(s.agents[t]) {
      if s.agents[t].Claim? || s.agents[t].PostReference? || s.agents[t].PostPush? {
        ClaimingCanStep(s, t);
      } else if s.agents[t].ServeNext? || s.agents[t].TaskNext? {
        CallingCanStep(s, t);
      } else {
        ServingCanStep(s, t);
      }
    } else if Cancelling(s.agents[t]) {
      CancellingCanStep(s, t);
    } else {
      ReportingCanStep(s, t);
    }
  }

  // ---------------------------------------------------------------------------
  // Runs without arrivals
  // ---------------------------------------------------------------------------

  ghost predicate WorksAt(run: seq<State>, i: nat)
    requires 0 < i < |run|
  {
    Works(run[i - 1], run[i])
  }

  /** Only agents already in flight move. */
  ghost predicate DrainRun(run: seq<State>) {
    |run| > 0 && forall i | 0 < i < |run| :: WorksAt(run, i)
  }

  lemma {:induction false} DrainIsBounded(run: seq<State>, i: nat)
    requires DrainRun(run) && Inv(run[0]) && i < |run|
    ensures Inv(run[i]) && Work(run[i]) + i <= Work(run[0])
  {
    hide Inv, Works;
    if i > 0 {
      DrainIsBounded(run, i - 1);
      assert WorksAt(run, i);
      WorkShrinks(run[i - 1], run[i]);
    }
  }

  ghost predicate Stuck(s: State) {
    forall s' :: !Works(s, s')
  }

  lemma StuckIsQuiet(s: State)
    requires Stuck(s)
    ensures forall t | 0 <= t < |s.agents| :: s.agents[t] == Done
  {
    forall t | 0 <= t < |s.agents| ensures s.agents[t] == Done {
      if s.agents[t] != Done {
        CanStep(s, t);
        var s' :| AgentStep(s, s', t);
        assert Works(s, s');
      }
    }
  }

  /** Nothing is in flight and nothing is owed. */
  ghost predicate Settled(s: State) {
    && (forall t | 0 <= t < |s.agents| :: s.agents[t] == Done)
    && (s.phase == Open ==> !s.closed && !s.asked && !s.read.owed && !s.write.owed)
    && (s.phase == Open || s.phase == Vacant)
    && s.heldRead == One(s.phase == Open && s.cfg.readQueue)
    && s.heldWrite == One(s.phase == Open && s.cfg.writeQueue)
    && s.heldWork == One(s.phase == Open && s.cfg.work)
  }

  /** With nobody in flight no side is taken and no readiness is left unclaimed. */
  lemma QuietCensus(s: State)
    requires Inv(s) && forall t | 0 <= t < |s.agents| :: s.agents[t] == Done
    ensures s.refs == StartReference(s)
    ensures s.phase == Open || s.phase == Vacant
    ensures !CanClaim(s, Readable) && !CanClaim(s, Writable)
    ensures !s.read.busy && !s.write.busy
  {
    SumZero(s.agents, References);
    SumZero(s.agents, Reports);
    SumZero(s.agents, CallsRead);
    SumZero(s.agents, CallsWrite);
    SumZero(s.agents, RunsRead);
    SumZero(s.agents, RunsWrite);
    SumZero(s.agents, ClaimsRead);
    SumZero(s.agents, ClaimsWrite);
  }

  lemma QuietHoldings(s: State)
    requires Inv(s) && forall t | 0 <= t < |s.agents| :: s.agents[t] == Done
    ensures Sum(s.agents, OwesRead) == Sum(s.agents, OwesWrite) == Sum(s.agents, OwesWork) == 0
  {
    SumZero(s.agents, OwesRead);
    SumZero(s.agents, OwesWrite);
    SumZero(s.agents, OwesWork);
  }

  lemma QuietIsSettled(s: State)
    requires Inv(s) && NoticeSound(s) && forall t | 0 <= t < |s.agents| :: s.agents[t] == Done
    ensures Settled(s)
  {
    QuietCensus(s);
    QuietHoldings(s);
    assert !Headed(s, Readable) && !Headed(s, Writable) && !Closing(s);
  }

  lemma {:induction false} DrainKeepsNotice(run: seq<State>, i: nat)
    requires DrainRun(run) && NoticeSound(run[0]) && i < |run|
    ensures NoticeSound(run[i])
  {
    hide NoticeSound;
    if i > 0 {
      DrainKeepsNotice(run, i - 1);
      assert WorksAt(run, i);
      NextKeepsNotice(run[i - 1], run[i]);
    }
  }

  /**
   Take any state of any execution and let the agents in flight run on, in any
   order, until none of them can: that takes at most Work(run[0]) steps, no
   report of the kernel about a side of interest is left without a call that
   started after it, no cancel that was asked for has left the event open, and
   a cancelled event has been reported, given back and released in full.
   */
  lemma EveryDrainSettles(past: seq<State>, run: seq<State>)
    requires Execution(past) && DrainRun(run) && run[0] == past[|past| - 1] && Stuck(run[|run| - 1])
    ensures |run| - 1 <= Work(run[0])
    ensures Settled(run[|run| - 1])
  {
    hide Inv, NoticeSound, Settled, Works, WorksAt;
    var last := run[|run| - 1];
    Reachable(past, |past| - 1);
    NoticeHolds(past, |past| - 1);
    DrainIsBounded(run, |run| - 1);
    DrainKeepsNotice(run, |run| - 1);
    StuckIsQuiet(last);
    QuietIsSettled(last);
  }
}
