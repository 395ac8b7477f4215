/** What every step of a loop keeps. */
module LoopInvariant {
  import opened Tally
  import opened LoopProtocol
  import opened LoopWork
  import Q = QueueProtocol
  import QI = QueueInvariant
  import E = EventProtocol
  import EI = EventInvariant
  import ES = EventSafety
  import L = LoopStop

  ghost predicate HasTasks(s: Q.State) {
    exists q :: 0 <= q < |s.slots| && s.slots[q].tasks != []
  }

  /** No task has been unlinked from any queue. */
  ghost predicate Untouched(s: Q.State) {
    forall q: nat | q < |s.slots| :: s.slots[q].tasks == s.slots[q].pushed
  }

  /** Until everybody has come, nothing has run, and there is something to run. */
  ghost predicate StartSound(hold: bool, queues: Q.State, crew: L.Crew) {
    && (hold ==> crew.entered == 0)
    && (crew.entered < |crew.workers| ==> Untouched(queues) && (hold || HasTasks(queues)))
  }

  ghost predicate EventsSound(events: seq<E.State>) {
    forall e | 0 <= e < |events| :: EI.Inv(events[e])
  }

  ghost predicate QueuesFit(queues: Q.State) {
    QI.Inv(queues) && QueuesSound(queues)
  }

  /** The count is the hold and the shares of the queues and the events. */
  ghost predicate CountSound(s: State) {
    s.work == One(s.hold) + s.queues.work + Sum(s.events, EventWork())
  }

  ghost predicate CrewSound(s: State) {
    L.Sound(s.crew) && (s.work == 0 <==> s.crew.stopper != L.NoStopper)
  }

  /** There are handles for all that events hold, and events hold nothing else. */
  ghost predicate HandlesSound(queues: Q.State, events: seq<E.State>) {
    && (forall q: nat | q < |queues.slots| :: Handles(queues, q) >= Sum(events, HoldsOn(q)))
    && (forall q: nat | q >= |queues.slots| :: Sum(events, HoldsOn(q)) == 0)
  }

  ghost predicate Inv(s: State) {
    && QueuesFit(s.queues) && EventsSound(s.events) && CountSound(s) && CrewSound(s)
    && StartSound(s.hold, s.queues, s.crew) && HandlesSound(s.queues, s.events)
  }

  // ---------------------------------------------------------------------------
  // The count
  // ---------------------------------------------------------------------------

  /** What is alive is counted. */
  lemma LifeCounts(s: State, q: nat)
    requires QueuesFit(s.queues) && CountSound(s) && q < |s.queues.slots| && s.queues.slots[q].refs > 0
    ensures s.work > 0
  {
    SumMember(s.queues.slots, q, TenantOf());
    if s.queues.slots[q].life == Q.Free {
      FreeIsUnreferenced(s.queues, q);
    }
  }

  /** Without work nothing is alive, and so nothing has a task. */
  lemma NoWorkNoTasks(s: State)
    requires QueuesFit(s.queues) && CountSound(s) && s.work == 0
    ensures !s.hold && !HasTasks(s.queues)
  {
    hide QueuesFit;
    forall q | 0 <= q < |s.queues.slots| ensures s.queues.slots[q].tasks == [] {
      NoWorkNoTask(s, q);
    }
    WorkIsPositive(s);
  }

  lemma WorkIsPositive(s: State)
    requires QueuesFit(s.queues) && CountSound(s)
    ensures s.queues.work >= 0 && s.work >= One(s.hold)
  {
  }

  lemma NoWorkNoTask(s: State, q: nat)
    requires QueuesFit(s.queues) && CountSound(s) && s.work == 0 && q < |s.queues.slots|
    ensures s.queues.slots[q].tasks == [] && s.queues.slots[q].refs == 0
  {
    if s.queues.slots[q].refs > 0 {
      LifeCounts(s, q);
    }
    assert QI.SlotSound(s.queues, q);
    FreeIsEmpty(s.queues, q);
  }

  /** Where a queue may be created there is work. */
  lemma CreatorsHaveWork(s: State)
    requires QueuesFit(s.queues) && CountSound(s) && MayCreate(s)
    ensures s.work > 0
  {
    WorkIsPositive(s);
    if !s.hold {
      var t: nat :| t < |s.queues.threads| && InBody(s.queues.threads[t]);
      var q := s.queues.threads[t].stage.q;
      assert QI.ThreadSound(s.queues.threads[t], |s.queues.slots|);
      assert QI.SlotSound(s.queues, q);
      QI.ShareIsCovered(s.queues, t, q);
      LifeCounts(s, q);
    }
  }

  /** The work goes, if it does, after everybody has come; and it does not come back. */
  lemma TollKeeps(s: State, s': State)
    requires CrewSound(s) && s.work >= 0 && Tolled(s, s')
    requires QueuesFit(s'.queues) && CountSound(s') && StartSound(s'.hold, s'.queues, s.crew)
    requires s'.work >= s.work - 1 && (s.work == 0 ==> s'.work <= 0)
    ensures CrewSound(s') && StartSound(s'.hold, s'.queues, s'.crew)
  {
    hide QueuesFit;
    WorkIsPositive(s');
    if s.work == 1 && s'.work == 0 {
      NoWorkNoTasks(s');
      L.CountedBounded(s.crew.workers);
      L.ZeroKeeps(s.crew, s'.crew);
    }
  }

  // ---------------------------------------------------------------------------
  // Queues
  // ---------------------------------------------------------------------------

  /** A worker that unlinks a task serves, so everybody has come. */
  lemma UnlinkingIsLate(s: State, q': Q.State, t: nat, q: nat)
    requires QI.Inv(s.queues) && L.Sound(s.crew) && MayAct(s, t) && Q.NextTaskStep(s.queues, q', t, q)
    ensures s.crew.entered == |s.crew.workers|
  {
    assert QI.ThreadSound(s.queues.threads[t], |s.queues.slots|);
    assert L.Through(s.crew.workers[t].stage);
  }

  /** What the steps of the queues have in common. */
  ghost predicate QueuesGoOn(s: State, q': Q.State) {
    && |s.queues.slots| <= |q'.slots|
    && s.queues.work - 1 <= q'.work <= s.queues.work + 1 && (q'.work > s.queues.work ==> MayCreate(s))
    && StartSound(s.hold, q', s.crew) && HandlesSound(q', s.events)
  }

  lemma QuietGoesOn(s: State, q': Q.State)
    requires StartSound(s.hold, s.queues, s.crew) && HandlesSound(s.queues, s.events) && Quiet(s.queues, q')
    requires s.queues.work - 1 <= q'.work <= s.queues.work + 1 && (q'.work > s.queues.work ==> MayCreate(s))
    ensures QueuesGoOn(s, q')
  {
    hide Sum;
    var calm := q'.(work := s.queues.work);
    forall q: nat | q < |q'.slots| ensures Handles(q', q) >= Sum(s.events, HoldsOn(q)) {
      if q < |s.queues.slots| {
        assert HandlesStay(s.queues, calm, q);
      }
    }
    if HasTasks(s.queues) {
      var q: nat :| q < |s.queues.slots| && s.queues.slots[q].tasks != [];
      assert TasksStay(s.queues.slots[q], calm.slots[q]);
      assert q'.slots[q].tasks != [];
    }
    if Untouched(s.queues) {
      forall q: nat | q < |q'.slots| ensures q'.slots[q].tasks == q'.slots[q].pushed {
        if q < |s.queues.slots| {
          assert TasksStay(s.queues.slots[q], calm.slots[q]);
        }
      }
    }
  }

  lemma UnlinkingGoesOn(s: State, q': Q.State, t: nat, q: nat)
    requires QI.Inv(s.queues) && L.Sound(s.crew) && MayAct(s, t) && Q.NextTaskStep(s.queues, q', t, q)
    requires StartSound(s.hold, s.queues, s.crew) && HandlesSound(s.queues, s.events)
    ensures QueuesGoOn(s, q')
  {
    UnlinkingIsLate(s, q', t, q);
    hide QI.Inv, L.Sound, Sum;
    forall p: nat | p < |q'.slots| ensures Handles(q', p) >= Sum(s.events, HoldsOn(p)) {
      SameCallsLend(s.queues, q', t, p);
    }
  }

  lemma ThreadGoesOn(s: State, q': Q.State, t: nat)
    requires QI.Inv(s.queues) && L.Sound(s.crew) && ThreadStep(s, q', t)
    requires StartSound(s.hold, s.queues, s.crew) && HandlesSound(s.queues, s.events)
    ensures QueuesGoOn(s, q')
  {
    hide QI.Inv, L.Sound, StartSound, HandlesSound, QueuesGoOn, Q.IdleStep, Q.CallStep, Q.RunStep, Q.ScriptStep;
    if Q.IdleStep(s.queues, q', t) {
      IdleIsCalm(s.queues, q', t);
    } else if q: nat :| q < |s.queues.slots| && Q.CallStep(s.queues, q', t, q) {
      CallIsCalm(s.queues, q', t, q);
    } else if q: nat :| RunStep(s, q', t, q) {
      if Q.NextTaskStep(s.queues, q', t, q) {
        UnlinkingGoesOn(s, q', t, q);
        return;
      }
      RunIsCalm(s.queues, q', t, q);
    } else {
      var q: nat :| q < |s.queues.slots| && Q.ScriptStep(s.queues, q', t, q);
      ScriptIsCalm(s.queues, q', t, q);
    }
    CalmGoesOn(s, q');
  }

  lemma CalmGoesOn(s: State, q': Q.State)
    requires StartSound(s.hold, s.queues, s.crew) && HandlesSound(s.queues, s.events) && Calm(s.queues, q')
    ensures QueuesGoOn(s, q')
  {
    assert q'.(work := s.queues.work) == q';
    QuietGoesOn(s, q');
  }

  lemma CloseGoesOn(s: State, q': Q.State, q: nat)
    requires StartSound(s.hold, s.queues, s.crew) && HandlesSound(s.queues, s.events)
    requires Q.CloseStep(s.queues, q', q) && Handles(s.queues, q) > EventHandles(s, q)
    ensures QueuesGoOn(s, q')
  {
    CloseTakesOne(s.queues, q', q);
    hide Q.CloseStep, Sum;
    if HasTasks(s.queues) {
      var p: nat :| p < |s.queues.slots| && s.queues.slots[p].tasks != [];
      assert TasksStay(s.queues.slots[p], q'.slots[p]);
      assert q'.slots[p].tasks != [];
    }
  }

  lemma HandleGoesOn(s: State, q': Q.State, q: nat)
    requires StartSound(s.hold, s.queues, s.crew) && HandlesSound(s.queues, s.events) && HandleStep(s, q', q)
    ensures QueuesGoOn(s, q')
  {
    hide StartSound, HandlesSound, QueuesGoOn;
    if Q.CloseStep(s.queues, q', q) && Handles(s.queues, q) > EventHandles(s, q) {
      CloseGoesOn(s, q', q);
    } else {
      HandleIsCalm(s.queues, q', q);
      CalmGoesOn(s, q');
    }
  }

  lemma QueuesKeepGoing(s: State, q': Q.State)
    requires QueuesFit(s.queues) && L.Sound(s.crew) && QueuesAct(s, q')
    requires StartSound(s.hold, s.queues, s.crew) && HandlesSound(s.queues, s.events)
    ensures QueuesFit(q') && QueuesGoOn(s, q')
  {
    hide QI.Inv, L.Sound, StartSound, HandlesSound, QueuesGoOn, QueuesSound, ThreadStep, HandleStep;
    ActsIsNext(s, q');
    QI.NextKeeps(s.queues, q');
    QueuesKeep(s.queues, q');
    if q: nat :| MayCreate(s) && Q.CreateStep(s.queues, q', q) {
      CreateIsQuiet(s.queues, q', q);
      QuietGoesOn(s, q');
    } else if q: nat :| HandleStep(s, q', q) {
      HandleGoesOn(s, q', q);
    } else if t: nat :| ThreadStep(s, q', t) {
      ThreadGoesOn(s, q', t);
    } else {
      RestIsQuiet(s.queues, q');
      QuietGoesOn(s, q');
    }
  }

  lemma QueueStepKeeps(s: State, s': State)
    requires Inv(s) && QueueStep(s, s')
    ensures Inv(s')
  {
    hide QueuesFit, EventsSound, StartSound, HandlesSound, QueuesAct, L.Sound, MayCreate;
    QueuesKeepGoing(s, s'.queues);
    WorkIsPositive(s);
    if s'.work > s.work {
      CreatorsHaveWork(s);
    }
    TollKeeps(s, s');
  }

  // ---------------------------------------------------------------------------
  // Events
  // ---------------------------------------------------------------------------

  /** Only handles and references differ. */
  ghost predicate SameTasks(a: Q.State, b: Q.State) {
    && |a.slots| == |b.slots| && b.work == a.work
    && forall q: nat | q < |a.slots| :: b.slots[q].tasks == a.slots[q].tasks && b.slots[q].pushed == a.slots[q].pushed
  }

  lemma SameTasksStart(hold: bool, a: Q.State, b: Q.State, crew: L.Crew)
    requires StartSound(hold, a, crew) && SameTasks(a, b)
    ensures StartSound(hold, b, crew)
  {
    if HasTasks(a) {
      var q: nat :| q < |a.slots| && a.slots[q].tasks != [];
      assert b.slots[q].tasks != [];
    }
  }

  /** An acquire on a queue that is alive. */
  lemma TakenFits(a: Q.State, b: Q.State, has: bool, q: nat)
    requires QueuesFit(a) && (has ==> q < |a.slots| && a.slots[q].refs > 0) && b == a.(slots := Taken(a.slots, has, q))
    ensures QueuesFit(b) && SameTasks(a, b)
    ensures forall p: nat | p < |a.slots| :: Handles(b, p) == Handles(a, p) + One(has && p == q)
    ensures forall p: nat | p < |a.slots| :: b.slots[p].refs >= a.slots[p].refs
  {
    if has {
      assert QI.SlotSound(a, q);
      QI.SlotReplaced(a, b, q, b.slots[q]);
      SumUpdate(a.slots, q, b.slots[q], TenantOf());
    }
  }

  /** Both queues of an event that is opened. */
  lemma BothTakenFit(s: State, cfg: E.Config) returns (b: Q.State)
    requires QueuesFit(s.queues) && MayOpen(s, cfg)
    ensures var slots := Taken(s.queues.slots, cfg.readQueue, cfg.readAt);
            b == s.queues.(slots := Taken(slots, cfg.writeQueue, cfg.writeAt))
    ensures QueuesFit(b) && SameTasks(s.queues, b)
    ensures forall p: nat | p < |b.slots| ::
              Handles(b, p) == Handles(s.queues, p) + One(cfg.readQueue && cfg.readAt == p)
                  + One(cfg.writeQueue && cfg.writeAt == p)
  {
    hide QueuesFit, Handles;
    var a := s.queues.(slots := Taken(s.queues.slots, cfg.readQueue, cfg.readAt));
    TakenFits(s.queues, a, cfg.readQueue, cfg.readAt);
    b := a.(slots := Taken(a.slots, cfg.writeQueue, cfg.writeAt));
    TakenFits(a, b, cfg.writeQueue, cfg.writeAt);
  }

  /** The handles one slot of the event slab holds have changed from `e` to `e'`. */
  lemma HoldsTurn(events: seq<E.State>, i: nat, e': E.State, q: nat)
    requires i < |events|
    ensures Sum(events[i := e'], HoldsOn(q)) == Sum(events, HoldsOn(q)) - HoldsOn(q)(events[i]) + HoldsOn(q)(e')
    ensures HoldsOn(q)(events[i]) <= Sum(events, HoldsOn(q))
  {
    SumUpdate(events, i, e', HoldsOn(q));
    SumMember(events, i, HoldsOn(q));
  }

  lemma OpenHolds(e: E.State, e': E.State, cfg: E.Config, q: nat)
    requires E.OpenStep(e, e', cfg)
    ensures HoldsOn(q)(e') == HoldsOn(q)(e) + One(cfg.readQueue && cfg.readAt == q)
            + One(cfg.writeQueue && cfg.writeAt == q)
  {
  }

  lemma OpenHandles(s: State, s': State, e: nat, cfg: E.Config)
    requires QueuesFit(s.queues) && HandlesSound(s.queues, s.events) && OpenStep(s, s', e, cfg)
    ensures QueuesFit(s'.queues) && SameTasks(s.queues, s'.queues) && HandlesSound(s'.queues, s'.events)
  {
    hide QueuesFit, Handles, Sum, HoldsOn, E.OpenStep;
    var b := BothTakenFit(s, cfg);
    forall q: nat
      ensures Sum(s'.events, HoldsOn(q))
           == Sum(s.events, HoldsOn(q)) + One(cfg.readQueue && cfg.readAt == q)
               + One(cfg.writeQueue && cfg.writeAt == q)
    {
      OpenHolds(s.events[e], s'.events[e], cfg, q);
      HoldsTurn(s.events, e, s'.events[e], q);
    }
  }

  lemma CloseFits(a: Q.State, b: Q.State, q: nat)
    requires QueuesFit(a) && Q.CloseStep(a, b, q)
    ensures QueuesFit(b) && SameTasks(a, b) && Handles(b, q) == Handles(a, q) - 1
    ensures forall p: nat | p < |a.slots| && p != q :: Handles(b, p) == Handles(a, p)
  {
    hide QI.Inv;
    QI.ReferenceKeeps(a, b, q);
    ReferenceTurns(a, b, q);
    TurnKeepsWork(a, b, q);
    CloseTakesOne(a, b, q);
  }

  /** What an agent step does to the handles of one queue that events hold. */
  lemma AgentHolds(s: State, s': State, e: nat, t: nat, q: nat)
    requires EventsSound(s.events) && AgentStep(s, s', e, t)
    ensures var a := s.events[e].agents[t];
            Sum(s'.events, HoldsOn(q)) == Sum(s.events, HoldsOn(q)) - One(ReleasesQueue(a) && ReleasedQueue(a) == q)
  {
    hide Sum, HoldsOn, E.AgentStep, EI.Inv;
    HoldsFollow(s.events[e], s'.events[e], t, q);
    HoldsTurn(s.events, e, s'.events[e], q);
  }

  /** A push on behalf of an event is a push like any other. */
  lemma PostFits(s: State, s': State, e: nat)
    requires QueuesFit(s.queues) && StartSound(s.hold, s.queues, s.crew) && HandlesSound(s.queues, s.events)
    requires Posts(s, s', e)
    ensures QueuesFit(s'.queues) && QueuesGoOn(s, s'.queues) && s'.queues.work == s.queues.work
  {
    var q := PostQueue(s'.events, Post(e, |s.events[e].agents|));
    var x: nat :| MayAct(s, x) && Q.PushStep(s.queues, s'.queues, x, q);
    hide QI.Inv, StartSound, HandlesSound, QueuesGoOn, Posts, Q.PushStep;
    assert Q.CallStep(s.queues, s'.queues, x, q);
    QI.CallKeeps(s.queues, s'.queues, x, q);
    CallTurns(s.queues, s'.queues, x, q);
    TurnKeepsWork(s.queues, s'.queues, q);
    CallIsCalm(s.queues, s'.queues, x, q);
    CalmGoesOn(s, s'.queues);
  }

  lemma AgentHandles(s: State, s': State, e: nat, t: nat)
    requires QueuesFit(s.queues) && EventsSound(s.events) && HandlesSound(s.queues, s.events) && AgentStep(s, s', e, t)
    requires StartSound(s.hold, s.queues, s.crew)
    ensures QueuesFit(s'.queues) && HandlesSound(s'.queues, s'.events) && StartSound(s.hold, s'.queues, s.crew)
    ensures s'.queues.work == s.queues.work
  {
    hide QueuesFit, Handles, Sum, HoldsOn, E.AgentStep, EI.Inv, Q.CloseStep, Posts, StartSound;
    var a := s.events[e].agents[t];
    forall q: nat
      ensures Sum(s'.events, HoldsOn(q)) == Sum(s.events, HoldsOn(q)) - One(ReleasesQueue(a) && ReleasedQueue(a) == q)
    {
      AgentHolds(s, s', e, t, q);
    }
    if |s'.events[e].agents| > |s.events[e].agents| {
      PostFits(s, s', e);
      SpawnersReleaseNothing(s.events[e], s'.events[e], t);
    } else if ReleasesQueue(a) {
      CloseFits(s.queues, s'.queues, ReleasedQueue(a));
      SameTasksStart(s.hold, s.queues, s'.queues, s.crew);
    }
  }

  lemma SpawnersReleaseNothing(v: E.State, v': E.State, t: nat)
    requires t < |v.agents| && E.AgentStep(v, v', t) && |v'.agents| > |v.agents|
    ensures !ReleasesQueue(v.agents[t])
  {
  }

  lemma ArrivalHandles(s: State, s': State, e: nat, agent: E.Agent)
    requires HandlesSound(s.queues, s.events) && ArriveStep(s, s', e, agent)
    ensures HandlesSound(s'.queues, s'.events)
  {
    forall q: nat ensures Sum(s'.events, HoldsOn(q)) == Sum(s.events, HoldsOn(q)) {
      SumAppend(s.events[e].agents, agent, OwesOn(q));
      HoldsTurn(s.events, e, s'.events[e], q);
    }
  }

  /** One event slot has turned: its invariant, and its share of the count. */
  lemma EventTurns(s: State, s': State, e: nat)
    requires EventsSound(s.events) && CountSound(s)
    requires e < |s.events| == |s'.events| && s'.events == s.events[e := s'.events[e]]
             && E.Next(s.events[e], s'.events[e])
    requires s'.work - s.work == s'.events[e].heldWork - s.events[e].heldWork
    requires s'.hold == s.hold && s'.queues.work == s.queues.work
    ensures EventsSound(s'.events) && CountSound(s')
  {
    hide EI.Inv, E.Next, Sum;
    ES.NextKeeps(s.events[e], s'.events[e]);
    EventWorkIsHeld(s.events[e]);
    EventWorkIsHeld(s'.events[e]);
    SumUpdate(s.events, e, s'.events[e], EventWork());
  }

  /** What the steps of an event have in common. */
  ghost predicate EventGoesOn(s: State, s': State) {
    && QueuesFit(s'.queues) && HandlesSound(s'.queues, s'.events) && StartSound(s.hold, s'.queues, s.crew)
    && EventsSound(s'.events) && CountSound(s')
    && s'.work >= s.work - 1 && (s.work == 0 ==> s'.work <= 0)
  }

  lemma OpenGoesOn(s: State, s': State, e: nat, cfg: E.Config)
    requires Inv(s) && OpenStep(s, s', e, cfg)
    requires s'.work - s.work == s'.events[e].heldWork - s.events[e].heldWork && s'.hold == s.hold
    ensures EventGoesOn(s, s')
  {
    OpenHandles(s, s', e, cfg);
    SameTasksStart(s.hold, s.queues, s'.queues, s.crew);
    EventTurns(s, s', e);
    hide QueuesFit, EventsSound, StartSound, HandlesSound, CountSound, SameTasks, L.Sound, MayCreate;
    if cfg.readQueue {
      LifeCounts(s, cfg.readAt);
    } else if cfg.writeQueue {
      LifeCounts(s, cfg.writeAt);
    } else if cfg.work {
      CreatorsHaveWork(s);
    }
  }

  lemma AgentGoesOn(s: State, s': State, e: nat, t: nat)
    requires Inv(s) && AgentStep(s, s', e, t)
    requires s'.work - s.work == s'.events[e].heldWork - s.events[e].heldWork && s'.hold == s.hold
    ensures EventGoesOn(s, s')
  {
    hide E.AgentStep, QueuesFit, EI.Inv, StartSound, HandlesSound, CountSound, L.Sound;
    AgentHandles(s, s', e, t);
    assert E.Next(s.events[e], s'.events[e]);
    EventTurns(s, s', e);
    if s.events[e].agents[t].GiveFree? || Finishes(s.events[e].agents[t]) {
      FinisherSteps(s.events[e], s'.events[e], t);
    } else {
      NoFinisherArises(s.events[e], s'.events[e], t);
    }
  }

  lemma ArrivalGoesOn(s: State, s': State, e: nat, agent: E.Agent)
    requires Inv(s) && ArriveStep(s, s', e, agent)
    requires s'.work - s.work == s'.events[e].heldWork - s.events[e].heldWork && s'.hold == s.hold
    ensures EventGoesOn(s, s')
  {
    hide QueuesFit, EI.Inv, StartSound, HandlesSound, CountSound, L.Sound;
    ArrivalHandles(s, s', e, agent);
    assert E.Next(s.events[e], s'.events[e]);
    EventTurns(s, s', e);
  }

  lemma EventStepKeeps(s: State, s': State, e: nat)
    requires Inv(s) && EventStep(s, s', e)
    ensures Inv(s')
  {
    hide QueuesFit, EventsSound, StartSound, HandlesSound, CountSound, SameTasks, L.Sound, OpenStep, AgentStep,
        ArriveStep;
    if cfg :| OpenStep(s, s', e, cfg) {
      OpenGoesOn(s, s', e, cfg);
    } else if t: nat :| AgentStep(s, s', e, t) {
      AgentGoesOn(s, s', e, t);
    } else {
      var agent :| ArriveStep(s, s', e, agent);
      ArrivalGoesOn(s, s', e, agent);
    }
    WorkIsPositive(s);
    TollKeeps(s, s');
  }

  // ---------------------------------------------------------------------------
  // The rest
  // ---------------------------------------------------------------------------

  lemma GrowKeeps(s: State, s': State, e: E.State)
    requires Inv(s) && GrowStep(s, s', e)
    ensures Inv(s')
  {
    hide QueuesFit, EI.Inv, StartSound, L.Sound;
    ES.InitKeeps(e);
    SumAppend(s.events, e, EventWork());
    forall q: nat ensures Sum(s'.events, HoldsOn(q)) == Sum(s.events, HoldsOn(q)) {
      SumAppend(s.events, e, HoldsOn(q));
    }
  }

  /** What was pushed while nothing ran is still there to be run. */
  lemma UnholdKeeps(s: State, s': State)
    requires Inv(s) && UnholdStep(s, s')
    ensures Inv(s')
  {
    hide QueuesFit, EventsSound, HandlesSound;
    var q: nat :| q < |s.queues.slots| && s.queues.slots[q].pushed != [];
    assert s.queues.slots[q].tasks != [];
    WorkIsPositive(s);
    TollKeeps(s, s');
  }

  lemma WorkerKeeps(s: State, s': State)
    requires Inv(s) && WorkerStep(s, s')
    ensures Inv(s')
  {
    hide QueuesFit, EventsSound, HandlesSound, L.Sound, L.CrewStep;
    L.CrewKeeps(s.crew, s'.crew);
  }

  lemma NextKeeps(s: State, s': State)
    requires Inv(s) && Next(s, s')
    ensures Inv(s')
  {
    hide Inv, QueueStep, EventStep, GrowStep, UnholdStep, WorkerStep;
    if QueueStep(s, s') {
      QueueStepKeeps(s, s');
    } else if e: nat :| EventStep(s, s', e) {
      EventStepKeeps(s, s', e);
    } else if e :| GrowStep(s, s', e) {
      GrowKeeps(s, s', e);
    } else if UnholdStep(s, s') {
      UnholdKeeps(s, s');
    } else {
      WorkerKeeps(s, s');
    }
  }

  lemma InitKeeps(s: State)
    requires Init(s)
    ensures Inv(s)
  {
    hide QI.Inv, L.Sound;
    QI.Reachable([s.queues], 0);
    L.InitSound(s.crew);
  }

  lemma {:induction false} Reachable(run: seq<State>, i: nat)
    requires Execution(run) && i < |run|
    ensures Inv(run[i])
  {
    hide Inv, Next, Init;
    if i > 0 {
      Reachable(run, i - 1);
      assert Linked(run, i);
      NextKeeps(run[i - 1], run[i]);
    } else {
      InitKeeps(run[0]);
    }
  }

  // ---------------------------------------------------------------------------
  // The queues of events
  // ---------------------------------------------------------------------------

  /** A queue is alive while an event holds a handle of it. */
  lemma HeldIsAlive(s: State, q: nat)
    requires Inv(s) && EventHandles(s, q) > 0
    ensures q < |s.queues.slots| && s.queues.slots[q].life == Q.Alive
  {
    hide EventsSound, StartSound, CrewSound, CountSound;
    assert QI.SlotSound(s.queues, q);
    LentIsReferenced(s.queues, q);
  }

  lemma TenantIsAlive(s: State, e: nat, side: E.Side)
    requires Inv(s) && e < |s.events| && s.events[e].phase != E.Vacant && s.events[e].cfg.HasQueue(side)
    ensures var q := QueueOf(s.events[e].cfg, side); q < |s.queues.slots| && s.queues.slots[q].life == Q.Alive
  {
    hide Inv;
    var q := QueueOf(s.events[e].cfg, side);
    SumMember(s.events, e, HoldsOn(q));
    HeldIsAlive(s, q);
  }

  /** An agent that serves a side or reports one works for a tenant, and one that serves from a queue has one. */
  lemma PosterHasTenant(v: E.State, t: nat)
    requires EI.Inv(v) && t < |v.agents|
    requires var a := v.agents[t]; a.PostReference? || a.PostPush? || Starts(a) || Calls(a)
    ensures v.phase != E.Vacant
    ensures !v.agents[t].ReportNext? && !v.agents[t].ReportCall? ==> v.cfg.HasQueue(v.agents[t].side)
  {
    assert EI.AgentSound(v, v.agents[t]);
    SumMember(v.agents, t, EI.References);
  }
}
