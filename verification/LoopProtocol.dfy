/**
 A loop as a whole (src/loop.c): its workers, its queues and its events, each
 following its own protocol, and the one count of work they all share.

 Creating a queue and opening an event that counts add to the count; it is
 taken from only at the very end of giving either back, when the slot may
 already have its next tenant. Whoever takes it to zero stops the workers. An
 event holds a handle of each of its queues, which it acquires when it is
 opened and releases after its slot was given back. Every agent an event spawns
 is a task pushed to one of these queues; its callbacks run in the body of that
 task, and the body lasts until the agent is through with them.

 What callers keep to: a queue is created inside ntt_loop_run or from a body of
 the loop; an event is given queues that are alive; nobody releases a handle
 that is not its own.
 */
module LoopProtocol {
  import opened Tally
  import Q = QueueProtocol
  import E = EventProtocol
  import L = LoopStop

  /**
   `hold`: the work ntt_loop_run holds until it has pushed the first task.
   Thread `t` of the queues is worker `t` of the crew.
   */
  datatype State = State(
    work: int, hold: bool, queues: Q.State, events: seq<E.State>, crew: L.Crew, places: map<Post, nat>)

  /** An agent of an event that was pushed to a queue; `places` says as which task of that queue. */
  datatype Post = Post(event: nat, agent: nat)

  // ---------------------------------------------------------------------------
  // The handles of the events
  // ---------------------------------------------------------------------------

  function TenantHolds(e: E.State, q: nat): nat {
    if e.phase == E.Vacant then 0
    else One(e.cfg.readQueue && e.cfg.readAt == q) + One(e.cfg.writeQueue && e.cfg.writeAt == q)
  }

  /** What a finishing agent has yet to release. */
  function OwesOn(q: nat): E.Agent -> nat {
    (a: E.Agent) =>
      if a.FreeRead? then One(a.cfg.readQueue && a.cfg.readAt == q) + One(a.cfg.writeQueue && a.cfg.writeAt == q)
      else if a.FreeWrite? then One(a.cfg.writeQueue && a.cfg.writeAt == q)
      else 0
  }

  /** Handles of queue `q` in the hands of one event slot. */
  function HoldsOn(q: nat): E.State -> nat {
    (e: E.State) => TenantHolds(e, q) + Sum(e.agents, OwesOn(q))
  }

  function EventHandles(s: State, q: nat): nat { Sum(s.events, HoldsOn(q)) }

  function LentOf(q: nat): Q.Thread -> nat {
    (x: Q.Thread) => One(!x.call.NoCall? && x.call.q == q && x.call.via == Q.Handle)
  }

  /** All handles of queue `q`, those a push is going through included. */
  function Handles(s: Q.State, q: nat): nat
    requires q < |s.slots|
  {
    s.slots[q].handles + Sum(s.threads, LentOf(q))
  }

  // ---------------------------------------------------------------------------
  // Agents as tasks of queues
  // ---------------------------------------------------------------------------

  function QueueOf(cfg: E.Config, side: E.Side): nat {
    if side == E.Readable then cfg.readAt else cfg.writeAt
  }

  /** Between two callbacks, or in one. */
  predicate Starts(a: E.Agent) { a.TaskNext? || a.ReportNext? }

  predicate Calls(a: E.Agent) { a.TaskCall? || a.ReportCall? }

  /** An agent that runs as a task of the queue of its side. */
  predicate Queued(v: E.State, t: nat) {
    t < |v.agents| && (Starts(v.agents[t]) || Calls(v.agents[t])) && v.cfg.HasQueue(v.agents[t].side)
  }

  predicate IsPost(events: seq<E.State>, p: Post) {
    p.event < |events| && Queued(events[p.event], p.agent)
  }

  function PostQueue(events: seq<E.State>, p: Post): nat
    requires IsPost(events, p)
  {
    QueueOf(events[p.event].cfg, events[p.event].agents[p.agent].side)
  }

  predicate RunsIn(x: Q.Thread, q: nat) { x.stage.Running? && x.stage.q == q }

  /** The body that runs in `q` is that of the task pushed at `place`. */
  predicate OnTop(s: Q.State, q: nat, place: nat) {
    && q < |s.slots| && |s.slots[q].began| == place + 1
    && exists x :: 0 <= x < |s.threads| && RunsIn(s.threads[x], q)
  }

  /** No agent is left in the body that runs in `q`. */
  ghost predicate BodyIsOver(s: State, q: nat) {
    forall p | IsPost(s.events, p) && PostQueue(s.events, p) == q && p in s.places :: !OnTop(s.queues, q, s.places[p])
  }

  // ---------------------------------------------------------------------------
  // Steps of the queues
  // ---------------------------------------------------------------------------

  /** A worker works on queues only while it serves. */
  predicate MayAct(s: State, t: nat) {
    && t < |s.queues.threads|
    && (s.queues.threads[t].worker ==> t < |s.crew.workers| && s.crew.workers[t].stage == L.Serving)
  }

  /** A body of the loop runs, or the task of one is being destroyed. */
  predicate InBody(x: Q.Thread) { x.stage.Running? || x.stage.Dropping? }

  /** ntt_queue_create: inside ntt_loop_run, or from a body. */
  predicate MayCreate(s: State) {
    s.hold || exists t :: 0 <= t < |s.queues.threads| && InBody(s.queues.threads[t])
  }

  /** References come and go; a handle that is closed is not one of an event. */
  predicate HandleStep(s: State, q': Q.State, q: nat) {
    || Q.CopyStep(s.queues, q', q) || Q.UpgradeStep(s.queues, q', q)
    || Q.DowngradeStep(s.queues, q', q) || Q.GiveStep(s.queues, q', q)
    || (Q.CloseStep(s.queues, q', q) && Handles(s.queues, q) > EventHandles(s, q))
  }

  /** A body ends when the agent in it, if there is one, is through. */
  ghost predicate RunStep(s: State, q': Q.State, t: nat, q: nat) {
    && t < |s.queues.threads| && q < |s.queues.slots| && Q.RunStep(s.queues, q', t, q)
    && (Q.NextTaskStep(s.queues, q', t, q) ==> BodyIsOver(s, q))
  }

  ghost predicate ThreadStep(s: State, q': Q.State, t: nat) {
    && MayAct(s, t)
    && ( || Q.IdleStep(s.queues, q', t)
         || (exists q: nat :: q < |s.queues.slots| && Q.CallStep(s.queues, q', t, q))
         || (exists q: nat :: RunStep(s, q', t, q))
         || (exists q: nat :: q < |s.queues.slots| && Q.ScriptStep(s.queues, q', t, q)))
  }

  /** The queues turn into `q'`. */
  ghost predicate QueuesAct(s: State, q': Q.State) {
    || (exists q: nat :: MayCreate(s) && Q.CreateStep(s.queues, q', q))
    || (exists q: nat :: HandleStep(s, q', q))
    || (exists t: nat :: ThreadStep(s, q', t))
    || Q.LeaveStep(s.queues, q') || Q.GrowStep(s.queues, q') || Q.SpawnStep(s.queues, q')
  }

  // ---------------------------------------------------------------------------
  // Steps of the events
  // ---------------------------------------------------------------------------

  /** ntt_queue_acquire by an event that is opened. */
  function Taken(slots: seq<Q.Slot>, has: bool, q: nat): seq<Q.Slot>
    requires has ==> q < |slots|
  {
    if has then slots[q := Q.Acquired(slots[q]).(handles := slots[q].handles + 1)] else slots
  }

  predicate Alive(s: State, q: nat) {
    q < |s.queues.slots| && s.queues.slots[q].refs > 0
  }

  /** An event that counts as work is opened with a queue, or where a queue may be created. */
  predicate MayOpen(s: State, cfg: E.Config) {
    && (cfg.readQueue ==> Alive(s, cfg.readAt)) && (cfg.writeQueue ==> Alive(s, cfg.writeAt))
    && (cfg.work ==> cfg.readQueue || cfg.writeQueue || MayCreate(s))
  }

  /** ntt_event_open. */
  predicate OpenStep(s: State, s': State, e: nat, cfg: E.Config) {
    && e < |s.events| == |s'.events| && s'.events == s.events[e := s'.events[e]]
    && E.OpenStep(s.events[e], s'.events[e], cfg) && MayOpen(s, cfg)
    && var slots := Taken(s.queues.slots, cfg.readQueue, cfg.readAt);
    && s'.queues == s.queues.(slots := Taken(slots, cfg.writeQueue, cfg.writeAt)) && s'.places == s.places
  }

  /** ntt_event_finish releases the queues one by one. */
  predicate ReleasesQueue(a: E.Agent) {
    (a.FreeRead? && a.cfg.readQueue) || (a.FreeWrite? && a.cfg.writeQueue)
  }

  function ReleasedQueue(a: E.Agent): nat
    requires ReleasesQueue(a)
  {
    if a.FreeRead? then a.cfg.readAt else a.cfg.writeAt
  }

  /** The agent spawned last is pushed to its queue, by some thread. */
  ghost predicate Posts(s: State, s': State, e: nat) {
    && e < |s.events| && e < |s'.events| && |s.events[e].agents| < |s'.events[e].agents|
    && var p := Post(e, |s.events[e].agents|);
    && IsPost(s'.events, p)
    && var q := PostQueue(s'.events, p);
    && q < |s.queues.slots| && s'.places == s.places[p := |s.queues.slots[q].pushed|]
    && exists x: nat :: MayAct(s, x) && Q.PushStep(s.queues, s'.queues, x, q)
  }

  ghost predicate AgentStep(s: State, s': State, e: nat, t: nat) {
    && e < |s.events| == |s'.events| && s'.events == s.events[e := s'.events[e]]
    && t < |s.events[e].agents| && E.AgentStep(s.events[e], s'.events[e], t)
    && var a := s.events[e].agents[t];
    && (IsPost(s.events, Post(e, t)) && Post(e, t) in s.places && Starts(a) ==>
          OnTop(s.queues, PostQueue(s.events, Post(e, t)), s.places[Post(e, t)]))
    && if |s'.events[e].agents| > |s.events[e].agents| then Posts(s, s', e)
       else
         && s'.places == s.places
         && if ReleasesQueue(a) then Q.CloseStep(s.queues, s'.queues, ReleasedQueue(a)) else s'.queues == s.queues
  }

  predicate ArriveStep(s: State, s': State, e: nat, agent: E.Agent) {
    && e < |s.events| == |s'.events| && s'.events == s.events[e := s'.events[e]]
    && E.ArriveStep(s.events[e], s'.events[e], agent) && s'.queues == s.queues && s'.places == s.places
  }

  /** One slot of the event slab, and the count it shares. */
  ghost predicate EventActs(s: State, s': State, e: nat) {
    && (|| (exists cfg :: OpenStep(s, s', e, cfg))
        || (exists t: nat :: AgentStep(s, s', e, t))
        || (exists agent :: ArriveStep(s, s', e, agent)))
    && s'.work - s.work == s'.events[e].heldWork - s.events[e].heldWork
  }

  // ---------------------------------------------------------------------------
  // Runs
  // ---------------------------------------------------------------------------

  /** ntt_loop_work_leave: whoever saw the last work go stops the workers. */
  predicate Tolled(s: State, s': State) {
    if s.work == 1 && s'.work == 0 then L.ZeroStep(s.crew, s'.crew) else s'.crew == s.crew
  }

  /** What a step of the queues does to their share of the work it does to the count. */
  ghost predicate QueueStep(s: State, s': State) {
    && QueuesAct(s, s'.queues) && s'.work - s.work == s'.queues.work - s.queues.work
    && s'.hold == s.hold && s'.events == s.events && s'.places == s.places && Tolled(s, s')
  }

  ghost predicate EventStep(s: State, s': State, e: nat) {
    e < |s.events| && EventActs(s, s', e) && s'.hold == s.hold && Tolled(s, s')
  }

  /** The event slab grows. */
  predicate GrowStep(s: State, s': State, e: E.State) {
    && E.Init(e) && s'.events == s.events + [e]
    && s'.work == s.work && s'.hold == s.hold && s'.queues == s.queues && s'.crew == s.crew && s'.places == s.places
  }

  /** ntt_loop_run has pushed the first task and gives up the work it held. */
  predicate UnholdStep(s: State, s': State) {
    && s.hold && (exists q :: 0 <= q < |s.queues.slots| && s.queues.slots[q].pushed != [])
    && !s'.hold && s'.work == s.work - 1
    && s'.events == s.events && s'.queues == s.queues && s'.places == s.places && Tolled(s, s')
  }

  /** No worker is started before that. */
  ghost predicate WorkerStep(s: State, s': State) {
    && !s.hold && L.CrewStep(s.crew, s'.crew)
    && s'.work == s.work && s'.hold == s.hold
    && s'.events == s.events && s'.queues == s.queues && s'.places == s.places
  }

  ghost predicate Next(s: State, s': State) {
    || QueueStep(s, s')
    || (exists e: nat :: EventStep(s, s', e))
    || (exists e :: GrowStep(s, s', e))
    || UnholdStep(s, s')
    || WorkerStep(s, s')
  }

  predicate Init(s: State) {
    && s.work == 1 && s.hold && s.events == [] && s.places == map[]
    && Q.Init(s.queues) && L.Init(s.crew) && |s.queues.threads| == |s.crew.workers|
  }

  ghost predicate Linked(run: seq<State>, i: nat)
    requires 0 < i < |run|
  {
    Next(run[i - 1], run[i])
  }

  ghost predicate Execution(run: seq<State>) {
    |run| > 0 && Init(run[0]) && forall i | 0 < i < |run| :: Linked(run, i)
  }
}
